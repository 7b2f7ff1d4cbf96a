/** The receiving half of one connection: the DATA case of `RecvThreadProc`
    (TcpSocketDll/CTcpSocket.cpp:155-228), which turns packets arriving in any order,
    any number of times, into one byte stream. */
module Receiver {
  import opened Bytes
  import opened Segments

  /** `CTcpSocket::Conn`. */
  datatype Conn = Conn(nextSend: int, nextRecv: int, parked: seq<Segment>, stream: seq<byte>, status: int)

  // ---------------------------------------------------------------- what the code computes

  /** Insertion before the first packet with a greater number. */
  function Park(list: seq<Segment>, p: Segment): seq<Segment> {
    if list == [] || list[0].num > p.num then [p] + list else [list[0]] + Park(list[1..], p)
  }

  /** `m_nStatus` after data was written to the stream. */
  function Raise(status: int): int {
    if status == 0 then 1 else status
  }

  /** The packet is the next one: its bytes go to the stream. */
  function Accept(c: Conn, p: Segment): Conn {
    c.(nextRecv := c.nextRecv + 1, stream := c.stream + p.data, status := Raise(c.status))
  }

  /** Parked packets are taken from the head of the list for as long as they continue the stream. */
  function Drain(c: Conn): Conn
    decreases |c.parked|
  {
    if c.parked != [] && c.parked[0].num == c.nextRecv then
      Drain(Accept(c, c.parked[0]).(parked := c.parked[1..]))
    else
      c
  }

  /** The effect of one DATA packet on the connection. */
  function OnData(c: Conn, p: Segment): Conn {
    if p.num == c.nextRecv then Drain(Accept(c, p))
    else if p.num > c.nextRecv then c.(parked := Park(c.parked, p))
    else c
  }

  // ---------------------------------------------------------------- what it means

  ghost predicate Ascending(lo: int, list: seq<Segment>)
    decreases list
  {
    list == [] || (lo <= list[0].num && Ascending(list[0].num, list[1..]))
  }

  ghost predicate Increasing(lo: int, list: seq<Segment>)
    decreases list
  {
    list == [] || (lo < list[0].num && Increasing(list[0].num, list[1..]))
  }

  predicate Holds(list: seq<Segment>, num: int) {
    list != [] && (list[0].num == num || Holds(list[1..], num))
  }

  /** `p` carries its number's payload of the log (packet 1 is log[0]). */
  ghost predicate Authentic(p: Segment, log: seq<seq<byte>>) {
    1 <= p.num <= |log| && p.data == log[p.num - 1]
  }

  ghost predicate AllAuthentic(list: seq<Segment>, log: seq<seq<byte>>) {
    forall i :: 0 <= i < |list| ==> Authentic(list[i], log)
  }

  /** What every reachable receiver satisfies, whatever the network did. */
  ghost predicate Consistent(c: Conn, log: seq<seq<byte>>) {
    1 <= c.nextRecv <= |log| + 1 && Ascending(1, c.parked) && AllAuthentic(c.parked, log)
  }

  /** The bytes taken from the stream and the ones still in it are the payloads below the
      expected number. */
  ghost predicate Delivered(c: Conn, log: seq<seq<byte>>, taken: seq<byte>) {
    1 <= c.nextRecv <= |log| + 1 && taken + c.stream == Joined(log, c.nextRecv - 1)
  }

  /** The packets of which the receiver has taken note. */
  predicate Received(c: Conn, num: int) {
    num < c.nextRecv || Holds(c.parked, num)
  }

  predicate ReceivedUpTo(c: Conn, last: int) {
    forall n :: 1 <= n <= last ==> Received(c, n)
  }

  /** No packet is parked twice and none is parked that was already delivered. */
  ghost predicate Clean(c: Conn) {
    Increasing(c.nextRecv, c.parked)
  }

  // ---------------------------------------------------------------- the parking list

  lemma {:induction false} ParkAscending(lo: int, list: seq<Segment>, p: Segment)
    requires Ascending(lo, list) && lo <= p.num
    ensures Ascending(lo, Park(list, p))
    decreases list
  {
    var q := Park(list, p);
    if list != [] && list[0].num <= p.num {
      ParkAscending(list[0].num, list[1..], p);
      assert q[1..] == Park(list[1..], p);
    } else {
      assert q[1..] == list;
    }
  }

  lemma {:induction false} ParkAuthentic(list: seq<Segment>, p: Segment, log: seq<seq<byte>>)
    requires AllAuthentic(list, log) && Authentic(p, log)
    ensures AllAuthentic(Park(list, p), log)
  {
    if list != [] && list[0].num <= p.num {
      ParkAuthentic(list[1..], p, log);
    }
  }

  lemma {:induction false} ParkHolds(list: seq<Segment>, p: Segment, n: int)
    ensures Holds(Park(list, p), n) <==> n == p.num || Holds(list, n)
  {
    var q := Park(list, p);
    if list != [] && list[0].num <= p.num {
      ParkHolds(list[1..], p, n);
      assert q[1..] == Park(list[1..], p);
    } else {
      assert q[1..] == list;
    }
  }

  /** A strictly increasing list holds only numbers above its bound. */
  lemma {:induction false} IncreasingAbove(lo: int, list: seq<Segment>, n: int)
    requires Increasing(lo, list) && n <= lo
    ensures !Holds(list, n)
    ensures Increasing(n, list)
    decreases list
  {
    if list != [] {
      IncreasingAbove(list[0].num, list[1..], n);
    }
  }

  /** Parking keeps the list strictly increasing exactly when it was and the number is new. */
  lemma {:induction false} ParkIncreasing(lo: int, list: seq<Segment>, p: Segment)
    requires lo < p.num
    ensures Increasing(lo, Park(list, p)) <==> Increasing(lo, list) && !Holds(list, p.num)
    decreases list
  {
    var q := Park(list, p);
    if list == [] || list[0].num > p.num {
      assert q[1..] == list;
      if Increasing(p.num, list) {
        IncreasingAbove(p.num, list, p.num);
        IncreasingAbove(p.num, list, lo);
      }
    } else {
      var tail := list[1..];
      assert q[1..] == Park(tail, p);
      if list[0].num < p.num {
        ParkIncreasing(list[0].num, tail, p);
      } else {
        ParkHolds(tail, p, p.num);
        if Increasing(p.num, Park(tail, p)) {
          IncreasingAbove(p.num, Park(tail, p), p.num);
        }
      }
    }
  }

  // ---------------------------------------------------------------- one packet

  lemma AcceptStream(c: Conn, p: Segment, log: seq<seq<byte>>, taken: seq<byte>)
    requires Delivered(c, log, taken) && Authentic(p, log) && p.num == c.nextRecv
    ensures Delivered(Accept(c, p), log, taken)
  {
    Associative(taken, c.stream, p.data);
  }

  lemma {:induction false} DrainStream(c: Conn, log: seq<seq<byte>>, taken: seq<byte>)
    requires Consistent(c, log) && Delivered(c, log, taken)
    ensures var d := Drain(c);
            Consistent(d, log) && Delivered(d, log, taken) && d.nextSend == c.nextSend && c.nextRecv <= d.nextRecv
    decreases |c.parked|
  {
    if c.parked != [] && c.parked[0].num == c.nextRecv {
      assert Authentic(c.parked[0], log);
      AcceptStream(c, c.parked[0], log, taken);
      AscendingWeaken(c.nextRecv, 1, c.parked[1..]);
      DrainStream(Accept(c, c.parked[0]).(parked := c.parked[1..]), log, taken);
    }
  }

  lemma AscendingWeaken(lo: int, lo': int, list: seq<Segment>)
    requires Ascending(lo, list) && lo' <= lo
    ensures Ascending(lo', list)
  {
  }

  /** Every packet keeps the receiver consistent, and what it adds to the stream is exactly
      the payloads between the old and the new expected number. */
  lemma OnDataStream(c: Conn, p: Segment, log: seq<seq<byte>>, taken: seq<byte>)
    requires Consistent(c, log) && Delivered(c, log, taken) && Authentic(p, log)
    ensures var d := OnData(c, p);
            Consistent(d, log) && Delivered(d, log, taken) && d.nextSend == c.nextSend && c.nextRecv <= d.nextRecv
  {
    if p.num == c.nextRecv {
      AcceptStream(c, p, log, taken);
      DrainStream(Accept(c, p), log, taken);
    } else if p.num > c.nextRecv {
      ParkAscending(1, c.parked, p);
      ParkAuthentic(c.parked, p, log);
    }
  }

  lemma {:induction false} DrainStatus(c: Conn)
    ensures Drain(c).nextRecv >= c.nextRecv
    ensures Drain(c).status == if c.status == 0 && Drain(c).nextRecv > c.nextRecv then 1 else c.status
    decreases |c.parked|
  {
    if c.parked != [] && c.parked[0].num == c.nextRecv {
      DrainStatus(Accept(c, c.parked[0]).(parked := c.parked[1..]));
    }
  }

  /** Data that is delivered makes an idle connection (0) one to be served (1); a connection to be
      served or being served (2) stays so, and a packet that delivers nothing changes nothing. */
  lemma OnDataStatus(c: Conn, p: Segment)
    ensures var d := OnData(c, p);
            d.status == if c.status == 0 && d.nextRecv > c.nextRecv then 1 else c.status
  {
    if p.num == c.nextRecv {
      DrainStatus(Accept(c, p));
    }
  }

  lemma {:induction false} DrainReceived(c: Conn, n: int)
    ensures Received(Drain(c), n) <==> Received(c, n)
    decreases |c.parked|
  {
    if c.parked != [] && c.parked[0].num == c.nextRecv {
      DrainReceived(Accept(c, c.parked[0]).(parked := c.parked[1..]), n);
    }
  }

  /** The packet is noted, nothing noted is forgotten, and nothing else is noted. */
  lemma OnDataReceived(c: Conn, p: Segment, n: int)
    ensures Received(OnData(c, p), n) <==> Received(c, n) || n == p.num
  {
    if p.num == c.nextRecv {
      DrainReceived(Accept(c, p), n);
    } else if p.num > c.nextRecv {
      ParkHolds(c.parked, p, n);
    }
  }

  lemma {:induction false} DrainClean(c: Conn)
    ensures Clean(Drain(c)) <==> Increasing(c.nextRecv - 1, c.parked)
    decreases |c.parked|
  {
    if c.parked != [] && c.parked[0].num == c.nextRecv {
      DrainClean(Accept(c, c.parked[0]).(parked := c.parked[1..]));
    } else if Increasing(c.nextRecv, c.parked) {
      IncreasingAbove(c.nextRecv, c.parked, c.nextRecv - 1);
    }
  }

  /** The branch in which the receiver goes wrong: parking a packet already parked. */
  predicate ParksAgain(c: Conn, p: Segment) {
    p.num > c.nextRecv && Holds(c.parked, p.num)
  }

  /** A clean receiver stays clean exactly when it does not park a packet a second time,
      and a receiver that is not clean never becomes clean again. */
  lemma OnDataCleanIff(c: Conn, p: Segment)
    ensures Clean(OnData(c, p)) <==> Clean(c) && !ParksAgain(c, p)
  {
    if p.num == c.nextRecv {
      DrainClean(Accept(c, p));
    } else if p.num > c.nextRecv {
      ParkIncreasing(c.nextRecv, c.parked, p);
    }
  }

  /** Once every packet of the log has been noted, a receiver has delivered all of them and
      parks nothing exactly when it is clean. */
  lemma AllReceived(c: Conn, log: seq<seq<byte>>)
    requires Consistent(c, log)
    requires ReceivedUpTo(c, |log|)
    ensures Clean(c) <==> c.parked == []
    ensures Clean(c) ==> c.nextRecv == |log| + 1
  {
    if Clean(c) {
      IncreasingAbove(c.nextRecv, c.parked, c.nextRecv);
      assert 1 <= c.nextRecv <= |log| ==> Received(c, c.nextRecv);
      assert forall i :: 0 <= i < |c.parked| ==> Authentic(c.parked[i], log);
    }
  }

  // ---------------------------------------------------------------- any arrival order

  /** The receiver after the packets `ps` arrived in this order. */
  function Arrive(c: Conn, ps: seq<Segment>): Conn {
    if ps == [] then c else OnData(Arrive(c, ps[..|ps| - 1]), ps[|ps| - 1])
  }

  ghost predicate Among(ps: seq<Segment>, n: int) {
    exists p :: p in ps && p.num == n
  }

  /** No arrival finds its own number on the parking list. */
  predicate NeverParksAgain(c: Conn, ps: seq<Segment>) {
    ps == [] ||
    (NeverParksAgain(c, ps[..|ps| - 1]) && !ParksAgain(Arrive(c, ps[..|ps| - 1]), ps[|ps| - 1]))
  }

  lemma {:induction false} ArriveInvariant(c: Conn, ps: seq<Segment>, log: seq<seq<byte>>)
    requires Consistent(c, log) && Delivered(c, log, []) && AllAuthentic(ps, log)
    ensures Consistent(Arrive(c, ps), log) && Delivered(Arrive(c, ps), log, [])
    ensures Clean(Arrive(c, ps)) <==> Clean(c) && NeverParksAgain(c, ps)
  {
    if ps != [] {
      var k := |ps| - 1;
      ArriveInvariant(c, ps[..k], log);
      OnDataStream(Arrive(c, ps[..k]), ps[k], log, []);
      OnDataCleanIff(Arrive(c, ps[..k]), ps[k]);
    }
  }

  lemma {:induction false} ArriveReceived(c: Conn, ps: seq<Segment>, n: int)
    ensures Received(Arrive(c, ps), n) <==> Received(c, n) || Among(ps, n)
  {
    if ps != [] {
      var k := |ps| - 1;
      ArriveReceived(c, ps[..k], n);
      OnDataReceived(Arrive(c, ps[..k]), ps[k], n);
      assert ps == ps[..k] + [ps[k]];
    }
  }

  /** What the parking list is for, and when it works. Let the packets of a log arrive in
      any order, each of them at least once. The bytes delivered are always a prefix of the
      log's; all of them come out and nothing stays parked if and only if no packet was
      ever parked while it was already parked. */
  lemma ArrivalsDeliverIff(c: Conn, ps: seq<Segment>, log: seq<seq<byte>>)
    requires Consistent(c, log) && Clean(c) && Delivered(c, log, [])
    requires AllAuthentic(ps, log)
    requires forall n :: 1 <= n <= |log| ==> Received(c, n) || Among(ps, n)
    ensures var d := Arrive(c, ps);
            && Delivered(d, log, [])
            && (d.parked == [] && d.stream == Flatten(log) <==> NeverParksAgain(c, ps))
  {
    ArriveInvariant(c, ps, log);
    ArriveCovers(c, ps, |log|);
    DeliveredAllIff(Arrive(c, ps), log, []);
    assert [] + Arrive(c, ps).stream == Arrive(c, ps).stream;
  }

  lemma ArriveCovers(c: Conn, ps: seq<Segment>, last: int)
    requires forall n :: 1 <= n <= last ==> Received(c, n) || Among(ps, n)
    ensures ReceivedUpTo(Arrive(c, ps), last)
  {
    forall n | 1 <= n <= last ensures Received(Arrive(c, ps), n) {
      ArriveReceived(c, ps, n);
    }
  }

  lemma DeliveredAllIff(d: Conn, log: seq<seq<byte>>, taken: seq<byte>)
    requires Consistent(d, log) && Delivered(d, log, taken) && ReceivedUpTo(d, |log|)
    ensures d.parked == [] && taken + d.stream == Flatten(log) <==> Clean(d)
  {
    AllReceived(d, log);
  }

  /** Packets 2, 2, 3, 1 of a three-packet log arrive in this order. */
  lemma ParkedTwiceState()
    ensures var ps := [Segment(2, [22]), Segment(2, [22]), Segment(3, [33]), Segment(1, [11])];
            var d := Arrive(Conn(1, 1, [], [], 0), ps);
            d.nextRecv == 3 && d.stream == [11, 22] && d.parked == [Segment(2, [22]), Segment(3, [33])]
  {
    var ps := [Segment(2, [22]), Segment(2, [22]), Segment(3, [33]), Segment(1, [11])];
    var c := Conn(1, 1, [], [], 0);
    assert ps[..3][..2][..1][..0] == [];
    assert ps[..3][..2][..1] == [ps[0]] && ps[..3][..2] == ps[..2];
    var c1 := c.(parked := [ps[0]]);
    assert Arrive(c, [ps[0]]) == c1;
    assert Park([ps[0]], ps[1]) == [ps[0]] + Park([], ps[1]);
    var c2 := c.(parked := [ps[0], ps[1]]);
    assert Arrive(c, ps[..2]) == c2;
    assert Park([ps[1]], ps[2]) == [ps[1], ps[2]];
    assert c2.parked[1..] == [ps[1]];
    var c3 := c.(parked := [ps[0], ps[1], ps[2]]);
    assert Arrive(c, ps[..3]) == c3;
    var e := Accept(c3, ps[3]);
    var f := Accept(e, ps[0]).(parked := [ps[1], ps[2]]);
    assert e.parked[1..] == f.parked;
    assert Drain(e) == Drain(f) == f;
  }

  /** The failing family is not empty: packets 2, 2, 3, 1 of a three-packet log leave packet 3
      undelivered although every packet has arrived, and no further copies of packets of the
      log ever empty the list. */
  lemma ParkedTwiceStalls(more: seq<Segment>)
    requires AllAuthentic(more, [[11], [22], [33]])
    ensures var ps := [Segment(2, [22]), Segment(2, [22]), Segment(3, [33]), Segment(1, [11])];
            var d := Arrive(Conn(1, 1, [], [], 0), ps);
            d.nextRecv == 3 && d.stream == [11, 22] && Arrive(d, more).parked != []
  {
    var ps := [Segment(2, [22]), Segment(2, [22]), Segment(3, [33]), Segment(1, [11])];
    var log: seq<seq<byte>> := [[11], [22], [33]];
    var c := Conn(1, 1, [], [], 0);
    ParkedTwiceState();
    ArriveInvariant(c, ps, log);
    ArriveInvariant(Arrive(c, ps), more, log);
  }
}
