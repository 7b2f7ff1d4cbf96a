/** When order fails: a first-handshake packet that reaches a connection in use sets both of its
    counters back (TcpSocketDll/CTcpSocket.cpp:126-140). Packets of the client already delivered
    are then taken for new ones, and new packets of the server get numbers already used. */
module Replay {
  import opened Bytes
  import opened Segments
  import opened Receiver
  import opened Network
  import opened Handshake
  import opened Delivery
  import opened Completion

  /** Packet `n` of a log from x to y. */
  function Original(x: Addr, y: Addr, log: seq<seq<byte>>, n: int): Datagram
    requires 1 <= n <= |log|
  {
    Datagram(x, y, Data(Segment(n, log[n - 1])))
  }

  // ---------------------------------------------------------------- what received packets leave behind

  /** Every packet y has noted was transmitted. */
  ghost predicate Traced(w: World, x: Addr, y: Addr) {
    forall n :: 1 <= n <= |w.log(x, y)| && Received(w.conn(y, x), n) ==> Original(x, y, w.log(x, y), n) in w.net
  }

  lemma {:induction false} HoldsAuthentic(list: seq<Segment>, log: seq<seq<byte>>, n: int)
    requires AllAuthentic(list, log) && Holds(list, n)
    ensures 1 <= n <= |log|
  {
    if list[0].num != n {
      HoldsAuthentic(list[1..], log, n);
    } else {
      assert Authentic(list[0], log);
    }
  }

  lemma ReceivedBound(w: World, x: Addr, y: Addr, n: int)
    requires Pair(w, x, y) && Received(w.conn(y, x), n)
    ensures n <= |w.log(x, y)|
  {
    var c := w.conn(y, x);
    if n >= c.nextRecv {
      HoldsAuthentic(c.parked, w.log(x, y), n);
    }
  }

  /** Only the arrival of a packet makes y note it. */
  lemma StepNotes(w: World, e: Event, x: Addr, y: Addr, n: int)
    requires Safe(w, x, y) && Enabled(w, e) && !Disturbs(w, e, x, y)
    requires 1 <= n && Received(Step(w, e).conn(y, x), n)
    ensures Received(w.conn(y, x), n) ||
            (e.Deliver? && e.d.src == x && e.d.dst == y && e.d.packet.Data? && e.d.packet.seg.num == n)
  {
    if e.Deliver? {
      assert Legit(w, e.d.src, e.d.dst, e.d.packet);
      if w.role(e.d.dst).Connecting? {
        ReplyExpected(w, e.d);
      } else if e.d.packet.Data? {
        OnDataReceived(w.conn(e.d.dst, e.d.src), e.d.packet.seg, n);
      }
    }
  }

  lemma StepTraced(w: World, e: Event, x: Addr, y: Addr)
    requires Safe(w, x, y) && Traced(w, x, y) && Enabled(w, e) && !Disturbs(w, e, x, y)
    ensures Traced(Step(w, e), x, y)
  {
    var v := Step(w, e);
    assert w.log(x, y) <= v.log(x, y);
    forall n | 1 <= n <= |v.log(x, y)| && Received(v.conn(y, x), n) ensures Original(x, y, v.log(x, y), n) in v.net {
      StepNotes(w, e, x, y, n);
      if Received(w.conn(y, x), n) {
        ReceivedBound(w, x, y, n);
        assert Original(x, y, w.log(x, y), n) in w.net;
      } else {
        assert e.d == Original(x, y, w.log(x, y), n);
      }
    }
  }

  lemma {:induction false} RunTraced(w: World, es: seq<Event>, x: Addr, y: Addr)
    requires Safe(w, x, y) && Traced(w, x, y) && Run(w, es) && Orderly(w, es, x, y)
    ensures Traced(Exec(w, es), x, y)
    decreases |es|
  {
    if es != [] {
      StepTraced(w, es[0], x, y);
      StepSafe(w, es[0], x, y);
      RunTraced(Step(w, es[0]), es[1..], x, y);
    }
  }

  // ---------------------------------------------------------------- the whole log again

  /** The packets of a log are being delivered once more to a receiver that had already put out
      `base`. Each of them is on the network or pending. */
  ghost predicate Again(w: World, x: Addr, y: Addr, log: seq<seq<byte>>, base: seq<byte>) {
    var c := w.conn(y, x);
    && w.role(y) == Server
    && AllAuthentic(c.parked, log)
    && Restarted(c, log, base, w.taken(y, x))
    && w.written(x, y) == Flatten(log)
    && (forall n :: 1 <= n <= |log| ==> Original(x, y, log, n) in w.net || Waits(w, x, y, log, n))
  }

  /** Packet `n` is pending at x. */
  ghost predicate Waits(w: World, x: Addr, y: Addr, log: seq<seq<byte>>, n: int)
    requires 1 <= n <= |log|
  {
    Node(y, Original(x, y, log, n).packet) in w.pending(x)
  }

  ghost predicate Restarted(c: Conn, log: seq<seq<byte>>, base: seq<byte>, taken: seq<byte>) {
    1 <= c.nextRecv <= |log| + 1 && taken + c.stream == base + Joined(log, c.nextRecv - 1)
  }

  lemma AcceptAgain(c: Conn, p: Segment, log: seq<seq<byte>>, base: seq<byte>, taken: seq<byte>)
    requires Restarted(c, log, base, taken) && Authentic(p, log) && p.num == c.nextRecv
    ensures Restarted(Accept(c, p), log, base, taken)
  {
    Associative(taken, c.stream, p.data);
    Associative(base, Joined(log, c.nextRecv - 1), p.data);
  }

  lemma {:induction false} DrainAgain(c: Conn, log: seq<seq<byte>>, base: seq<byte>, taken: seq<byte>)
    requires Restarted(c, log, base, taken) && AllAuthentic(c.parked, log)
    ensures Restarted(Drain(c), log, base, taken) && AllAuthentic(Drain(c).parked, log)
    ensures Drain(c).nextRecv >= c.nextRecv
    decreases |c.parked|
  {
    if c.parked != [] && c.parked[0].num == c.nextRecv {
      assert Authentic(c.parked[0], log);
      AcceptAgain(c, c.parked[0], log, base, taken);
      DrainAgain(Accept(c, c.parked[0]).(parked := c.parked[1..]), log, base, taken);
    }
  }

  /** One packet further. */
  lemma DeliverAgain(w: World, x: Addr, y: Addr, log: seq<seq<byte>>, base: seq<byte>)
    requires Again(w, x, y, log, base) && w.conn(y, x).nextRecv <= |log|
    requires Original(x, y, log, w.conn(y, x).nextRecv) in w.net
    ensures var v := DoDeliver(w, Original(x, y, log, w.conn(y, x).nextRecv));
            Again(v, x, y, log, base) && v.conn(y, x).nextRecv > w.conn(y, x).nextRecv
  {
    var c := w.conn(y, x);
    var d := Original(x, y, log, c.nextRecv);
    var v := DoDeliver(w, d);
    AcceptAgain(c, d.packet.seg, log, base, w.taken(y, x));
    DrainAgain(Accept(c, d.packet.seg), log, base, w.taken(y, x));
    forall n | 1 <= n <= |log| ensures Original(x, y, log, n) in v.net || Waits(v, x, y, log, n) {
      assert Original(x, y, log, n) in w.net || Waits(w, x, y, log, n);
    }
  }

  lemma TransmitAgain(w: World, x: Addr, y: Addr, log: seq<seq<byte>>, base: seq<byte>, n: int) returns (e: Event)
    requires Again(w, x, y, log, base) && 1 <= n <= |log| && Original(x, y, log, n) !in w.net
    ensures e.Transmit? && Enabled(w, e) && Again(Step(w, e), x, y, log, base)
    ensures Original(x, y, log, n) in Step(w, e).net && Step(w, e).conn == w.conn
  {
    assert Waits(w, x, y, log, n);
    var i :| 0 <= i < |w.pending(x)| && w.pending(x)[i] == Node(y, Original(x, y, log, n).packet);
    e := Transmit(x, i);
    var v := Step(w, e);
    forall m | 1 <= m <= |log| ensures Original(x, y, log, m) in v.net || Waits(v, x, y, log, m) {
      assert Original(x, y, log, m) in w.net || Waits(w, x, y, log, m);
    }
  }

  lemma {:induction false} AllAgain(w: World, x: Addr, y: Addr, log: seq<seq<byte>>, base: seq<byte>)
    returns (es: seq<Event>)
    requires Again(w, x, y, log, base) && base != []
    ensures Run(w, es) && Orderly(w, es, x, y) && !InOrder(Exec(w, es), x, y)
    decreases |log| + 1 - w.conn(y, x).nextRecv,
              w.conn(y, x).nextRecv <= |log| && Original(x, y, log, w.conn(y, x).nextRecv) !in w.net
  {
    var n := w.conn(y, x).nextRecv;
    if n > |log| {
      es := [];
      assert |w.taken(y, x) + w.conn(y, x).stream| == |base| + |Flatten(log)|;
    } else {
      var e := Deliver(Original(x, y, log, n));
      if Original(x, y, log, n) in w.net {
        DeliverAgain(w, x, y, log, base);
      } else {
        e := TransmitAgain(w, x, y, log, base, n);
      }
      es := AllAgain(Step(w, e), x, y, log, base);
      OrderlyFirst(w, e, es, x, y);
      es := [e] + es;
    }
  }

  /** The first-handshake packet has just reset the connection. */
  lemma ResetStarts(v: World, d: Datagram, x: Addr, y: Addr)
    requires Safe(v, x, y) && Kept(v, x, y) && Traced(v, x, y)
    requires d in v.net && d.packet.Establish1? && d.src == x && d.dst == y && v.conn(y, x).nextRecv > 1
    ensures var base := v.taken(y, x) + v.conn(y, x).stream;
            base != [] && Again(DoDeliver(v, d), x, y, v.log(x, y), base)
  {
    assert Legit(v, x, y, d.packet);
    var log, u := v.log(x, y), DoDeliver(v, d);
    JoinedGrows(log, 0, v.conn(y, x).nextRecv - 1);
    var base := v.taken(y, x) + v.conn(y, x).stream;
    assert base + Joined(log, 0) == base;
    forall n | 1 <= n <= |log| ensures Original(x, y, log, n) in u.net || Waits(u, x, y, log, n) {
      if !Received(v.conn(y, x), n) {
        QueuedIn(v.pending(x), y, n);
      }
    }
  }

  // ---------------------------------------------------------------- numbers used again

  /** A buffer whose packet number `m`, counting from 1, is the single byte `b`. */
  function Filler(m: nat, b: byte): (buf: seq<byte>)
    requires m >= 1
    ensures |buf| == (m - 1) * DATA_LEN + 1 && buf[|buf| - 1] == b
    ensures forall i :: 0 <= i < |buf| - 1 ==> buf[i] == 0
  {
    seq((m - 1) * DATA_LEN, i => 0) + [b]
  }

  lemma FillerPacket(m: nat, b: byte)
    requires m >= 1
    ensures |Fragments(Filler(m, b))| == m && Fragments(Filler(m, b))[m - 1] == [b]
  {
    var buf := Filler(m, b);
    FragmentsRoundTrip(buf);
    FragmentAt(buf, m - 1);
    assert buf[(m - 1) * DATA_LEN..] == [b];
  }

  /** A byte other than the one at the place to which the client has got. */
  function OtherByte(written: seq<byte>, p: nat): (b: byte)
    ensures p < |written| ==> b != written[p]
    ensures p >= |written| ==> b != 0
  {
    if p < |written| && written[p] != 0 then 0 else 1
  }

  /** The number the server gives to its next packet has just been set back to 1. Its application
      sends enough for a packet with the number the client expects, and that packet overtakes
      all others. */
  lemma ReusedNumber(u: World, s: Addr, c: Addr, log: seq<seq<byte>>) returns (es: seq<Event>)
    requires u.role(s) == Server && u.role(c) == Client(s) && u.conn(s, c).status != 0 && u.conn(s, c).nextSend == 1
    requires 1 <= u.conn(c, s).nextRecv && Delivered(u.conn(c, s), log, u.taken(c, s)) && NoneEmpty(log) && log != []
    requires u.written(s, c) == Flatten(log)
    ensures Run(u, es) && Orderly(u, es, s, c) && !InOrder(Exec(u, es), s, c)
  {
    var m, k := u.conn(c, s).nextRecv, |u.pending(s)|;
    var p := |Joined(log, m - 1)|;
    var b := OtherByte(u.written(s, c), p);
    var buf := Filler(m, b);
    FillerPacket(m, b);
    var data := Datagram(s, c, Data(Segment(m, [b])));
    var u1 := Step(u, Submit(s, c, buf));
    assert u1.pending(s)[k + m - 1] == Node(c, data.packet);
    var u2 := Step(u1, Transmit(s, k + m - 1));
    var u3 := Step(u2, Deliver(data));
    OrderlyFirst(u2, Deliver(data), [], s, c);
    OrderlyFirst(u1, Transmit(s, k + m - 1), [Deliver(data)] + [], s, c);
    OrderlyFirst(u, Submit(s, c, buf), [Transmit(s, k + m - 1)] + ([Deliver(data)] + []), s, c);
    es := [Submit(s, c, buf)] + ([Transmit(s, k + m - 1)] + ([Deliver(data)] + []));
    JoinedGrows(log, m - 1, |log|);
    DrainPrefix(Accept(u.conn(c, s), data.packet.seg));
    var out := u3.taken(c, s) + u3.conn(c, s).stream;
    assert u3.taken(c, s) == u.taken(c, s) && out[p] == b;
    assert u3.written(s, c) == u.written(s, c) + buf && u3.written(s, c)[p] != b;
  }

  lemma {:induction false} DrainPrefix(c: Conn)
    ensures c.stream <= Drain(c).stream
    decreases |c.parked|
  {
    if c.parked != [] && c.parked[0].num == c.nextRecv {
      DrainPrefix(Accept(c, c.parked[0]).(parked := c.parked[1..]));
    }
  }

  // ---------------------------------------------------------------- the exact conditions

  /** Some orderly continuation breaks the order of the bytes from x to y. */
  ghost predicate CanBreak(u: World, x: Addr, y: Addr) {
    exists more :: Run(u, more) && Orderly(u, more, x, y) && !InOrder(Exec(u, more), x, y)
  }

  lemma SafeCannotBreak(u: World, x: Addr, y: Addr)
    requires Safe(u, x, y)
    ensures !CanBreak(u, x, y)
  {
    forall more | Run(u, more) && Orderly(u, more, x, y) ensures InOrder(Exec(u, more), x, y) {
      RunSafe(u, more, x, y);
      SafeInOrder(Exec(u, more), x, y);
    }
  }

  /** From client to server. After any run from the start that is orderly in this direction, let
      a first-handshake packet of the client be delivered now. Some orderly continuation then
      breaks the order if and only if the server's expected number is above 1. */
  lemma RequestsBreakIff(w: World, es: seq<Event>, d: Datagram)
    requires Init(w) && Run(w, es) && Orderly(w, es, d.src, d.dst) && d in Exec(w, es).net && d.packet.Establish1?
    ensures CanBreak(DoDeliver(Exec(w, es), d), d.src, d.dst) <==> Exec(w, es).conn(d.dst, d.src).nextRecv > 1
  {
    var v, x, y := Exec(w, es), d.src, d.dst;
    InitSafe(w, x, y);
    RunSafe(w, es, x, y);
    assert Legit(v, x, y, d.packet);
    RoleStays(w, es, x);
    if v.conn(y, x).nextRecv > 1 {
      NothingLost(w, es, x, y);
      RunTraced(w, es, x, y);
      ResetStarts(v, d, x, y);
      var more := AllAgain(DoDeliver(v, d), x, y, v.log(x, y), v.taken(y, x) + v.conn(y, x).stream);
    } else {
      StepSafe(v, Deliver(d), x, y);
      SafeCannotBreak(DoDeliver(v, d), x, y);
    }
  }

  lemma {:induction false} RoleStays(w: World, es: seq<Event>, x: Addr)
    requires Run(w, es)
    ensures w.role(x) == Server <==> Exec(w, es).role(x) == Server
    decreases |es|
  {
    if es != [] {
      RoleStays(Step(w, es[0]), es[1..], x);
    }
  }

  /** From server to client. After any run from the start that is orderly in this direction, let a
      first-handshake packet of the client be delivered now. Some orderly continuation then
      breaks the order of the answers if and only if the server has sent the client anything. */
  lemma AnswersBreakIff(w: World, es: seq<Event>, d: Datagram)
    requires Init(w) && Run(w, es) && Orderly(w, es, d.dst, d.src) && d in Exec(w, es).net && d.packet.Establish1?
    ensures CanBreak(DoDeliver(Exec(w, es), d), d.dst, d.src) <==> Exec(w, es).conn(d.dst, d.src).nextSend > 1
  {
    var v, s, c := Exec(w, es), d.dst, d.src;
    InitSafe(w, s, c);
    RunSafe(w, es, s, c);
    assert Legit(v, c, s, d.packet) && Linked(v, s, c);
    if v.conn(s, c).nextSend > 1 {
      SubmitPeers(v, s, c);
      var more := ReusedNumber(DoDeliver(v, d), s, c, v.log(s, c));
    } else {
      StepSafe(v, Deliver(d), s, c);
      SafeCannotBreak(DoDeliver(v, d), s, c);
    }
  }
}
