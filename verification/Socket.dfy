/** `CTcpSocket`, and `CTcpClient` which extends it, as the object it is: the calls and the
    receive thread update the connection map and the list of pending packets in place, loop by
    loop. Each method is tied to the step of the `Network` machine that it performs. */
module Socket {
  import opened Bytes
  import opened Segments
  import opened Receiver
  import opened Network

  /** The first `len` bytes of a buffer, none for a negative length. */
  function Front(buf: seq<byte>, len: int): seq<byte>
    requires len <= |buf|
  {
    if len < 0 then [] else buf[..len]
  }

  /** The record of an address, blank when there is none. */
  function Entry(m: map<Addr, Conn>, addr: Addr): Conn {
    if addr in m then m[addr] else Blank
  }

  class TcpSocket {
    var connectMap: map<Addr, Conn>
    var sendList: seq<Node>
    var sent: seq<(Addr, Packet)>  // what was handed to `sendto`

    constructor ()
      ensures connectMap == map[] && sendList == [] && sent == []
    {
      connectMap, sendList, sent := map[], [], [];
    }

    /** `m_connectMap[addr]`, which creates the record when there is none. */
    function ConnOf(addr: Addr): Conn
      reads this
    {
      Entry(connectMap, addr)
    }

    /** The first half of `Connect`, up to the wait for an answer. */
    method BeginConnect(server: Addr)
      modifies this
      ensures connectMap == old(connectMap)[server := old(ConnOf(server)).(nextSend := 1)]
      ensures sendList == old(sendList) + [Node(server, Establish1(0))]
      ensures sent == old(sent) + [(server, Establish1(0))]
    {
      var c := ConnOf(server).(nextSend := 0);
      var hello := Establish1(c.nextSend);
      connectMap := connectMap[server := c.(nextSend := c.nextSend + 1)];
      sent := sent + [(server, hello)];
      sendList := sendList + [Node(server, hello)];
    }

    /** The second half, on the first packet to arrive. */
    method FinishConnect(server: Addr, answer: Packet)
      modifies this
      ensures connectMap == old(connectMap)[server := old(ConnOf(server)).(nextRecv := Num(answer) + 1)]
      ensures sendList == [] && sent == old(sent) + [(server, Ack(Num(answer)))]
    {
      connectMap := connectMap[server := ConnOf(server).(nextRecv := Num(answer) + 1)];
      sendList := [];
      sent := sent + [(server, Ack(Num(answer)))];
    }

    /** Queues the first `len` bytes of `buf` for `addr`, cut into packets. A negative multiple
        of the packet size queues nothing; any other negative length is undefined. */
    method Send(addr: Addr, buf: seq<byte>, len: int) returns (r: int)
      requires len <= |buf| && (len < 0 ==> len % DATA_LEN == 0)
      modifies this
      ensures r == len
      ensures sendList == old(sendList) + Nodes(addr, old(ConnOf(addr)).nextSend, Fragments(Front(buf, len)))
      ensures connectMap == old(connectMap)[addr :=
                old(ConnOf(addr)).(nextSend := old(ConnOf(addr)).nextSend + |Fragments(Front(buf, len))|)]
      ensures sent == old(sent)
    {
      var c := ConnOf(addr);
      var count := len / DATA_LEN;
      ghost var first, frags := c.nextSend, Fragments(Front(buf, len));
      assert |frags| == (|Front(buf, len)| + DATA_LEN - 1) / DATA_LEN by {
        FragmentsRoundTrip(Front(buf, len));
      }
      var i, pos := 0, 0;
      while i < count
        invariant 0 <= i <= |frags| && count <= |frags| && (i <= count || i == 0)
        invariant pos == i * DATA_LEN
        invariant c == old(ConnOf(addr)).(nextSend := first + i)
        invariant sendList == old(sendList) + Nodes(addr, first, frags[..i])
        invariant connectMap == old(connectMap) && sent == old(sent)
      {
        Window(buf, len, i);
        NodesGrow(addr, first, frags, i);
        sendList := sendList + [Node(addr, Data(Segment(c.nextSend, buf[pos..pos + DATA_LEN])))];
        c := c.(nextSend := c.nextSend + 1);
        i, pos := i + 1, pos + DATA_LEN;
      }
      if len % DATA_LEN != 0 {
        Window(buf, len, i);
        NodesGrow(addr, first, frags, i);
        sendList := sendList + [Node(addr, Data(Segment(c.nextSend, buf[pos..pos + len % DATA_LEN])))];
        c := c.(nextSend := c.nextSend + 1);
        assert frags[..i + 1] == frags;
      } else {
        assert frags[..i] == frags;
      }
      connectMap := connectMap[addr := c];
      r := len;
    }

    /** The DATA case: acknowledge, then deliver or park. */
    method OnDataPacket(src: Addr, p: Segment)
      modifies this
      ensures connectMap == old(connectMap)[src := OnData(old(ConnOf(src)), p)]
      ensures sendList == old(sendList) && sent == old(sent) + [(src, Ack(p.num))]
    {
      sent := sent + [(src, Ack(p.num))];
      var c := ConnOf(src);
      if p.num == c.nextRecv {
        c := Accept(c, p);
        ghost var start := c;
        while c.parked != [] && c.parked[0].num == c.nextRecv
          invariant Drain(c) == Drain(start)
          decreases |c.parked|
        {
          c := Accept(c, c.parked[0]).(parked := c.parked[1..]);
        }
      } else if p.num > c.nextRecv {
        var i := 0;
        while i < |c.parked| && !(c.parked[i].num > p.num)
          invariant 0 <= i <= |c.parked|
          invariant forall j :: 0 <= j < i ==> c.parked[j].num <= p.num
        {
          i := i + 1;
        }
        ParkAt(c.parked, p, i);
        c := c.(parked := c.parked[..i] + [p] + c.parked[i..]);
      }
      connectMap := connectMap[src := c];
    }

    /** The ACK case: erase the first pending packet with this number. */
    method OnAck(src: Addr, n: int)
      modifies this
      ensures connectMap == old(connectMap)[src := old(ConnOf(src))]
      ensures sendList == Acked(old(sendList), n) && sent == old(sent)
    {
      connectMap := connectMap[src := ConnOf(src)];
      var i := 0;
      while i < |sendList|
        invariant 0 <= i <= |sendList| && sendList == old(sendList)
        invariant forall j :: 0 <= j < i ==> Num(sendList[j].packet) != n
        invariant connectMap == old(connectMap)[src := old(ConnOf(src))] && sent == old(sent)
      {
        if Num(sendList[i].packet) == n {
          break;
        }
        i := i + 1;
      }
      AckedAt(sendList, n, i);
      if i < |sendList| {
        sendList := sendList[..i] + sendList[i + 1..];
      }
    }

    /** One round of the receive thread performs one delivery step of the machine. */
    method OnDatagram(src: Addr, p: Packet)
      modifies this
      ensures var o := Handle(old(ConnOf(src)), old(sendList), src, p);
              && connectMap == old(connectMap)[src := o.conn]
              && sendList == o.pending
              && sent == old(sent) + if o.reply.Some? then [(src, o.reply.value)] else []
    {
      match p
      case Establish1(n) =>
        var c := ConnOf(src).(nextSend := 0, nextRecv := n + 1);
        sendList := sendList + [Node(src, Establish2(c.nextSend))];
        connectMap := connectMap[src := c.(nextSend := c.nextSend + 1)];
      case Establish2(n) =>
        connectMap := connectMap[src := ConnOf(src)];
        sent := sent + [(src, Ack(n))];
      case Data(s) => OnDataPacket(src, s);
      case Ack(n) => OnAck(src, n);
    }

    /** Returns what is waiting, up to `max` bytes. The call polls until something waits. */
    method Recv(addr: Addr, max: nat) returns (data: seq<byte>)
      requires ConnOf(addr).stream != []
      modifies this
      ensures |data| == Min(|old(ConnOf(addr)).stream|, max)
      ensures data + ConnOf(addr).stream == old(ConnOf(addr)).stream
      ensures connectMap == old(connectMap)[addr := old(ConnOf(addr)).(stream := ConnOf(addr).stream)]
      ensures sendList == old(sendList) && sent == old(sent)
    {
      var c := ConnOf(addr);
      var n := Min(|c.stream|, max);
      data := c.stream[..n];
      connectMap := connectMap[addr := c.(stream := c.stream[n..])];
    }

    /** One pass of `CTcpServer::Select` over the connections, in the order of the map: the first
        one that is to be served is marked as being served. */
    method Select(order: seq<Addr>) returns (r: Option<Addr>)
      requires forall a :: a in order <==> a in connectMap
      modifies this
      ensures r == None ==> connectMap == old(connectMap) && forall a :: a in connectMap ==> connectMap[a].status != 1
      ensures r.Some? ==>
                && r.value in old(connectMap) && old(connectMap)[r.value].status == 1
                && connectMap == old(connectMap)[r.value := old(connectMap)[r.value].(status := 2)]
                && exists i :: && 0 <= i < |order| && order[i] == r.value
                               && forall j :: 0 <= j < i ==> order[j] in old(connectMap) && old(connectMap)[order[j]].status != 1
      ensures sendList == old(sendList) && sent == old(sent)
    {
      var i := 0;
      while i < |order|
        invariant 0 <= i <= |order| && connectMap == old(connectMap) && sendList == old(sendList) && sent == old(sent)
        invariant forall j :: 0 <= j < i ==> order[j] in connectMap && connectMap[order[j]].status != 1
      {
        assert order[i] in connectMap;
        if connectMap[order[i]].status == 1 {
          connectMap := connectMap[order[i] := connectMap[order[i]].(status := 2)];
          return Some(order[i]);
        }
        i := i + 1;
      }
      r := None;
    }

    /** `CTcpServer::UnSelect`: the connection is to be served again exactly if bytes wait. */
    method UnSelect(addr: Addr)
      modifies this
      ensures connectMap == old(connectMap)[addr :=
                old(ConnOf(addr)).(status := if old(ConnOf(addr)).stream == [] then 0 else 1)]
      ensures sendList == old(sendList) && sent == old(sent)
    {
      var c := ConnOf(addr);
      if |c.stream| != 0 {
        connectMap := connectMap[addr := c.(status := 1)];
      } else {
        connectMap := connectMap[addr := c.(status := 0)];
      }
    }
  }

  lemma NodesGrow(to: Addr, first: int, frags: seq<seq<byte>>, i: nat)
    requires i < |frags|
    ensures Nodes(to, first, frags[..i + 1]) == Nodes(to, first, frags[..i]) + [Node(to, Data(Segment(first + i, frags[i])))]
  {
  }

  /** The search loop finds the place of insertion. */
  lemma {:induction false} ParkAt(list: seq<Segment>, p: Segment, i: nat)
    requires i <= |list| && forall j :: 0 <= j < i ==> list[j].num <= p.num
    requires i < |list| ==> list[i].num > p.num
    ensures Park(list, p) == list[..i] + [p] + list[i..]
  {
    if i > 0 {
      ParkAt(list[1..], p, i - 1);
      assert list[1..][..i - 1] == list[1..i] && list[1..][i - 1..] == list[i..];
      assert [list[0]] + list[1..i] == list[..i];
    }
  }

  /** The search loop finds the packet to erase, if there is one. */
  lemma {:induction false} AckedAt(list: seq<Node>, n: int, i: nat)
    requires i <= |list| && forall j :: 0 <= j < i ==> Num(list[j].packet) != n
    requires i < |list| ==> Num(list[i].packet) == n
    ensures Acked(list, n) == if i < |list| then list[..i] + list[i + 1..] else list
  {
    if i > 0 {
      AckedAt(list[1..], n, i - 1);
      assert list == [list[0]] + list[1..];
      if i < |list| {
        assert list[1..][..i - 1] == list[1..i] && list[1..][i..] == list[i + 1..];
        assert [list[0]] + list[1..i] == list[..i];
      }
    }
  }

  lemma Window(buf: seq<byte>, len: nat, i: nat)
    requires len <= |buf| && i * DATA_LEN < len
    ensures i < |Fragments(buf[..len])|
    ensures Fragments(buf[..len])[i] ==
            buf[i * DATA_LEN..if (i + 1) * DATA_LEN <= len then (i + 1) * DATA_LEN else len]
  {
    FragmentsRoundTrip(buf[..len]);
    FragmentAt(buf[..len], i);
    var hi := if (i + 1) * DATA_LEN <= len then (i + 1) * DATA_LEN else len;
    assert buf[..len][i * DATA_LEN..hi] == buf[i * DATA_LEN..hi];
  }

  // ---------------------------------------------------------------- the socket in the machine

  /** The socket's own state is that of address x in a world of the machine. */
  ghost predicate Matches(m: map<Addr, Conn>, list: seq<Node>, w: World, x: Addr) {
    (forall y :: Entry(m, y) == w.conn(x, y)) && list == w.pending(x)
  }

  /** Each method above, by what its contract says of the new state, takes the socket of x from a
      world to the world after the step of the same name. */
  lemma ConnectMatches(m: map<Addr, Conn>, list: seq<Node>, w: World, x: Addr, y: Addr)
    requires Matches(m, list, w, x)
    ensures var v := DoConnect(w, x, y);
            && Matches(m[y := Entry(m, y).(nextSend := 1)], list + [Node(y, Establish1(0))], v, x)
            && v.net == w.net + {Datagram(x, y, Establish1(0))} && v.role(x) == Connecting(y)
  {
  }

  lemma FinishMatches(m: map<Addr, Conn>, list: seq<Node>, w: World, x: Addr, y: Addr, p: Packet)
    requires Matches(m, list, w, x)
    ensures var v := DoFinish(w, x, y, p);
            && Matches(m[y := Entry(m, y).(nextRecv := Num(p) + 1)], [], v, x)
            && v.net == w.net + {Datagram(x, y, Ack(Num(p)))} && v.role(x) == Client(y)
  {
  }

  lemma SendMatches(m: map<Addr, Conn>, list: seq<Node>, w: World, x: Addr, y: Addr, buf: seq<byte>)
    requires Matches(m, list, w, x)
    ensures var v, c, frags := DoSubmit(w, x, y, buf), Entry(m, y), Fragments(buf);
            && Matches(m[y := c.(nextSend := c.nextSend + |frags|)], list + Nodes(y, c.nextSend, frags), v, x)
            && v.net == w.net && v.written(x, y) == w.written(x, y) + buf && v.log(x, y) == w.log(x, y) + frags
  {
  }

  lemma HandleMatches(m: map<Addr, Conn>, list: seq<Node>, w: World, x: Addr, src: Addr, p: Packet)
    requires Matches(m, list, w, x)
    ensures var v, o := DoHandle(w, Datagram(src, x, p)), Handle(Entry(m, src), list, src, p);
            && Matches(m[src := o.conn], o.pending, v, x)
            && v.net == w.net + if o.reply.Some? then {Datagram(x, src, o.reply.value)} else {}
  {
  }

  lemma RecvMatches(m: map<Addr, Conn>, list: seq<Node>, w: World, x: Addr, y: Addr, max: nat, data: seq<byte>, rest: seq<byte>)
    requires Matches(m, list, w, x)
    requires |data| == Min(|Entry(m, y).stream|, max) && data + rest == Entry(m, y).stream
    ensures var v := DoFetch(w, x, y, max);
            && Matches(m[y := Entry(m, y).(stream := rest)], list, v, x)
            && v.net == w.net && v.taken(x, y) == w.taken(x, y) + data
  {
    assert (data + rest)[..|data|] == data && (data + rest)[|data|..] == rest;
  }

  /** A step touches the socket of one address only: the one that acts or is delivered to. */
  lemma OthersUntouched(w: World, e: Event, z: Addr)
    requires Enabled(w, e) && z != (if e.Deliver? then e.d.dst else e.x)
    ensures var v := Step(w, e);
            && v.pending(z) == w.pending(z) && v.role(z) == w.role(z)
            && forall y :: v.conn(z, y) == w.conn(z, y) && v.written(z, y) == w.written(z, y) && v.taken(z, y) == w.taken(z, y)
  {
  }
}
