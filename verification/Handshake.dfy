/** Connections: who talks to whom, and what a client sees while it connects
    (TcpSocketDll/CTcpClient.cpp, TcpSocketDll/CTcpSocket.cpp:121-154). All of it holds in
    every run, whatever the network does. */
module Handshake {
  import opened Bytes
  import opened Segments
  import opened Receiver
  import opened Network

  /** One of the two is a server and the other its client. */
  ghost predicate Peers(w: World, x: Addr, y: Addr) {
    || (w.role(x) == Client(y) && w.role(y) == Server)
    || (w.role(x) == Server && w.role(y) == Client(x))
  }

  /** x is a client that has called `Connect` for server y. */
  ghost predicate Called(w: World, x: Addr, y: Addr) {
    w.role(y) == Server && (w.role(x) == Connecting(y) || w.role(x) == Client(y))
  }

  predicate Open(c: Conn) {
    c.nextSend >= 1 && c.nextRecv >= 1
  }

  /** A packet that may be under way from one address to another. */
  ghost predicate Legit(w: World, src: Addr, dst: Addr, p: Packet) {
    match p
    case Establish1(n) => n == 0 && Called(w, src, dst)
    case Establish2(n) => n == 0 && Called(w, dst, src) && Open(w.conn(src, dst))
    case _ => Peers(w, src, dst)
  }

  /** x's record of y. */
  ghost predicate Linked(w: World, x: Addr, y: Addr) {
    && (Peers(w, x, y) ==> Open(w.conn(x, y)))
    && (w.conn(x, y).status != 0 ==> Peers(w, x, y))
    && (w.role(x) == Unconnected ==> w.conn(x, y) == Blank)
    && (w.role(x).Connecting? ==> w.conn(x, y) == if y == w.role(x).server then Blank.(nextSend := 1) else Blank)
    && (w.role(x).Connecting? || w.role(x).Client? ==> w.role(w.role(x).server) == Server)
    && (w.role(x).Connecting? ==> Datagram(x, w.role(x).server, Establish1(0)) in w.net)
    && (w.role(x) == Server && w.log(x, y) != [] ==> w.conn(x, y).status != 0)
  }

  ghost predicate Wired(w: World) {
    && (forall x, y :: Linked(w, x, y))
    && (forall d :: d in w.net ==> Legit(w, d.src, d.dst, d.packet))
    && (forall x, node :: node in w.pending(x) ==> !node.packet.Ack? && Legit(w, x, node.addr, node.packet))
    && (forall x, node :: node in w.pending(x) && w.role(x).Client? ==> !node.packet.Establish1?)
  }

  lemma InitWired(w: World)
    requires Init(w)
    ensures Wired(w)
  {
  }

  // ---------------------------------------------------------------- what a step leaves alone

  ghost predicate Onward(r: Role, r': Role) {
    r' == r || (r == Unconnected && r'.Connecting?) || (r.Connecting? && r' == Client(r.server))
  }

  ghost predicate Progress(w: World, v: World) {
    && (forall x :: Onward(w.role(x), v.role(x)))
    && (forall x, y :: Open(w.conn(x, y)) ==> Open(v.conn(x, y)))
  }

  lemma LegitStays(w: World, v: World)
    requires Progress(w, v)
    ensures forall src, dst, p :: Legit(w, src, dst, p) ==> Legit(v, src, dst, p)
  {
    forall src, dst, p | Legit(w, src, dst, p) ensures Legit(v, src, dst, p) {
      assert Onward(w.role(src), v.role(src)) && Onward(w.role(dst), v.role(dst));
    }
  }

  lemma {:induction false} DrainForward(c: Conn)
    ensures Drain(c).nextSend == c.nextSend && Drain(c).nextRecv >= c.nextRecv
    ensures c.status != 0 ==> Drain(c).status != 0
    decreases |c.parked|
  {
    if c.parked != [] && c.parked[0].num == c.nextRecv {
      DrainForward(Accept(c, c.parked[0]).(parked := c.parked[1..]));
    }
  }

  lemma OnDataForward(c: Conn, p: Segment)
    ensures OnData(c, p).nextSend == c.nextSend && OnData(c, p).nextRecv >= c.nextRecv
    ensures c.status != 0 ==> OnData(c, p).status != 0
  {
    if p.num == c.nextRecv {
      DrainForward(Accept(c, p));
    }
  }

  // ---------------------------------------------------------------- the steps

  lemma ConnectWired(w: World, x: Addr, y: Addr)
    requires Wired(w) && Enabled(w, Connect(x, y))
    ensures Wired(DoConnect(w, x, y))
  {
    var v := DoConnect(w, x, y);
    LegitStays(w, v);
    forall a, b ensures Linked(v, a, b) {
      assert Linked(w, a, b) && Linked(w, x, y);
    }
  }

  lemma SubmitWired(w: World, x: Addr, y: Addr, buf: seq<byte>)
    requires Wired(w) && Enabled(w, Submit(x, y, buf))
    ensures Peers(w, x, y)
    ensures Wired(DoSubmit(w, x, y, buf))
  {
    SubmitPeers(w, x, y);
    var v := DoSubmit(w, x, y, buf);
    LegitStays(w, v);
    forall a, b ensures Linked(v, a, b) {
      assert Linked(w, a, b);
    }
  }

  /** An application can only send where both ends have a record of the connection. */
  lemma SubmitPeers(w: World, x: Addr, y: Addr)
    requires Wired(w)
    requires w.role(x) == Client(y) || (w.role(x) == Server && w.conn(x, y).status != 0)
    ensures Peers(w, x, y) && Open(w.conn(x, y)) && Open(w.conn(y, x))
  {
    assert Linked(w, x, y) && Linked(w, y, x);
  }

  lemma HandleWired(w: World, d: Datagram)
    requires Wired(w) && d in w.net && !w.role(d.dst).Unconnected? && !w.role(d.dst).Connecting?
    ensures Wired(DoHandle(w, d))
  {
    var v := DoHandle(w, d);
    if d.packet.Data? {
      OnDataForward(w.conn(d.dst, d.src), d.packet.seg);
    }
    AckedSubset(w.pending(d.dst), Num(d.packet));
    LegitStays(w, v);
    forall a, b ensures Linked(v, a, b) {
      assert Linked(w, a, b);
    }
  }

  /** While a client is in `Connect`, everything under way to it is the answer of its own
      server, with number 0: the code does not look at what it receives there, and need not. */
  lemma ReplyExpected(w: World, d: Datagram)
    requires Wired(w) && d in w.net && w.role(d.dst).Connecting?
    ensures d.src == w.role(d.dst).server && d.packet == Establish2(0) && Open(w.conn(d.src, d.dst))
  {
  }

  lemma FinishWired(w: World, d: Datagram)
    requires Wired(w) && d in w.net && w.role(d.dst).Connecting?
    ensures Wired(DoDeliver(w, d))
  {
    ReplyExpected(w, d);
    var v := DoDeliver(w, d);
    LegitStays(w, v);
    forall a, b ensures Linked(v, a, b) {
      assert Linked(w, a, b) && Linked(w, d.dst, d.src);
    }
  }

  lemma StepWired(w: World, e: Event)
    requires Wired(w) && Enabled(w, e)
    ensures Wired(Step(w, e))
  {
    match e
    case Connect(x, y) => ConnectWired(w, x, y);
    case Submit(x, y, buf) => SubmitWired(w, x, y, buf);
    case Transmit(x, i) =>
      LegitStays(w, Step(w, e));
      forall a, b ensures Linked(Step(w, e), a, b) { assert Linked(w, a, b); }
    case Fetch(x, y, max) =>
      LegitStays(w, Step(w, e));
      forall a, b ensures Linked(Step(w, e), a, b) { assert Linked(w, a, b); }
    case Deliver(d) =>
      match w.role(d.dst) {
        case Unconnected =>
        case Connecting(_) => FinishWired(w, d);
        case _ => HandleWired(w, d);
      }
  }

  lemma {:induction false} RunWired(w: World, es: seq<Event>)
    requires Wired(w) && Run(w, es)
    ensures Wired(Exec(w, es))
    decreases |es|
  {
    if es != [] {
      StepWired(w, es[0]);
      RunWired(Step(w, es[0]), es[1..]);
    }
  }

  /** In every run from the start: what reaches a connecting client is its server's answer,
      and it leaves both ends with an open connection whose first packet will be number 1 on
      the client's side. */
  lemma ConnectEstablishes(w: World, es: seq<Event>, d: Datagram)
    requires Init(w) && Run(w, es) && d in Exec(w, es).net && Exec(w, es).role(d.dst).Connecting?
    ensures var v := Exec(w, es);
            var u, x, y := DoDeliver(v, d), d.dst, v.role(d.dst).server;
            && d.src == y && d.packet == Establish2(0)
            && u.role(x) == Client(y)
            && u.conn(x, y) == Conn(1, 1, [], [], 0)
            && Open(u.conn(y, x))
            && u.pending(x) == []
  {
    InitWired(w);
    RunWired(w, es);
    var v := Exec(w, es);
    ReplyExpected(v, d);
    assert Linked(v, d.dst, d.src);
  }

  /** A connecting client is never stuck: in every run from the start, whatever was lost, some
      continuation brings it the answer. Its first packet reaches the server, the server's
      send thread transmits the reply, and the reply arrives. */
  lemma ConnectCanFinish(w: World, es: seq<Event>, x: Addr) returns (more: seq<Event>)
    requires Init(w) && Run(w, es) && Exec(w, es).role(x).Connecting?
    ensures Run(Exec(w, es), more)
    ensures Exec(Exec(w, es), more).role(x) == Client(Exec(w, es).role(x).server)
  {
    InitWired(w);
    RunWired(w, es);
    var v := Exec(w, es);
    var y := v.role(x).server;
    assert Linked(v, x, y);
    var hello, reply := Datagram(x, y, Establish1(0)), Datagram(y, x, Establish2(0));
    var v1 := Step(v, Deliver(hello));
    var i := |v.pending(y)|;
    assert v1.pending(y)[i] == Node(x, Establish2(0)) && v1.role(x) == Connecting(y);
    var v2 := Step(v1, Transmit(y, i));
    var v3 := Step(v2, Deliver(reply));
    assert v3.role(x) == Client(y);
    RunFirst(v2, Deliver(reply), []);
    RunFirst(v1, Transmit(y, i), [Deliver(reply)]);
    RunFirst(v, Deliver(hello), [Transmit(y, i)] + [Deliver(reply)]);
    more := [Deliver(hello)] + ([Transmit(y, i)] + [Deliver(reply)]);
    assert [Deliver(reply)] + [] == [Deliver(reply)];
  }

  // ---------------------------------------------------------------- acknowledgements

  /** The packet at the head of the list is transmitted, arrives, is acknowledged, and the
      acknowledgement arrives: the head is gone and the rest is as it was. */
  lemma AcknowledgeHead(w: World, y: Addr) returns (es: seq<Event>)
    requires Wired(w) && w.pending(y) != [] && (w.role(y) == Server || w.role(y).Client?)
    ensures Run(w, es) && Exec(w, es).pending(y) == w.pending(y)[1..] && Exec(w, es).role(y) == w.role(y)
  {
    var node := w.pending(y)[0];
    var x, p := node.addr, node.packet;
    assert node in w.pending(y) && Legit(w, y, x, p);
    var d, ack := Datagram(y, x, p), Datagram(x, y, Ack(Num(p)));
    var w1 := Step(w, Transmit(y, 0));
    assert x != y && (w1.role(x).Connecting? ==> w1.role(x).server == y && p.Establish2?);
    var w2 := Step(w1, Deliver(d));
    assert ack in w2.net && w2.pending(y) == w.pending(y) && w2.role(y) == w.role(y);
    var w3 := Step(w2, Deliver(ack));
    assert w3.pending(y) == w.pending(y)[1..];
    RunFirst(w2, Deliver(ack), []);
    RunFirst(w1, Deliver(d), [Deliver(ack)] + []);
    RunFirst(w, Transmit(y, 0), [Deliver(d)] + ([Deliver(ack)] + []));
    es := [Transmit(y, 0)] + ([Deliver(d)] + ([Deliver(ack)] + []));
  }

  lemma {:induction false} RunAppend(w: World, es: seq<Event>, more: seq<Event>)
    requires Run(w, es) && Run(Exec(w, es), more)
    ensures Run(w, es + more) && Exec(w, es + more) == Exec(Exec(w, es), more)
    decreases |es|
  {
    if es == [] {
      assert es + more == more;
    } else {
      RunAppend(Step(w, es[0]), es[1..], more);
      assert (es + more)[1..] == es[1..] + more;
    }
  }

  /** Retransmission can always come to an end: in every run from the start, whatever was lost or
      reset, some continuation has every pending packet of a server or a connected client
      acknowledged, handshake packets and data alike. */
  lemma {:induction false} PendingCanDrain(w: World, y: Addr) returns (es: seq<Event>)
    requires Wired(w) && (w.role(y) == Server || w.role(y).Client?)
    ensures Run(w, es) && Exec(w, es).pending(y) == []
    decreases |w.pending(y)|
  {
    if w.pending(y) == [] {
      es := [];
    } else {
      es := AcknowledgeHead(w, y);
      RunWired(w, es);
      var more := PendingCanDrain(Exec(w, es), y);
      RunAppend(w, es, more);
      es := es + more;
    }
  }
}
