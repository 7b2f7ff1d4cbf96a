/** What can still be delivered. From any state, some orderly continuation brings out all that
    was sent if and only if the receiver parks nothing twice and every packet it lacks is still
    pending at the sender or was transmitted before. */
module Recovery {
  import opened Bytes
  import opened Segments
  import opened Receiver
  import opened Network
  import opened Handshake
  import opened Delivery
  import opened Completion

  predicate IsCopy(d: Datagram, x: Addr, y: Addr, n: int) {
    d.src == x && d.dst == y && d.packet.Data? && d.packet.seg.num == n
  }

  /** Packet `n` from x to y has been transmitted. The network may still deliver it: `net` keeps
      every datagram ever sent, and being lost means not to be delivered. */
  ghost predicate OnNet(w: World, x: Addr, y: Addr, n: int) {
    exists d :: d in w.net && IsCopy(d, x, y, n)
  }

  /** Packet `n` from x to y is noted by y, pending at x or was transmitted. */
  ghost predicate Extant(w: World, x: Addr, y: Addr, n: int) {
    Received(w.conn(y, x), n) || Queued(w.pending(x), y, n) || OnNet(w, x, y, n)
  }

  ghost predicate AllExtant(w: World, x: Addr, y: Addr) {
    forall n :: 1 <= n <= |w.log(x, y)| ==> Extant(w, x, y, n)
  }

  /** Some orderly continuation delivers all that x has sent to y. */
  ghost predicate Deliverable(w: World, x: Addr, y: Addr) {
    exists es :: Run(w, es) && Orderly(w, es, x, y) && Complete(Exec(w, es), x, y)
  }

  // ---------------------------------------------------------------- what is lost stays lost

  lemma SubmitLost(w: World, a: Addr, b: Addr, buf: seq<byte>, x: Addr, y: Addr, n: int)
    requires Safe(w, x, y) && Enabled(w, Submit(a, b, buf)) && 1 <= n <= |w.log(x, y)| && !Extant(w, x, y, n)
    ensures !Extant(DoSubmit(w, a, b, buf), x, y, n)
  {
    SubmitPeers(w, a, b);
    var first, frags := w.conn(a, b).nextSend, Fragments(buf);
    QueuedAppend(w.pending(a), Nodes(b, first, frags), y, n);
    NodesQueued(b, first, frags, y, n);
  }

  lemma TransmitLost(w: World, a: Addr, i: nat, x: Addr, y: Addr, n: int)
    requires i < |w.pending(a)| && !Extant(w, x, y, n)
    ensures !Extant(DoTransmit(w, a, i), x, y, n)
  {
    QueuedIn(w.pending(x), y, n);
    var node := w.pending(a)[i];
    assert node in w.pending(a);
    assert IsCopy(Datagram(a, node.addr, node.packet), x, y, n) ==> a == x && IsData(node, y, n);
    forall d | d in DoTransmit(w, a, i).net ensures !IsCopy(d, x, y, n) {
      assert d in w.net || d == Datagram(a, node.addr, node.packet);
    }
  }

  lemma HandleLost(w: World, d: Datagram, x: Addr, y: Addr, n: int)
    requires Safe(w, x, y) && d in w.net && !Disturbs(w, Deliver(d), x, y) && 1 <= n && !Extant(w, x, y, n)
    ensures !Extant(DoHandle(w, d), x, y, n)
  {
    var v, list := DoHandle(w, d), w.pending(x);
    assert Legit(w, d.src, d.dst, d.packet);
    assert forall e :: e in v.net && e.packet.Data? ==> e in w.net;
    assert !Received(v.conn(y, x), n) by {
      if d.packet.Data? && d.src == x && d.dst == y {
        OnDataReceived(w.conn(y, x), d.packet.seg, n);
        assert d.packet.seg.num == n ==> IsCopy(d, x, y, n);
      }
    }
    assert !Queued(v.pending(x), y, n) by {
      QueuedAppend(list, [Node(d.src, Establish2(0))], y, n);
      AckedQueued(list, Num(d.packet), y, n);
    }
  }

  lemma FinishLost(w: World, d: Datagram, x: Addr, y: Addr, n: int)
    requires Wired(w) && d in w.net && w.role(d.dst).Connecting? && 1 <= n && !Extant(w, x, y, n)
    ensures !Extant(DoDeliver(w, d), x, y, n)
  {
    ReplyExpected(w, d);
    assert forall e :: e in DoDeliver(w, d).net && e.packet.Data? ==> e in w.net;
  }

  lemma ConnectLost(w: World, a: Addr, b: Addr, x: Addr, y: Addr, n: int)
    requires Enabled(w, Connect(a, b)) && !Extant(w, x, y, n)
    ensures !Extant(DoConnect(w, a, b), x, y, n)
  {
    QueuedAppend(w.pending(a), [Node(b, Establish1(0))], y, n);
    assert forall e :: e in DoConnect(w, a, b).net && e.packet.Data? ==> e in w.net;
  }

  lemma StepLost(w: World, e: Event, x: Addr, y: Addr, n: int)
    requires Safe(w, x, y) && Enabled(w, e) && !Disturbs(w, e, x, y)
    requires 1 <= n <= |w.log(x, y)| && !Extant(w, x, y, n)
    ensures n <= |Step(w, e).log(x, y)| && !Extant(Step(w, e), x, y, n)
  {
    match e
    case Connect(a, b) => ConnectLost(w, a, b, x, y, n);
    case Submit(a, b, buf) => SubmitLost(w, a, b, buf, x, y, n);
    case Transmit(a, i) => TransmitLost(w, a, i, x, y, n);
    case Fetch(a, b, max) =>
    case Deliver(d) =>
      match w.role(d.dst) {
        case Unconnected =>
        case Connecting(_) => FinishLost(w, d, x, y, n);
        case _ => HandleLost(w, d, x, y, n);
      }
  }

  lemma {:induction false} RunLost(w: World, es: seq<Event>, x: Addr, y: Addr, n: int)
    requires Safe(w, x, y) && Run(w, es) && Orderly(w, es, x, y) && 1 <= n <= |w.log(x, y)| && !Extant(w, x, y, n)
    ensures n <= |Exec(w, es).log(x, y)| && !Extant(Exec(w, es), x, y, n)
    decreases |es|
  {
    if es != [] {
      StepSafe(w, es[0], x, y);
      StepLost(w, es[0], x, y, n);
      RunLost(Step(w, es[0]), es[1..], x, y, n);
    }
  }

  // ---------------------------------------------------------------- what is not lost comes out

  lemma MoreExtant(w: World, v: World, x: Addr, y: Addr)
    requires AllExtant(w, x, y) && v.log(x, y) == w.log(x, y) && v.pending(x) == w.pending(x) && w.net <= v.net
    requires forall n :: Received(w.conn(y, x), n) ==> Received(v.conn(y, x), n)
    ensures AllExtant(v, x, y)
  {
    forall n | 1 <= n <= |v.log(x, y)| ensures Extant(v, x, y, n) {
      assert Extant(w, x, y, n);
      if OnNet(w, x, y, n) {
        var d :| d in w.net && IsCopy(d, x, y, n);
        assert d in v.net;
      }
    }
  }

  /** What is kept on the way to delivering everything. */
  ghost predicate Hopeful(w: World, x: Addr, y: Addr) {
    Safe(w, x, y) && Clean(w.conn(y, x)) && AllExtant(w, x, y)
  }

  /** The packet y waits for was transmitted, or x's send thread can do so. */
  lemma Supply(w: World, x: Addr, y: Addr) returns (e: Event)
    requires Hopeful(w, x, y) && 1 <= w.conn(y, x).nextRecv <= |w.log(x, y)| && !OnNet(w, x, y, w.conn(y, x).nextRecv)
    ensures e.Transmit? && Enabled(w, e) && Hopeful(Step(w, e), x, y)
    ensures var v := Step(w, e);
            v.conn(y, x) == w.conn(y, x) && v.log(x, y) == w.log(x, y) && OnNet(v, x, y, w.conn(y, x).nextRecv)
  {
    var n := w.conn(y, x).nextRecv;
    assert Extant(w, x, y, n);
    IncreasingAbove(n, w.conn(y, x).parked, n);
    QueuedIn(w.pending(x), y, n);
    var node :| node in w.pending(x) && IsData(node, y, n);
    var i :| 0 <= i < |w.pending(x)| && w.pending(x)[i] == node;
    e := Transmit(x, i);
    StepSafe(w, e, x, y);
    MoreExtant(w, Step(w, e), x, y);
    assert IsCopy(Datagram(x, y, node.packet), x, y, n);
  }

  /** Its delivery brings y forward and keeps y clean. */
  lemma Push(w: World, x: Addr, y: Addr) returns (e: Event)
    requires Hopeful(w, x, y) && 1 <= w.conn(y, x).nextRecv <= |w.log(x, y)| && OnNet(w, x, y, w.conn(y, x).nextRecv)
    ensures e.Deliver? && e.d.packet.Data? && Enabled(w, e) && Hopeful(Step(w, e), x, y)
    ensures var v := Step(w, e); v.conn(y, x).nextRecv > w.conn(y, x).nextRecv && v.log(x, y) == w.log(x, y)
  {
    var c := w.conn(y, x);
    var d :| d in w.net && IsCopy(d, x, y, c.nextRecv);
    e := Deliver(d);
    assert Legit(w, x, y, d.packet);
    StepSafe(w, e, x, y);
    StepClean(w, e, x, y);
    DrainForward(Accept(c, d.packet.seg));
    StepNoting(w, e, x, y);
    MoreExtant(w, Step(w, e), x, y);
  }

  lemma {:induction false} Finish(w: World, x: Addr, y: Addr) returns (es: seq<Event>)
    requires Hopeful(w, x, y)
    ensures Run(w, es) && Orderly(w, es, x, y) && Complete(Exec(w, es), x, y)
    decreases |w.log(x, y)| + 1 - w.conn(y, x).nextRecv, !OnNet(w, x, y, w.conn(y, x).nextRecv)
  {
    if w.conn(y, x).nextRecv == 0 || w.conn(y, x).nextRecv > |w.log(x, y)| {
      es := [];
    } else {
      var e: Event;
      if OnNet(w, x, y, w.conn(y, x).nextRecv) {
        e := Push(w, x, y);
      } else {
        e := Supply(w, x, y);
      }
      es := Finish(Step(w, e), x, y);
      OrderlyFirst(w, e, es, x, y);
      es := [e] + es;
    }
  }

  /** Never stuck, or stuck for good. From any state in which order still holds, some orderly
      continuation delivers all that x has sent to y if and only if y parks no packet twice and
      every packet y has not noted is still pending at x or was transmitted. */
  lemma DeliverableIff(w: World, x: Addr, y: Addr)
    requires Safe(w, x, y)
    ensures Deliverable(w, x, y) <==> Clean(w.conn(y, x)) && AllExtant(w, x, y)
  {
    if Hopeful(w, x, y) {
      var es := Finish(w, x, y);
    }
    forall es | Run(w, es) && Orderly(w, es, x, y) && Complete(Exec(w, es), x, y) ensures Hopeful(w, x, y) {
      RunClean(w, es, x, y);
      RunSafe(w, es, x, y);
      forall n | 1 <= n <= |w.log(x, y)| ensures Extant(w, x, y, n) {
        if !Extant(w, x, y, n) {
          RunLost(w, es, x, y, n);
          CompleteReceived(Exec(w, es), x, y, n);
        }
      }
    }
  }

  /** What has come out can be had by the application, to the last byte. */
  lemma AllTaken(v: World, x: Addr, y: Addr) returns (es: seq<Event>)
    requires Complete(v, x, y)
    ensures Run(v, es) && Orderly(v, es, x, y)
    ensures Exec(v, es).taken(y, x) == v.written(x, y) == Exec(v, es).written(x, y) && Exec(v, es).conn(y, x).stream == []
  {
    var s := v.conn(y, x).stream;
    if s == [] {
      es := [];
      assert v.taken(y, x) + s == v.taken(y, x);
    } else {
      FetchTakes(v, y, x, |s|);
      OrderlyFirst(v, Fetch(y, x, |s|), [], x, y);
      es := [Fetch(y, x, |s|)] + [];
    }
  }

  // ---------------------------------------------------------------- over whole runs

  /** The acknowledgement erases a packet from x to y that y has not noted and that was never
      transmitted: the one step that loses a packet. */
  ghost predicate Loses(w: World, e: Event, x: Addr, y: Addr) {
    Misfires(w, e, x, y) && !OnNet(w, x, y, e.d.packet.num)
  }

  ghost predicate NoLoss(w: World, es: seq<Event>, x: Addr, y: Addr)
    requires Run(w, es)
    decreases |es|
  {
    es == [] || (!Loses(w, es[0], x, y) && NoLoss(Step(w, es[0]), es[1..], x, y))
  }

  lemma NetGrows(w: World, e: Event)
    requires Enabled(w, e)
    ensures w.net <= Step(w, e).net
  {
  }

  /** A packet leaves the pending list only if an acknowledgement hits it. */
  lemma StepQueued(w: World, e: Event, x: Addr, y: Addr, n: int)
    requires Safe(w, x, y) && Enabled(w, e) && Queued(w.pending(x), y, n)
    ensures Queued(Step(w, e).pending(x), y, n) || Received(w.conn(y, x), n) || (Misfires(w, e, x, y) && e.d.packet.num == n)
  {
    var list := w.pending(x);
    match e
    case Connect(a, b) => QueuedAppend(list, [Node(b, Establish1(0))], y, n);
    case Submit(a, b, buf) => QueuedAppend(list, Nodes(b, w.conn(a, b).nextSend, Fragments(buf)), y, n);
    case Deliver(d) =>
      if w.role(d.dst).Connecting? {
        FinishQueued(w, d.dst, y, n);
      } else {
        HandleQueued(w, d, x, y, n);
      }
    case _ =>
  }

  lemma FinishQueued(w: World, x: Addr, y: Addr, n: int)
    requires Wired(w) && w.role(x).Connecting?
    ensures !Queued(w.pending(x), y, n)
  {
    QueuedIn(w.pending(x), y, n);
    assert forall node :: node in w.pending(x) ==> Legit(w, x, node.addr, node.packet);
  }

  lemma HandleQueued(w: World, d: Datagram, x: Addr, y: Addr, n: int)
    requires Queued(w.pending(x), y, n)
    ensures Queued(DoHandle(w, d).pending(x), y, n) || Received(w.conn(y, x), n)
            || (Misfires(w, Deliver(d), x, y) && d.packet.num == n)
  {
    var list := w.pending(x);
    if d.packet.Establish1? {
      QueuedAppend(list, [Node(d.src, Establish2(0))], y, n);
    } else if d.packet.Ack? {
      AckedQueued(list, d.packet.num, y, n);
      HitNumber(list, d.packet.num);
    }
  }

  lemma StepExtant(w: World, e: Event, x: Addr, y: Addr)
    requires Safe(w, x, y) && AllExtant(w, x, y) && Enabled(w, e) && !Disturbs(w, e, x, y) && !Loses(w, e, x, y)
    ensures AllExtant(Step(w, e), x, y)
  {
    var v := Step(w, e);
    StepNoting(w, e, x, y);
    NetGrows(w, e);
    forall n | 1 <= n <= |v.log(x, y)| ensures Extant(v, x, y, n) {
      if n > |w.log(x, y)| {
        SubmitPeers(w, x, y);
        QueuedAppend(w.pending(x), Nodes(y, w.conn(x, y).nextSend, Fragments(e.buf)), y, n);
        NodesQueued(y, w.conn(x, y).nextSend, Fragments(e.buf), y, n);
      } else {
        assert Extant(w, x, y, n);
        if Queued(w.pending(x), y, n) {
          StepQueued(w, e, x, y, n);
        }
        if OnNet(w, x, y, n) {
          var d :| d in w.net && IsCopy(d, x, y, n);
          assert d in v.net;
        }
      }
    }
  }

  /** The exact condition, step by step. */
  lemma StepExtantIff(w: World, e: Event, x: Addr, y: Addr)
    requires Sound(w, x, y) && Enabled(w, e) && !Disturbs(w, e, x, y)
    ensures AllExtant(Step(w, e), x, y) <==> AllExtant(w, x, y) && !Loses(w, e, x, y)
  {
    if !AllExtant(w, x, y) {
      var n :| 1 <= n <= |w.log(x, y)| && !Extant(w, x, y, n);
      StepLost(w, e, x, y, n);
    } else if Loses(w, e, x, y) {
      LossIsLost(w, e.d, x, y);
    } else {
      StepExtant(w, e, x, y);
    }
  }

  lemma LossIsLost(w: World, d: Datagram, x: Addr, y: Addr)
    requires Sound(w, x, y) && d in w.net && Loses(w, Deliver(d), x, y)
    ensures 1 <= d.packet.num <= |w.log(x, y)| && !Extant(DoDeliver(w, d), x, y, d.packet.num)
  {
    assert Legit(w, d.src, x, d.packet);
    HitNumber(w.pending(x), d.packet.num);
    AckedOnce(w.pending(x), d.packet.num, y);
    assert DoDeliver(w, d).net == w.net;
  }

  lemma {:induction false} RunExtantIff(w: World, es: seq<Event>, x: Addr, y: Addr)
    requires Sound(w, x, y) && Run(w, es) && Orderly(w, es, x, y)
    ensures AllExtant(Exec(w, es), x, y) <==> AllExtant(w, x, y) && NoLoss(w, es, x, y)
    decreases |es|
  {
    if es != [] {
      StepSound(w, es[0], x, y);
      StepExtantIff(w, es[0], x, y);
      RunExtantIff(Step(w, es[0]), es[1..], x, y);
    }
  }

  /** Over whole runs from the start, whatever befalls other connections: all that x has sent to y
      can still be delivered if and only if y never parked a packet it was already parking and
      no acknowledgement ever erased an unnoted packet from x to y before its transmission. */
  lemma RunDeliverableIff(w: World, es: seq<Event>, x: Addr, y: Addr)
    requires Init(w) && Run(w, es) && Orderly(w, es, x, y)
    ensures Deliverable(Exec(w, es), x, y) <==> NoRepark(w, es, x, y) && NoLoss(w, es, x, y)
  {
    InitSound(w, x, y);
    RunSound(w, es, x, y);
    RunClean(w, es, x, y);
    RunExtantIff(w, es, x, y);
    DeliverableIff(Exec(w, es), x, y);
  }

  lemma {:induction false} NoMisfireNoLoss(w: World, es: seq<Event>, x: Addr, y: Addr)
    requires Run(w, es) && NoMisfire(w, es, x, y)
    ensures NoLoss(w, es, x, y)
    decreases |es|
  {
    if es != [] {
      NoMisfireNoLoss(Step(w, es[0]), es[1..], x, y);
    }
  }

  /** For what a client sends the second condition always holds. */
  lemma ClientDeliverableIff(w: World, es: seq<Event>, x: Addr, y: Addr)
    requires Init(w) && Run(w, es) && Orderly(w, es, x, y) && w.role(x) != Server
    ensures Deliverable(Exec(w, es), x, y) <==> NoRepark(w, es, x, y)
  {
    InitSound(w, x, y);
    ClientNoStray(w, es, x);
    NoStrayNoMisfire(w, es, x, y);
    NoMisfireNoLoss(w, es, x, y);
    RunDeliverableIff(w, es, x, y);
  }

  /** What a misfire costs: all that was sent to the addressee of the erased packet can still be
      delivered if and only if that packet was transmitted before (and nothing is parked twice). */
  lemma MisfireFatalIff(w: World, d: Datagram, x: Addr, y: Addr)
    requires Sound(w, x, y) && Kept(w, x, y) && d in w.net && Misfires(w, Deliver(d), x, y)
    ensures Deliverable(DoDeliver(w, d), x, y) <==> Clean(w.conn(y, x)) && OnNet(w, x, y, d.packet.num)
  {
    var v, n, list := DoDeliver(w, d), d.packet.num, w.pending(x);
    assert Legit(w, d.src, x, d.packet);
    StepSafe(w, Deliver(d), x, y);
    DeliverableIff(v, x, y);
    HitNumber(list, n);
    AckedOnce(list, n, y);
    forall m | m != n ensures Queued(list, y, m) ==> Queued(v.pending(x), y, m) {
      AckedQueued(list, n, y, m);
    }
    assert OnNet(w, x, y, n) <==> OnNet(v, x, y, n);
    assert Extant(v, x, y, n) <==> OnNet(v, x, y, n);
  }
}
