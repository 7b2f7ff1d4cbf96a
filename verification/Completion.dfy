/** What happens to a packet between the moment it is queued and the moment its bytes are
    delivered: who still has it, and when everything that was sent comes out. As in `Delivery`,
    the argument is about one direction of one connection. */
module Completion {
  import opened Bytes
  import opened Segments
  import opened Receiver
  import opened Network
  import opened Handshake
  import opened Delivery

  predicate IsData(node: Node, y: Addr, n: int) {
    node.addr == y && node.packet.Data? && node.packet.seg.num == n
  }

  /** A pending list holds data packet `n` for `y`. */
  predicate Queued(list: seq<Node>, y: Addr, n: int) {
    list != [] && (IsData(list[0], y, n) || Queued(list[1..], y, n))
  }

  /** No data packet for `y` is pending twice. */
  predicate Distinct(list: seq<Node>, y: Addr) {
    list == [] ||
    (&& (list[0].addr == y && list[0].packet.Data? ==> !Queued(list[1..], y, list[0].packet.seg.num))
     && Distinct(list[1..], y))
  }

  // ---------------------------------------------------------------- pending lists

  lemma {:induction false} QueuedAppend(list: seq<Node>, more: seq<Node>, y: Addr, n: int)
    ensures Queued(list + more, y, n) <==> Queued(list, y, n) || Queued(more, y, n)
  {
    if list == [] {
      assert list + more == more;
    } else {
      QueuedAppend(list[1..], more, y, n);
      assert (list + more)[1..] == list[1..] + more;
    }
  }

  lemma {:induction false} QueuedIn(list: seq<Node>, y: Addr, n: int)
    ensures Queued(list, y, n) <==> exists node :: node in list && IsData(node, y, n)
  {
    if list != [] {
      QueuedIn(list[1..], y, n);
      assert list == [list[0]] + list[1..];
    }
  }

  lemma {:induction false} DistinctAppend(list: seq<Node>, more: seq<Node>, y: Addr)
    requires Distinct(list, y) && Distinct(more, y)
    requires forall n :: Queued(more, y, n) ==> !Queued(list, y, n)
    ensures Distinct(list + more, y)
  {
    if list == [] {
      assert list + more == more;
    } else {
      var tail := list[1..];
      forall n | Queued(more, y, n) ensures !Queued(tail, y, n) {
        assert !Queued(list, y, n);
      }
      DistinctAppend(tail, more, y);
      assert (list + more)[1..] == tail + more;
      if list[0].addr == y && list[0].packet.Data? {
        QueuedAppend(tail, more, y, list[0].packet.seg.num);
        assert Queued(list, y, list[0].packet.seg.num);
      }
    }
  }

  /** The numbers of freshly queued packets. */
  lemma NodesQueued(to: Addr, first: int, frags: seq<seq<byte>>, y: Addr, n: int)
    ensures Queued(Nodes(to, first, frags), y, n) <==> y == to && first <= n < first + |frags|
  {
    var list := Nodes(to, first, frags);
    QueuedIn(list, y, n);
    if y == to && first <= n < first + |frags| {
      assert IsData(list[n - first], y, n);
    }
  }

  lemma {:induction false} NodesDistinct(to: Addr, first: int, frags: seq<seq<byte>>, y: Addr)
    ensures Distinct(Nodes(to, first, frags), y)
    decreases |frags|
  {
    if frags != [] {
      NodesDistinct(to, first + 1, frags[1..], y);
      assert Nodes(to, first, frags)[1..] == Nodes(to, first + 1, frags[1..]);
      NodesQueued(to, first + 1, frags[1..], to, first);
    }
  }

  /** The pending packet an acknowledgement of `n` would erase. */
  function Hit(list: seq<Node>, n: int): Option<Node> {
    if list == [] then None
    else if Num(list[0].packet) == n then Some(list[0])
    else Hit(list[1..], n)
  }

  lemma {:induction false} HitNumber(list: seq<Node>, n: int)
    ensures Hit(list, n).Some? ==> Num(Hit(list, n).value.packet) == n && Hit(list, n).value in list
  {
    if list != [] {
      HitNumber(list[1..], n);
    }
  }

  /** An acknowledgement adds nothing to the list and takes nothing from it but what it hits. */
  lemma {:induction false} AckedQueued(list: seq<Node>, n: int, y: Addr, m: int)
    ensures Queued(Acked(list, n), y, m) ==> Queued(list, y, m)
    ensures Queued(list, y, m) ==> Queued(Acked(list, n), y, m) || (Hit(list, n).Some? && IsData(Hit(list, n).value, y, m))
  {
    if list != [] && Num(list[0].packet) != n {
      AckedQueued(list[1..], n, y, m);
      assert Acked(list, n)[1..] == Acked(list[1..], n);
    }
  }

  /** Where no data packet for y is pending twice, what it hits is gone. */
  lemma {:induction false} AckedOnce(list: seq<Node>, n: int, y: Addr)
    requires Distinct(list, y)
    ensures Distinct(Acked(list, n), y)
    ensures Hit(list, n).Some? && IsData(Hit(list, n).value, y, n) ==> !Queued(Acked(list, n), y, n)
  {
    if list != [] && Num(list[0].packet) != n {
      AckedOnce(list[1..], n, y);
      assert Acked(list, n)[1..] == Acked(list[1..], n);
      if list[0].packet.Data? {
        AckedQueued(list[1..], n, y, list[0].packet.seg.num);
      }
    }
  }

  // ---------------------------------------------------------------- honest acknowledgements

  /** No packet from x to y is pending twice, and y has acknowledged only what it has noted. The
      acknowledgements of handshake packets carry number 0. */
  ghost predicate Honest(w: World, x: Addr, y: Addr) {
    && Distinct(w.pending(x), y)
    && (forall d :: d in w.net && d.src == y && d.dst == x && d.packet.Ack? ==>
          d.packet.num == 0 || Received(w.conn(y, x), d.packet.num))
  }

  /** Nothing noted is forgotten, and nothing unnoted is acknowledged. */
  ghost predicate Noting(w: World, v: World, x: Addr, y: Addr) {
    && (forall n :: Received(w.conn(y, x), n) ==> Received(v.conn(y, x), n))
    && (forall d :: d in v.net && d.src == y && d.dst == x && d.packet.Ack? ==>
          d in w.net || d.packet.num == 0 || Received(v.conn(y, x), d.packet.num))
  }

  lemma HandleNoting(w: World, d: Datagram, x: Addr, y: Addr)
    requires Safe(w, x, y) && d in w.net && !Disturbs(w, Deliver(d), x, y)
    ensures Noting(w, DoHandle(w, d), x, y)
  {
    assert Legit(w, d.src, d.dst, d.packet);
    if d.packet.Data? && d.src == x && d.dst == y {
      forall n ensures Received(OnData(w.conn(y, x), d.packet.seg), n) <==> Received(w.conn(y, x), n) || n == d.packet.seg.num {
        OnDataReceived(w.conn(y, x), d.packet.seg, n);
      }
    }
  }

  lemma StepNoting(w: World, e: Event, x: Addr, y: Addr)
    requires Safe(w, x, y) && Enabled(w, e) && !Disturbs(w, e, x, y)
    ensures Noting(w, Step(w, e), x, y)
  {
    match e
    case Deliver(d) =>
      match w.role(d.dst) {
        case Unconnected =>
        case Connecting(_) =>
          ReplyExpected(w, d);
          assert Linked(w, d.dst, d.src);
        case _ => HandleNoting(w, d, x, y);
      }
    case Transmit(a, i) => assert w.pending(a)[i] in w.pending(a);
    case _ =>
  }

  lemma SubmitDistinct(w: World, x: Addr, z: Addr, buf: seq<byte>, y: Addr)
    requires Safe(w, x, y) && Distinct(w.pending(x), y) && Enabled(w, Submit(x, z, buf))
    ensures Distinct(DoSubmit(w, x, z, buf).pending(x), y)
  {
    var list, first, frags := w.pending(x), w.conn(x, z).nextSend, Fragments(buf);
    SubmitPeers(w, x, z);
    NodesDistinct(z, first, frags, y);
    forall n | Queued(Nodes(z, first, frags), y, n) ensures !Queued(list, y, n) {
      NodesQueued(z, first, frags, y, n);
      QueuedIn(list, y, n);
    }
    DistinctAppend(list, Nodes(z, first, frags), y);
  }

  lemma StepDistinct(w: World, e: Event, x: Addr, y: Addr)
    requires Safe(w, x, y) && Distinct(w.pending(x), y) && Enabled(w, e)
    ensures Distinct(Step(w, e).pending(x), y)
  {
    var list := w.pending(x);
    match e
    case Connect(a, b) => DistinctAppend(list, [Node(b, Establish1(0))], y);
    case Submit(a, b, buf) =>
      if a == x {
        SubmitDistinct(w, x, b, buf, y);
      }
    case Deliver(d) =>
      if d.packet.Establish1? {
        DistinctAppend(list, [Node(d.src, Establish2(0))], y);
      } else if d.packet.Ack? {
        AckedOnce(list, d.packet.num, y);
      }
    case _ =>
  }

  lemma StepHonest(w: World, e: Event, x: Addr, y: Addr)
    requires Safe(w, x, y) && Honest(w, x, y) && Enabled(w, e) && !Disturbs(w, e, x, y)
    ensures Honest(Step(w, e), x, y)
  {
    StepDistinct(w, e, x, y);
    StepNoting(w, e, x, y);
  }

  // ---------------------------------------------------------------- nothing is forgotten

  /** Every packet from x to y is noted by y or pending at x. */
  ghost predicate Kept(w: World, x: Addr, y: Addr) {
    forall n :: 1 <= n <= |w.log(x, y)| ==> Received(w.conn(y, x), n) || Queued(w.pending(x), y, n)
  }

  /** The step is an acknowledgement that erases a packet from x to y which y has not noted. */
  predicate Misfires(w: World, e: Event, x: Addr, y: Addr) {
    && e.Deliver? && e.d.packet.Ack? && e.d.dst == x
    && var n := e.d.packet.num;
    var hit := Hit(w.pending(x), n);
    hit.Some? && IsData(hit.value, y, n) && !Received(w.conn(y, x), n)
  }

  lemma SubmitKept(w: World, a: Addr, b: Addr, buf: seq<byte>, x: Addr, y: Addr)
    requires Safe(w, x, y) && Kept(w, x, y) && Enabled(w, Submit(a, b, buf))
    ensures Kept(DoSubmit(w, a, b, buf), x, y)
  {
    var v, first, frags := DoSubmit(w, a, b, buf), w.conn(a, b).nextSend, Fragments(buf);
    SubmitPeers(w, a, b);
    forall n | 1 <= n <= |v.log(x, y)| ensures Received(v.conn(y, x), n) || Queued(v.pending(x), y, n) {
      QueuedAppend(w.pending(a), Nodes(b, first, frags), y, n);
      NodesQueued(b, first, frags, y, n);
    }
  }

  /** A connecting client has no data pending that could be dropped with the list. */
  lemma FinishKept(w: World, d: Datagram, x: Addr, y: Addr)
    requires Safe(w, x, y) && Kept(w, x, y) && d in w.net && w.role(d.dst).Connecting?
    ensures Kept(DoDeliver(w, d), x, y)
  {
    StepNoting(w, Deliver(d), x, y);
    assert Linked(w, x, y);
    assert d.dst == x ==> w.log(x, y) == [];
  }

  lemma HandleKept(w: World, d: Datagram, x: Addr, y: Addr)
    requires Safe(w, x, y) && Kept(w, x, y) && d in w.net
    requires !Disturbs(w, Deliver(d), x, y) && !Misfires(w, Deliver(d), x, y)
    ensures Kept(DoHandle(w, d), x, y)
  {
    var v, list := DoHandle(w, d), w.pending(x);
    HandleNoting(w, d, x, y);
    forall n | 1 <= n <= |v.log(x, y)| ensures Received(v.conn(y, x), n) || Queued(v.pending(x), y, n) {
      QueuedAppend(list, [Node(d.src, Establish2(0))], y, n);
      AckedQueued(list, Num(d.packet), y, n);
      HitNumber(list, Num(d.packet));
    }
  }

  /** Every step but a reset or a misfire of this direction keeps each of its packets. */
  lemma StepKept(w: World, e: Event, x: Addr, y: Addr)
    requires Safe(w, x, y) && Kept(w, x, y) && Enabled(w, e) && !Disturbs(w, e, x, y) && !Misfires(w, e, x, y)
    ensures Kept(Step(w, e), x, y)
  {
    match e
    case Connect(a, b) =>
      forall n ensures Queued(w.pending(x), y, n) ==> Queued(Step(w, e).pending(x), y, n) {
        QueuedAppend(w.pending(x), [Node(b, Establish1(0))], y, n);
      }
    case Submit(a, b, buf) => SubmitKept(w, a, b, buf, x, y);
    case Transmit(a, i) =>
    case Fetch(a, b, max) => StepNoting(w, e, x, y);
    case Deliver(d) =>
      match w.role(d.dst) {
        case Unconnected =>
        case Connecting(_) => FinishKept(w, d, x, y);
        case _ => HandleKept(w, d, x, y);
      }
  }

  /** An acknowledgement keeps the packets from x to y if and only if it does not misfire. */
  lemma AckKeptIff(w: World, d: Datagram, x: Addr, y: Addr)
    requires Safe(w, x, y) && Honest(w, x, y) && Kept(w, x, y) && d in w.net && d.packet.Ack?
    ensures Kept(DoDeliver(w, d), x, y) <==> !Misfires(w, Deliver(d), x, y)
  {
    var list, n := w.pending(x), d.packet.num;
    if !Misfires(w, Deliver(d), x, y) {
      StepKept(w, Deliver(d), x, y);
    } else {
      assert Legit(w, d.src, d.dst, d.packet);
      HitNumber(list, n);
      AckedOnce(list, n, y);
      assert 1 <= n <= |w.log(x, y)|;
      assert !Received(DoDeliver(w, d).conn(y, x), n) && !Queued(DoDeliver(w, d).pending(x), y, n);
    }
  }

  // ---------------------------------------------------------------- stray acknowledgements

  /** The test that the receive thread could make and does not: the packet that the
      acknowledgement erases is data for somebody else than its sender. */
  predicate Strays(w: World, d: Datagram) {
    d.packet.Ack? &&
    var hit := Hit(w.pending(d.dst), d.packet.num);
    hit.Some? && hit.value.packet.Data? && hit.value.addr != d.src
  }

  /** Only a stray acknowledgement misfires, and it does so exactly when the addressee of the
      packet it erases has not noted that packet. */
  lemma MisfiresIff(w: World, d: Datagram, x: Addr, y: Addr)
    requires Safe(w, x, y) && Honest(w, x, y) && d in w.net && d.packet.Ack?
    ensures Misfires(w, Deliver(d), x, y) <==>
            && Strays(w, d) && d.dst == x && Hit(w.pending(x), d.packet.num).value.addr == y
            && !Received(w.conn(y, x), d.packet.num)
  {
    HitNumber(w.pending(x), d.packet.num);
  }

  /** No acknowledgement strays at a client: all it ever has pending is for its server. */
  lemma ClientNeverStrays(w: World, d: Datagram)
    requires Wired(w) && d in w.net && w.role(d.dst) != Server
    ensures !Strays(w, d)
  {
    if d.packet.Ack? {
      HitNumber(w.pending(d.dst), d.packet.num);
      assert Legit(w, d.src, d.dst, d.packet);
    }
  }

  // ---------------------------------------------------------------- whole runs

  /** No acknowledgement erases a packet from x to y that y has not noted. */
  ghost predicate NoMisfire(w: World, es: seq<Event>, x: Addr, y: Addr)
    requires Run(w, es)
    decreases |es|
  {
    es == [] || (!Misfires(w, es[0], x, y) && NoMisfire(Step(w, es[0]), es[1..], x, y))
  }

  /** No acknowledgement for x strays. */
  ghost predicate NoStray(w: World, es: seq<Event>, x: Addr)
    requires Run(w, es)
    decreases |es|
  {
    es == [] || (!(es[0].Deliver? && es[0].d.dst == x && Strays(w, es[0].d)) && NoStray(Step(w, es[0]), es[1..], x))
  }

  /** What every orderly run keeps. */
  ghost predicate Sound(w: World, x: Addr, y: Addr) {
    Safe(w, x, y) && Honest(w, x, y)
  }

  lemma InitSound(w: World, x: Addr, y: Addr)
    requires Init(w)
    ensures Sound(w, x, y) && Kept(w, x, y)
  {
    InitSafe(w, x, y);
  }

  lemma StepSound(w: World, e: Event, x: Addr, y: Addr)
    requires Sound(w, x, y) && Enabled(w, e) && !Disturbs(w, e, x, y)
    ensures Sound(Step(w, e), x, y)
  {
    StepSafe(w, e, x, y);
    StepHonest(w, e, x, y);
  }

  lemma {:induction false} RunSound(w: World, es: seq<Event>, x: Addr, y: Addr)
    requires Sound(w, x, y) && Run(w, es) && Orderly(w, es, x, y)
    ensures Sound(Exec(w, es), x, y)
    decreases |es|
  {
    if es != [] {
      StepSound(w, es[0], x, y);
      RunSound(Step(w, es[0]), es[1..], x, y);
    }
  }

  /** With the test for strays in place no packet of x is lost. */
  lemma {:induction false} NoStrayNoMisfire(w: World, es: seq<Event>, x: Addr, y: Addr)
    requires Sound(w, x, y) && Run(w, es) && Orderly(w, es, x, y) && NoStray(w, es, x)
    ensures NoMisfire(w, es, x, y)
    decreases |es|
  {
    if es != [] {
      if es[0].Deliver? && es[0].d.packet.Ack? {
        MisfiresIff(w, es[0].d, x, y);
      }
      StepSound(w, es[0], x, y);
      NoStrayNoMisfire(Step(w, es[0]), es[1..], x, y);
    }
  }

  /** At a client there are none, in any run. */
  lemma {:induction false} ClientNoStray(w: World, es: seq<Event>, x: Addr)
    requires Wired(w) && Run(w, es) && w.role(x) != Server
    ensures NoStray(w, es, x)
    decreases |es|
  {
    if es != [] {
      if es[0].Deliver? && es[0].d.dst == x {
        ClientNeverStrays(w, es[0].d);
      }
      StepWired(w, es[0]);
      ClientNoStray(Step(w, es[0]), es[1..], x);
    }
  }

  lemma {:induction false} RunKept(w: World, es: seq<Event>, x: Addr, y: Addr)
    requires Sound(w, x, y) && Kept(w, x, y) && Run(w, es) && Orderly(w, es, x, y) && NoMisfire(w, es, x, y)
    ensures Kept(Exec(w, es), x, y)
    decreases |es|
  {
    if es != [] {
      StepSound(w, es[0], x, y);
      StepKept(w, es[0], x, y);
      RunKept(Step(w, es[0]), es[1..], x, y);
    }
  }

  /** Nothing a client sends is ever lost, and nothing a server sends unless an acknowledgement
      misfires on it. */
  lemma NothingLost(w: World, es: seq<Event>, x: Addr, y: Addr)
    requires Init(w) && Run(w, es) && Orderly(w, es, x, y)
    requires w.role(x) == Server ==> NoMisfire(w, es, x, y)
    ensures Sound(Exec(w, es), x, y) && Kept(Exec(w, es), x, y)
  {
    InitSound(w, x, y);
    RunSound(w, es, x, y);
    if w.role(x) != Server {
      ClientNoStray(w, es, x);
      NoStrayNoMisfire(w, es, x, y);
    }
    RunKept(w, es, x, y);
  }

  /** The step makes y park a packet from x that y already parks. */
  ghost predicate Reparks(w: World, e: Event, x: Addr, y: Addr) {
    e.Deliver? && e.d.src == x && e.d.dst == y && e.d.packet.Data? && ParksAgain(w.conn(y, x), e.d.packet.seg)
  }

  ghost predicate NoRepark(w: World, es: seq<Event>, x: Addr, y: Addr)
    requires Run(w, es)
    decreases |es|
  {
    es == [] || (!Reparks(w, es[0], x, y) && NoRepark(Step(w, es[0]), es[1..], x, y))
  }

  lemma HandleClean(w: World, d: Datagram, x: Addr, y: Addr)
    requires Safe(w, x, y) && d in w.net && !Disturbs(w, Deliver(d), x, y)
    ensures Clean(DoHandle(w, d).conn(y, x)) <==> Clean(w.conn(y, x)) && !Reparks(w, Deliver(d), x, y)
  {
    if d.src == x && d.dst == y {
      assert Legit(w, x, y, d.packet);
      if d.packet.Data? {
        OnDataCleanIff(w.conn(y, x), d.packet.seg);
      } else if d.packet.Establish1? {
        CleanHello(w.conn(y, x), w.log(x, y), w.taken(y, x));
      }
    }
  }

  /** Opening a connection does not disturb its (empty) parking list. */
  lemma CleanHello(c: Conn, log: seq<seq<byte>>, taken: seq<byte>)
    requires Receiving(c, log, taken) && c.nextRecv <= 1
    ensures forall n :: Clean(c.(nextSend := n, nextRecv := 1)) <==> Clean(c)
  {
  }

  /** A step leaves a receiver clean exactly when it was and no packet is parked again. */
  lemma StepClean(w: World, e: Event, x: Addr, y: Addr)
    requires Safe(w, x, y) && Enabled(w, e) && !Disturbs(w, e, x, y)
    ensures Clean(Step(w, e).conn(y, x)) <==> Clean(w.conn(y, x)) && !Reparks(w, e, x, y)
  {
    if e.Deliver? {
      assert Legit(w, e.d.src, e.d.dst, e.d.packet);
      if w.role(e.d.dst).Connecting? {
        ReplyExpected(w, e.d);
        assert Linked(w, e.d.dst, e.d.src);
      } else {
        HandleClean(w, e.d, x, y);
      }
    }
  }

  lemma {:induction false} RunClean(w: World, es: seq<Event>, x: Addr, y: Addr)
    requires Safe(w, x, y) && Run(w, es) && Orderly(w, es, x, y)
    ensures Clean(Exec(w, es).conn(y, x)) <==> Clean(w.conn(y, x)) && NoRepark(w, es, x, y)
    decreases |es|
  {
    if es != [] {
      StepSafe(w, es[0], x, y);
      StepClean(w, es[0], x, y);
      RunClean(Step(w, es[0]), es[1..], x, y);
    }
  }

  /** All x wrote for y has reached y's application or waits for it, and nothing is parked. */
  ghost predicate Complete(v: World, x: Addr, y: Addr) {
    v.conn(y, x).parked == [] && v.taken(y, x) + v.conn(y, x).stream == v.written(x, y)
  }

  lemma CompleteReceived(v: World, x: Addr, y: Addr, n: int)
    requires Safe(v, x, y) && Complete(v, x, y) && 1 <= n <= |v.log(x, y)|
    ensures Received(v.conn(y, x), n)
  {
    var log, m := v.log(x, y), v.conn(y, x).nextRecv;
    if m > 0 {
      JoinedGrows(log, m - 1, |log|);
    }
  }

  lemma CompleteIff(v: World, x: Addr, y: Addr)
    requires Safe(v, x, y)
    ensures Complete(v, x, y) <==> Clean(v.conn(y, x)) && ReceivedUpTo(v.conn(y, x), |v.log(x, y)|)
  {
    if Complete(v, x, y) {
      forall n | 1 <= n <= |v.log(x, y)| ensures Received(v.conn(y, x), n) {
        CompleteReceived(v, x, y, n);
      }
    } else if v.conn(y, x).nextRecv > 0 && ReceivedUpTo(v.conn(y, x), |v.log(x, y)|) {
      DeliveredAllIff(v.conn(y, x), v.log(x, y), v.taken(y, x));
    }
  }

  /** In any run that is orderly from x to y, whatever befalls other connections: all x wrote has
      reached y's application or waits for it, with nothing left parked, if and only if every
      packet has arrived at least once and y never parked a packet it was already parking. */
  lemma ArrivedIff(w: World, es: seq<Event>, x: Addr, y: Addr)
    requires Init(w) && Run(w, es) && Orderly(w, es, x, y)
    ensures var v := Exec(w, es);
            Complete(v, x, y) <==> NoRepark(w, es, x, y) && ReceivedUpTo(v.conn(y, x), |v.log(x, y)|)
  {
    InitSafe(w, x, y);
    RunSafe(w, es, x, y);
    RunClean(w, es, x, y);
    CompleteIff(Exec(w, es), x, y);
  }

  /** Whole-run delivery. Suppose in addition that x has no data for y pending any more and, if x
      is a server, that no acknowledgement misfired on a packet from x to y. Then everything has
      come out if and only if nothing was ever parked twice. */
  lemma DeliveredIff(w: World, es: seq<Event>, x: Addr, y: Addr)
    requires Init(w) && Run(w, es) && Orderly(w, es, x, y)
    requires w.role(x) == Server ==> NoMisfire(w, es, x, y)
    requires forall n :: !Queued(Exec(w, es).pending(x), y, n)
    ensures Complete(Exec(w, es), x, y) <==> NoRepark(w, es, x, y)
  {
    NothingLost(w, es, x, y);
    ArrivedIff(w, es, x, y);
  }
}
