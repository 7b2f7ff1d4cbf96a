/** Reliable order: what each application receives is a prefix of what the other one sent. The
    argument is about one direction of one connection and does not depend on what befalls
    others. */
module Delivery {
  import opened Bytes
  import opened Segments
  import opened Receiver
  import opened Network
  import opened Handshake

  /** A receiver before and after its connection was opened. */
  ghost predicate Receiving(c: Conn, log: seq<seq<byte>>, taken: seq<byte>) {
    if c.nextRecv == 0 then log == [] && c.parked == [] && c.stream == [] && taken == []
    else Consistent(c, log) && Delivered(c, log, taken)
  }

  /** What holds of the bytes travelling from x to y. */
  ghost predicate Pair(w: World, x: Addr, y: Addr) {
    var log := w.log(x, y);
    && (w.conn(x, y).nextSend == |log| + 1 || (w.conn(x, y).nextSend == 0 && log == []))
    && Receiving(w.conn(y, x), log, w.taken(y, x))
    && w.written(x, y) == Flatten(log)
    && NoneEmpty(log)
    && (forall node :: node in w.pending(x) && node.addr == y && node.packet.Data? ==> Authentic(node.packet.seg, log))
    && (forall d :: d in w.net && d.src == x && d.dst == y && d.packet.Data? ==> Authentic(d.packet.seg, log))
  }

  ghost predicate Safe(w: World, x: Addr, y: Addr) {
    Wired(w) && Pair(w, x, y)
  }

  /** A first-handshake packet sets back a counter in use for the bytes from x to y: if x is the
      client, the number y expects; if x is the server, the number x gives to its next packet.
      Either is a test that the server could make on its own record. */
  predicate Disturbs(w: World, e: Event, x: Addr, y: Addr) {
    && e.Deliver? && e.d.packet.Establish1?
    && (|| (e.d.src == x && e.d.dst == y && w.conn(y, x).nextRecv > 1)
        || (e.d.src == y && e.d.dst == x && w.conn(x, y).nextSend > 1))
  }

  lemma InitSafe(w: World, x: Addr, y: Addr)
    requires Init(w)
    ensures Safe(w, x, y)
  {
    InitWired(w);
  }

  lemma ConnectPair(w: World, a: Addr, b: Addr, x: Addr, y: Addr)
    requires Safe(w, x, y) && Enabled(w, Connect(a, b))
    ensures Pair(DoConnect(w, a, b), x, y)
  {
    assert Linked(w, a, b);
  }

  lemma SubmitPair(w: World, a: Addr, b: Addr, buf: seq<byte>, x: Addr, y: Addr)
    requires Safe(w, x, y) && Enabled(w, Submit(a, b, buf))
    ensures Pair(DoSubmit(w, a, b, buf), x, y)
  {
    if a == x && b == y {
      SubmitPeers(w, x, y);
      SubmitOwnPair(w, x, y, buf);
    } else {
      SubmitOtherPair(w, a, b, buf, x, y);
    }
  }

  lemma SubmitOtherPair(w: World, a: Addr, b: Addr, buf: seq<byte>, x: Addr, y: Addr)
    requires Pair(w, x, y) && (x != a || y != b)
    ensures Pair(DoSubmit(w, a, b, buf), x, y)
  {
    if x == a {
      assert forall node :: node in Nodes(b, w.conn(a, b).nextSend, Fragments(buf)) ==> node.addr == b;
    }
  }

  lemma SubmitOwnPair(w: World, x: Addr, y: Addr, buf: seq<byte>)
    requires Pair(w, x, y) && x != y && Open(w.conn(x, y)) && Open(w.conn(y, x))
    ensures Pair(DoSubmit(w, x, y, buf), x, y)
  {
    var log, frags := w.log(x, y), Fragments(buf);
    LogGrows(log, buf);
    ReceiverExtends(w.conn(y, x), log, frags, w.taken(y, x));
    AuthenticExtends(log, frags, y);
  }

  /** A longer log suits the receiver as well. */
  lemma ReceiverExtends(c: Conn, log: seq<seq<byte>>, frags: seq<seq<byte>>, taken: seq<byte>)
    requires Consistent(c, log) && Delivered(c, log, taken)
    ensures Consistent(c, log + frags) && Delivered(c, log + frags, taken)
  {
    JoinedPrefix(log, frags, c.nextRecv - 1);
  }

  lemma LogGrows(log: seq<seq<byte>>, buf: seq<byte>)
    ensures Flatten(log + Fragments(buf)) == Flatten(log) + buf
    ensures NoneEmpty(log) ==> NoneEmpty(log + Fragments(buf))
  {
    FragmentsRoundTrip(buf);
    FlattenAppend(log, Fragments(buf));
  }

  lemma AuthenticExtends(log: seq<seq<byte>>, frags: seq<seq<byte>>, y: Addr)
    ensures forall s :: Authentic(s, log) ==> Authentic(s, log + frags)
    ensures forall node :: node in Nodes(y, |log| + 1, frags) ==> Authentic(node.packet.seg, log + frags)
  {
    forall node | node in Nodes(y, |log| + 1, frags) ensures Authentic(node.packet.seg, log + frags) {
      assert node.packet.seg.data == (log + frags)[node.packet.seg.num - 1];
    }
  }

  lemma HandlePair(w: World, d: Datagram, x: Addr, y: Addr)
    requires Safe(w, x, y) && d in w.net && !Disturbs(w, Deliver(d), x, y)
    ensures Pair(DoHandle(w, d), x, y)
  {
    assert Legit(w, d.src, d.dst, d.packet);
    match d.packet
    case Establish1(n) => HelloPair(w, d, x, y);
    case Establish2(n) =>
    case Ack(n) => AckedSubset(w.pending(d.dst), n);
    case Data(s) => DataPair(w, d, x, y);
  }

  lemma HelloPair(w: World, d: Datagram, x: Addr, y: Addr)
    requires Safe(w, x, y) && d in w.net && d.packet.Establish1? && !Disturbs(w, Deliver(d), x, y)
    ensures Pair(DoHandle(w, d), x, y)
  {
    assert Legit(w, d.src, d.dst, d.packet);
    if d.src == x && d.dst == y {
      assert Receiving(w.conn(y, x).(nextSend := 1, nextRecv := 1), w.log(x, y), w.taken(y, x));
    }
  }

  lemma DataPair(w: World, d: Datagram, x: Addr, y: Addr)
    requires Safe(w, x, y) && d in w.net && d.packet.Data?
    ensures Pair(DoHandle(w, d), x, y)
  {
    if d.src == x && d.dst == y {
      OwnDataPair(w, d, x, y);
    } else {
      OnDataForward(w.conn(d.dst, d.src), d.packet.seg);
    }
  }

  lemma OwnDataPair(w: World, d: Datagram, x: Addr, y: Addr)
    requires Safe(w, x, y) && d in w.net && d.packet.Data? && d.src == x && d.dst == y
    ensures Pair(DoHandle(w, d), x, y)
  {
    assert Legit(w, x, y, d.packet) && Linked(w, y, x);
    OnDataStream(w.conn(y, x), d.packet.seg, w.log(x, y), w.taken(y, x));
    assert x != y;
  }

  lemma FinishPair(w: World, d: Datagram, x: Addr, y: Addr)
    requires Safe(w, x, y) && d in w.net && w.role(d.dst).Connecting?
    ensures Pair(DoDeliver(w, d), x, y)
  {
    ReplyExpected(w, d);
    assert Linked(w, d.dst, d.src);
  }

  lemma FetchPair(w: World, a: Addr, b: Addr, max: nat, x: Addr, y: Addr)
    requires Pair(w, x, y)
    ensures Pair(DoFetch(w, a, b, max), x, y)
  {
    if x == b && y == a {
      var s := w.conn(y, x).stream;
      var k := Min(|s|, max);
      assert s == s[..k] + s[k..];
      Associative(w.taken(y, x), s[..k], s[k..]);
    }
  }

  /** `Recv` hands over as much as is waiting and wanted, from the front. */
  lemma FetchTakes(w: World, x: Addr, y: Addr, max: nat)
    ensures var v, c := DoFetch(w, x, y, max), w.conn(x, y);
            && w.taken(x, y) <= v.taken(x, y)
            && |v.taken(x, y)| == |w.taken(x, y)| + Min(|c.stream|, max)
            && v.taken(x, y) + v.conn(x, y).stream == w.taken(x, y) + c.stream
            && v.conn(x, y) == c.(stream := v.conn(x, y).stream)
  {
    var s := w.conn(x, y).stream;
    var k := Min(|s|, max);
    assert s == s[..k] + s[k..];
    Associative(w.taken(x, y), s[..k], s[k..]);
  }

  /** Every step that does not set back a counter of this direction keeps it safe. */
  lemma StepSafe(w: World, e: Event, x: Addr, y: Addr)
    requires Safe(w, x, y) && Enabled(w, e) && !Disturbs(w, e, x, y)
    ensures Safe(Step(w, e), x, y)
  {
    StepWired(w, e);
    match e
    case Connect(a, b) => ConnectPair(w, a, b, x, y);
    case Submit(a, b, buf) => SubmitPair(w, a, b, buf, x, y);
    case Transmit(a, i) =>
    case Fetch(a, b, max) => FetchPair(w, a, b, max, x, y);
    case Deliver(d) =>
      match w.role(d.dst) {
        case Unconnected =>
        case Connecting(_) => FinishPair(w, d, x, y);
        case _ => HandlePair(w, d, x, y);
      }
  }

  // ---------------------------------------------------------------- whole runs

  /** No first-handshake packet sets back a counter in use for the bytes from x to y. Other
      connections, and the other direction of this one, may be reset at any time. */
  ghost predicate Orderly(w: World, es: seq<Event>, x: Addr, y: Addr)
    requires Run(w, es)
    decreases |es|
  {
    es == [] || (!Disturbs(w, es[0], x, y) && Orderly(Step(w, es[0]), es[1..], x, y))
  }

  lemma OrderlyFirst(w: World, e: Event, es: seq<Event>, x: Addr, y: Addr)
    requires Enabled(w, e) && !Disturbs(w, e, x, y) && Run(Step(w, e), es) && Orderly(Step(w, e), es, x, y)
    ensures Run(w, [e] + es) && Orderly(w, [e] + es, x, y) && Exec(w, [e] + es) == Exec(Step(w, e), es)
  {
    assert ([e] + es)[1..] == es;
  }

  lemma {:induction false} RunSafe(w: World, es: seq<Event>, x: Addr, y: Addr)
    requires Safe(w, x, y) && Run(w, es) && Orderly(w, es, x, y)
    ensures Safe(Exec(w, es), x, y)
    decreases |es|
  {
    if es != [] {
      StepSafe(w, es[0], x, y);
      RunSafe(Step(w, es[0]), es[1..], x, y);
    }
  }

  /** What y's application got from x, followed by what waits for it, is a prefix of what x's
      application sent. */
  predicate InOrder(w: World, x: Addr, y: Addr) {
    w.taken(y, x) + w.conn(y, x).stream <= w.written(x, y)
  }

  lemma SafeInOrder(w: World, x: Addr, y: Addr)
    requires Safe(w, x, y)
    ensures InOrder(w, x, y)
  {
    if w.conn(y, x).nextRecv > 0 {
      JoinedGrows(w.log(x, y), w.conn(y, x).nextRecv - 1, |w.log(x, y)|);
    }
  }

  /** Reliable order: whatever the network does, and whatever is reset elsewhere, in every state
      of every run that is orderly from x to y the bytes y's application got from x, followed by
      those waiting for it, are a prefix of the bytes x's application sent to y. */
  lemma StreamIsPrefix(w: World, es: seq<Event>, x: Addr, y: Addr)
    requires Init(w) && Run(w, es) && Orderly(w, es, x, y)
    ensures InOrder(Exec(w, es), x, y)
  {
    InitSafe(w, x, y);
    RunSafe(w, es, x, y);
    SafeInOrder(Exec(w, es), x, y);
  }

  /** A first-handshake packet keeps the invariant of a direction if and only if it does not set
      back a counter in use for it. What a reset does to the bytes is in `Replay`. */
  lemma EstablishSafeIff(w: World, d: Datagram, x: Addr, y: Addr)
    requires Safe(w, x, y) && d in w.net && d.packet.Establish1?
    ensures Safe(DoDeliver(w, d), x, y) <==> !Disturbs(w, Deliver(d), x, y)
  {
    assert Legit(w, d.src, d.dst, d.packet);
    if !Disturbs(w, Deliver(d), x, y) {
      StepSafe(w, Deliver(d), x, y);
    } else {
      assert Joined(w.log(x, y), 0) == [];
    }
  }
}
