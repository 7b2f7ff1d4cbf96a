/** Short runs from the start in which order or delivery fails, as the exact conditions of the
    other modules say. */
module Hazards {
  import opened Bytes
  import opened Segments
  import opened Receiver
  import opened Network
  import opened Handshake
  import opened Delivery
  import opened Completion
  import opened Recovery

  // ---------------------------------------------------------------- calm runs

  /** A step that resets no connection in use and misfires on no packet. */
  ghost predicate CalmStep(w: World, e: Event) {
    forall x, y :: !Disturbs(w, e, x, y) && !Misfires(w, e, x, y)
  }

  ghost predicate Calm(w: World, es: seq<Event>)
    requires Run(w, es)
    decreases |es|
  {
    es == [] || (CalmStep(w, es[0]) && Calm(Step(w, es[0]), es[1..]))
  }

  /** v is the state after some calm run from w. */
  ghost predicate Reaches(w: World, v: World) {
    exists es :: Run(w, es) && Calm(w, es) && Exec(w, es) == v
  }

  lemma ReachesSelf(w: World)
    ensures Reaches(w, w)
  {
    assert Run(w, []) && Calm(w, []) && Exec(w, []) == w;
  }

  lemma CalmFirst(w: World, e: Event, es: seq<Event>)
    requires Enabled(w, e) && CalmStep(w, e) && Run(Step(w, e), es) && Calm(Step(w, e), es)
    ensures Run(w, [e] + es) && Calm(w, [e] + es) && Exec(w, [e] + es) == Exec(Step(w, e), es)
  {
    assert ([e] + es)[1..] == es;
  }

  lemma {:induction false} CalmLast(w: World, es: seq<Event>, e: Event)
    requires Run(w, es) && Calm(w, es) && Enabled(Exec(w, es), e) && CalmStep(Exec(w, es), e)
    ensures Run(w, es + [e]) && Calm(w, es + [e]) && Exec(w, es + [e]) == Step(Exec(w, es), e)
    decreases |es|
  {
    if es == [] {
      CalmFirst(w, e, []);
    } else {
      CalmLast(Step(w, es[0]), es[1..], e);
      CalmFirst(w, es[0], es[1..] + [e]);
      assert [es[0]] + (es[1..] + [e]) == es + [e];
    }
  }

  lemma ReachesStep(w: World, v: World, e: Event)
    requires Reaches(w, v) && Enabled(v, e) && CalmStep(v, e)
    ensures Reaches(w, Step(v, e))
  {
    var es :| Run(w, es) && Calm(w, es) && Exec(w, es) == v;
    CalmLast(w, es, e);
  }

  lemma {:induction false} CalmOrderly(w: World, es: seq<Event>, x: Addr, y: Addr)
    requires Run(w, es) && Calm(w, es)
    ensures Orderly(w, es, x, y) && NoMisfire(w, es, x, y)
    decreases |es|
  {
    if es != [] {
      CalmOrderly(Step(w, es[0]), es[1..], x, y);
    }
  }

  lemma ReachesSound(w: World, v: World, x: Addr, y: Addr)
    requires Init(w) && Reaches(w, v)
    ensures Sound(v, x, y) && Kept(v, x, y)
  {
    var es :| Run(w, es) && Calm(w, es) && Exec(w, es) == v;
    CalmOrderly(w, es, x, y);
    NothingLost(w, es, x, y);
  }

  // ---------------------------------------------------------------- the runs

  lemma OneFragment(b: byte)
    ensures Fragments([b]) == [[b]]
  {
  }

  function Hello(c: Addr, s: Addr): Datagram {
    Datagram(c, s, Establish1(0))
  }

  /** Packet `n` from c to s, with one byte in it. */
  function Sent(c: Addr, s: Addr, n: int, b: byte): Datagram {
    Datagram(c, s, Data(Segment(n, [b])))
  }

  /** s knows nothing of c yet, and neither has anything to send. */
  ghost predicate Strangers(w: World, c: Addr, s: Addr) {
    && w.role(c) == Unconnected && w.role(s) == Server
    && w.pending(c) == [] && w.pending(s) == [] && w.conn(c, s) == Blank && w.conn(s, c) == Blank
    && w.log(c, s) == [] && w.log(s, c) == [] && w.written(c, s) == []
  }

  /** c is connected and has sent one byte, which s has received and not yet acknowledged. */
  ghost predicate Greeted(w: World, c: Addr, s: Addr, b: byte) {
    && w.role(c) == Client(s) && w.role(s) == Server
    && w.pending(c) == [Node(s, Sent(c, s, 1, b).packet)] && w.pending(s) == []
    && w.conn(c, s) == Conn(2, 1, [], [], 0) && w.conn(s, c) == Conn(1, 2, [], [b], 1)
    && w.written(c, s) == [b] && w.log(s, c) == []
    && Hello(c, s) in w.net && Sent(c, s, 1, b) in w.net
  }

  /** What s and another address x share. */
  ghost predicate Same(w: World, v: World, s: Addr, x: Addr) {
    && v.conn(s, x) == w.conn(s, x) && v.conn(x, s) == w.conn(x, s)
    && v.log(s, x) == w.log(s, x) && v.log(x, s) == w.log(x, s)
    && v.written(s, x) == w.written(s, x) && v.written(x, s) == w.written(x, s)
    && v.role(x) == w.role(x) && v.pending(x) == w.pending(x)
  }

  ghost predicate Others(w: World, v: World, c: Addr, s: Addr) {
    forall x :: x != c && x != s ==> Same(w, v, s, x)
  }

  /** The handshake, step by step, and a first byte from the client. */
  lemma Greet(start: World, w: World, c: Addr, s: Addr, b: byte) returns (v: World)
    requires Reaches(start, w) && Strangers(w, c, s)
    ensures Reaches(start, v) && Greeted(v, c, s, b) && Others(w, v, c, s)
  {
    var w2 := Call(start, w, c, s);
    var w5 := Answer(start, w2, c, s);
    v := FirstByte(start, w5, c, s, b);
    forall x | x != c && x != s ensures Same(w, v, s, x) {
      assert Same(w, w2, s, x) && Same(w2, w5, s, x) && Same(w5, v, s, x);
    }
  }

  /** The first handshake packet has reached s. */
  ghost predicate CalledOn(w: World, c: Addr, s: Addr) {
    && w.role(c) == Connecting(s) && w.role(s) == Server
    && w.pending(s) == [Node(c, Establish2(0))]
    && w.conn(s, c) == Conn(1, 1, [], [], 0) && w.conn(c, s) == Blank.(nextSend := 1)
    && w.log(s, c) == [] && w.written(c, s) == [] && Hello(c, s) in w.net
  }

  lemma Call(start: World, w: World, c: Addr, s: Addr) returns (v: World)
    requires Reaches(start, w) && Strangers(w, c, s)
    ensures Reaches(start, v) && CalledOn(v, c, s) && Others(w, v, c, s)
  {
    var w1 := Step(w, Connect(c, s));
    ReachesStep(start, w, Connect(c, s));
    assert w1.conn(s, c) == Blank;
    v := Step(w1, Deliver(Hello(c, s)));
    ReachesStep(start, w1, Deliver(Hello(c, s)));
  }

  lemma Answer(start: World, w: World, c: Addr, s: Addr) returns (v: World)
    requires Reaches(start, w) && CalledOn(w, c, s)
    ensures Reaches(start, v) && Acquainted(v, c, s) && Others(w, v, c, s)
  {
    var reply, ack := Datagram(s, c, Establish2(0)), Datagram(c, s, Ack(0));
    var w1 := Step(w, Transmit(s, 0));
    ReachesStep(start, w, Transmit(s, 0));
    var w2 := Step(w1, Deliver(reply));
    ReachesStep(start, w1, Deliver(reply));
    assert w2.conn(c, s) == Conn(1, 1, [], [], 0) && ack in w2.net;
    v := Step(w2, Deliver(ack));
    ReachesStep(start, w2, Deliver(ack));
  }

  /** Connected, with nothing pending. */
  ghost predicate Acquainted(w: World, c: Addr, s: Addr) {
    && w.role(c) == Client(s) && w.role(s) == Server && w.pending(c) == [] && w.pending(s) == []
    && w.conn(c, s) == w.conn(s, c) == Conn(1, 1, [], [], 0)
    && w.log(s, c) == [] && w.written(c, s) == [] && Hello(c, s) in w.net
  }

  lemma FirstByte(start: World, w: World, c: Addr, s: Addr, b: byte) returns (v: World)
    requires Reaches(start, w) && Acquainted(w, c, s)
    ensures Reaches(start, v) && Greeted(v, c, s, b) && Others(w, v, c, s)
  {
    OneFragment(b);
    var data := Sent(c, s, 1, b);
    var w1 := Step(w, Submit(c, s, [b]));
    ReachesStep(start, w, Submit(c, s, [b]));
    assert w1.pending(c) == [Node(s, data.packet)] && w1.written(c, s) == [b];
    var w2 := Step(w1, Transmit(c, 0));
    ReachesStep(start, w1, Transmit(c, 0));
    v := Step(w2, Deliver(data));
    ReachesStep(start, w2, Deliver(data));
    assert v.conn(s, c) == Conn(1, 2, [], [b], 1);
  }

  /** A second copy of the first handshake packet arrives after the first data packet: the
      server then takes a repeated data packet for the next one, and the byte the client sent
      once comes out twice. */
  lemma LateHandshakeRepeatsData(w: World, c: Addr, s: Addr) returns (v: World)
    requires Init(w) && w.role(c) == Unconnected && w.role(s) == Server
    ensures Reaches(w, v) && Hello(c, s) in v.net && Sent(c, s, 1, 65) in v.net
    ensures var u := DoDeliver(DoDeliver(v, Hello(c, s)), Sent(c, s, 1, 65));
            u.written(c, s) == [65] && u.conn(s, c).stream == [65, 65]
  {
    ReachesSelf(w);
    v := Greet(w, w, c, s, 65);
    var u := DoDeliver(v, Hello(c, s));
    assert u.conn(s, c) == Conn(1, 1, [], [65], 1);
    assert DoDeliver(u, Sent(c, s, 1, 65)).conn(s, c) == Conn(1, 2, [], [65, 65], 1);
  }

  /** A second copy of the first handshake packet arrives after the server has sent an answer: the
      next answer gets the same number, and the client receives it in the place of the first. */
  lemma LateHandshakeSwapsAnswers(w: World, c: Addr, s: Addr) returns (v: World, es: seq<Event>)
    requires Init(w) && w.role(c) == Unconnected && w.role(s) == Server
    ensures Reaches(w, v) && Run(v, es) && es != [] && es[0] == Deliver(Hello(c, s))
    ensures var u := Exec(v, es); u.written(s, c) == [1, 2] && u.taken(c, s) + u.conn(c, s).stream == [2]
  {
    ReachesSelf(w);
    var w0 := Greet(w, w, c, s, 65);
    v := FirstAnswer(w, w0, c, s);
    es := SecondAnswer(v, c, s);
  }

  /** s has sent c the byte 1, which is still pending. */
  ghost predicate Answering(w: World, c: Addr, s: Addr) {
    && w.role(c) == Client(s) && w.role(s) == Server && Hello(c, s) in w.net
    && w.pending(s) == [Node(c, Sent(s, c, 1, 1).packet)]
    && w.conn(s, c) == Conn(2, 2, [], [65], 1) && w.conn(c, s) == Conn(2, 1, [], [], 0)
    && w.written(s, c) == [1] && w.taken(c, s) == []
  }

  lemma FirstAnswer(start: World, w: World, c: Addr, s: Addr) returns (v: World)
    requires Init(start) && Reaches(start, w) && Greeted(w, c, s, 65)
    ensures Reaches(start, v) && Answering(v, c, s)
  {
    OneFragment(1);
    ReachesSound(start, w, s, c);
    v := Step(w, Submit(s, c, [1]));
    ReachesStep(start, w, Submit(s, c, [1]));
    assert w.written(s, c) == [] && w.taken(c, s) + [] == [];
    assert v.pending(s) == [Node(c, Sent(s, c, 1, 1).packet)];
  }

  lemma SecondAnswer(v: World, c: Addr, s: Addr) returns (es: seq<Event>)
    requires Answering(v, c, s)
    ensures Run(v, es) && es != [] && es[0] == Deliver(Hello(c, s))
    ensures var u := Exec(v, es); u.written(s, c) == [1, 2] && u.taken(c, s) + u.conn(c, s).stream == [2]
  {
    OneFragment(2);
    var data := Sent(s, c, 1, 2);
    var v1 := Step(v, Deliver(Hello(c, s)));
    assert v1.conn(s, c) == Conn(1, 1, [], [65], 1) && v1.conn(c, s) == v.conn(c, s);
    var v2 := Step(v1, Submit(s, c, [2]));
    assert v2.pending(s)[2] == Node(c, data.packet) && v2.written(s, c) == [1] + [2];
    var v3 := Step(v2, Transmit(s, 2));
    var v4 := Step(v3, Deliver(data));
    assert v4.conn(c, s) == Conn(2, 2, [], [2], 1);
    RunFirst(v3, Deliver(data), []);
    RunFirst(v2, Transmit(s, 2), [Deliver(data)] + []);
    RunFirst(v1, Submit(s, c, [2]), [Transmit(s, 2)] + ([Deliver(data)] + []));
    RunFirst(v, Deliver(Hello(c, s)), [Submit(s, c, [2])] + ([Transmit(s, 2)] + ([Deliver(data)] + [])));
    es := [Deliver(Hello(c, s))] + ([Submit(s, c, [2])] + ([Transmit(s, 2)] + ([Deliver(data)] + [])));
  }

  /** The network repeats packet 3 while packet 2 is late. From then on no orderly continuation
      delivers all that the client has sent, although nothing was lost. */
  lemma RepeatedPacketStalls(w: World, c: Addr, s: Addr) returns (v: World)
    requires Init(w) && w.role(c) == Unconnected && w.role(s) == Server
    ensures Reaches(w, v) && v.written(c, s) == [11, 22, 33]
    ensures Kept(v, c, s) && !Deliverable(v, c, s)
  {
    ReachesSelf(w);
    var w0 := Greet(w, w, c, s, 11);
    var w3 := TwoMore(w, w0, c, s);
    var d3 := Sent(c, s, 3, 33);
    var w4 := Step(w3, Deliver(d3));
    ReachesStep(w, w3, Deliver(d3));
    assert w4.conn(s, c) == Conn(1, 2, [d3.packet.seg], [11], 1);
    v := Step(w4, Deliver(d3));
    ReachesStep(w, w4, Deliver(d3));
    ReachesSound(w, w4, c, s);
    ReachesSound(w, v, c, s);
    StepClean(w4, Deliver(d3), c, s);
    DeliverableIff(v, c, s);
  }

  /** Packets 2 and 3 are queued and packet 3 is transmitted. */
  lemma TwoMore(start: World, w: World, c: Addr, s: Addr) returns (v: World)
    requires Reaches(start, w) && Greeted(w, c, s, 11)
    ensures Reaches(start, v) && v.written(c, s) == [11, 22, 33] && v.role(s) == Server
    ensures v.conn(s, c) == Conn(1, 2, [], [11], 1) && Sent(c, s, 3, 33) in v.net
  {
    OneFragment(22);
    OneFragment(33);
    var d1, d2, d3 := Sent(c, s, 1, 11), Sent(c, s, 2, 22), Sent(c, s, 3, 33);
    var w1 := Step(w, Submit(c, s, [22]));
    ReachesStep(start, w, Submit(c, s, [22]));
    assert w1.pending(c) == [Node(s, d1.packet), Node(s, d2.packet)] && w1.conn(s, c) == w.conn(s, c);
    var w2 := Step(w1, Submit(c, s, [33]));
    ReachesStep(start, w1, Submit(c, s, [33]));
    assert w2.pending(c)[2] == Node(s, d3.packet) && w2.conn(s, c) == w.conn(s, c);
    assert w2.written(c, s) == [11] + [22] + [33];
    v := Step(w2, Transmit(c, 2));
    ReachesStep(start, w2, Transmit(c, 2));
  }

  /** The acknowledgement of z is about to erase s's packet for y. After it the packet is not
      received, not pending, and not on the network. */
  ghost predicate AnswerLost(u: World, s: Addr, y: Addr, z: Addr) {
    var ack := Datagram(z, s, Ack(1));
    var v := DoDeliver(u, ack);
    && ack in u.net && Misfires(u, Deliver(ack), s, y)
    && v.written(s, y) == [65]
    && !Received(v.conn(y, s), 1)
    && !Queued(v.pending(s), y, 1)
    && (forall d :: d in v.net && d.src == s && d.dst == y ==> !d.packet.Data?)
  }

  /** A server has sent one packet to each of two clients and only the one for z was
      transmitted. The acknowledgement of z erases the packet for y: y has not received it, it
      is no longer pending, no copy of it is on the network, and no orderly continuation ever
      delivers what was sent to y. */
  lemma MisfireLosesPacket(w: World, s: Addr, y: Addr, z: Addr) returns (u: World)
    requires Init(w) && w.role(s) == Server && w.role(y) == Unconnected && w.role(z) == Unconnected && y != z
    ensures Reaches(w, u)
    ensures AnswerLost(u, s, y, z) && !Deliverable(DoDeliver(u, Datagram(z, s, Ack(1))), s, y)
  {
    var v := TwoClients(w, s, y, z);
    ReachesSound(w, v, s, y);
    u := TwoAnswers(w, v, s, y, z);
    ReachesSound(w, u, s, y);
    LostForGood(u, s, y, z);
  }

  lemma LostForGood(u: World, s: Addr, y: Addr, z: Addr)
    requires Safe(u, s, y) && AnswerLost(u, s, y, z)
    ensures !Deliverable(DoDeliver(u, Datagram(z, s, Ack(1))), s, y)
  {
    var ack := Datagram(z, s, Ack(1));
    var v := DoDeliver(u, ack);
    StepSafe(u, Deliver(ack), s, y);
    DeliverableIff(v, s, y);
    assert !Extant(v, s, y, 1);
  }

  /** Both clients have been heard of and s has sent nothing yet. */
  ghost predicate Waiting(w: World, s: Addr, y: Addr) {
    && w.role(s) == Server && w.role(y) == Client(s) && w.pending(s) == []
    && w.conn(s, y).status != 0 && w.conn(s, y).nextSend == 1 && w.conn(y, s) == Conn(2, 1, [], [], 0)
    && w.log(s, y) == []
  }

  lemma TwoClients(w: World, s: Addr, y: Addr, z: Addr) returns (v: World)
    requires Init(w) && w.role(s) == Server && w.role(y) == Unconnected && w.role(z) == Unconnected && y != z
    ensures Reaches(w, v) && Waiting(v, s, y) && Waiting(v, s, z)
  {
    ReachesSelf(w);
    var w1 := Greet(w, w, y, s, 1);
    assert Same(w, w1, s, z);
    v := Greet(w, w1, z, s, 2);
    assert Same(w1, v, s, y);
  }

  lemma TwoAnswers(start: World, w: World, s: Addr, y: Addr, z: Addr) returns (u: World)
    requires Reaches(start, w) && Safe(w, s, y) && y != z && Waiting(w, s, y) && Waiting(w, s, z)
    ensures Reaches(start, u)
    ensures AnswerLost(u, s, y, z)
  {
    var data, ack := Sent(s, z, 1, 66), Datagram(z, s, Ack(1));
    var w2 := QueueTwo(start, w, s, y, z);
    var w3 := Step(w2, Transmit(s, 1));
    ReachesStep(start, w2, Transmit(s, 1));
    assert w3.net == w2.net + {data} && w3.role(z) == Client(s);
    u := Step(w3, Deliver(data));
    ReachesStep(start, w3, Deliver(data));
    Acknowledged(w3, data, ack, y);
    AckMisfires(u, s, y, z);
  }

  /** What the delivery of a data packet to a client leaves as it was. */
  lemma Acknowledged(w: World, d: Datagram, ack: Datagram, y: Addr)
    requires d.packet.Data? && w.role(d.dst).Client? && d.dst != d.src && y != d.dst
    requires ack == Datagram(d.dst, d.src, Ack(d.packet.seg.num))
    ensures var v := DoDeliver(w, d);
            && v.net == w.net + {ack} && v.pending(d.src) == w.pending(d.src)
            && v.conn(y, d.src) == w.conn(y, d.src) && v.role == w.role && v.written == w.written
  {
  }

  lemma AckMisfires(u: World, s: Addr, y: Addr, z: Addr)
    requires u.pending(s) == [Node(y, Sent(s, y, 1, 65).packet), Node(z, Sent(s, z, 1, 66).packet)]
    requires u.role(s) == Server && u.written(s, y) == [65] && u.conn(y, s) == Conn(2, 1, [], [], 0)
    requires y != z && y != s && Datagram(z, s, Ack(1)) in u.net
    requires forall d :: d in u.net && d.src == s && d.dst == y ==> !d.packet.Data?
    ensures AnswerLost(u, s, y, z)
  {
    var v := DoDeliver(u, Datagram(z, s, Ack(1)));
    assert v.pending(s) == [Node(z, Sent(s, z, 1, 66).packet)];
  }

  lemma QueueTwo(start: World, w: World, s: Addr, y: Addr, z: Addr) returns (v: World)
    requires Reaches(start, w) && Safe(w, s, y) && y != z && Waiting(w, s, y) && Waiting(w, s, z)
    ensures Reaches(start, v) && v.pending(s) == [Node(y, Sent(s, y, 1, 65).packet), Node(z, Sent(s, z, 1, 66).packet)]
    ensures v.role(s) == Server && v.role(z) == Client(s) && v.written(s, y) == [65]
    ensures v.conn(y, s) == Conn(2, 1, [], [], 0)
    ensures forall d :: d in v.net && d.src == s && d.dst == y ==> !d.packet.Data?
  {
    OneFragment(65);
    OneFragment(66);
    var w1 := Step(w, Submit(s, y, [65]));
    ReachesStep(start, w, Submit(s, y, [65]));
    assert w1.pending(s) == [Node(y, Sent(s, y, 1, 65).packet)] && w1.written(s, y) == [65];
    v := Step(w1, Submit(s, z, [66]));
    ReachesStep(start, w1, Submit(s, z, [66]));
  }
}
