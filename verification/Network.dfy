/** Any number of sockets talking over a network that may lose, repeat, delay and reorder
    datagrams: `CTcpClient::Connect` (TcpSocketDll/CTcpClient.cpp), `CTcpSocket::Send`, `Recv`,
    `SendThreadProc` and `RecvThreadProc` (TcpSocketDll/CTcpSocket.cpp) as steps of one machine.

    Every datagram ever sent stays in `net` and may be delivered at any time, any number of
    times or never; a lost datagram is one that is not delivered. The send thread may transmit any pending packet at any time, which covers
    first transmissions and every timing of retransmissions. */
module Network {
  import opened Bytes
  import opened Segments
  import opened Receiver

  datatype Datagram = Datagram(src: Addr, dst: Addr, packet: Packet)

  /** What the socket at an address is. */
  datatype Role =
    | Server                    // listens
    | Unconnected               // a client before `Connect`
    | Connecting(server: Addr)  // a client in `Connect`, waiting for an answer
    | Client(server: Addr)      // `Connect` has returned, the receive thread runs

  /** `conn(x, y)` is x's record of its connection with y and `pending(x)` is x's list of
      unacknowledged packets. The last three fields are history: the payloads x has queued
      for y, the bytes x's application has passed to `Send` for y, and the bytes x's
      application has got from `Recv` on its connection with y. */
  datatype World = World(
    role: Addr -> Role,
    conn: (Addr, Addr) -> Conn,
    pending: Addr -> seq<Node>,
    net: set<Datagram>,
    log: (Addr, Addr) -> seq<seq<byte>>,
    written: (Addr, Addr) -> seq<byte>,
    taken: (Addr, Addr) -> seq<byte>)

  function Set1<T>(f: Addr -> T, x: Addr, v: T): Addr -> T {
    a => if a == x then v else f(a)
  }

  function Set2<T>(f: (Addr, Addr) -> T, x: Addr, y: Addr, v: T): (Addr, Addr) -> T {
    (a, b) => if a == x && b == y then v else f(a, b)
  }

  // ---------------------------------------------------------------- the receive thread

  /** An acknowledgement erases the first pending packet with its number, whoever the
      packet is addressed to. */
  function Acked(list: seq<Node>, n: int): seq<Node> {
    if list == [] then []
    else if Num(list[0].packet) == n then list[1..]
    else [list[0]] + Acked(list[1..], n)
  }

  datatype Outcome = Outcome(conn: Conn, pending: seq<Node>, reply: Option<Packet>)

  /** One round of the receive thread, on a datagram `p` from `src`. */
  function Handle(c: Conn, pending: seq<Node>, src: Addr, p: Packet): Outcome {
    match p
    case Establish1(n) =>
      Outcome(c.(nextSend := 1, nextRecv := n + 1), pending + [Node(src, Establish2(0))], None)
    case Establish2(n) => Outcome(c, pending, Some(Ack(n)))
    case Data(s) => Outcome(OnData(c, s), pending, Some(Ack(s.num)))
    case Ack(n) => Outcome(c, Acked(pending, n), None)
  }

  // ---------------------------------------------------------------- the steps

  datatype Event =
    | Connect(x: Addr, y: Addr)                 // x's application calls `Connect` for server y
    | Submit(x: Addr, y: Addr, buf: seq<byte>)  // x's application sends `buf` to y
    | Transmit(x: Addr, i: nat)                 // x's send thread sends its i-th pending packet
    | Deliver(d: Datagram)                      // the network delivers a datagram
    | Fetch(x: Addr, y: Addr, max: nat)         // x's application receives at most `max` bytes from y

  const Blank := Conn(0, 0, [], [], 0)

  /** The first half of `Connect`: the first handshake packet is sent and made pending. */
  function DoConnect(w: World, x: Addr, y: Addr): World {
    w.(role := Set1(w.role, x, Connecting(y)),
       conn := Set2(w.conn, x, y, w.conn(x, y).(nextSend := 1)),
       pending := Set1(w.pending, x, w.pending(x) + [Node(y, Establish1(0))]),
       net := w.net + {Datagram(x, y, Establish1(0))})
  }

  /** The second half: whatever arrives first, from wherever, is taken for the answer. */
  function DoFinish(w: World, x: Addr, y: Addr, p: Packet): World {
    w.(role := Set1(w.role, x, Client(y)),
       conn := Set2(w.conn, x, y, w.conn(x, y).(nextRecv := Num(p) + 1)),
       pending := Set1(w.pending, x, []),
       net := w.net + {Datagram(x, y, Ack(Num(p)))})
  }

  function DoSubmit(w: World, x: Addr, y: Addr, buf: seq<byte>): World {
    var c, frags := w.conn(x, y), Fragments(buf);
    w.(conn := Set2(w.conn, x, y, c.(nextSend := c.nextSend + |frags|)),
       pending := Set1(w.pending, x, w.pending(x) + Nodes(y, c.nextSend, frags)),
       log := Set2(w.log, x, y, w.log(x, y) + frags),
       written := Set2(w.written, x, y, w.written(x, y) + buf))
  }

  function DoTransmit(w: World, x: Addr, i: nat): World
    requires i < |w.pending(x)|
  {
    var node := w.pending(x)[i];
    w.(net := w.net + {Datagram(x, node.addr, node.packet)})
  }

  /** The receive thread of `d.dst` handles a datagram. */
  function DoHandle(w: World, d: Datagram): World {
    var o := Handle(w.conn(d.dst, d.src), w.pending(d.dst), d.src, d.packet);
    w.(conn := Set2(w.conn, d.dst, d.src, o.conn),
       pending := Set1(w.pending, d.dst, o.pending),
       net := if o.reply.Some? then w.net + {Datagram(d.dst, d.src, o.reply.value)} else w.net)
  }

  function DoDeliver(w: World, d: Datagram): World {
    match w.role(d.dst)
    case Unconnected => w
    case Connecting(y) => DoFinish(w, d.dst, y, d.packet)
    case _ => DoHandle(w, d)
  }

  function DoFetch(w: World, x: Addr, y: Addr, max: nat): World {
    var c := w.conn(x, y);
    var k := Min(|c.stream|, max);
    w.(conn := Set2(w.conn, x, y, c.(stream := c.stream[k..])),
       taken := Set2(w.taken, x, y, w.taken(x, y) + c.stream[..k]))
  }

  /** When a step is possible. Clients connect to servers, once. A client sends to its server
      after `Connect` has returned; a server sends to those it learned of from `Select`, which
      names only connections on which data has arrived (here the status is only ever raised;
      how it is lowered again is in `Selection`). `Recv` returns once something waits. */
  predicate Enabled(w: World, e: Event) {
    match e
    case Connect(x, y) => w.role(x) == Unconnected && w.role(y) == Server
    case Submit(x, y, buf) => w.role(x) == Client(y) || (w.role(x) == Server && w.conn(x, y).status != 0)
    case Transmit(x, i) => i < |w.pending(x)|
    case Deliver(d) => d in w.net
    case Fetch(x, y, max) => w.conn(x, y).stream != []
  }

  function Step(w: World, e: Event): World
    requires Enabled(w, e)
  {
    match e
    case Connect(x, y) => DoConnect(w, x, y)
    case Submit(x, y, buf) => DoSubmit(w, x, y, buf)
    case Transmit(x, i) => DoTransmit(w, x, i)
    case Deliver(d) => DoDeliver(w, d)
    case Fetch(x, y, max) => DoFetch(w, x, y, max)
  }

  /** Nothing has happened yet. */
  ghost predicate Init(w: World) {
    && (forall x :: w.role(x) == Server || w.role(x) == Unconnected)
    && (forall x, y :: w.conn(x, y) == Blank)
    && (forall x, y :: w.log(x, y) == [] && w.written(x, y) == [] && w.taken(x, y) == [])
    && (forall x :: w.pending(x) == [])
    && w.net == {}
  }

  // ---------------------------------------------------------------- runs

  ghost predicate Run(w: World, es: seq<Event>)
    decreases |es|
  {
    es == [] || (Enabled(w, es[0]) && Run(Step(w, es[0]), es[1..]))
  }

  ghost function Exec(w: World, es: seq<Event>): World
    requires Run(w, es)
    decreases |es|
  {
    if es == [] then w else Exec(Step(w, es[0]), es[1..])
  }

  lemma RunFirst(w: World, e: Event, es: seq<Event>)
    requires Enabled(w, e) && Run(Step(w, e), es)
    ensures Run(w, [e] + es) && Exec(w, [e] + es) == Exec(Step(w, e), es)
  {
    assert ([e] + es)[1..] == es;
  }

  lemma {:induction false} AckedSubset(list: seq<Node>, n: int)
    ensures forall node :: node in Acked(list, n) ==> node in list
  {
    if list != [] && Num(list[0].packet) != n {
      AckedSubset(list[1..], n);
    }
  }
}
