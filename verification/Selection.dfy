/** How the server picks the connection to serve: `m_nStatus` is set by the receive thread,
    by `CTcpServer::Select` and by `CTcpServer::UnSelect` (TcpSocketDll/CTcpServer.cpp,
    TcpSocketDll/CTcpSocket.cpp). `Select` changes it without the lock, and the receive
    thread writes the data and raises the status in two separate steps.

    The machine is one connection with its receive thread and the thread that serves it. A
    connection is handed over from `Select` to the task that ends with `UnSelect`, so the two
    never act at once and share one program counter. */
module Selection {
  import opened Bytes
  import opened Segments
  import R = Receiver

  datatype RecvPc =
    | Idle    // between packets
    | Wrote   // bytes are in the stream, the status is not yet looked at
    | Locked  // holds the status lock

  datatype ServePc =
    | Scanning              // in the loop of `Select`
    | SawData               // has read status 1 there
    | Serving               // `Select` has returned this connection
    | UnselectLocked        // in `UnSelect`, holding the status lock
    | Measured(empty: bool) // has read the size of the stream

  datatype State = State(size: nat, status: int, recv: RecvPc, serve: ServePc)

  predicate Init(s: State) {
    s == State(0, 0, Idle, Scanning)
  }

  /** The status lock is free. */
  predicate LockFree(s: State) {
    !s.recv.Locked? && !s.serve.UnselectLocked? && !s.serve.Measured?
  }

  datatype Action = Receive(n: nat) | TakeLock | Raise | See | Claim | Consume(n: nat) | Unselect | Measure | Settle

  predicate Enabled(s: State, a: Action) {
    match a
    case Receive(n) => s.recv.Idle? && n > 0
    case TakeLock => s.recv.Wrote? && LockFree(s)
    case Raise => s.recv.Locked?
    case See => s.serve.Scanning? && s.status == 1
    case Claim => s.serve.SawData?
    case Consume(n) => s.serve.Serving? && n <= s.size
    case Unselect => s.serve.Serving? && LockFree(s)
    case Measure => s.serve.UnselectLocked?
    case Settle => s.serve.Measured?
  }

  function Next(s: State, a: Action): State
    requires Enabled(s, a)
  {
    match a
    case Receive(n) => s.(size := s.size + n, recv := Wrote)
    case TakeLock => s.(recv := Locked)
    case Raise => s.(status := R.Raise(s.status), recv := Idle)
    case See => s.(serve := SawData)
    case Claim => s.(status := 2, serve := Serving)
    case Consume(n) => s.(size := s.size - n)
    case Unselect => s.(serve := UnselectLocked)
    case Measure => s.(serve := Measured(s.size == 0))
    case Settle => s.(status := if s.serve.empty then 0 else 1, serve := Scanning)
  }

  ghost predicate Inv(s: State) {
    && (s.serve.Scanning? ==> s.status == 0 || s.status == 1)
    && (s.serve.SawData? ==> s.status == 1)
    && (!s.serve.Scanning? && !s.serve.SawData? ==> s.status == 2)
    && (s.recv.Locked? ==> !s.serve.UnselectLocked? && !s.serve.Measured?)
    && (s.status == 0 && s.size > 0 ==> !s.recv.Idle?)
    && (s.serve.Measured? && s.serve.empty && s.size > 0 ==> s.recv.Wrote?)
  }

  predicate Run(s: State, run: seq<Action>)
    decreases |run|
  {
    run == [] || (Enabled(s, run[0]) && Run(Next(s, run[0]), run[1..]))
  }

  function Exec(s: State, run: seq<Action>): State
    requires Run(s, run)
    decreases |run|
  {
    if run == [] then s else Exec(Next(s, run[0]), run[1..])
  }

  lemma {:induction false} RunKeepsInv(s: State, run: seq<Action>)
    requires Inv(s) && Run(s, run)
    ensures Inv(Exec(s, run))
    decreases |run|
  {
    if run != [] {
      RunKeepsInv(Next(s, run[0]), run[1..]);
    }
  }

  /** No request is lost: in every interleaving, whenever the receive thread is between
      packets and the connection is not being served, unread bytes mean status 1, so the scan
      finds the connection, and status 0 means there is nothing to read. */
  lemma NoLostRequest(s: State, run: seq<Action>)
    requires Init(s) && Run(s, run)
    ensures var v := Exec(s, run);
            v.recv.Idle? && v.serve.Scanning? ==> (v.size > 0 ==> v.status == 1) && (v.status == 0 ==> v.size == 0)
  {
    RunKeepsInv(s, run);
  }

  /** No double service: while a connection is being served its status is 2 in every
      interleaving, which the scan passes over. */
  lemma ServedOnce(s: State, run: seq<Action>)
    requires Init(s) && Run(s, run)
    ensures var v := Exec(s, run);
            !v.serve.Scanning? && !v.serve.SawData? <==> v.status == 2
  {
    RunKeepsInv(s, run);
  }

  // ---------------------------------------------------------------- no idle service

  /** A connection that is to be served has something to read. */
  predicate Worthwhile(s: State) {
    s.status == 1 ==> s.size > 0
  }

  /** The receive thread raises the status after what it wrote was already read and the
      connection given back. It holds the status lock, and could look at the stream; it does not. */
  predicate RaisesLate(s: State, a: Action) {
    a == Raise && s.status == 0 && s.size == 0
  }

  ghost predicate Tight(s: State) {
    Inv(s) && Worthwhile(s) && (s.serve.Measured? && !s.serve.empty ==> s.size > 0)
  }

  /** The exact condition: a step leaves every connection to be served with something to read if
      and only if it is not such a late raise. */
  lemma StepTightIff(s: State, a: Action)
    requires Tight(s) && Enabled(s, a)
    ensures Tight(Next(s, a)) <==> !RaisesLate(s, a)
    ensures !Worthwhile(Next(s, a)) <==> RaisesLate(s, a)
  {
  }

  ghost predicate NeverLate(s: State, run: seq<Action>)
    requires Run(s, run)
    decreases |run|
  {
    run == [] || (!RaisesLate(s, run[0]) && NeverLate(Next(s, run[0]), run[1..]))
  }

  /** In every state of the run. */
  ghost predicate AlwaysWorthwhile(s: State, run: seq<Action>)
    requires Run(s, run)
    decreases |run|
  {
    Worthwhile(s) && (run == [] || AlwaysWorthwhile(Next(s, run[0]), run[1..]))
  }

  /** Over whole runs: `Select` never returns a connection with nothing to read, on which `Recv`
      would wait and keep all others waiting, if and only if no raise comes late. */
  lemma {:induction false} WorthwhileIff(s: State, run: seq<Action>)
    requires Tight(s) && Run(s, run)
    ensures AlwaysWorthwhile(s, run) <==> NeverLate(s, run)
    decreases |run|
  {
    if run != [] {
      StepTightIff(s, run[0]);
      if !RaisesLate(s, run[0]) {
        WorthwhileIff(Next(s, run[0]), run[1..]);
      }
    }
  }

  lemma SelectWorthwhileIff(s: State, run: seq<Action>)
    requires Init(s) && Run(s, run)
    ensures AlwaysWorthwhile(s, run) <==> NeverLate(s, run)
  {
    WorthwhileIff(s, run);
  }

  /** A run from the start in which it happens: bytes arrive while the connection is being
      served, are read at once, the connection is given back, and then the status is raised. */
  lemma LateRaiseHappens(s: State) returns (run: seq<Action>)
    requires Init(s)
    ensures Run(s, run) && Exec(s, run) == State(0, 1, Idle, Scanning) && !Worthwhile(Exec(s, run))
  {
    run := [];
    run := Before(State(0, 0, Locked, Scanning), Raise, run);
    run := Before(State(0, 0, Wrote, Scanning), TakeLock, run);
    run := Before(State(0, 2, Wrote, Measured(true)), Settle, run);
    run := Before(State(0, 2, Wrote, UnselectLocked), Measure, run);
    run := Before(State(0, 2, Wrote, Serving), Unselect, run);
    run := Before(State(2, 2, Wrote, Serving), Consume(2), run);
    run := Before(State(1, 2, Idle, Serving), Receive(1), run);
    run := Before(State(1, 1, Idle, SawData), Claim, run);
    run := Before(State(1, 1, Idle, Scanning), See, run);
    run := Before(State(1, 0, Locked, Scanning), Raise, run);
    run := Before(State(1, 0, Wrote, Scanning), TakeLock, run);
    run := Before(State(0, 0, Idle, Scanning), Receive(1), run);
  }

  lemma Before(s: State, a: Action, run: seq<Action>) returns (all: seq<Action>)
    requires Enabled(s, a) && Run(Next(s, a), run)
    ensures all == [a] + run && Run(s, all) && Exec(s, all) == Exec(Next(s, a), run)
  {
    all := [a] + run;
    assert all[1..] == run;
  }

  // ---------------------------------------------------------------- progress

  /** Whoever holds the status lock can go on, whoever wants it can have it when it is free, and
      an idle scan finds a connection to be served. */
  lemma NeverStuck(s: State)
    requires Inv(s)
    ensures !LockFree(s) ==> Enabled(s, Raise) || Enabled(s, Measure) || Enabled(s, Settle)
    ensures LockFree(s) ==> (s.recv.Wrote? ==> Enabled(s, TakeLock)) && (s.serve.Serving? ==> Enabled(s, Unselect))
    ensures s.serve.SawData? ==> Enabled(s, Claim)
    ensures s.serve.Scanning? && s.recv.Idle? && s.size > 0 ==> Enabled(s, See)
    ensures s.serve.Serving? ==> Enabled(s, Consume(s.size))
    ensures s.recv.Idle? ==> Enabled(s, Receive(1))
  {
  }

  // ---------------------------------------------------------------- the receive thread

  /** The part of a connection's record that this machine is about. */
  function Of(c: R.Conn, serve: ServePc): State {
    State(|c.stream|, c.status, Idle, serve)
  }

  /** Steps of the receive thread only. */
  predicate Receiving(run: seq<Action>) {
    forall i :: 0 <= i < |run| ==> run[i].Receive? || run[i] == TakeLock || run[i] == Raise
  }

  lemma AcceptSteps(c: R.Conn, p: Segment, serve: ServePc, run: seq<Action>)
    requires p.data != [] && LockFree(Of(c, serve))
    requires Run(Of(R.Accept(c, p), serve), run)
    ensures var all := [Receive(|p.data|), TakeLock, Raise] + run;
            Run(Of(c, serve), all) && Exec(Of(c, serve), all) == Exec(Of(R.Accept(c, p), serve), run)
  {
    var s := Of(c, serve);
    var s1 := Next(s, Receive(|p.data|));
    var s2 := Next(s1, TakeLock);
    assert Next(s2, Raise) == Of(R.Accept(c, p), serve);
    var r3 := Before(s2, Raise, run);
    var r2 := Before(s1, TakeLock, r3);
    var r1 := Before(s, Receive(|p.data|), r2);
    assert r1 == [Receive(|p.data|), TakeLock, Raise] + run;
  }

  lemma {:induction false} DrainSteps(c: R.Conn, serve: ServePc) returns (run: seq<Action>)
    requires LockFree(Of(c, serve)) && forall i :: 0 <= i < |c.parked| ==> c.parked[i].data != []
    ensures Receiving(run) && Run(Of(c, serve), run) && Exec(Of(c, serve), run) == Of(R.Drain(c), serve)
    decreases |c.parked|
  {
    run := [];
    if c.parked != [] && c.parked[0].num == c.nextRecv {
      var d := R.Accept(c, c.parked[0]).(parked := c.parked[1..]);
      run := DrainSteps(d, serve);
      AcceptSteps(c, c.parked[0], serve, run);
      run := [Receive(|c.parked[0].data|), TakeLock, Raise] + run;
    }
  }

  /** The DATA case of the receive thread is a run of these steps: whatever the serving thread is
      about, outside its hold of the lock, the record goes from c to `OnData(c, p)`. So what is
      proved of the machine holds of the code that handles packets. */
  lemma OnDataSteps(c: R.Conn, p: Segment, serve: ServePc) returns (run: seq<Action>)
    requires LockFree(Of(c, serve)) && p.data != [] && forall i :: 0 <= i < |c.parked| ==> c.parked[i].data != []
    ensures Receiving(run) && Run(Of(c, serve), run) && Exec(Of(c, serve), run) == Of(R.OnData(c, p), serve)
  {
    run := [];
    if p.num == c.nextRecv {
      run := DrainSteps(R.Accept(c, p), serve);
      AcceptSteps(c, p, serve, run);
      run := [Receive(|p.data|), TakeLock, Raise] + run;
    }
  }

  /** Taking a connection in `Select`, and giving it back in `UnSelect`, are runs of these steps
      on its record. */
  lemma ServeSteps(c: R.Conn)
    ensures c.status == 1 ==>
              Run(Of(c, Scanning), [See, Claim]) && Exec(Of(c, Scanning), [See, Claim]) == Of(c.(status := 2), Serving)
    ensures var back := [Unselect, Measure, Settle];
            && Run(Of(c, Serving), back)
            && Exec(Of(c, Serving), back) == Of(c.(status := if c.stream == [] then 0 else 1), Scanning)
  {
    var s := Of(c, Serving);
    var s1 := Next(s, Unselect);
    var s2 := Next(s1, Measure);
    var r3 := Before(s2, Settle, []);
    var r2 := Before(s1, Measure, r3);
    var r1 := Before(s, Unselect, r2);
    assert r1 == [Unselect, Measure, Settle];
    if c.status == 1 {
      var q := Of(c, Scanning);
      var t2 := Before(Next(q, See), Claim, []);
      var t1 := Before(q, See, t2);
      assert t1 == [See, Claim];
    }
  }
}
