/** `CThreadPool` (SchoolSystemServer/CThreadPool.cpp): one thread that adds tasks and any
    number of workers, step by step. A semaphore counts the tasks; its release and the push
    that goes with it are two steps inside the critical section, and a worker passes the
    semaphore, lowers the idle count and pops in three steps of which only the last is inside
    the critical section. */
module ThreadPool {
  import opened Counting

  type Task = nat

  datatype AddPc =
    | Free                  // not in `AddTask`
    | Entered(task: Task)   // in the critical section
    | Released(task: Task)  // the semaphore was released, the push is still to come
    | Leaving               // about to leave the critical section
    | Sizing                // has left it, decides whether to start a thread

  datatype WorkPc =
    | Starting            // about to raise the idle count
    | Waiting             // waits for the stop event or the semaphore
    | Woken               // got the semaphore, the idle count still includes it
    | Ready               // wants the critical section
    | Inside              // in the critical section, about to pop
    | Popped(task: Task)  // has popped, still in the critical section
    | Running(task: Task) // executes the task
    | Exited

  datatype Owner = Nobody | Adder | Worker(i: nat)

  /** `offered`, `accepted`, `popped`, `done` and `dropped` are history. */
  datatype Pool = Pool(
    maxThreads: nat, limit: nat, sem: nat, queue: seq<Task>, idle: int, stop: bool,
    owner: Owner, add: AddPc, workers: seq<WorkPc>,
    offered: seq<Task>, accepted: seq<Task>, popped: seq<Task>, done: seq<Task>, dropped: seq<Task>)

  /** The next step of the adding thread, of the thread that stops the pool, or of worker i. */
  datatype Action = Enter(task: Task) | Add | Stop | Work(i: nat)

  predicate CanWork(p: Pool, i: nat) {
    i < |p.workers| &&
    match p.workers[i]
    case Waiting => p.stop || p.sem > 0
    case Ready => p.owner == Nobody
    case Exited => false
    case _ => true
  }

  predicate Enabled(p: Pool, a: Action) {
    match a
    case Enter(task) => p.add == Free && p.owner == Nobody && !p.stop
    case Add => p.add != Free
    case Stop => p.add == Free
    case Work(i) => CanWork(p, i)
  }

  /** `front` and `pop` are called on a queue that has an element. */
  predicate PopDefined(p: Pool, a: Action) {
    a.Work? && a.i < |p.workers| && p.workers[a.i] == Inside ==> p.queue != []
  }

  function DoAdd(p: Pool): Pool {
    match p.add
    case Free => p
    case Entered(task) =>
      if p.sem < p.limit then p.(sem := p.sem + 1, add := Released(task))
      else p.(add := Leaving, dropped := p.dropped + [task])
    case Released(task) => p.(queue := p.queue + [task], accepted := p.accepted + [task], add := Leaving)
    case Leaving => p.(add := Sizing, owner := Nobody)
    case Sizing =>
      if p.idle == 0 && |p.workers| < p.maxThreads then p.(add := Free, workers := p.workers + [Starting])
      else p.(add := Free)
  }

  function DoWork(p: Pool, i: nat): Pool
    requires CanWork(p, i) && PopDefined(p, Work(i))
  {
    var ws := p.workers;
    match ws[i]
    case Starting => p.(idle := p.idle + 1, workers := ws[i := Waiting])
    case Waiting =>
      if p.stop then p.(workers := ws[i := Exited]) else p.(sem := p.sem - 1, workers := ws[i := Woken])
    case Woken => p.(idle := p.idle - 1, workers := ws[i := Ready])
    case Ready => p.(owner := Worker(i), workers := ws[i := Inside])
    case Inside =>
      p.(queue := p.queue[1..], popped := p.popped + [p.queue[0]], workers := ws[i := Popped(p.queue[0])])
    case Popped(task) => p.(owner := Nobody, workers := ws[i := Running(task)])
    case Running(task) => p.(done := p.done + [task], workers := ws[i := Starting])
    case Exited => p
  }

  function Next(p: Pool, a: Action): Pool
    requires Enabled(p, a) && PopDefined(p, a)
  {
    match a
    case Enter(task) => p.(add := Entered(task), owner := Adder, offered := p.offered + [task])
    case Add => DoAdd(p)
    case Stop => p.(stop := true)
    case Work(i) => DoWork(p, i)
  }

  predicate Init(p: Pool) {
    p.maxThreads >= 1 && p == Pool(p.maxThreads, p.limit, 0, [], 0, false, Nobody, Free, [], [], [], [], [], [])
  }

  // ---------------------------------------------------------------- counting workers

  datatype Kind = Claiming | IdleKind | Holding(task: Task)

  predicate Is(pc: WorkPc, k: Kind) {
    match k
    case Claiming => pc == Woken || pc == Ready || pc == Inside
    case IdleKind => pc == Waiting || pc == Woken || pc == Exited
    case Holding(task) => pc == Popped(task) || pc == Running(task)
  }

  function One(k: Kind): WorkPc -> nat {
    pc => if Is(pc, k) then 1 else 0
  }

  /** How many workers are of a kind. */
  function Count(ws: seq<WorkPc>, k: Kind): nat {
    Sum(One(k), ws)
  }

  lemma CountUpdate(ws: seq<WorkPc>, i: nat, pc: WorkPc, k: Kind)
    requires i < |ws|
    ensures Count(ws[i := pc], k) == Count(ws, k) - (if Is(ws[i], k) then 1 else 0) + (if Is(pc, k) then 1 else 0)
    ensures Is(ws[i], k) ==> Count(ws, k) >= 1
  {
    SumUpdate(One(k), ws, i, pc);
  }

  // ---------------------------------------------------------------- the invariant

  /** Who is in the critical section. */
  ghost predicate Exclusive(p: Pool) {
    && (p.owner.Worker? ==> p.owner.i < |p.workers|)
    && (p.owner == Adder <==> p.add.Entered? || p.add.Released? || p.add == Leaving)
    && (forall i :: 0 <= i < |p.workers| ==> (p.owner == Worker(i) <==> p.workers[i] == Inside || p.workers[i].Popped?))
  }

  /** Every queued task is announced by the semaphore or claimed by a worker, and conversely,
      but for the task between its release and its push. */
  ghost predicate Announced(p: Pool) {
    && p.sem <= p.limit
    && |p.queue| + (if p.add.Released? then 1 else 0) == p.sem + Count(p.workers, Claiming)
  }

  ghost predicate Counted(p: Pool) {
    && p.idle == Count(p.workers, IdleKind)
    && |p.workers| <= p.maxThreads
    && p.maxThreads >= 1
    && (p.accepted != [] && p.add == Free ==> p.workers != [])
    && (forall i :: 0 <= i < |p.workers| && p.workers[i] == Exited ==> p.stop)
  }

  /** Tasks leave the queue in the order in which they entered it, and each popped task is
      finished or in the hands of a worker, as often as it was popped. */
  ghost predicate Conserved(p: Pool) {
    && p.accepted == p.popped + p.queue
    && (forall t :: Balanced(p, t))
  }

  ghost predicate Inv(p: Pool) {
    Exclusive(p) && Announced(p) && Counted(p) && Conserved(p)
  }

  /** Mutual exclusion and the count together: a worker about to pop finds a task. */
  lemma PopFindsTask(p: Pool, i: nat)
    requires Exclusive(p) && Announced(p) && i < |p.workers| && p.workers[i] == Inside
    ensures p.queue != []
  {
    CountUpdate(p.workers, i, Inside, Claiming);
  }

  lemma AddKeepsCounts(p: Pool)
    requires Announced(p) && Counted(p)
    ensures Announced(DoAdd(p)) && Counted(DoAdd(p))
  {
    if p.add.Sizing? {
      SumAppend(One(Claiming), p.workers, Starting);
      SumAppend(One(IdleKind), p.workers, Starting);
    }
  }

  lemma AddKeepsConserved(p: Pool)
    requires Conserved(p)
    ensures Conserved(DoAdd(p))
  {
    if p.add.Sizing? {
      forall t ensures Balanced(DoAdd(p), t) {
        assert Balanced(p, t);
        SumAppend(One(Holding(t)), p.workers, Starting);
      }
    } else if p.add.Released? {
      assert p.popped + p.queue + [p.add.task] == p.popped + (p.queue + [p.add.task]);
      assert forall t :: Balanced(p, t) ==> Balanced(DoAdd(p), t);
    } else {
      assert forall t :: Balanced(p, t) ==> Balanced(DoAdd(p), t);
    }
  }

  lemma AddKeepsExclusive(p: Pool)
    requires Exclusive(p)
    ensures Exclusive(DoAdd(p))
  {
  }

  lemma WorkKeepsExclusive(p: Pool, i: nat)
    requires Exclusive(p) && CanWork(p, i) && PopDefined(p, Work(i))
    ensures Exclusive(DoWork(p, i))
  {
  }

  lemma WorkKeepsAnnounced(p: Pool, i: nat)
    requires Announced(p) && CanWork(p, i) && PopDefined(p, Work(i))
    ensures Announced(DoWork(p, i))
  {
    CountUpdate(p.workers, i, DoWork(p, i).workers[i], Claiming);
  }

  lemma WorkKeepsCounted(p: Pool, i: nat)
    requires Counted(p) && CanWork(p, i) && PopDefined(p, Work(i))
    ensures Counted(DoWork(p, i))
  {
    CountUpdate(p.workers, i, DoWork(p, i).workers[i], IdleKind);
  }

  /** How often a task occurs in a list. */
  function Times(s: seq<Task>, t: Task): nat {
    if s == [] then 0 else Times(s[..|s| - 1], t) + if s[|s| - 1] == t then 1 else 0
  }

  lemma {:induction false} TimesAppend(s: seq<Task>, s': seq<Task>, t: Task)
    ensures Times(s + s', t) == Times(s, t) + Times(s', t)
  {
    if s' == [] {
      assert s + s' == s;
    } else {
      var k := |s'| - 1;
      TimesAppend(s, s'[..k], t);
      assert (s + s')[..|s| + k] == s + s'[..k];
    }
  }

  /** The accounts of one task. */
  ghost predicate Balanced(p: Pool, t: Task) {
    Times(p.popped, t) == Times(p.done, t) + Count(p.workers, Holding(t))
  }

  /** What a step of worker i moves: a task from the queue into its hands, or out of them. */
  lemma WorkMoves(p: Pool, i: nat)
    requires CanWork(p, i) && PopDefined(p, Work(i))
    ensures var q, pc := DoWork(p, i), p.workers[i];
            && |q.workers| == |p.workers|
            && q.workers == p.workers[i := q.workers[i]]
            && q.popped == (if pc == Inside then p.popped + [p.queue[0]] else p.popped)
            && q.done == (if pc.Running? then p.done + [pc.task] else p.done)
            && forall t :: Is(q.workers[i], Holding(t)) <==>
                 if pc == Inside then t == p.queue[0] else !pc.Running? && Is(pc, Holding(t))
  {
  }

  lemma WorkKeepsBalance(p: Pool, i: nat, t: Task)
    requires Balanced(p, t) && CanWork(p, i) && PopDefined(p, Work(i))
    ensures Balanced(DoWork(p, i), t)
  {
    var q := DoWork(p, i);
    WorkMoves(p, i);
    CountUpdate(p.workers, i, q.workers[i], Holding(t));
    if p.workers[i] == Inside {
      assert Times(q.popped, t) == Times(p.popped, t) + if p.queue[0] == t then 1 else 0 by {
        OneMore(p.popped, p.queue[0], t);
      }
    } else if p.workers[i].Running? {
      assert Times(q.done, t) == Times(p.done, t) + if p.workers[i].task == t then 1 else 0 by {
        OneMore(p.done, p.workers[i].task, t);
      }
    }
    assert Count(q.workers, Holding(t)) == Times(q.popped, t) - Times(q.done, t);
  }

  lemma OneMore(s: seq<Task>, x: Task, t: Task)
    ensures Times(s + [x], t) == Times(s, t) + if x == t then 1 else 0
  {
    assert (s + [x])[..|s|] == s;
  }

  lemma WorkKeepsConserved(p: Pool, i: nat)
    requires Conserved(p) && CanWork(p, i) && PopDefined(p, Work(i))
    ensures Conserved(DoWork(p, i))
  {
    var q := DoWork(p, i);
    if p.workers[i] == Inside {
      assert p.popped + p.queue == q.popped + q.queue;
    }
    forall t ensures Balanced(q, t) {
      assert Balanced(p, t);
      WorkKeepsBalance(p, i, t);
    }
  }

  lemma StepKeepsInv(p: Pool, a: Action)
    requires Inv(p) && Enabled(p, a) && PopDefined(p, a)
    ensures Inv(Next(p, a))
  {
    match a
    case Enter(task) => assert forall t :: Balanced(p, t) ==> Balanced(Next(p, a), t);
    case Stop => assert forall t :: Balanced(p, t) ==> Balanced(Next(p, a), t);
    case Add =>
      AddKeepsExclusive(p);
      AddKeepsCounts(p);
      AddKeepsConserved(p);
    case Work(i) =>
      WorkKeepsExclusive(p, i);
      WorkKeepsAnnounced(p, i);
      WorkKeepsCounted(p, i);
      WorkKeepsConserved(p, i);
  }

  // ---------------------------------------------------------------- whole runs

  ghost predicate Run(p: Pool, run: seq<Action>)
    decreases |run|
  {
    run == [] || (Enabled(p, run[0]) && (PopDefined(p, run[0]) ==> Run(Next(p, run[0]), run[1..])))
  }

  /** No step of the run pops an empty queue. */
  ghost predicate NeverPopsEmpty(p: Pool, run: seq<Action>)
    requires Run(p, run)
    decreases |run|
  {
    run == [] || (PopDefined(p, run[0]) && NeverPopsEmpty(Next(p, run[0]), run[1..]))
  }

  ghost function Exec(p: Pool, run: seq<Action>): Pool
    requires Run(p, run) && NeverPopsEmpty(p, run)
    decreases |run|
  {
    if run == [] then p else Exec(Next(p, run[0]), run[1..])
  }

  lemma {:induction false} RunKeepsInv(p: Pool, run: seq<Action>)
    requires Inv(p) && Run(p, run)
    ensures NeverPopsEmpty(p, run) && Inv(Exec(p, run))
    decreases |run|
  {
    if run != [] {
      var a := run[0];
      if a.Work? && p.workers[a.i] == Inside {
        PopFindsTask(p, a.i);
      }
      StepKeepsInv(p, a);
      RunKeepsInv(Next(p, a), run[1..]);
    }
  }

  /** In every interleaving: no worker ever pops an empty queue; tasks are popped in the order
      in which they were accepted; each accepted task is queued, in the hands of one worker, or
      done once; there are never more threads or announced tasks than allowed; the idle count
      never goes below zero; and an accepted task always has a thread to run it. */
  lemma PoolSafe(p: Pool, run: seq<Action>)
    requires Init(p) && Run(p, run)
    ensures NeverPopsEmpty(p, run)
    ensures var q := Exec(p, run);
            && q.accepted == q.popped + q.queue
            && (forall t :: Times(q.accepted, t) ==
                  Times(q.queue, t) + Count(q.workers, Holding(t)) + Times(q.done, t))
            && |q.workers| <= q.maxThreads
            && q.sem <= q.limit
            && q.idle >= 0
            && (q.accepted != [] && q.add == Free ==> q.workers != [])
  {
    RunKeepsInv(p, run);
    var q := Exec(p, run);
    forall t ensures Times(q.accepted, t) ==
                     Times(q.queue, t) + Count(q.workers, Holding(t)) + Times(q.done, t)
    {
      assert Balanced(q, t);
      TimesAppend(q.popped, q.queue, t);
    }
  }

  lemma {:induction false} AllExited(ws: seq<WorkPc>, t: Task)
    requires forall i :: 0 <= i < |ws| ==> ws[i] == Exited
    ensures Count(ws, Holding(t)) == 0
  {
    if ws != [] {
      AllExited(ws[1..], t);
    }
  }

  /** The pool is stopping exactly after its stop, and from then on. */
  lemma {:induction false} RunStops(p: Pool, run: seq<Action>)
    requires Run(p, run) && NeverPopsEmpty(p, run)
    ensures Exec(p, run).stop <==> p.stop || Stop in run
    decreases |run|
  {
    if run != [] {
      RunStops(Next(p, run[0]), run[1..]);
    }
  }

  /** The destructor stops the workers, waits until all have exited and aborts what is left
      in the queue: every accepted task was then executed or aborted, as often as it was
      accepted. */
  lemma ShutdownAccountsForAll(p: Pool, run: seq<Action>)
    requires Init(p) && Run(p, run) && NeverPopsEmpty(p, run)
    requires forall i :: 0 <= i < |Exec(p, run).workers| ==> Exec(p, run).workers[i] == Exited
    ensures var q := Exec(p, run); forall t :: Times(q.accepted, t) == Times(q.done, t) + Times(q.queue, t)
  {
    PoolSafe(p, run);
    var q := Exec(p, run);
    forall t ensures Times(q.accepted, t) == Times(q.done, t) + Times(q.queue, t) {
      AllExited(q.workers, t);
    }
  }

  // ---------------------------------------------------------------- termination

  /** How many steps a worker can take before it waits and is stopped, with no new task. */
  function Distance(pc: WorkPc): nat {
    match pc
    case Exited => 0
    case Waiting => 1
    case Starting => 2
    case Running(_) => 3
    case Popped(_) => 4
    case Inside => 5
    case Ready => 6
    case Woken => 7
  }

  function AddDistance(pc: AddPc): nat {
    match pc
    case Free => 0
    case Sizing => 3
    case Leaving => 4
    case Released(_) => 5
    case Entered(_) => 13
  }

  /** A bound on the steps left without new tasks. */
  function StepsLeft(p: Pool): nat {
    AddDistance(p.add) + 7 * p.sem + Sum(Distance, p.workers)
  }

  lemma StepShortens(p: Pool, a: Action)
    requires Enabled(p, a) && PopDefined(p, a) && (a.Add? || a.Work?)
    ensures StepsLeft(Next(p, a)) < StepsLeft(p)
  {
    if a.Work? {
      SumUpdate(Distance, p.workers, a.i, Next(p, a).workers[a.i]);
    } else {
      SumAppend(Distance, p.workers, Starting);
    }
  }

  /** No scheduling, however unfair, keeps the pool busy for ever: without new tasks every run
      is at most this long. */
  lemma {:induction false} RunsEnd(p: Pool, run: seq<Action>)
    requires Inv(p) && Run(p, run)
    requires forall k :: 0 <= k < |run| ==> run[k].Add? || run[k].Work?
    ensures |run| <= StepsLeft(p)
    decreases |run|
  {
    if run != [] {
      RunKeepsInv(p, run);
      StepShortens(p, run[0]);
      StepKeepsInv(p, run[0]);
      RunsEnd(Next(p, run[0]), run[1..]);
    }
  }

  /** No thread of the pool can take a step. */
  ghost predicate Quiet(p: Pool) {
    !Enabled(p, Add) && forall i: nat :: i < |p.workers| ==> !CanWork(p, i)
  }

  lemma {:induction false} NoClaims(ws: seq<WorkPc>)
    requires forall i :: 0 <= i < |ws| ==> ws[i] == Waiting || ws[i] == Exited
    ensures Count(ws, Claiming) == 0 && forall t :: Count(ws, Holding(t)) == 0
  {
    if ws != [] {
      NoClaims(ws[1..]);
    }
  }

  /** In a quiet pool nobody is in the critical section, so every worker waits or has exited. */
  lemma QuietWorkers(p: Pool, i: nat)
    requires Inv(p) && Quiet(p) && i < |p.workers|
    ensures p.workers[i] == (if p.stop then Exited else Waiting)
    ensures !p.stop ==> p.sem == 0
  {
    assert !CanWork(p, i);
    OwnerWorks(p);
  }

  /** A worker in the critical section can go on. */
  lemma OwnerWorks(p: Pool)
    requires Exclusive(p)
    ensures p.owner.Worker? ==> CanWork(p, p.owner.i)
  {
  }

  /** No deadlock: when no thread of the pool can go on, then without a stop every accepted
      task has been executed, as often as it was accepted, and the queue is empty; and after a
      stop every worker has exited, so that the destructor's wait ends. */
  lemma QuietMeansDone(p: Pool, run: seq<Action>)
    requires Init(p) && Run(p, run) && NeverPopsEmpty(p, run) && Quiet(Exec(p, run))
    ensures var q := Exec(p, run);
            && (!q.stop ==> q.queue == [] && forall t :: Times(q.accepted, t) == Times(q.done, t))
            && (q.stop ==> forall i :: 0 <= i < |q.workers| ==> q.workers[i] == Exited)
  {
    PoolSafe(p, run);
    RunKeepsInv(p, run);
    var q := Exec(p, run);
    forall i: nat | i < |q.workers| ensures q.workers[i] == (if q.stop then Exited else Waiting) {
      QuietWorkers(q, i);
    }
    if !q.stop {
      NoClaims(q.workers);
      QuietQueue(q);
    }
  }

  lemma QuietQueue(q: Pool)
    requires Inv(q) && Quiet(q) && !q.stop && Count(q.workers, Claiming) == 0
    ensures q.queue == []
  {
    if q.workers != [] {
      QuietWorkers(q, 0);
    }
  }

  // ---------------------------------------------------------------- what is offered

  /** Tasks in the hands of the adding thread. */
  function InHand(pc: AddPc, t: Task): nat {
    if (pc.Entered? || pc.Released?) && pc.task == t then 1 else 0
  }

  /** A task is accepted, dropped or in the adder's hands, as often as it was offered. */
  ghost predicate Offered(p: Pool, t: Task) {
    Times(p.offered, t) == Times(p.accepted, t) + Times(p.dropped, t) + InHand(p.add, t)
  }

  lemma StepOffered(p: Pool, a: Action, t: Task)
    requires Offered(p, t) && Enabled(p, a) && PopDefined(p, a)
    ensures Offered(Next(p, a), t)
  {
    match a
    case Enter(task) => OneMore(p.offered, task, t);
    case Add => AddOffered(p, t);
    case Work(i) => WorkLeaves(p, i);
    case _ =>
  }

  lemma AddFields(p: Pool)
    ensures var q := DoAdd(p);
            && q.offered == p.offered
            && q.accepted == (if p.add.Released? then p.accepted + [p.add.task] else p.accepted)
            && q.dropped == (if p.add.Entered? && p.sem >= p.limit then p.dropped + [p.add.task] else p.dropped)
            && forall t :: InHand(q.add, t) == if p.add.Entered? && p.sem < p.limit then InHand(p.add, t) else 0
  {
  }

  lemma {:induction false} AddOffered(p: Pool, t: Task)
    requires Offered(p, t)
    ensures Offered(DoAdd(p), t)
  {
    AddFields(p);
    if p.add.Entered? {
      OneMore(p.dropped, p.add.task, t);
    } else if p.add.Released? {
      OneMore(p.accepted, p.add.task, t);
    }
  }

  /** A worker does not touch what the adder keeps. */
  lemma WorkLeaves(p: Pool, i: nat)
    requires CanWork(p, i) && PopDefined(p, Work(i))
    ensures var q := DoWork(p, i);
            && q.offered == p.offered && q.accepted == p.accepted && q.dropped == p.dropped && q.add == p.add
            && q.limit == p.limit && q.maxThreads == p.maxThreads && |q.workers| == |p.workers|
  {
  }

  /** The tasks offered during a run at a moment when the semaphore was at its limit. */
  ghost function TurnedAway(p: Pool, run: seq<Action>): seq<Task>
    requires Run(p, run) && NeverPopsEmpty(p, run)
    decreases |run|
  {
    if run == [] then []
    else
      (if run[0].Add? && p.add.Entered? && p.sem >= p.limit then [p.add.task] else [])
      + TurnedAway(Next(p, run[0]), run[1..])
  }

  /** Exactly these are dropped, in order. */
  lemma {:induction false} RunDrops(p: Pool, run: seq<Action>)
    requires Run(p, run) && NeverPopsEmpty(p, run)
    ensures Exec(p, run).dropped == p.dropped + TurnedAway(p, run)
    decreases |run|
  {
    if run == [] {
      assert p.dropped + [] == p.dropped;
    } else {
      var q := Next(p, run[0]);
      StepDrops(p, run[0]);
      RunDrops(q, run[1..]);
      Regroup(p.dropped, q.dropped[|p.dropped|..], TurnedAway(q, run[1..]));
    }
  }

  lemma Regroup(a: seq<Task>, b: seq<Task>, c: seq<Task>)
    ensures (a + b) + c == a + (b + c)
  {
  }

  lemma StepDrops(p: Pool, a: Action)
    requires Enabled(p, a) && PopDefined(p, a)
    ensures Next(p, a).dropped == p.dropped + if a.Add? && p.add.Entered? && p.sem >= p.limit then [p.add.task] else []
  {
    if a.Work? {
      WorkLeaves(p, a.i);
    }
  }

  /** A full semaphore means that as many tasks were accepted before. */
  ghost predicate Room(p: Pool) {
    && |p.offered| == |p.accepted| + |p.dropped| + (if p.add.Entered? || p.add.Released? then 1 else 0)
    && (p.dropped != [] ==> |p.offered| > p.limit)
  }

  lemma StepRoom(p: Pool, a: Action)
    requires Inv(p) && Room(p) && Enabled(p, a) && PopDefined(p, a)
    ensures Room(Next(p, a))
  {
    if a.Work? {
      WorkLeaves(p, a.i);
    }
  }

  lemma {:induction false} RunRoom(p: Pool, run: seq<Action>)
    requires Inv(p) && Room(p) && Run(p, run) && NeverPopsEmpty(p, run)
    ensures Room(Exec(p, run))
    decreases |run|
  {
    if run != [] {
      StepKeepsInv(p, run[0]);
      StepRoom(p, run[0]);
      RunRoom(Next(p, run[0]), run[1..]);
    }
  }

  lemma {:induction false} RunOffered(p: Pool, run: seq<Action>, t: Task)
    requires Offered(p, t) && Run(p, run) && NeverPopsEmpty(p, run)
    ensures Offered(Exec(p, run), t)
    decreases |run|
  {
    if run != [] {
      StepOffered(p, run[0], t);
      RunOffered(Next(p, run[0]), run[1..], t);
    }
  }

  /** What becomes of what is offered, over every run from the start: each task is accepted,
      dropped or still in the adder's hands, as often as it was offered; dropped are exactly
      those that found the semaphore at its limit, in order; and there are none of these as
      long as no more tasks than the limit were offered. */
  lemma OfferedAccounts(p: Pool, run: seq<Action>)
    requires Init(p) && Run(p, run) && NeverPopsEmpty(p, run)
    ensures var q := Exec(p, run);
            && (forall t :: Times(q.offered, t) == Times(q.accepted, t) + Times(q.dropped, t) + InHand(q.add, t))
            && q.dropped == TurnedAway(p, run)
            && (|q.offered| <= q.limit ==> q.dropped == [])
  {
    RunRoom(p, run);
    RunDrops(p, run);
    assert [] + TurnedAway(p, run) == TurnedAway(p, run);
    var q := Exec(p, run);
    forall t ensures Times(q.offered, t) == Times(q.accepted, t) + Times(q.dropped, t) + InHand(q.add, t) {
      assert Offered(p, t);
      RunOffered(p, run, t);
    }
  }

  // ---------------------------------------------------------------- how the pool grows

  /** How often a run came to the decision on a new thread with no idle one and room for more. */
  ghost function Shortages(p: Pool, run: seq<Action>): nat
    requires Run(p, run) && NeverPopsEmpty(p, run)
    decreases |run|
  {
    if run == [] then 0
    else
      (if run[0].Add? && p.add == Sizing && p.idle == 0 && |p.workers| < p.maxThreads then 1 else 0)
      + Shortages(Next(p, run[0]), run[1..])
  }

  /** Threads are started then and only then. */
  lemma {:induction false} RunGrows(p: Pool, run: seq<Action>)
    requires Run(p, run) && NeverPopsEmpty(p, run)
    ensures |Exec(p, run).workers| == |p.workers| + Shortages(p, run)
    decreases |run|
  {
    if run != [] {
      if run[0].Work? {
        WorkLeaves(p, run[0].i);
      }
      RunGrows(Next(p, run[0]), run[1..]);
    }
  }

  /** No more threads than tasks offered whose turn to start one is over. */
  ghost predicate OnePerTask(p: Pool) {
    |p.workers| + (if p.add == Free then 0 else 1) <= |p.offered|
  }

  lemma {:induction false} RunOnePerTask(p: Pool, run: seq<Action>)
    requires OnePerTask(p) && Run(p, run) && NeverPopsEmpty(p, run)
    ensures OnePerTask(Exec(p, run))
    decreases |run|
  {
    if run != [] {
      if run[0].Work? {
        WorkLeaves(p, run[0].i);
      }
      RunOnePerTask(Next(p, run[0]), run[1..]);
    }
  }

  /** Over every run from the start: as many threads as shortages, never more than tasks offered. */
  lemma PoolGrows(p: Pool, run: seq<Action>)
    requires Init(p) && Run(p, run) && NeverPopsEmpty(p, run)
    ensures |Exec(p, run).workers| == Shortages(p, run) <= |Exec(p, run).offered|
  {
    RunGrows(p, run);
    RunOnePerTask(p, run);
  }

  /** The adding thread can always go on once inside, and can come in when nobody is inside; a
      worker inside can go on; and between calls the pool can be stopped. */
  lemma AdderProceeds(p: Pool, task: Task)
    requires Inv(p)
    ensures p.add != Free ==> Enabled(p, Add)
    ensures p.add == Free && p.owner == Nobody && !p.stop ==> Enabled(p, Enter(task)) && Next(p, Enter(task)).add == Entered(task)
    ensures p.add == Free ==> Enabled(p, Stop)
    ensures p.owner.Worker? ==> CanWork(p, p.owner.i)
  {
  }
}
