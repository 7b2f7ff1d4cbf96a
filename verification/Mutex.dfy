/** The Windows form of `native_mutex_*` and `native_cond_wait` (MySQL Server
    5.7/include/thr_mutex.h:85-121, MySQL Server 5.7/include/thr_cond.h:126-149): a recursive
    critical section made to behave as a mutex that is not recursive. */
module Mutex {
  import opened Bytes

  // ---------------------------------------------------------------- the primitive

  /** CRITICAL_SECTION: its owner and `RecursionCount`. Leaving a section one does not own is
      undefined; the model marks it `broken`. */
  datatype Section = Section(owner: Option<nat>, count: nat, broken: bool)

  predicate CanEnter(c: Section, t: nat) {
    c.owner == None || c.owner == Some(t)
  }

  function Enter(c: Section, t: nat): Section
    requires CanEnter(c, t)
  {
    Section(Some(t), c.count + 1, c.broken)
  }

  function Leave(c: Section, t: nat): Section {
    if c.owner != Some(t) || c.count == 0 then c.(broken := true)
    else if c.count == 1 then Section(None, 0, c.broken)
    else c.(count := c.count - 1)
  }

  // ---------------------------------------------------------------- one thread alone

  class NativeMutex {
    var section: Section

    constructor ()
      ensures section == Section(None, 0, false)
    {
      section := Section(None, 0, false);
    }

    /** Returns once thread `self` can enter. */
    method Lock(self: nat) returns (r: int)
      requires CanEnter(section, self)
      modifies this
      ensures r == 0 && section == Enter(old(section), self)
    {
      section := Enter(section, self);
      r := 0;
    }

    /** Succeeds exactly when nobody owns the section, the caller included, and otherwise
        leaves it as it was, however often it has been entered. */
    method TryLock(self: nat) returns (r: int)
      requires !section.broken && (section.owner == None <==> section.count == 0)
      modifies this
      ensures r == (if old(section).owner == None then 0 else EBUSY)
      ensures section == (if r == 0 then Section(Some(self), 1, false) else old(section))
    {
      if CanEnter(section, self) {
        section := Enter(section, self);
        if section.count > 1 {
          section := Leave(section, self);
          return EBUSY;
        }
        return 0;
      }
      r := EBUSY;
    }

    method Unlock(self: nat) returns (r: int)
      modifies this
      ensures r == 0 && section == Leave(old(section), self)
    {
      section := Leave(section, self);
      r := 0;
    }
  }

  // ---------------------------------------------------------------- all threads, step by step

  /** Where a thread is. `holding` says whether it owned the mutex when it called trylock and
      `free` whether nobody did when the attempt was made; the code looks at neither. */
  datatype Pc =
    | Out                                 // does not own the mutex, in no call
    | Held                                // owns it, in no call
    | Locking                             // in lock, before the section is entered
    | Trying(holding: bool)               // in trylock, before the attempt
    | Entered(holding: bool, free: bool)  // the attempt succeeded, the count is to be tested
    | Backing(holding: bool)              // the count was above 1, about to leave
    | Twice                               // trylock returned 0 to the owner
    | Unlocking                           // in unlock
    | Waiting                             // in cond_wait or cond_timedwait, before the sleep
    | Asleep                              // has given up one level, to enter again when woken

  datatype State = State(section: Section, pcs: seq<Pc>)

  predicate Init(s: State) {
    s.section == Section(None, 0, false) && forall t :: 0 <= t < |s.pcs| ==> s.pcs[t] == Out
  }

  /** A call begins. Threads lock only while they do not own the mutex, and unlock or wait
      only while they do; trylock may be called by anyone. */
  predicate Begin(s: State, s': State, t: nat) {
    && t < |s.pcs|
    && match s.pcs[t]
       case Out => s' == s.(pcs := s.pcs[t := Locking]) || s' == s.(pcs := s.pcs[t := Trying(false)])
       case Held =>
         || s' == s.(pcs := s.pcs[t := Trying(true)])
         || s' == s.(pcs := s.pcs[t := Unlocking])
         || s' == s.(pcs := s.pcs[t := Waiting])
       case _ => false
  }

  function Back(holding: bool): Pc {
    if holding then Held else Out
  }

  /** Thread t takes the next step of its call. */
  predicate Advance(s: State, s': State, t: nat) {
    && t < |s.pcs|
    && var c := s.section;
    match s.pcs[t]
    case Locking => CanEnter(c, t) && s' == State(Enter(c, t), s.pcs[t := Held])
    case Trying(h) =>
      if CanEnter(c, t) then s' == State(Enter(c, t), s.pcs[t := Entered(h, c.owner == None)])
      else s' == s.(pcs := s.pcs[t := Back(h)])
    case Entered(h, free) =>
      if c.count > 1 then s' == s.(pcs := s.pcs[t := Backing(h)])
      else s' == s.(pcs := s.pcs[t := if h then Twice else Held])
    case Backing(h) => s' == State(Leave(c, t), s.pcs[t := Back(h)])
    case Unlocking => s' == State(Leave(c, t), s.pcs[t := Out])
    case Waiting => s' == State(Leave(c, t), s.pcs[t := Asleep])
    case Asleep => CanEnter(c, t) && s' == State(Enter(c, t), s.pcs[t := Held])
    case _ => false
  }

  ghost predicate Next(s: State, s': State) {
    exists t :: Begin(s, s', t) || Advance(s, s', t)
  }

  // ---------------------------------------------------------------- the invariant

  /** How many times a thread at this point has entered the section. */
  function Depth(pc: Pc): nat {
    match pc
    case Held => 1
    case Trying(h) => if h then 1 else 0
    case Entered(h, free) => if h then 2 else 1
    case Backing(h) => if h then 2 else 1
    case Twice => 2
    case Unlocking => 1
    case Waiting => 1
    case _ => 0
  }

  /** Nobody is where the code is not meant to get: the attempt of a thread that does not own
      the mutex finds it free, and only an owner has to back out. */
  predicate Sound(pc: Pc) {
    && !pc.Twice?
    && (pc.Entered? ==> pc.free == !pc.holding)
    && (pc.Backing? ==> pc.holding)
  }

  ghost predicate Inv(s: State) {
    && !s.section.broken
    && (s.section.owner == None <==> s.section.count == 0)
    && (s.section.owner.Some? ==>
          s.section.owner.value < |s.pcs| && s.section.count == Depth(s.pcs[s.section.owner.value]))
    && (forall t :: 0 <= t < |s.pcs| ==> Sound(s.pcs[t]) && (Depth(s.pcs[t]) > 0 ==> s.section.owner == Some(t)))
  }

  lemma StepKeepsInv(s: State, s': State, t: nat)
    requires Inv(s) && (Begin(s, s', t) || Advance(s, s', t))
    ensures Inv(s')
  {
    assert Sound(s.pcs[t]) && (Depth(s.pcs[t]) > 0 ==> s.section.owner == Some(t));
  }

  // ---------------------------------------------------------------- whole runs

  ghost predicate Behaviour(run: seq<State>) {
    && run != []
    && Init(run[0])
    && forall k :: 0 <= k < |run| - 1 ==> Next(run[k], run[k + 1])
  }

  lemma {:induction false} Reachable(run: seq<State>, k: nat)
    requires Behaviour(run) && k < |run|
    ensures Inv(run[k])
  {
    if k > 0 {
      Reachable(run, k - 1);
      assert Next(run[k - 1], run[k]);
      var t :| Begin(run[k - 1], run[k], t) || Advance(run[k - 1], run[k], t);
      StepKeepsInv(run[k - 1], run[k], t);
    }
  }

  /** In every interleaving: a thread that is in no call and owns the mutex has entered it
      once; the count exceeds 1 only inside a trylock of the owner; at most one thread owns
      the mutex; and leaving is never undefined. */
  lemma CountAtRest(run: seq<State>, k: nat, t: nat)
    requires Behaviour(run) && k < |run| && t < |run[k].pcs|
    ensures !run[k].section.broken && run[k].section.count <= 2
    ensures run[k].pcs[t] == Held ==> run[k].section == Section(Some(t), 1, false)
    ensures run[k].section.count == 2 && run[k].section.owner == Some(t) ==> run[k].pcs[t].Entered? || run[k].pcs[t].Backing?
  {
    Reachable(run, k);
    assert Sound(run[k].pcs[t]);
    if run[k].section.owner.Some? {
      assert Sound(run[k].pcs[run[k].section.owner.value]);
    }
  }

  /** trylock returns 0 exactly when nobody owned the mutex at its attempt. It can only return
      0 at the test of the count, and there the test tells the two cases apart; an attempt that
      fails at once found another owner. */
  lemma TryLockExact(run: seq<State>, k: nat, t: nat)
    requires Behaviour(run) && k < |run| && t < |run[k].pcs|
    ensures run[k].pcs[t].Entered? ==>
              (run[k].section.count > 1 <==> !run[k].pcs[t].free) && (run[k].pcs[t].free <==> !run[k].pcs[t].holding)
    ensures run[k].pcs[t].Trying? ==>
              (CanEnter(run[k].section, t) <==> run[k].section.owner == None || run[k].pcs[t].holding)
  {
    Reachable(run, k);
    assert Sound(run[k].pcs[t]) && (Depth(run[k].pcs[t]) > 0 ==> run[k].section.owner == Some(t));
  }

  /** A thread about to sleep on a condition has entered the mutex exactly once, so the level
      it gives up is the whole of it: the step to sleep frees the mutex. */
  lemma WaitFreesMutex(run: seq<State>, k: nat, t: nat)
    requires Behaviour(run) && k < |run| && t < |run[k].pcs| && run[k].pcs[t] == Waiting
    ensures run[k].section == Section(Some(t), 1, false)
    ensures Leave(run[k].section, t).owner == None
  {
    Reachable(run, k);
    assert Depth(run[k].pcs[t]) > 0;
  }

  // ---------------------------------------------------------------- refinement

  datatype Call = LockCall | TryCall | UnlockCall | WaitCall

  /** What a caller sees of a step: a call begins, a call returns, or nothing. */
  datatype Visible = Begins(call: Call) | Returns(call: Call, r: int) | Nothing

  /** What the code shows at a step of a thread, as it leaves one point for another. A wait
      returns with the section entered again, signalled or not: `timedOut` says which. */
  function Shows(pc: Pc, pc': Pc, timedOut: bool): Visible {
    match pc
    case Locking => Returns(LockCall, 0)
    case Trying(_) => if pc'.Entered? then Nothing else Returns(TryCall, EBUSY)
    case Entered(_, _) => if pc'.Backing? then Nothing else Returns(TryCall, 0)
    case Backing(_) => Returns(TryCall, EBUSY)
    case Unlocking => Returns(UnlockCall, 0)
    case Waiting => Nothing
    case Asleep => Returns(WaitCall, if timedOut then ETIMEDOUT else 0)
    case _ =>
      match pc' {
        case Locking => Begins(LockCall)
        case Trying(_) => Begins(TryCall)
        case Unlocking => Begins(UnlockCall)
        case _ => Begins(WaitCall)
      }
  }

  /** A mutex that is not recursive, as its callers understand it: its owner, and how far the
      call of each thread has got. */
  datatype Phase = Idle | Called(call: Call) | Decided(call: Call, r: int) | Sleeping

  datatype Abstract = Abstract(owner: Option<nat>, phases: seq<Phase>)

  predicate AbstractInit(a: Abstract) {
    a.owner == None && forall t :: 0 <= t < |a.phases| ==> a.phases[t] == Idle
  }

  /** Only who does not own the mutex locks it, and only its owner unlocks it or waits. */
  predicate Invoke(a: Abstract, a': Abstract, t: nat, call: Call) {
    && t < |a.phases| && a.phases[t] == Idle
    && (call == LockCall ==> a.owner != Some(t))
    && (call == UnlockCall || call == WaitCall ==> a.owner == Some(t))
    && a' == a.(phases := a.phases[t := Called(call)])
  }

  /** The one moment at which a call takes effect. A lock, a trylock that is to return 0 and the
      end of a wait, timed out or not, find the mutex free and take it; a trylock that is to
      return EBUSY finds it owned; an unlock and the beginning of a wait free it. */
  predicate Decide(a: Abstract, a': Abstract, t: nat) {
    && t < |a.phases|
    && match a.phases[t]
       case Called(LockCall) =>
         a.owner == None && a' == Abstract(Some(t), a.phases[t := Decided(LockCall, 0)])
       case Called(TryCall) =>
         if a.owner == None then a' == Abstract(Some(t), a.phases[t := Decided(TryCall, 0)])
         else a' == a.(phases := a.phases[t := Decided(TryCall, EBUSY)])
       case Called(UnlockCall) =>
         a.owner == Some(t) && a' == Abstract(None, a.phases[t := Decided(UnlockCall, 0)])
       case Called(WaitCall) => a.owner == Some(t) && a' == Abstract(None, a.phases[t := Sleeping])
       case Sleeping =>
         && a.owner == None
         && (a' == Abstract(Some(t), a.phases[t := Decided(WaitCall, 0)])
             || a' == Abstract(Some(t), a.phases[t := Decided(WaitCall, ETIMEDOUT)]))
       case _ => false
  }

  /** A call returns what was decided, and nothing else. */
  predicate Return(a: Abstract, a': Abstract, t: nat, call: Call, r: int) {
    t < |a.phases| && a.phases[t] == Decided(call, r) && a' == a.(phases := a.phases[t := Idle])
  }

  /** A step of the mutex, with what it shows. A return may come in one step with the decision,
      never without one. */
  ghost predicate AbstractNext(a: Abstract, a': Abstract, t: nat, v: Visible) {
    match v
    case Begins(call) => Invoke(a, a', t, call)
    case Nothing => a' == a || Decide(a, a', t)
    case Returns(call, r) =>
      || Return(a, a', t, call, r)
      || exists mid :: Decide(a, mid, t) && Return(mid, a', t, call, r)
  }

  function PhaseOf(pc: Pc): Phase {
    match pc
    case Out => Idle
    case Held => Idle
    case Twice => Idle
    case Locking => Called(LockCall)
    case Trying(_) => Called(TryCall)
    case Entered(h, _) => Decided(TryCall, if h then EBUSY else 0)
    case Backing(_) => Decided(TryCall, EBUSY)
    case Unlocking => Called(UnlockCall)
    case Waiting => Called(WaitCall)
    case Asleep => Sleeping
  }

  function Abs(s: State): Abstract {
    Abstract(s.section.owner, seq(|s.pcs|, t requires 0 <= t < |s.pcs| => PhaseOf(s.pcs[t])))
  }

  lemma AbsUpdate(s: State, c: Section, t: nat, pc: Pc)
    requires t < |s.pcs|
    ensures Abs(State(c, s.pcs[t := pc])) == Abstract(c.owner, Abs(s).phases[t := PhaseOf(pc)])
  {
  }

  lemma BeginRefines(s: State, s': State, t: nat, timedOut: bool)
    requires Inv(s) && Begin(s, s', t)
    ensures AbstractNext(Abs(s), Abs(s'), t, Shows(s.pcs[t], s'.pcs[t], timedOut))
  {
    AbsUpdate(s, s.section, t, s'.pcs[t]);
    assert Depth(s.pcs[t]) > 0 ==> s.section.owner == Some(t);
  }

  lemma AdvanceRefines(s: State, s': State, t: nat, timedOut: bool)
    requires Inv(s) && Advance(s, s', t)
    ensures AbstractNext(Abs(s), Abs(s'), t, Shows(s.pcs[t], s'.pcs[t], timedOut))
  {
    var a, v := Abs(s), Shows(s.pcs[t], s'.pcs[t], timedOut);
    AbsUpdate(s, s'.section, t, s'.pcs[t]);
    assert Sound(s.pcs[t]) && (Depth(s.pcs[t]) > 0 ==> s.section.owner == Some(t));
    if v.Returns? && !s.pcs[t].Entered? && !s.pcs[t].Backing? {
      var mid := Abstract(s'.section.owner, a.phases[t := Decided(v.call, v.r)]);
      assert mid.phases[t := Idle] == Abs(s').phases;
      assert Decide(a, mid, t);
    }
  }

  /** Over whole behaviours the recursive section refines the mutex that is not recursive:
      every step of thread t is a step of that mutex by t which shows the same. */
  lemma RunRefines(run: seq<State>, k: nat, t: nat, timedOut: bool)
    requires Behaviour(run) && k + 1 < |run|
    requires Begin(run[k], run[k + 1], t) || Advance(run[k], run[k + 1], t)
    ensures AbstractNext(Abs(run[k]), Abs(run[k + 1]), t, Shows(run[k].pcs[t], run[k + 1].pcs[t], timedOut))
    ensures AbstractInit(Abs(run[0]))
  {
    Reachable(run, k);
    if Begin(run[k], run[k + 1], t) {
      BeginRefines(run[k], run[k + 1], t, timedOut);
    } else {
      AdvanceRefines(run[k], run[k + 1], t, timedOut);
    }
  }

  // ---------------------------------------------------------------- progress

  predicate AtRest(pc: Pc) {
    pc == Out || pc == Held || pc == Twice
  }

  /** The state in which thread t has gone on with its call. */
  function After(s: State, t: nat): State
    requires t < |s.pcs|
  {
    var c := s.section;
    match s.pcs[t]
    case Locking => if CanEnter(c, t) then State(Enter(c, t), s.pcs[t := Held]) else s
    case Trying(h) =>
      if CanEnter(c, t) then State(Enter(c, t), s.pcs[t := Entered(h, c.owner == None)]) else s.(pcs := s.pcs[t := Back(h)])
    case Entered(h, free) => s.(pcs := s.pcs[t := if c.count > 1 then Backing(h) else if h then Twice else Held])
    case Backing(h) => State(Leave(c, t), s.pcs[t := Back(h)])
    case Unlocking => State(Leave(c, t), s.pcs[t := Out])
    case Waiting => State(Leave(c, t), s.pcs[t := Asleep])
    case Asleep => if CanEnter(c, t) then State(Enter(c, t), s.pcs[t := Held]) else s
    case _ => s
  }

  ghost predicate CanGoOn(s: State, t: nat) {
    exists s' :: Advance(s, s', t)
  }

  /** A thread inside a call can go on unless it locks, or wakes from a wait, while the mutex has
      an owner; no other step ever blocks. */
  lemma ProceedsIff(s: State, t: nat)
    requires Inv(s) && t < |s.pcs| && !AtRest(s.pcs[t])
    ensures CanGoOn(s, t) <==> (s.pcs[t] == Locking || s.pcs[t] == Asleep ==> s.section.owner == None)
  {
    if s.section.owner == Some(t) {
      assert Depth(s.pcs[t]) > 0;
    }
    if s.pcs[t] == Locking || s.pcs[t] == Asleep ==> s.section.owner == None {
      assert Advance(s, After(s, t), t);
    }
  }

  /** A thread at rest can begin every call it is entitled to. */
  lemma MayBegin(s: State, t: nat)
    requires t < |s.pcs|
    ensures s.pcs[t] == Out ==> Begin(s, s.(pcs := s.pcs[t := Locking]), t) && Begin(s, s.(pcs := s.pcs[t := Trying(false)]), t)
    ensures s.pcs[t] == Held ==>
              && Begin(s, s.(pcs := s.pcs[t := Trying(true)]), t)
              && Begin(s, s.(pcs := s.pcs[t := Unlocking]), t)
              && Begin(s, s.(pcs := s.pcs[t := Waiting]), t)
  {
  }

  /** No deadlock: in every state of every behaviour in which some thread is inside a call, some
      thread inside a call can go on, or the owner is at rest and can give the mutex back. */
  lemma NoDeadlock(run: seq<State>, k: nat, t: nat)
    requires Behaviour(run) && k < |run| && t < |run[k].pcs| && !AtRest(run[k].pcs[t])
    ensures exists u :: 0 <= u < |run[k].pcs| && (run[k].pcs[u] == Held || CanGoOn(run[k], u))
  {
    Reachable(run, k);
    var s := run[k];
    ProceedsIff(s, t);
    if !CanGoOn(s, t) {
      var u := s.section.owner.value;
      assert Sound(s.pcs[u]) && Depth(s.pcs[u]) > 0;
      if s.pcs[u] != Held {
        ProceedsIff(s, u);
      }
    }
  }
}
