/** The Windows form of `native_rw_*` (MySQL Server 5.7/include/thr_rwlock.h:49-138): a slim
    reader/writer lock plus a flag that tells the one `unlock` call which mode to release.
    The flag is written after the lock is acquired and before it is released, in steps of
    their own, and read by readers and writers alike. */
module RwLock {
  import opened Bytes
  import opened Counting

  // ---------------------------------------------------------------- the primitive

  /** SRWLOCK: it knows how many hold it, not who. Releasing a mode that is not held is
      undefined; the model calls the result `Broken`. */
  datatype Srw = Open | Shared(n: nat) | Exclusive | Broken

  predicate CanShare(s: Srw) {
    s.Open? || s.Shared?
  }

  function Share(s: Srw): Srw
    requires CanShare(s)
  {
    if s.Open? then Shared(1) else Shared(s.n + 1)
  }

  function ReleaseShared(s: Srw): Srw {
    if s.Shared? && s.n > 1 then Shared(s.n - 1) else if s.Shared? && s.n == 1 then Open else Broken
  }

  function ReleaseExclusive(s: Srw): Srw {
    if s.Exclusive? then Open else Broken
  }

  // ---------------------------------------------------------------- one thread alone

  class NativeRwLock {
    var srwlock: Srw
    var haveExclusive: bool

    constructor ()
      ensures srwlock == Open && !haveExclusive
    {
      srwlock, haveExclusive := Open, false;
    }

    /** Returns once the lock can be shared. */
    method RdLock() returns (r: int)
      requires CanShare(srwlock)
      modifies this
      ensures r == 0 && srwlock == Share(old(srwlock)) && haveExclusive == old(haveExclusive)
    {
      srwlock := Share(srwlock);
      r := 0;
    }

    method TryRdLock() returns (r: int)
      modifies this
      ensures r == (if CanShare(old(srwlock)) then 0 else EBUSY)
      ensures srwlock == (if r == 0 then Share(old(srwlock)) else old(srwlock))
      ensures haveExclusive == old(haveExclusive)
    {
      if !CanShare(srwlock) {
        return EBUSY;
      }
      srwlock := Share(srwlock);
      r := 0;
    }

    /** Returns once the lock is free. */
    method WrLock() returns (r: int)
      requires srwlock.Open?
      modifies this
      ensures r == 0 && srwlock == Exclusive && haveExclusive
    {
      srwlock := Exclusive;
      haveExclusive := true;
      r := 0;
    }

    method TryWrLock() returns (r: int)
      modifies this
      ensures r == (if old(srwlock).Open? then 0 else EBUSY)
      ensures r == 0 ==> srwlock == Exclusive && haveExclusive
      ensures r != 0 ==> srwlock == old(srwlock) && haveExclusive == old(haveExclusive)
    {
      if !srwlock.Open? {
        return EBUSY;
      }
      srwlock := Exclusive;
      haveExclusive := true;
      r := 0;
    }

    /** With the flag right, the mode that is held is given up. */
    method Unlock() returns (r: int)
      requires CanShare(srwlock) ==> srwlock.Shared? && srwlock.n > 0
      requires !srwlock.Broken? && (haveExclusive <==> srwlock.Exclusive?)
      modifies this
      ensures r == 0 && !haveExclusive
      ensures !srwlock.Broken?
      ensures old(srwlock).Shared? ==> CanShare(srwlock) && old(srwlock) == Share(srwlock)
      ensures old(srwlock).Exclusive? ==> srwlock == Open
    {
      if haveExclusive {
        haveExclusive := false;
        srwlock := ReleaseExclusive(srwlock);
      } else {
        srwlock := ReleaseShared(srwlock);
      }
      r := 0;
    }
  }

  // ---------------------------------------------------------------- all threads, step by step

  datatype Mode = Read | Write

  /** Where a thread is. `mode` is what the thread holds; the code never looks at it. The
      lock does not know its holders, so a thread that holds the lock in read mode several
      times over counts as several threads here. */
  datatype Pc =
    | Out                           // holds nothing, in no call
    | Calling(mode: Mode, try: bool)  // in a lock or trylock call, before the acquire
    | Acquired                      // in wrlock or trywrlock, before the flag is set
    | Holding(mode: Mode)           // the lock call has returned 0
    | Unlocking(mode: Mode)         // in unlock, before the flag is read
    | Read1(mode: Mode, flag: bool) // has read the flag
    | Cleared(mode: Mode)           // has cleared the flag, before the exclusive release

  datatype State = State(srw: Srw, flag: bool, pcs: seq<Pc>)

  predicate Init(s: State) {
    s.srw == Open && !s.flag && forall t :: 0 <= t < |s.pcs| ==> s.pcs[t] == Out
  }

  /** An idle thread begins a call. */
  predicate Begin(s: State, s': State, t: nat) {
    && t < |s.pcs|
    && match s.pcs[t]
       case Out => exists m, try :: m in {Read, Write} && try in {false, true} && s' == s.(pcs := s.pcs[t := Calling(m, try)])
       case Holding(m) => s' == s.(pcs := s.pcs[t := Unlocking(m)])
       case _ => false
  }

  predicate Available(srw: Srw, m: Mode) {
    if m == Read then CanShare(srw) else srw.Open?
  }

  /** Thread t takes the next step of the call it is in. A failed try returns EBUSY. */
  predicate Advance(s: State, s': State, t: nat) {
    && t < |s.pcs|
    && match s.pcs[t]
       case Calling(m, try) =>
         if Available(s.srw, m) then
           if m == Read then s' == s.(srw := Share(s.srw), pcs := s.pcs[t := Holding(Read)])
           else s' == s.(srw := Exclusive, pcs := s.pcs[t := Acquired])
         else try && s' == s.(pcs := s.pcs[t := Out])
       case Acquired => s' == s.(flag := true, pcs := s.pcs[t := Holding(Write)])
       case Unlocking(m) => s' == s.(pcs := s.pcs[t := Read1(m, s.flag)])
       case Read1(m, flag) =>
         if flag then s' == s.(flag := false, pcs := s.pcs[t := Cleared(m)])
         else s' == s.(srw := ReleaseShared(s.srw), pcs := s.pcs[t := Out])
       case Cleared(m) => s' == s.(srw := ReleaseExclusive(s.srw), pcs := s.pcs[t := Out])
       case _ => false
  }

  ghost predicate Next(s: State, s': State) {
    exists t :: Begin(s, s', t) || Advance(s, s', t)
  }

  // ---------------------------------------------------------------- the invariant

  datatype Kind = Sharing | Excluding | Flagged | Wrong

  /** Sharing, Excluding: the thread has the lock. Flagged: and its flag is set. Wrong: it
      read the flag and found the other mode. */
  predicate Is(pc: Pc, k: Kind) {
    match k
    case Sharing => (pc.Holding? || pc.Unlocking? || pc.Read1? || pc.Cleared?) && pc.mode == Read
    case Excluding => pc == Acquired || ((pc.Holding? || pc.Unlocking? || pc.Read1? || pc.Cleared?) && pc.mode == Write)
    case Flagged => (pc.Holding? || pc.Unlocking? || pc.Read1?) && pc.mode == Write
    case Wrong => (pc.Read1? && pc.flag != (pc.mode == Write)) || (pc.Cleared? && pc.mode == Read)
  }

  function One(k: Kind): Pc -> nat {
    pc => if Is(pc, k) then 1 else 0
  }

  /** How many threads are of a kind. */
  function Count(pcs: seq<Pc>, k: Kind): nat {
    Sum(One(k), pcs)
  }

  lemma CountUpdate(pcs: seq<Pc>, t: nat, pc: Pc, k: Kind)
    requires t < |pcs|
    ensures Count(pcs[t := pc], k) == Count(pcs, k) - (if Is(pcs[t], k) then 1 else 0) + (if Is(pc, k) then 1 else 0)
    ensures Is(pcs[t], k) ==> Count(pcs, k) >= 1
  {
    SumUpdate(One(k), pcs, t, pc);
  }

  /** The lock counts its holders, there is a flag exactly for the writer past its store, and
      nobody has misread it. */
  ghost predicate Inv(s: State) {
    && !s.srw.Broken?
    && (s.srw.Shared? ==> s.srw.n >= 1)
    && Count(s.pcs, Sharing) == (if s.srw.Shared? then s.srw.n else 0)
    && Count(s.pcs, Excluding) == (if s.srw.Exclusive? then 1 else 0)
    && Count(s.pcs, Flagged) == (if s.flag then 1 else 0)
    && Count(s.pcs, Wrong) == 0
  }

  lemma {:induction false} NoneCounted(pcs: seq<Pc>, k: Kind)
    requires forall t :: 0 <= t < |pcs| ==> pcs[t] == Out
    ensures Count(pcs, k) == 0
  {
    if pcs != [] {
      NoneCounted(pcs[1..], k);
    }
  }

  /** Who holds the flag holds the lock exclusively. */
  lemma {:induction false} FlaggedExcludes(pcs: seq<Pc>)
    ensures Count(pcs, Flagged) <= Count(pcs, Excluding)
  {
    if pcs != [] {
      FlaggedExcludes(pcs[1..]);
    }
  }

  /** A thread that has the lock exclusively, but not yet or no longer the flag, is not counted. */
  lemma UnflaggedWriter(pcs: seq<Pc>, t: nat)
    requires t < |pcs| && Is(pcs[t], Excluding) && !Is(pcs[t], Flagged)
    ensures Count(pcs, Flagged) < Count(pcs, Excluding)
  {
    FlaggedExcludes(pcs[t := Out]);
    CountUpdate(pcs, t, Out, Flagged);
    CountUpdate(pcs, t, Out, Excluding);
  }

  /** The counts when one thread moves. */
  lemma Move(pcs: seq<Pc>, t: nat, pc: Pc)
    requires t < |pcs|
    ensures forall k :: Count(pcs[t := pc], k) ==
              Count(pcs, k) - (if Is(pcs[t], k) then 1 else 0) + (if Is(pc, k) then 1 else 0)
    ensures forall k :: Is(pcs[t], k) ==> Count(pcs, k) >= 1
  {
    forall k ensures Count(pcs[t := pc], k) ==
                     Count(pcs, k) - (if Is(pcs[t], k) then 1 else 0) + (if Is(pc, k) then 1 else 0)
             ensures Is(pcs[t], k) ==> Count(pcs, k) >= 1
    {
      CountUpdate(pcs, t, pc, k);
    }
  }

  lemma BeginKeepsInv(s: State, s': State, t: nat)
    requires Inv(s) && Begin(s, s', t)
    ensures Inv(s')
  {
    Move(s.pcs, t, s'.pcs[t]);
  }

  lemma LockKeepsInv(s: State, s': State, t: nat)
    requires Inv(s) && Advance(s, s', t) && (s.pcs[t].Calling? || s.pcs[t].Acquired?)
    ensures Inv(s')
  {
    Move(s.pcs, t, s'.pcs[t]);
    FlaggedExcludes(s.pcs);
    if s.pcs[t].Acquired? {
      UnflaggedWriter(s.pcs, t);
    }
  }

  lemma UnlockKeepsInv(s: State, s': State, t: nat)
    requires Inv(s) && Advance(s, s', t) && !s.pcs[t].Calling? && !s.pcs[t].Acquired?
    ensures Inv(s')
  {
    Move(s.pcs, t, s'.pcs[t]);
    FlaggedExcludes(s.pcs);
  }

  lemma StepKeepsInv(s: State, s': State, t: nat)
    requires Inv(s) && (Begin(s, s', t) || Advance(s, s', t))
    ensures Inv(s')
  {
    if Begin(s, s', t) {
      BeginKeepsInv(s, s', t);
    } else if s.pcs[t].Calling? || s.pcs[t].Acquired? {
      LockKeepsInv(s, s', t);
    } else {
      UnlockKeepsInv(s, s', t);
    }
  }

  // ---------------------------------------------------------------- whole runs

  /** A behaviour: it starts with all threads idle and each state steps to the next. */
  ghost predicate Behaviour(run: seq<State>) {
    && run != []
    && Init(run[0])
    && forall k :: 0 <= k < |run| - 1 ==> Next(run[k], run[k + 1])
  }

  lemma {:induction false} Reachable(run: seq<State>, k: nat)
    requires Behaviour(run) && k < |run|
    ensures Inv(run[k])
  {
    if k == 0 {
      NoneCounted(run[0].pcs, Sharing);
      NoneCounted(run[0].pcs, Excluding);
      NoneCounted(run[0].pcs, Flagged);
      NoneCounted(run[0].pcs, Wrong);
    } else {
      Reachable(run, k - 1);
      assert Next(run[k - 1], run[k]);
      var t :| Begin(run[k - 1], run[k], t) || Advance(run[k - 1], run[k], t);
      StepKeepsInv(run[k - 1], run[k], t);
    }
  }

  /** In every interleaving of any number of threads, `unlock` sees the flag of its own mode:
      a reader always finds it false, a writer true, so that it releases what its thread holds;
      and no release is ever undefined. */
  lemma UnlockSeesOwnMode(run: seq<State>, k: nat, t: nat)
    requires Behaviour(run) && k < |run| && t < |run[k].pcs|
    ensures !run[k].srw.Broken?
    ensures run[k].pcs[t].Unlocking? ==> (run[k].flag <==> run[k].pcs[t].mode == Write)
    ensures run[k].pcs[t].Read1? ==> (run[k].pcs[t].flag <==> run[k].pcs[t].mode == Write)
    ensures run[k].pcs[t].Cleared? ==> run[k].pcs[t].mode == Write
  {
    Reachable(run, k);
    var s := run[k];
    var pc := s.pcs[t];
    FlaggedExcludes(s.pcs);
    CountUpdate(s.pcs, t, pc, Wrong);
    CountUpdate(s.pcs, t, pc, Sharing);
    CountUpdate(s.pcs, t, pc, Flagged);
  }

  predicate AtRest(pc: Pc) {
    pc == Out || pc.Holding?
  }

  lemma {:induction false} RestCounts(pcs: seq<Pc>)
    requires forall t :: 0 <= t < |pcs| ==> AtRest(pcs[t])
    ensures Count(pcs, Flagged) == Count(pcs, Excluding)
  {
    if pcs != [] {
      RestCounts(pcs[1..]);
    }
  }

  /** The flag is only ever up while the lock is held exclusively, by one thread; and when no
      thread is inside a call the flag is up exactly when the lock is held exclusively. */
  lemma FlagMeansExclusive(run: seq<State>, k: nat)
    requires Behaviour(run) && k < |run|
    ensures run[k].flag ==> run[k].srw == Exclusive && Count(run[k].pcs, Excluding) == 1 && Count(run[k].pcs, Sharing) == 0
    ensures (forall t :: 0 <= t < |run[k].pcs| ==> AtRest(run[k].pcs[t])) ==>
              (run[k].flag <==> run[k].srw == Exclusive)
  {
    Reachable(run, k);
    FlaggedExcludes(run[k].pcs);
    if forall t :: 0 <= t < |run[k].pcs| ==> AtRest(run[k].pcs[t]) {
      RestCounts(run[k].pcs);
    }
  }

  // ---------------------------------------------------------------- refinement

  /** What a caller sees of a step, and which mode the code has the primitive release: the
      shared one where the flag was read as false, the exclusive one where it was cleared. */
  datatype Visible =
    | Begins(mode: Mode, try: bool)
    | BeginsUnlock
    | Granted(mode: Mode)   // a lock call returns 0
    | Refused(mode: Mode)   // a try returns EBUSY
    | Released(mode: Mode)  // unlock releases this mode and returns 0
    | Nothing

  /** What the code shows at a step of a thread, as it leaves one point for another. */
  function Shows(pc: Pc, pc': Pc): Visible {
    match pc
    case Calling(m, _) =>
      if pc'.Acquired? then Nothing else if pc'.Holding? then Granted(m) else Refused(m)
    case Acquired => Granted(Write)
    case Read1(_, flag) => if flag then Nothing else Released(Read)
    case Cleared(_) => Released(Write)
    case Unlocking(_) => Nothing
    case _ => if pc'.Calling? then Begins(pc'.mode, pc'.try) else BeginsUnlock
  }

  /** The reader/writer lock as its callers understand it: who holds it in which mode, and how
      far the call of each thread has got. */
  datatype Phase = Idle | Called(mode: Mode, try: bool) | Got(mode: Mode) | Leaving

  datatype Abstract = Abstract(readers: set<nat>, writers: set<nat>, phases: seq<Phase>)

  predicate AbstractInit(a: Abstract) {
    a.readers == {} && a.writers == {} && forall t :: 0 <= t < |a.phases| ==> a.phases[t] == Idle
  }

  /** Whether the lock is to be had in this mode. */
  predicate Admits(a: Abstract, m: Mode) {
    a.writers == {} && (m == Write ==> a.readers == {})
  }

  predicate Holds(a: Abstract, t: nat, m: Mode) {
    if m == Read then t in a.readers else t in a.writers
  }

  function Added(a: Abstract, t: nat, m: Mode): Abstract {
    if m == Read then a.(readers := a.readers + {t}) else a.(writers := a.writers + {t})
  }

  function Removed(a: Abstract, t: nat, m: Mode): Abstract {
    if m == Read then a.(readers := a.readers - {t}) else a.(writers := a.writers - {t})
  }

  /** Thread t's call is let in. */
  predicate LetIn(a: Abstract, a': Abstract, t: nat, m: Mode, after: Phase) {
    && t < |a.phases| && a.phases[t].Called? && a.phases[t].mode == m
    && Admits(a, m)
    && a' == Added(a, t, m).(phases := a.phases[t := after])
  }

  /** A step of the lock, with what it shows. A call is let in only where the lock admits its
      mode and refused only where it does not; what is released is what the thread holds. */
  predicate AbstractNext(a: Abstract, a': Abstract, t: nat, v: Visible) {
    && t < |a.phases|
    && match v
       case Begins(m, try) => a.phases[t] == Idle && a' == a.(phases := a.phases[t := Called(m, try)])
       case BeginsUnlock =>
         a.phases[t] == Idle && (t in a.readers || t in a.writers) && a' == a.(phases := a.phases[t := Leaving])
       case Granted(m) =>
         || LetIn(a, a', t, m, Idle)
         || (a.phases[t] == Got(m) && Holds(a, t, m) && a' == a.(phases := a.phases[t := Idle]))
       case Refused(m) =>
         a.phases[t] == Called(m, true) && !Admits(a, m) && a' == a.(phases := a.phases[t := Idle])
       case Released(m) =>
         a.phases[t] == Leaving && Holds(a, t, m) && a' == Removed(a, t, m).(phases := a.phases[t := Idle])
       case Nothing => (a' == a && a.phases[t] == Leaving) || LetIn(a, a', t, Write, Got(Write))
  }

  ghost function Holders(pcs: seq<Pc>, k: Kind): set<nat> {
    set t: nat | t < |pcs| && Is(pcs[t], k)
  }

  function PhaseOf(pc: Pc): Phase {
    match pc
    case Calling(m, try) => Called(m, try)
    case Acquired => Got(Write)
    case Unlocking(_) => Leaving
    case Read1(_, _) => Leaving
    case Cleared(_) => Leaving
    case _ => Idle
  }

  function Phases(pcs: seq<Pc>): seq<Phase> {
    seq(|pcs|, t requires 0 <= t < |pcs| => PhaseOf(pcs[t]))
  }

  ghost function Abs(s: State): Abstract {
    Abstract(Holders(s.pcs, Sharing), Holders(s.pcs, Excluding), Phases(s.pcs))
  }

  lemma NoHolders(pcs: seq<Pc>, k: Kind)
    ensures Count(pcs, k) == 0 <==> Holders(pcs, k) == {}
  {
    if Count(pcs, k) == 0 {
      forall t: nat | t < |pcs| ensures !Is(pcs[t], k) {
        CountUpdate(pcs, t, pcs[t], k);
      }
    } else {
      var t := SomeHolder(pcs, k);
      assert t in Holders(pcs, k);
    }
  }

  lemma {:induction false} SomeHolder(pcs: seq<Pc>, k: Kind) returns (t: nat)
    requires Count(pcs, k) > 0
    ensures t < |pcs| && Is(pcs[t], k)
  {
    if Is(pcs[0], k) {
      t := 0;
    } else {
      t := SomeHolder(pcs[1..], k);
      t := t + 1;
    }
  }

  /** The primitive is to be had in a mode exactly when the abstract lock admits it: no release
      of the wrong mode ever wedges it or opens it too soon. */
  lemma AvailableIffAdmits(s: State, m: Mode)
    requires Inv(s)
    ensures Available(s.srw, m) <==> Admits(Abs(s), m)
  {
    NoHolders(s.pcs, Sharing);
    NoHolders(s.pcs, Excluding);
  }

  lemma HoldersUpdate(pcs: seq<Pc>, t: nat, pc: Pc, k: Kind)
    requires t < |pcs|
    ensures Holders(pcs[t := pc], k) == if Is(pc, k) then Holders(pcs, k) + {t} else Holders(pcs, k) - {t}
  {
  }

  /** How the abstract lock changes when one thread moves. */
  lemma AbsUpdate(s: State, s': State, t: nat)
    requires t < |s.pcs| == |s'.pcs| && s'.pcs == s.pcs[t := s'.pcs[t]]
    ensures Abs(s').phases == Abs(s).phases[t := PhaseOf(s'.pcs[t])]
    ensures Abs(s').readers == if Is(s'.pcs[t], Sharing) then Abs(s).readers + {t} else Abs(s).readers - {t}
    ensures Abs(s').writers == if Is(s'.pcs[t], Excluding) then Abs(s).writers + {t} else Abs(s).writers - {t}
    ensures t in Abs(s).readers <==> Is(s.pcs[t], Sharing)
    ensures t in Abs(s).writers <==> Is(s.pcs[t], Excluding)
  {
    HoldersUpdate(s.pcs, t, s'.pcs[t], Sharing);
    HoldersUpdate(s.pcs, t, s'.pcs[t], Excluding);
  }

  lemma BeginRefines(s: State, s': State, t: nat)
    requires Inv(s) && Begin(s, s', t)
    ensures AbstractNext(Abs(s), Abs(s'), t, Shows(s.pcs[t], s'.pcs[t]))
  {
    AbsUpdate(s, s', t);
  }

  lemma AcquireRefines(s: State, s': State, t: nat)
    requires Inv(s) && Advance(s, s', t) && s.pcs[t].Calling?
    ensures AbstractNext(Abs(s), Abs(s'), t, Shows(s.pcs[t], s'.pcs[t]))
  {
    AbsUpdate(s, s', t);
    AvailableIffAdmits(s, s.pcs[t].mode);
  }

  lemma UnlockRefines(s: State, s': State, t: nat)
    requires Inv(s) && Advance(s, s', t) && !s.pcs[t].Calling?
    ensures AbstractNext(Abs(s), Abs(s'), t, Shows(s.pcs[t], s'.pcs[t]))
  {
    AbsUpdate(s, s', t);
    CountUpdate(s.pcs, t, s'.pcs[t], Wrong);
  }

  /** Every step of the code is a step of the abstract lock, taken by the same thread and
      showing the same. */
  lemma StepRefines(s: State, s': State, t: nat)
    requires Inv(s) && (Begin(s, s', t) || Advance(s, s', t))
    ensures AbstractNext(Abs(s), Abs(s'), t, Shows(s.pcs[t], s'.pcs[t]))
  {
    if Begin(s, s', t) {
      BeginRefines(s, s', t);
    } else if s.pcs[t].Calling? {
      AcquireRefines(s, s', t);
    } else {
      UnlockRefines(s, s', t);
    }
  }

  /** Over whole behaviours: the code refines the abstract lock, and in every state the
      primitive can be acquired exactly in the modes which the abstract lock admits. */
  lemma RunRefines(run: seq<State>, k: nat, t: nat)
    requires Behaviour(run) && k + 1 < |run|
    requires Begin(run[k], run[k + 1], t) || Advance(run[k], run[k + 1], t)
    ensures AbstractNext(Abs(run[k]), Abs(run[k + 1]), t, Shows(run[k].pcs[t], run[k + 1].pcs[t]))
    ensures AbstractInit(Abs(run[0]))
    ensures forall m :: Available(run[k].srw, m) <==> Admits(Abs(run[k]), m)
  {
    Reachable(run, k);
    StepRefines(run[k], run[k + 1], t);
    Reachable(run, 0);
    NoHolders(run[0].pcs, Sharing);
    NoHolders(run[0].pcs, Excluding);
    forall m ensures Available(run[k].srw, m) <==> Admits(Abs(run[k]), m) {
      AvailableIffAdmits(run[k], m);
    }
  }

  // ---------------------------------------------------------------- progress

  /** The state in which thread t has gone on with its call. */
  function After(s: State, t: nat): State
    requires t < |s.pcs|
  {
    match s.pcs[t]
    case Calling(m, try) =>
      if !Available(s.srw, m) then s.(pcs := s.pcs[t := Out])
      else if m == Read then s.(srw := Share(s.srw), pcs := s.pcs[t := Holding(Read)])
      else s.(srw := Exclusive, pcs := s.pcs[t := Acquired])
    case Acquired => s.(flag := true, pcs := s.pcs[t := Holding(Write)])
    case Unlocking(m) => s.(pcs := s.pcs[t := Read1(m, s.flag)])
    case Read1(m, flag) =>
      if flag then s.(flag := false, pcs := s.pcs[t := Cleared(m)])
      else s.(srw := ReleaseShared(s.srw), pcs := s.pcs[t := Out])
    case Cleared(m) => s.(srw := ReleaseExclusive(s.srw), pcs := s.pcs[t := Out])
    case _ => s
  }

  /** A thread inside a call can go on unless it waits for a lock that the abstract lock does not
      admit; no other step ever blocks. */
  lemma ProceedsIff(s: State, t: nat)
    requires Inv(s) && t < |s.pcs| && !AtRest(s.pcs[t])
    ensures (exists s' :: Advance(s, s', t)) <==>
            (s.pcs[t].Calling? && !s.pcs[t].try ==> Admits(Abs(s), s.pcs[t].mode))
  {
    if s.pcs[t].Calling? {
      AvailableIffAdmits(s, s.pcs[t].mode);
    }
    if s.pcs[t].Calling? && !s.pcs[t].try ==> Admits(Abs(s), s.pcs[t].mode) {
      assert Advance(s, After(s, t), t);
    }
  }

  /** A thread at rest can begin any call it is entitled to. */
  lemma MayBegin(s: State, t: nat, m: Mode, try: bool)
    requires t < |s.pcs|
    ensures s.pcs[t] == Out ==> Begin(s, s.(pcs := s.pcs[t := Calling(m, try)]), t)
    ensures s.pcs[t] == Holding(m) ==> Begin(s, s.(pcs := s.pcs[t := Unlocking(m)]), t)
  {
    assert m in {Read, Write} && try in {false, true};
  }

  /** No deadlock: in every state of every behaviour in which some thread is inside a call, some
      thread is at rest with the lock, and can give it back, or some thread inside a call can
      go on. */
  lemma NoDeadlock(run: seq<State>, k: nat, t: nat)
    requires Behaviour(run) && k < |run| && t < |run[k].pcs| && !AtRest(run[k].pcs[t])
    ensures exists u :: 0 <= u < |run[k].pcs| && (run[k].pcs[u].Holding? || CanGoOn(run[k], u))
  {
    Reachable(run, k);
    var s := run[k];
    ProceedsIff(s, t);
    if !CanGoOn(s, t) {
      var kind := if Abs(s).writers != {} then Excluding else Sharing;
      NoHolders(s.pcs, kind);
      var u := SomeHolder(s.pcs, kind);
      if !s.pcs[u].Holding? {
        ProceedsIff(s, u);
      }
    }
  }

  ghost predicate CanGoOn(s: State, t: nat) {
    exists s' :: Advance(s, s', t)
  }
}
