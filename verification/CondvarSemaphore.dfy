/** The mutex-and-condvar counting semaphore, interleaved step by step.

    `permits` and `waiters` are atomics; the mutex protects nothing but the
    decision to sleep.  A releaser adds permits, reads the waiter count, takes
    and drops the mutex, and only then notifies.  `wait` releases the mutex and
    sleeps in one action, and may return spuriously or on timeout. */
module CondvarSemaphore {
  import opened Base
  import opened Counting

  const U32_MAX: nat := 0xFFFF_FFFF

  /** The caller of `try_get_permit`: the fast path of `acquire`, `try_acquire`, or
      the loop of `acquire_slow`, with or without a deadline. */
  datatype Path = Fast | Once | Slow(timed: bool)

  datatype Pc =
    | Idle
    | Load(path: Path)
    | Cas(path: Path, cur: nat)
    | Announce(timed: bool)
    | LockWait(timed: bool)
    | Missed(timed: bool)
    | Recheck(timed: bool)
    | Spin(timed: bool)
    | Sleep(timed: bool)
    | Asleep(timed: bool)
    | Returning
    | Leave
    | RelLoad(n: nat)
    | RelCas(n: nat, cur: nat)
    | RelWaiters(n: nat)
    | RelLock(n: nat)
    | RelHeld(n: nat)
    | RelNotify(n: nat)

  /** `acquired`, `released`, `saturated` are history. */
  datatype State = State(
    permits: nat, waiters: nat, lock: Option<nat>, pcs: seq<Pc>,
    initial: nat, acquired: nat, released: nat, saturated: bool)

  datatype Step =
    | Start(t: nat, path: Path)
    | DoLoad(t: nat)
    | CasOk(t: nat)
    | CasFail(t: nat)
    | DoAnnounce(t: nat)
    | TakeLock(t: nat)
    | CheckDeadline(t: nat, expired: bool)
    | DoRecheck(t: nat)
    | DropLock(t: nat)
    | DoSleep(t: nat)
    | Awaken(t: nat)
    | DoLeave(t: nat)
    | StartRelease(t: nat, n: nat)
    | Add(t: nat)
    | AddFail(t: nat)
    | ReadWaiters(t: nat)
    | NotifyOne(t: nat, target: Option<nat>)
    | NotifyAll(t: nat)

  // ---------------------------------------------------------------- weights

  function Registered(p: Pc): nat {
    match p
    case Load(path) => if path.Slow? then 1 else 0
    case Cas(path, _) => if path.Slow? then 1 else 0
    case LockWait(_) => 1
    case Missed(_) => 1
    case Recheck(_) => 1
    case Spin(_) => 1
    case Sleep(_) => 1
    case Asleep(_) => 1
    case Returning => 1
    case Leave => 1
    case _ => 0
  }

  /** Awake slow-path threads that will attempt a decrement before they sleep. */
  function Candidate(p: Pc): nat {
    match p
    case Load(path) => if path.Slow? then 1 else 0
    case Cas(path, _) => if path.Slow? then 1 else 0
    case LockWait(_) => 1
    case Spin(_) => 1
    case _ => 0
  }

  /** Wakes owed by releasers that must still pass through the mutex. */
  function OwedBeforeLock(p: Pc): nat {
    match p
    case RelWaiters(n) => n
    case RelLock(n) => n
    case _ => 0
  }

  /** Wakes owed by releasers that have already been through it. */
  function OwedAfterLock(p: Pc): nat {
    match p
    case RelHeld(n) => n
    case RelNotify(n) => n
    case _ => 0
  }

  predicate Holds(p: Pc) {
    match p
    case Load(path) => path.Slow?
    case Cas(path, _) => path.Slow?
    case Missed(_) => true
    case Recheck(_) => true
    case Spin(_) => true
    case Sleep(_) => true
    case Returning => true
    case RelHeld(_) => true
    case _ => false
  }

  /** Past a failed attempt, holding the mutex, not asleep yet. */
  predicate PastFailure(p: Pc) {
    p.Missed? || p.Recheck? || p.Sleep?
  }

  ghost predicate Sleeping(pcs: seq<Pc>) {
    exists i :: 0 <= i < |pcs| && pcs[i].Asleep?
  }

  ghost predicate AboutToSleep(pcs: seq<Pc>) {
    exists i :: 0 <= i < |pcs| && PastFailure(pcs[i])
  }

  // ---------------------------------------------------------------- actions

  function Seen(path: Path, cur: nat): Pc {
    if cur > 0 then Cas(path, cur)
    else match path
      case Fast => Announce(false)
      case Once => Idle
      case Slow(timed) => Missed(timed)
  }

  /** What a thread past a failed attempt does next. */
  function FailedAction(t: nat, p: Pc, expired: bool): Step {
    if p.Missed? then CheckDeadline(t, expired)
    else if p.Recheck? then DoRecheck(t)
    else DoSleep(t)
  }

  function SaturatingAdd(a: nat, n: nat): nat {
    if a + n <= U32_MAX then a + n else U32_MAX
  }

  function WokenAll(pcs: seq<Pc>): (r: seq<Pc>)
    ensures |r| == |pcs|
    ensures forall i :: 0 <= i < |pcs| ==> r[i] == if pcs[i].Asleep? then LockWait(pcs[i].timed) else pcs[i]
  {
    seq(|pcs|, i requires 0 <= i < |pcs| => if pcs[i].Asleep? then LockWait(pcs[i].timed) else pcs[i])
  }

  ghost predicate Enabled(s: State, a: Step) {
    a.t < |s.pcs| &&
    var p := s.pcs[a.t];
    match a
    case Start(_, _) => p == Idle
    case DoLoad(_) => p.Load? || p.RelLoad?
    case CasOk(_) => p.Cas? && s.permits == p.cur
    case CasFail(_) => p.Cas?
    case DoAnnounce(_) => p.Announce?
    case TakeLock(_) => (p.LockWait? || p.RelLock?) && s.lock == None
    case CheckDeadline(_, expired) => p.Missed? && (expired ==> p.timed)
    case DoRecheck(_) => p.Recheck?
    case DropLock(_) => p.Spin? || p == Returning || p.RelHeld?
    case DoSleep(_) => p.Sleep?
    case Awaken(_) => p.Asleep?
    case DoLeave(_) => p == Leave
    case StartRelease(_, n) => p == Idle && 0 < n <= U32_MAX
    case Add(_) => p.RelCas? && s.permits == p.cur
    case AddFail(_) => p.RelCas?
    case ReadWaiters(_) => p.RelWaiters?
    case NotifyOne(_, target) =>
      p == RelNotify(1) &&
      match target {
        case Some(x) => x < |s.pcs| && s.pcs[x].Asleep?
        case None => !Sleeping(s.pcs)
      }
    case NotifyAll(_) => p.RelNotify? && p.n != 1
  }

  function Goto(s: State, t: nat, p: Pc): State
    requires t < |s.pcs|
  {
    s.(pcs := s.pcs[t := p])
  }

  ghost function Apply(s: State, a: Step): State
    requires Enabled(s, a)
  {
    var t, p := a.t, s.pcs[a.t];
    match a
    case Start(_, path) => if path.Slow? then Goto(s, t, Announce(path.timed)) else Goto(s, t, Load(path))
    case DoLoad(_) => Goto(s, t, if p.Load? then Seen(p.path, s.permits) else RelCas(p.n, s.permits))
    case CasOk(_) =>
      Goto(s, t, if p.path.Slow? then Returning else Idle)
        .(permits := if s.permits > 0 then s.permits - 1 else U32_MAX, acquired := s.acquired + 1)
    case CasFail(_) => Goto(s, t, Seen(p.path, s.permits))
    case DoAnnounce(_) => Goto(s, t, LockWait(p.timed)).(waiters := s.waiters + 1)
    case TakeLock(_) => Goto(s, t, if p.LockWait? then Load(Slow(p.timed)) else RelHeld(p.n)).(lock := Some(t))
    case CheckDeadline(_, expired) => Goto(s, t, if expired then Returning else Recheck(p.timed))
    case DoRecheck(_) => Goto(s, t, if s.permits != 0 then Spin(p.timed) else Sleep(p.timed))
    case DropLock(_) =>
      Goto(s, t, if p.Spin? then LockWait(p.timed) else if p == Returning then Leave else RelNotify(p.n))
        .(lock := None)
    case DoSleep(_) => Goto(s, t, Asleep(p.timed)).(lock := None)
    case Awaken(_) => Goto(s, t, LockWait(p.timed))
    case DoLeave(_) => Goto(s, t, Idle).(waiters := if s.waiters > 0 then s.waiters - 1 else U32_MAX)
    case StartRelease(_, n) => Goto(s, t, RelLoad(n))
    case Add(_) =>
      Goto(s, t, RelWaiters(p.n))
        .(permits := SaturatingAdd(p.cur, p.n), released := s.released + p.n,
          saturated := s.saturated || p.cur + p.n > U32_MAX)
    case AddFail(_) => Goto(s, t, RelCas(p.n, s.permits))
    case ReadWaiters(_) => Goto(s, t, if s.waiters == 0 then Idle else RelLock(p.n))
    case NotifyOne(_, target) =>
      match target {
        case Some(x) => s.(pcs := s.pcs[t := Idle][x := LockWait(s.pcs[x].timed)])
        case None => Goto(s, t, Idle)
      }
    case NotifyAll(_) => s.(pcs := WokenAll(s.pcs[t := Idle]))
  }

  // -------------------------------------------------------------- invariant

  /** While a thread sleeps, permits are covered by candidates and owed wakes. */
  ghost predicate Covered(s: State) {
    Sleeping(s.pcs) ==>
      s.permits <= Sum(s.pcs, Candidate) + Sum(s.pcs, OwedBeforeLock) + Sum(s.pcs, OwedAfterLock)
  }

  /** While a thread is between a failed attempt and sleeping, a wake already past
      the mutex may miss it, so only wakes still before the mutex count. */
  ghost predicate CoveredBeforeLock(s: State) {
    AboutToSleep(s.pcs) ==> s.permits <= Sum(s.pcs, OwedBeforeLock)
  }

  ghost predicate LockExact(s: State) {
    forall t :: 0 <= t < |s.pcs| ==> (Holds(s.pcs[t]) <==> s.lock == Some(t))
  }

  ghost predicate LocalFacts(s: State) {
    forall t :: 0 <= t < |s.pcs| ==> s.pcs[t].Cas? ==> s.pcs[t].cur > 0
  }

  ghost predicate Conserved(s: State) {
    && s.permits + s.acquired <= s.initial + s.released
    && (s.saturated <==> s.permits + s.acquired < s.initial + s.released)
    && s.permits <= U32_MAX
  }

  ghost predicate Inv(s: State) {
    && s.waiters == Sum(s.pcs, Registered)
    && LockExact(s) && LocalFacts(s) && Conserved(s)
    && Covered(s) && CoveredBeforeLock(s)
  }

  lemma StepMovesSums(pcs: seq<Pc>, t: nat, p: Pc)
    requires t < |pcs|
    ensures Sum(pcs[t := p], Registered) + Registered(pcs[t]) == Sum(pcs, Registered) + Registered(p)
    ensures Sum(pcs[t := p], Candidate) + Candidate(pcs[t]) == Sum(pcs, Candidate) + Candidate(p)
    ensures Sum(pcs[t := p], OwedBeforeLock) + OwedBeforeLock(pcs[t]) == Sum(pcs, OwedBeforeLock) + OwedBeforeLock(p)
    ensures Sum(pcs[t := p], OwedAfterLock) + OwedAfterLock(pcs[t]) == Sum(pcs, OwedAfterLock) + OwedAfterLock(p)
  {
    SumUpdate(pcs, t, p, Registered);
    SumUpdate(pcs, t, p, Candidate);
    SumUpdate(pcs, t, p, OwedBeforeLock);
    SumUpdate(pcs, t, p, OwedAfterLock);
  }

  lemma StepMovesSleepers(pcs: seq<Pc>, t: nat, p: Pc)
    requires t < |pcs|
    ensures Sleeping(pcs[t := p]) && !p.Asleep? ==> Sleeping(pcs)
    ensures AboutToSleep(pcs[t := p]) && !PastFailure(p) ==> AboutToSleep(pcs)
    ensures PastFailure(pcs[t]) ==> AboutToSleep(pcs)
    ensures Sleeping(pcs) || AboutToSleep(pcs) ==> Sum(pcs, Registered) > 0
  {
    if Sleeping(pcs[t := p]) && !p.Asleep? {
      var i :| 0 <= i < |pcs| && pcs[t := p][i].Asleep?;
      assert pcs[i].Asleep?;
    }
    if AboutToSleep(pcs[t := p]) && !PastFailure(p) {
      var i :| 0 <= i < |pcs| && PastFailure(pcs[t := p][i]);
      assert PastFailure(pcs[i]);
    }
    if Sleeping(pcs) {
      var i :| 0 <= i < |pcs| && pcs[i].Asleep?;
      SumAtLeast(pcs, i, Registered);
    }
    if AboutToSleep(pcs) {
      var i :| 0 <= i < |pcs| && PastFailure(pcs[i]);
      SumAtLeast(pcs, i, Registered);
    }
  }

  /** A step of one thread that changes only its own program counter and the shared
      fields.  The last three hypotheses are what a thread owes the others. */
  lemma LocalStepKeepsInv(s: State, s': State, t: nat)
    requires Inv(s) && t < |s.pcs| && |s'.pcs| == |s.pcs| && s'.pcs == s.pcs[t := s'.pcs[t]]
    requires LockExact(s') && Conserved(s')
    requires s'.pcs[t].Cas? ==> s'.pcs[t].cur > 0
    requires s'.waiters + Registered(s.pcs[t]) == s.waiters + Registered(s'.pcs[t])
    // falling asleep must follow a failed attempt
    requires s'.pcs[t].Asleep? ==> PastFailure(s.pcs[t]) && s'.permits == s.permits
    // failing an attempt needs an empty semaphore
    requires PastFailure(s'.pcs[t]) ==> s'.permits == 0 || (PastFailure(s.pcs[t]) && s'.permits == s.permits)
    // whatever coverage the thread gives up is paid for
    requires AboutToSleep(s.pcs) && AboutToSleep(s'.pcs) ==>
               s'.permits + OwedBeforeLock(s.pcs[t]) <= s.permits + OwedBeforeLock(s'.pcs[t])
    requires Sleeping(s.pcs) ==>
               || s'.permits == 0
               || (PastFailure(s.pcs[t]) && s'.permits == s.permits)
               || s'.permits + Candidate(s.pcs[t]) + OwedBeforeLock(s.pcs[t]) + OwedAfterLock(s.pcs[t])
                  <= s.permits + Candidate(s'.pcs[t]) + OwedBeforeLock(s'.pcs[t]) + OwedAfterLock(s'.pcs[t])
    ensures Inv(s')
  {
    StepMovesSums(s.pcs, t, s'.pcs[t]);
    StepMovesSleepers(s.pcs, t, s'.pcs[t]);
  }

  lemma DecrementKeepsInv(s: State, a: Step)
    requires Inv(s) && Enabled(s, a) && (a.DoLoad? || a.CasOk? || a.CasFail?)
    ensures Inv(Apply(s, a))
  {
    StepMovesSleepers(s.pcs, a.t, Apply(s, a).pcs[a.t]);
    LocalStepKeepsInv(s, Apply(s, a), a.t);
  }

  lemma RecheckKeepsInv(s: State, a: Step)
    requires Inv(s) && Enabled(s, a) && (a.CheckDeadline? || a.DoRecheck?)
    ensures Inv(Apply(s, a))
  {
    StepMovesSleepers(s.pcs, a.t, Apply(s, a).pcs[a.t]);
    LocalStepKeepsInv(s, Apply(s, a), a.t);
  }

  lemma SleepKeepsInv(s: State, a: Step)
    requires Inv(s) && Enabled(s, a) && (a.DoSleep? || a.Awaken?)
    ensures Inv(Apply(s, a))
  {
    StepMovesSleepers(s.pcs, a.t, Apply(s, a).pcs[a.t]);
    LocalStepKeepsInv(s, Apply(s, a), a.t);
  }

  lemma UnlockKeepsInv(s: State, a: Step)
    requires Inv(s) && Enabled(s, a) && a.DropLock?
    ensures Inv(Apply(s, a))
  {
    StepMovesSleepers(s.pcs, a.t, Apply(s, a).pcs[a.t]);
    LocalStepKeepsInv(s, Apply(s, a), a.t);
  }

  lemma LockKeepsInv(s: State, a: Step)
    requires Inv(s) && Enabled(s, a) && a.TakeLock?
    ensures Inv(Apply(s, a))
  {
    StepMovesSleepers(s.pcs, a.t, Apply(s, a).pcs[a.t]);
    LocalStepKeepsInv(s, Apply(s, a), a.t);
  }

  lemma RegisterKeepsInv(s: State, a: Step)
    requires Inv(s) && Enabled(s, a)
    requires a.Start? || a.DoAnnounce? || a.DoLeave?
    ensures Inv(Apply(s, a))
  {
    SumAtLeast(s.pcs, a.t, Registered);
    LocalStepKeepsInv(s, Apply(s, a), a.t);
  }

  lemma ReleaseKeepsInv(s: State, a: Step)
    requires Inv(s) && Enabled(s, a)
    requires a.StartRelease? || a.Add? || a.AddFail? || a.ReadWaiters?
    ensures Inv(Apply(s, a))
  {
    StepMovesSleepers(s.pcs, a.t, Apply(s, a).pcs[a.t]);
    LocalStepKeepsInv(s, Apply(s, a), a.t);
  }

  /** Notifying moves threads only between program counters without the mutex. */
  lemma NotifyKeepsFacts(s: State, a: Step)
    requires Inv(s) && Enabled(s, a) && (a.NotifyOne? || a.NotifyAll?)
    ensures var s' := Apply(s, a); LockExact(s') && LocalFacts(s') && Conserved(s')
    ensures AboutToSleep(Apply(s, a).pcs) ==> AboutToSleep(s.pcs)
  {
    var s' := Apply(s, a);
    forall t | 0 <= t < |s.pcs|
      ensures Holds(s'.pcs[t]) == Holds(s.pcs[t])
      ensures PastFailure(s'.pcs[t]) == PastFailure(s.pcs[t])
      ensures s'.pcs[t].Cas? ==> s'.pcs[t] == s.pcs[t]
    {}
  }

  lemma NotifyOneSums(s: State, a: Step)
    requires Inv(s) && Enabled(s, a) && a.NotifyOne? && a.target.Some?
    ensures var s' := Apply(s, a);
      && Sum(s'.pcs, Registered) == Sum(s.pcs, Registered)
      && Sum(s'.pcs, Candidate) == Sum(s.pcs, Candidate) + 1
      && Sum(s'.pcs, OwedBeforeLock) == Sum(s.pcs, OwedBeforeLock)
      && Sum(s'.pcs, OwedAfterLock) + 1 == Sum(s.pcs, OwedAfterLock)
  {
    var x := a.target.value;
    var mid := s.pcs[a.t := Idle];
    StepMovesSums(s.pcs, a.t, Idle);
    StepMovesSums(mid, x, LockWait(s.pcs[x].timed));
  }

  /** A notify trades an owed wake for a candidate, or finds nobody asleep. */
  lemma NotifyOneKeepsInv(s: State, a: Step)
    requires Inv(s) && Enabled(s, a) && a.NotifyOne?
    ensures Inv(Apply(s, a))
  {
    match a.target
    case None =>
      LocalStepKeepsInv(s, Apply(s, a), a.t);
    case Some(x) =>
      NotifyKeepsFacts(s, a);
      NotifyOneSums(s, a);
      assert s.pcs[x].Asleep? && Sleeping(s.pcs);
  }

  lemma NotifyAllKeepsInv(s: State, a: Step)
    requires Inv(s) && Enabled(s, a) && a.NotifyAll?
    ensures Inv(Apply(s, a))
  {
    var mid, s' := s.pcs[a.t := Idle], Apply(s, a);
    NotifyKeepsFacts(s, a);
    StepMovesSums(s.pcs, a.t, Idle);
    SumSame(mid, s'.pcs, Registered);
    SumSame(mid, s'.pcs, OwedBeforeLock);
    assert !Sleeping(s'.pcs);
  }

  lemma StepKeepsInv(s: State, a: Step)
    requires Inv(s) && Enabled(s, a)
    ensures Inv(Apply(s, a))
  {
    match a
    case DoLoad(_) => DecrementKeepsInv(s, a);
    case CasOk(_) => DecrementKeepsInv(s, a);
    case CasFail(_) => DecrementKeepsInv(s, a);
    case Start(_, _) => RegisterKeepsInv(s, a);
    case DoAnnounce(_) => RegisterKeepsInv(s, a);
    case DoLeave(_) => RegisterKeepsInv(s, a);
    case StartRelease(_, _) => ReleaseKeepsInv(s, a);
    case Add(_) => ReleaseKeepsInv(s, a);
    case AddFail(_) => ReleaseKeepsInv(s, a);
    case ReadWaiters(_) => ReleaseKeepsInv(s, a);
    case NotifyOne(_, _) => NotifyOneKeepsInv(s, a);
    case NotifyAll(_) => NotifyAllKeepsInv(s, a);
    case CheckDeadline(_, _) => RecheckKeepsInv(s, a);
    case DoRecheck(_) => RecheckKeepsInv(s, a);
    case DoSleep(_) => SleepKeepsInv(s, a);
    case Awaken(_) => SleepKeepsInv(s, a);
    case DropLock(_) => UnlockKeepsInv(s, a);
    case TakeLock(_) => LockKeepsInv(s, a);
  }

  // ------------------------------------------------------------------- runs

  ghost predicate Init(s: State) {
    && s.permits == s.initial <= U32_MAX && s.waiters == 0 && s.lock == None
    && s.acquired == 0 && s.released == 0 && !s.saturated
    && forall t :: 0 <= t < |s.pcs| ==> s.pcs[t] == Idle
  }

  ghost predicate Run(s: State, steps: seq<Step>, end: State)
    decreases steps
  {
    if steps == [] then end == s
    else Enabled(s, steps[0]) && Run(Apply(s, steps[0]), steps[1..], end)
  }

  lemma InitInv(s: State)
    requires Init(s)
    ensures Inv(s)
  {
    SumZero(s.pcs, Registered);
  }

  lemma {:induction false} RunKeepsInv(s: State, steps: seq<Step>, end: State)
    requires Inv(s) && Run(s, steps, end)
    ensures Inv(end) && end.initial == s.initial
    decreases steps
  {
    if steps != [] {
      StepKeepsInv(s, steps[0]);
      RunKeepsInv(Apply(s, steps[0]), steps[1..], end);
    }
  }

  /** A thread that can still change the picture for a sleeper. */
  predicate Active(p: Pc) {
    Candidate(p) > 0 || OwedBeforeLock(p) > 0 || OwedAfterLock(p) > 0 || PastFailure(p)
  }

  /** In every run: while a thread sleeps, permits are covered by awake candidates and
      owed wakes; while one is about to sleep, by wakes that must still take the
      mutex; so when nothing is left to run a sleeper proves there are no permits. */
  lemma NoLostWakeup(s: State, steps: seq<Step>, end: State)
    requires Init(s) && Run(s, steps, end)
    ensures Covered(end) && CoveredBeforeLock(end)
    ensures Sleeping(end.pcs) && (forall t :: 0 <= t < |end.pcs| ==> !Active(end.pcs[t])) ==> end.permits == 0
  {
    InitInv(s);
    RunKeepsInv(s, steps, end);
    if forall t :: 0 <= t < |end.pcs| ==> !Active(end.pcs[t]) {
      SumZero(end.pcs, Candidate);
      SumZero(end.pcs, OwedBeforeLock);
      SumZero(end.pcs, OwedAfterLock);
    }
  }

  /** Decrements with stale values never create or lose a permit: the saturating add
      can only lose some, and does so exactly in a run that saturated. */
  lemma PermitsConserved(s: State, steps: seq<Step>, end: State)
    requires Init(s) && Run(s, steps, end)
    ensures end.permits + end.acquired <= s.permits + end.released
    ensures end.permits + end.acquired == s.permits + end.released <==> !end.saturated
    ensures end.waiters <= |end.pcs|
  {
    InitInv(s);
    RunKeepsInv(s, steps, end);
    SumAtMost(end.pcs, Registered);
  }

  // ------------------------------------------------------------ no deadlock

  ghost predicate OwnerExists(s: State) {
    s.lock.Some? ==> s.lock.value < |s.pcs|
  }

  lemma {:induction false} RunKeepsOwner(s: State, steps: seq<Step>, end: State)
    requires OwnerExists(s) && Run(s, steps, end)
    ensures OwnerExists(end)
    decreases steps
  {
    if steps != [] {
      StepKeepsOwner(s, steps[0]);
      RunKeepsOwner(Apply(s, steps[0]), steps[1..], end);
    }
  }

  lemma StepKeepsOwner(s: State, a: Step)
    requires OwnerExists(s) && Enabled(s, a)
    ensures OwnerExists(Apply(s, a))
  {}

  ghost predicate CanMove(s: State, t: nat) {
    exists a :: Enabled(s, a) && a.t == t
  }

  predicate Resting(p: Pc) {
    p == Idle || p.Asleep?
  }

  lemma ReleaserCanMove(s: State, t: nat)
    requires t < |s.pcs| && s.pcs[t].RelNotify?
    ensures CanMove(s, t)
  {
    if s.pcs[t].n != 1 {
      assert Enabled(s, NotifyAll(t));
    } else if Sleeping(s.pcs) {
      var x :| 0 <= x < |s.pcs| && s.pcs[x].Asleep?;
      assert Enabled(s, NotifyOne(t, Some(x)));
    } else {
      assert Enabled(s, NotifyOne(t, None));
    }
  }

  /** Nobody but a thread that needs the mutex is ever stuck. */
  lemma AwakeCanMove(s: State, t: nat)
    requires t < |s.pcs| && !Resting(s.pcs[t]) && !s.pcs[t].LockWait? && !s.pcs[t].RelLock?
    ensures CanMove(s, t)
  {
    if s.pcs[t].RelNotify? {
      ReleaserCanMove(s, t);
    } else {
      var a := match s.pcs[t] {
        case Load(_) => DoLoad(t)
        case RelLoad(_) => DoLoad(t)
        case Cas(_, _) => CasFail(t)
        case RelCas(_, _) => AddFail(t)
        case Announce(_) => DoAnnounce(t)
        case Missed(_) => CheckDeadline(t, false)
        case Recheck(_) => DoRecheck(t)
        case Sleep(_) => DoSleep(t)
        case Leave => DoLeave(t)
        case RelWaiters(_) => ReadWaiters(t)
        case _ => DropLock(t)
      };
      assert Enabled(s, a);
    }
  }

  /** In every reachable state every thread inside an operation sleeps, can go on, or
      waits for the mutex while its owner can go on. */
  lemma NoDeadlock(s: State, t: nat)
    requires LockExact(s) && OwnerExists(s) && t < |s.pcs| && !Resting(s.pcs[t])
    ensures CanMove(s, t) || (s.lock.Some? && s.lock.value < |s.pcs|
                              && !Resting(s.pcs[s.lock.value]) && CanMove(s, s.lock.value))
  {
    if s.pcs[t].LockWait? || s.pcs[t].RelLock? {
      if s.lock == None {
        assert Enabled(s, TakeLock(t));
      } else {
        assert Holds(s.pcs[s.lock.value]);
        AwakeCanMove(s, s.lock.value);
      }
    } else {
      AwakeCanMove(s, t);
    }
  }

  /** Nothing happens any more unless a new call begins or a sleeper wakes by itself. */
  ghost predicate Quiescent(s: State) {
    forall t :: 0 <= t < |s.pcs| && CanMove(s, t) ==> Resting(s.pcs[t])
  }

  /** No lost wakeup, to the end: when nothing runs any more, only sleepers are inside
      an operation, and a sleeper proves that there is no permit to take. */
  lemma QuiescentMeansNoPermits(s: State, steps: seq<Step>, end: State)
    requires Init(s) && Run(s, steps, end) && Quiescent(end)
    ensures forall t :: 0 <= t < |end.pcs| ==> Resting(end.pcs[t])
    ensures Sleeping(end.pcs) ==> end.permits == 0
  {
    InitInv(s);
    RunKeepsInv(s, steps, end);
    RunKeepsOwner(s, steps, end);
    forall t | 0 <= t < |end.pcs| ensures Resting(end.pcs[t]) {
      if !Resting(end.pcs[t]) {
        NoDeadlock(end, t);
      }
    }
    forall t | 0 <= t < |end.pcs| ensures !Active(end.pcs[t]) {
      assert Resting(end.pcs[t]);
    }
    NoLostWakeup(s, steps, end);
  }

  // --------------------------------------------------- the object in place

  /** The semaphore as the object the threads share, with the thread table beside
      it.  Each method is one atomic action, performed in place. */
  class System {
    var permits: nat
    var waiters: nat
    var lock: Option<nat>
    var pcs: seq<Pc>
    ghost var initial: nat
    ghost var acquired: nat
    ghost var released: nat
    ghost var saturated: bool

    ghost function View(): State
      reads this
    {
      State(permits, waiters, lock, pcs, initial, acquired, released, saturated)
    }

    ghost predicate Valid()
      reads this
    {
      Inv(View())
    }

    constructor (n: nat, threads: nat)
      requires n <= U32_MAX
      ensures Valid() && Init(View()) && permits == n && |pcs| == threads
    {
      permits, waiters, lock, pcs := n, 0, None, seq(threads, _ => Idle);
      initial, acquired, released, saturated := n, 0, 0, false;
      new;
      InitInv(View());
    }

    method Begin(t: nat, path: Path)
      requires Valid() && t < |pcs| && pcs[t] == Idle
      modifies this
      ensures Valid() && View() == Apply(old(View()), Start(t, path))
    {
      StepKeepsInv(View(), Start(t, path));
      pcs := pcs[t := if path.Slow? then Announce(path.timed) else Load(path)];
    }

    /** The load that opens the loop of `try_get_permit` or `release`. */
    method LoadPermits(t: nat)
      requires Valid() && t < |pcs| && (pcs[t].Load? || pcs[t].RelLoad?)
      modifies this
      ensures Valid() && View() == Apply(old(View()), DoLoad(t))
    {
      StepKeepsInv(View(), DoLoad(t));
      pcs := pcs[t := if pcs[t].Load? then Seen(pcs[t].path, permits) else RelCas(pcs[t].n, permits)];
    }

    /** One weak compare-and-swap of `try_get_permit`. */
    method TryGetPermit(t: nat, spurious: bool) returns (ok: bool)
      requires Valid() && t < |pcs| && pcs[t].Cas?
      modifies this
      ensures Valid() && ok == (old(permits) == old(pcs[t].cur) && !spurious)
      ensures View() == Apply(old(View()), if ok then CasOk(t) else CasFail(t))
    {
      var path := pcs[t].path;
      ok := permits == pcs[t].cur && !spurious;
      StepKeepsInv(View(), if ok then CasOk(t) else CasFail(t));
      if ok {
        permits, acquired := permits - 1, acquired + 1;
        pcs := pcs[t := if path.Slow? then Returning else Idle];
      } else {
        pcs := pcs[t := Seen(path, permits)];
      }
    }

    /** The waiter guard: registration on entry, deregistration on drop. */
    method WaiterGuard(t: nat)
      requires Valid() && t < |pcs| && (pcs[t].Announce? || pcs[t] == Leave)
      modifies this
      ensures Valid()
      ensures View() == Apply(old(View()), if old(pcs[t]) == Leave then DoLeave(t) else DoAnnounce(t))
    {
      StepKeepsInv(View(), if pcs[t] == Leave then DoLeave(t) else DoAnnounce(t));
      SumAtLeast(pcs, t, Registered);
      if pcs[t] == Leave {
        waiters, pcs := waiters - 1, pcs[t := Idle];
      } else {
        waiters, pcs := waiters + 1, pcs[t := LockWait(pcs[t].timed)];
      }
    }

    method Lock(t: nat)
      requires Valid() && t < |pcs| && (pcs[t].LockWait? || pcs[t].RelLock?) && lock == None
      modifies this
      ensures Valid() && View() == Apply(old(View()), TakeLock(t))
    {
      StepKeepsInv(View(), TakeLock(t));
      lock := Some(t);
      pcs := pcs[t := if pcs[t].LockWait? then Load(Slow(pcs[t].timed)) else RelHeld(pcs[t].n)];
    }

    method Unlock(t: nat)
      requires Valid() && t < |pcs| && (pcs[t].Spin? || pcs[t] == Returning || pcs[t].RelHeld?)
      modifies this
      ensures Valid() && View() == Apply(old(View()), DropLock(t))
    {
      StepKeepsInv(View(), DropLock(t));
      lock := None;
      pcs := pcs[t := if pcs[t].Spin? then LockWait(pcs[t].timed)
                      else if pcs[t] == Returning then Leave
                      else RelNotify(pcs[t].n)];
    }

    /** `acquire_slow` between a failed attempt and sleeping. */
    method AcquireSlow(t: nat, expired: bool)
      requires Valid() && t < |pcs| && PastFailure(pcs[t])
      requires expired ==> pcs[t].timed
      modifies this
      ensures Valid()
      ensures View() == Apply(old(View()), FailedAction(t, old(pcs[t]), expired))
    {
      var timed := pcs[t].timed;
      StepKeepsInv(View(), FailedAction(t, pcs[t], expired));
      if pcs[t].Missed? {
        pcs := pcs[t := if expired then Returning else Recheck(timed)];
      } else if pcs[t].Recheck? {
        pcs := pcs[t := if permits != 0 then Spin(timed) else Sleep(timed)];
      } else {
        lock, pcs := None, pcs[t := Asleep(timed)];
      }
    }

    /** A sleeper wakes by itself: spuriously, or because its timeout expired. */
    method WakeUp(t: nat)
      requires Valid() && t < |pcs| && pcs[t].Asleep?
      modifies this
      ensures Valid() && View() == Apply(old(View()), Awaken(t))
    {
      StepKeepsInv(View(), Awaken(t));
      pcs := pcs[t := LockWait(pcs[t].timed)];
    }

    method BeginRelease(t: nat, n: nat)
      requires Valid() && t < |pcs| && pcs[t] == Idle && 0 < n <= U32_MAX
      modifies this
      ensures Valid() && View() == Apply(old(View()), StartRelease(t, n))
    {
      StepKeepsInv(View(), StartRelease(t, n));
      pcs := pcs[t := RelLoad(n)];
    }

    /** One weak compare-and-swap of `release`. */
    method AddPermits(t: nat, spurious: bool) returns (ok: bool)
      requires Valid() && t < |pcs| && pcs[t].RelCas?
      modifies this
      ensures Valid() && ok == (old(permits) == old(pcs[t].cur) && !spurious)
      ensures View() == Apply(old(View()), if ok then Add(t) else AddFail(t))
    {
      var n := pcs[t].n;
      ok := permits == pcs[t].cur && !spurious;
      StepKeepsInv(View(), if ok then Add(t) else AddFail(t));
      if ok {
        released, saturated := released + n, saturated || permits + n > U32_MAX;
        permits, pcs := SaturatingAdd(permits, n), pcs[t := RelWaiters(n)];
      } else {
        pcs := pcs[t := RelCas(n, permits)];
      }
    }

    method LoadWaiters(t: nat)
      requires Valid() && t < |pcs| && pcs[t].RelWaiters?
      modifies this
      ensures Valid() && View() == Apply(old(View()), ReadWaiters(t))
    {
      StepKeepsInv(View(), ReadWaiters(t));
      pcs := pcs[t := if waiters == 0 then Idle else RelLock(pcs[t].n)];
    }

    /** `notify_one` for a release of one permit, `notify_all` otherwise. */
    method Notify(t: nat, target: Option<nat>)
      requires Valid() && t < |pcs| && pcs[t].RelNotify?
      requires pcs[t].n == 1 ==> Enabled(View(), NotifyOne(t, target))
      modifies this
      ensures Valid()
      ensures View() == Apply(old(View()), if old(pcs[t]).n == 1 then NotifyOne(t, target) else NotifyAll(t))
    {
      if pcs[t].n == 1 {
        StepKeepsInv(View(), NotifyOne(t, target));
        pcs := pcs[t := Idle];
        if target.Some? {
          pcs := pcs[target.value := LockWait(pcs[target.value].timed)];
        }
      } else {
        StepKeepsInv(View(), NotifyAll(t));
        pcs := WokenAll(pcs[t := Idle]);
      }
    }

    /** Any enabled action, performed in place by the source function it belongs to. */
    method Step(a: Step)
      requires Valid() && Enabled(View(), a)
      modifies this
      ensures Valid() && View() == Apply(old(View()), a)
    {
      match a
      case Start(t, path) => Begin(t, path);
      case DoLoad(t) => LoadPermits(t);
      case CasOk(t) => var ok := TryGetPermit(t, false);
      case CasFail(t) => var ok := TryGetPermit(t, true);
      case DoAnnounce(t) => WaiterGuard(t);
      case TakeLock(t) => Lock(t);
      case CheckDeadline(t, expired) => AcquireSlow(t, expired);
      case DoRecheck(t) => AcquireSlow(t, false);
      case DropLock(t) => Unlock(t);
      case DoSleep(t) => AcquireSlow(t, false);
      case Awaken(t) => WakeUp(t);
      case DoLeave(t) => WaiterGuard(t);
      case StartRelease(t, n) => BeginRelease(t, n);
      case Add(t) => var ok := AddPermits(t, false);
      case AddFail(t) => var ok := AddPermits(t, true);
      case ReadWaiters(t) => LoadWaiters(t);
      case NotifyOne(t, target) => Notify(t, target);
      case NotifyAll(t) => Notify(t, None);
    }

    /** Any schedule runs on the object, and ends where the machine says. */
    method Execute(steps: seq<Step>, ghost end: State)
      requires Valid() && Run(View(), steps, end)
      modifies this
      ensures Valid() && View() == end
    {
      var k := 0;
      while k < |steps|
        invariant k <= |steps| && Valid() && Run(View(), steps[k..], end)
      {
        assert steps[k..][0] == steps[k] && steps[k..][1..] == steps[k + 1..];
        Step(steps[k]);
        k := k + 1;
      }
    }
  }
}
