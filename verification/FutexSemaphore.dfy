/** The futex-based counting semaphore, interleaved step by step.

    Any number of threads share one futex word `permits` and one counter
    `waiters`.  A thread's program counter says which atomic action it performs
    next; a value it has already loaded travels in the program counter, so a
    compare-and-swap may be attempted with a stale value.  Memory is
    sequentially consistent; `FutexWord.wait(0)` sleeps only if the word is 0 at
    that instant and may return at any time. */
module FutexSemaphore {
  import opened Base
  import opened Counting

  const U32: nat := 0x1_0000_0000
  const MAX_PERMITS: nat := 0x7FFF_FFFF

  /** Which caller runs the decrement: the fast path of `acquire`, the loop of
      `acquire_slow`, or `try_acquire` with its single strong exchange. */
  datatype Path = Fast | Slow | Once

  datatype Pc =
    | Idle
    | Load(path: Path)
    | Cas(path: Path, cur: nat)
    | Announce
    | Recheck
    | Wait
    | Asleep
    | Leave
    | ReadWaiters(n: nat)
    | WakeAll(n: nat)
    | WakeOne(left: nat)
    | Panicked

  /** `acquired`, `released` and `overfull` are history: successful decrements,
      permits handed in, and whether some release ever exceeded MAX_PERMITS. */
  datatype State = State(
    permits: nat, waiters: nat, pcs: seq<Pc>,
    initial: nat, acquired: nat, released: nat, overfull: bool)

  /** One atomic action of thread `t`. `target` is the sleeper a wake picks. */
  datatype Step =
    | StartAcquire(t: nat)
    | StartTry(t: nat)
    | DoLoad(t: nat)
    | CasOk(t: nat)
    | CasFail(t: nat)
    | DoAnnounce(t: nat)
    | DoRecheck(t: nat)
    | DoWait(t: nat)
    | SpuriousWake(t: nat)
    | DoLeave(t: nat)
    | Release(t: nat, n: nat, strict: bool)
    | DoReadWaiters(t: nat)
    | DoWakeAll(t: nat)
    | DoWakeOne(t: nat, target: Option<nat>)

  // ---------------------------------------------------------------- weights

  /** Threads counted in `waiters`. */
  function Registered(p: Pc): nat {
    match p
    case Load(path) => if path == Slow then 1 else 0
    case Cas(path, _) => if path == Slow then 1 else 0
    case Recheck => 1
    case Wait => 1
    case Asleep => 1
    case Leave => 1
    case _ => 0
  }

  /** Awake slow-path threads that still look for a permit. */
  function Candidate(p: Pc): nat {
    if p == Asleep || p == Leave then 0 else Registered(p)
  }

  /** Wakes a releaser still has to perform. */
  function Owed(p: Pc): nat {
    match p
    case ReadWaiters(n) => n
    case WakeAll(n) => n
    case WakeOne(left) => left
    case _ => 0
  }

  ghost predicate Sleeping(pcs: seq<Pc>) {
    exists i :: 0 <= i < |pcs| && pcs[i] == Asleep
  }

  // ---------------------------------------------------------------- actions

  /** Where a thread goes once it knows the word held `cur`. */
  function Seen(path: Path, cur: nat): Pc {
    if cur > 0 then Cas(path, cur)
    else match path
      case Fast => Announce
      case Slow => Recheck
      case Once => Idle
  }

  /** The overflow check of `release`.  `MAX_PERMITS - n` is a u32 subtraction:
      with overflow checks (`strict`) it panics when n > MAX_PERMITS, without
      them it wraps. */
  predicate ReleaseCheckPasses(prev: nat, n: nat, strict: bool) {
    if n <= MAX_PERMITS then prev <= MAX_PERMITS - n
    else !strict && prev <= MAX_PERMITS + U32 - n
  }

  function WokenAll(pcs: seq<Pc>): (r: seq<Pc>)
    ensures |r| == |pcs|
    ensures forall i :: 0 <= i < |pcs| ==> r[i] == if pcs[i] == Asleep then Load(Slow) else pcs[i]
  {
    seq(|pcs|, i requires 0 <= i < |pcs| => if pcs[i] == Asleep then Load(Slow) else pcs[i])
  }

  ghost predicate Enabled(s: State, a: Step) {
    a.t < |s.pcs| &&
    var p := s.pcs[a.t];
    match a
    case StartAcquire(_) => p == Idle
    case StartTry(_) => p == Idle
    case DoLoad(_) => p.Load?
    case CasOk(_) => p.Cas? && s.permits == p.cur
    // compare_exchange_weak may fail although the word still holds `cur`
    case CasFail(_) => p.Cas? && (p.path != Once || s.permits != p.cur)
    case DoAnnounce(_) => p == Announce
    case DoRecheck(_) => p == Recheck
    case DoWait(_) => p == Wait
    case SpuriousWake(_) => p == Asleep
    case DoLeave(_) => p == Leave
    case Release(_, n, _) => p == Idle && n < U32
    case DoReadWaiters(_) => p.ReadWaiters?
    case DoWakeAll(_) => p.WakeAll?
    case DoWakeOne(_, target) =>
      p.WakeOne? && p.left > 0 &&
      match target {
        case Some(x) => x < |s.pcs| && s.pcs[x] == Asleep
        case None => !Sleeping(s.pcs)
      }
  }

  /** The action `acquire_slow` performs next, around its decrement. */
  function SlowAction(t: nat, p: Pc): Step {
    if p == Announce then DoAnnounce(t)
    else if p == Recheck then DoRecheck(t)
    else if p == Wait then DoWait(t)
    else DoLeave(t)
  }

  function Goto(s: State, t: nat, p: Pc): State
    requires t < |s.pcs|
  {
    s.(pcs := s.pcs[t := p])
  }

  ghost function Apply(s: State, a: Step): State
    requires Enabled(s, a)
  {
    var t, p := a.t, s.pcs[a.t];
    match a
    case StartAcquire(_) => Goto(s, t, Load(Fast))
    case StartTry(_) => Goto(s, t, Load(Once))
    case DoLoad(_) => Goto(s, t, Seen(p.path, s.permits))
    case CasOk(_) =>
      Goto(s, t, if p.path == Slow then Leave else Idle)
        .(permits := if s.permits > 0 then s.permits - 1 else U32 - 1, acquired := s.acquired + 1)
    case CasFail(_) => Goto(s, t, if p.path == Once then Idle else Seen(p.path, s.permits))
    case DoAnnounce(_) => Goto(s, t, Load(Slow)).(waiters := s.waiters + 1)
    case DoRecheck(_) => Goto(s, t, if s.permits == 0 then Wait else Load(Slow))
    case DoWait(_) => Goto(s, t, if s.permits == 0 then Asleep else Load(Slow))
    case SpuriousWake(_) => Goto(s, t, Load(Slow))
    case DoLeave(_) => Goto(s, t, Idle).(waiters := if s.waiters > 0 then s.waiters - 1 else U32 - 1)
    case Release(_, n, strict) =>
      if n == 0 then s
      else
        Goto(s, t, if ReleaseCheckPasses(s.permits, n, strict) then ReadWaiters(n) else Panicked)
          .(permits := (s.permits + n) % U32, released := s.released + n,
            overfull := s.overfull || s.permits + n > MAX_PERMITS)
    case DoReadWaiters(_) =>
      Goto(s, t, if s.waiters == 0 then Idle
                 else if s.waiters <= p.n then WakeAll(p.n)
                 else WakeOne(p.n))
    case DoWakeAll(_) => s.(pcs := WokenAll(s.pcs[t := Idle]))
    case DoWakeOne(_, target) =>
      var next := if p.left > 1 then WakeOne(p.left - 1) else Idle;
      match target {
        case Some(x) => s.(pcs := s.pcs[t := next][x := Load(Slow)])
        case None => Goto(s, t, next)
      }
  }

  // -------------------------------------------------------------- invariant

  /** No wakeup is lost: while a thread sleeps, every available permit is matched
      by a thread that is awake and looking, or by a wake still owed. */
  ghost predicate Covered(s: State) {
    Sleeping(s.pcs) ==> s.permits <= Sum(s.pcs, Candidate) + Sum(s.pcs, Owed)
  }

  ghost predicate Bounded(s: State) {
    s.permits <= MAX_PERMITS && s.permits + s.acquired == s.initial + s.released
  }

  ghost predicate Inv(s: State) {
    && s.waiters == Sum(s.pcs, Registered)
    && (forall t :: 0 <= t < |s.pcs| && s.pcs[t].Cas? ==> s.pcs[t].cur > 0)
    && (!s.overfull ==> Covered(s) && Bounded(s))
  }

  lemma StepMovesSums(pcs: seq<Pc>, t: nat, p: Pc)
    requires t < |pcs|
    ensures Sum(pcs[t := p], Registered) + Registered(pcs[t]) == Sum(pcs, Registered) + Registered(p)
    ensures Sum(pcs[t := p], Candidate) + Candidate(pcs[t]) == Sum(pcs, Candidate) + Candidate(p)
    ensures Sum(pcs[t := p], Owed) + Owed(pcs[t]) == Sum(pcs, Owed) + Owed(p)
    ensures Sleeping(pcs[t := p]) && p != Asleep ==> Sleeping(pcs)
    ensures Sleeping(pcs) ==> Sum(pcs, Registered) > 0
  {
    SumUpdate(pcs, t, p, Registered);
    SumUpdate(pcs, t, p, Candidate);
    SumUpdate(pcs, t, p, Owed);
    if Sleeping(pcs) {
      var i :| 0 <= i < |pcs| && pcs[i] == Asleep;
      SumAtLeast(pcs, i, Registered);
    }
    if Sleeping(pcs[t := p]) && p != Asleep {
      var i :| 0 <= i < |pcs| && pcs[t := p][i] == Asleep;
      assert pcs[i] == Asleep;
    }
  }

  /** A step of one thread that changes only its own program counter and the counters. */
  lemma LocalStepKeepsInv(s: State, s': State, t: nat)
    requires Inv(s) && t < |s.pcs| && |s'.pcs| == |s.pcs| && s'.pcs == s.pcs[t := s'.pcs[t]]
    requires s'.pcs[t].Cas? ==> s'.pcs[t].cur > 0
    requires s'.waiters + Registered(s.pcs[t]) == s.waiters + Registered(s'.pcs[t])
    requires !s'.overfull ==> !s.overfull && Bounded(s')
    requires s'.pcs[t] == Asleep ==> s'.permits == 0
    requires s'.permits + Candidate(s.pcs[t]) + Owed(s.pcs[t])
          <= s.permits + Candidate(s'.pcs[t]) + Owed(s'.pcs[t])
          || s'.permits == 0 || !Sleeping(s.pcs) || s'.overfull
    ensures Inv(s')
  {
    StepMovesSums(s.pcs, t, s'.pcs[t]);
  }

  lemma CasKeepsInv(s: State, a: Step)
    requires Inv(s) && Enabled(s, a) && (a.DoLoad? || a.CasOk? || a.CasFail?)
    ensures Inv(Apply(s, a))
  {
    LocalStepKeepsInv(s, Apply(s, a), a.t);
  }

  lemma WaitKeepsInv(s: State, a: Step)
    requires Inv(s) && Enabled(s, a) && (a.DoRecheck? || a.DoWait? || a.SpuriousWake?)
    ensures Inv(Apply(s, a))
  {
    LocalStepKeepsInv(s, Apply(s, a), a.t);
  }

  lemma RegisterKeepsInv(s: State, a: Step)
    requires Inv(s) && Enabled(s, a) && (a.StartAcquire? || a.StartTry? || a.DoAnnounce? || a.DoLeave?)
    ensures Inv(Apply(s, a))
  {
    SumAtLeast(s.pcs, a.t, Registered);
    LocalStepKeepsInv(s, Apply(s, a), a.t);
  }

  lemma ReleaseKeepsInv(s: State, a: Step)
    requires Inv(s) && Enabled(s, a) && (a.Release? || a.DoReadWaiters?)
    ensures Inv(Apply(s, a))
  {
    if a.DoReadWaiters? || a.n > 0 {
      StepMovesSums(s.pcs, a.t, Idle);
      LocalStepKeepsInv(s, Apply(s, a), a.t);
    }
  }

  lemma WakeAllKeepsInv(s: State, a: Step)
    requires Inv(s) && Enabled(s, a) && a.DoWakeAll?
    ensures Inv(Apply(s, a))
  {
    StepMovesSums(s.pcs, a.t, Idle);
    SumSame(s.pcs[a.t := Idle], Apply(s, a).pcs, Registered);
  }

  /** A wake trades one owed wake for one awake candidate. */
  lemma WakeOneKeepsInv(s: State, a: Step)
    requires Inv(s) && Enabled(s, a) && a.DoWakeOne?
    ensures Inv(Apply(s, a))
  {
    match a.target
    case None =>
      LocalStepKeepsInv(s, Apply(s, a), a.t);
    case Some(x) =>
      var p := s.pcs[a.t];
      var next := if p.left > 1 then WakeOne(p.left - 1) else Idle;
      var mid := s.pcs[a.t := next];
      assert Sleeping(s.pcs) && mid[x] == Asleep && Owed(next) + 1 == Owed(p);
      StepMovesSums(s.pcs, a.t, next);
      StepMovesSums(mid, x, Load(Slow));
      var s' := Apply(s, a);
      assert s'.pcs == mid[x := Load(Slow)];
      assert !s'.overfull ==> Covered(s);
  }

  lemma StepKeepsInv(s: State, a: Step)
    requires Inv(s) && Enabled(s, a)
    ensures Inv(Apply(s, a))
  {
    match a
    case CasOk(_) => CasKeepsInv(s, a);
    case CasFail(_) => CasKeepsInv(s, a);
    case Release(_, _, _) => ReleaseKeepsInv(s, a);
    case DoReadWaiters(_) => ReleaseKeepsInv(s, a);
    case DoWakeAll(_) => WakeAllKeepsInv(s, a);
    case DoWakeOne(_, _) => WakeOneKeepsInv(s, a);
    case DoLoad(_) => CasKeepsInv(s, a);
    case SpuriousWake(_) => WaitKeepsInv(s, a);
    case DoRecheck(_) => WaitKeepsInv(s, a);
    case DoWait(_) => WaitKeepsInv(s, a);
    case _ => RegisterKeepsInv(s, a);
  }

  // ------------------------------------------------------------------- runs

  ghost predicate Init(s: State) {
    && s.permits == s.initial <= MAX_PERMITS && s.waiters == 0
    && s.acquired == 0 && s.released == 0 && !s.overfull
    && forall t :: 0 <= t < |s.pcs| ==> s.pcs[t] == Idle
  }

  ghost predicate Run(s: State, steps: seq<Step>, end: State)
    decreases steps
  {
    if steps == [] then end == s
    else Enabled(s, steps[0]) && Run(Apply(s, steps[0]), steps[1..], end)
  }

  lemma {:induction false} RunKeepsInv(s: State, steps: seq<Step>, end: State)
    requires Inv(s) && Run(s, steps, end)
    ensures Inv(end)
    decreases steps
  {
    if steps != [] {
      StepKeepsInv(s, steps[0]);
      RunKeepsInv(Apply(s, steps[0]), steps[1..], end);
    }
  }

  lemma InitInv(s: State)
    requires Init(s)
    ensures Inv(s)
  {
    SumZero(s.pcs, Registered);
  }

  ghost predicate SomePanicked(s: State) {
    exists t :: 0 <= t < |s.pcs| && s.pcs[t] == Panicked
  }

  /** Callers keep to the documented range of `release`, or overflow checks are on. */
  ghost predicate Disciplined(steps: seq<Step>) {
    forall i :: 0 <= i < |steps| && steps[i].Release? ==> steps[i].strict || steps[i].n <= MAX_PERMITS
  }

  /** The overflow check rejects every release that would exceed MAX_PERMITS exactly
      when the subtraction inside it cannot wrap. */
  lemma ReleaseCheckIsExact(n: nat, strict: bool)
    requires n < U32
    ensures (forall prev: nat :: prev < U32 && ReleaseCheckPasses(prev, n, strict) ==> prev + n <= MAX_PERMITS)
            <==> (strict || n <= MAX_PERMITS)
    ensures n <= MAX_PERMITS ==> forall prev: nat :: prev + n <= MAX_PERMITS ==> ReleaseCheckPasses(prev, n, strict)
  {
    if !strict && n > MAX_PERMITS {
      assert ReleaseCheckPasses(0, n, strict);
    }
  }

  // ------------------------------------------ which releases keep coverage

  /** Every release of the run, when it is called, would leave at most MAX_PERMITS. */
  ghost predicate InLimit(s: State, steps: seq<Step>)
    decreases steps
  {
    steps == [] ||
    (&& Enabled(s, steps[0])
     && (steps[0].Release? ==> s.permits + steps[0].n <= MAX_PERMITS)
     && InLimit(Apply(s, steps[0]), steps[1..]))
  }

  lemma ExcessMarks(s: State, a: Step)
    requires Inv(s) && !s.overfull && Enabled(s, a)
    ensures Apply(s, a).overfull <==> a.Release? && s.permits + a.n > MAX_PERMITS
  {}

  lemma {:induction false} OverfullStays(s: State, steps: seq<Step>, end: State)
    requires Run(s, steps, end) && s.overfull
    ensures end.overfull
    decreases steps
  {
    if steps != [] {
      OverfullStays(Apply(s, steps[0]), steps[1..], end);
    }
  }

  lemma {:induction false} RunInLimit(s: State, steps: seq<Step>, end: State)
    requires Inv(s) && !s.overfull && Run(s, steps, end)
    ensures InLimit(s, steps) <==> !end.overfull
    decreases steps
  {
    if steps != [] {
      var s' := Apply(s, steps[0]);
      ExcessMarks(s, steps[0]);
      StepKeepsInv(s, steps[0]);
      if s'.overfull {
        OverfullStays(s', steps[1..], end);
      } else {
        RunInLimit(s', steps[1..], end);
      }
    }
  }

  /** It is enough that all permits ever handed in, with the initial ones, fit. */
  lemma {:induction false} TotalInLimit(s: State, steps: seq<Step>, end: State)
    requires Inv(s) && !s.overfull && Run(s, steps, end) && s.initial + end.released <= MAX_PERMITS
    ensures InLimit(s, steps) && s.released <= end.released
    decreases steps
  {
    ReleasedGrows(s, steps, end);
    if steps != [] {
      var s' := Apply(s, steps[0]);
      ReleasedGrows(s', steps[1..], end);
      assert steps[0].Release? ==> s'.released == s.released + steps[0].n;
      ExcessMarks(s, steps[0]);
      StepKeepsInv(s, steps[0]);
      TotalInLimit(s', steps[1..], end);
    }
  }

  lemma {:induction false} ReleasedGrows(s: State, steps: seq<Step>, end: State)
    requires Run(s, steps, end)
    ensures s.released <= end.released
    decreases steps
  {
    if steps != [] {
      ReleasedGrows(Apply(s, steps[0]), steps[1..], end);
    }
  }

  ghost predicate PanicMarksOverfull(s: State) {
    s.overfull <==> SomePanicked(s)
  }

  lemma PanicStays(s: State, a: Step)
    requires Inv(s) && Enabled(s, a) && PanicMarksOverfull(s)
    requires a.Release? ==> a.strict || a.n <= MAX_PERMITS
    ensures PanicMarksOverfull(Apply(s, a))
  {
    var s' := Apply(s, a);
    if SomePanicked(s) {
      var t :| 0 <= t < |s.pcs| && s.pcs[t] == Panicked;
      assert s'.pcs[t] == Panicked;
    } else if s'.overfull {
      assert s'.pcs[a.t] == Panicked;
    } else {
      forall t | 0 <= t < |s'.pcs| ensures s'.pcs[t] != Panicked {
        assert s.pcs[t] != Panicked;
      }
    }
  }

  lemma {:induction false} RunPanicMarks(s: State, steps: seq<Step>, end: State)
    requires Inv(s) && Run(s, steps, end) && PanicMarksOverfull(s) && Disciplined(steps)
    ensures PanicMarksOverfull(end)
    decreases steps
  {
    if steps != [] {
      PanicStays(s, steps[0]);
      StepKeepsInv(s, steps[0]);
      RunPanicMarks(Apply(s, steps[0]), steps[1..], end);
    }
  }

  /** In every run with overflow checks, or with releases in the documented range, some
      release panics if and only if some release was called that does not fit. */
  lemma PanicsAreExact(s: State, steps: seq<Step>, end: State)
    requires Init(s) && Run(s, steps, end) && Disciplined(steps)
    ensures SomePanicked(end) <==> !InLimit(s, steps)
  {
    InitInv(s);
    RunInLimit(s, steps, end);
    RunPanicMarks(s, steps, end);
  }

  /** What one release does to coverage while a thread sleeps, whatever its argument:
      coverage survives if and only if the overflow check passes, or the candidates
      and wakes at hand happen to cover even the permits no wake is owed for. */
  lemma ReleaseKeepsCoverage(s: State, t: nat, n: nat, strict: bool)
    requires Inv(s) && !s.overfull && Sleeping(s.pcs) && t < |s.pcs| && s.pcs[t] == Idle && 0 < n < U32
    ensures Covered(Apply(s, Release(t, n, strict))) <==>
              ReleaseCheckPasses(s.permits, n, strict)
              || (s.permits + n) % U32 <= Sum(s.pcs, Candidate) + Sum(s.pcs, Owed)
  {
    var passes := ReleaseCheckPasses(s.permits, n, strict);
    var s' := Apply(s, Release(t, n, strict));
    ReleaseSums(s, t, n, passes);
    assert s'.pcs == s.pcs[t := if passes then ReadWaiters(n) else Panicked];
    assert s.permits <= Sum(s.pcs, Candidate) + Sum(s.pcs, Owed);
    WrapShrinks(s.permits + n);
  }

  lemma WrapShrinks(x: nat)
    ensures x % U32 <= x
  {}

  lemma ReleaseSums(s: State, t: nat, n: nat, passes: bool)
    requires Sleeping(s.pcs) && t < |s.pcs| && s.pcs[t] == Idle
    ensures var pcs := s.pcs[t := if passes then ReadWaiters(n) else Panicked];
      && Sleeping(pcs) && Sum(pcs, Candidate) == Sum(s.pcs, Candidate)
      && Sum(pcs, Owed) == Sum(s.pcs, Owed) + (if passes then n else 0)
  {
    var next := if passes then ReadWaiters(n) else Panicked;
    StepMovesSums(s.pcs, t, next);
    var i :| 0 <= i < |s.pcs| && s.pcs[i] == Asleep;
    assert s.pcs[t := next][i] == Asleep;
  }

  /** For the caller: with overflow checks, or in the documented range, a release keeps
      coverage if and only if it fits, unless more than MAX_PERMITS threads and wakes
      are under way. */
  lemma ReleaseMustFit(s: State, t: nat, n: nat, strict: bool)
    requires Inv(s) && !s.overfull && Sleeping(s.pcs) && t < |s.pcs| && s.pcs[t] == Idle && 0 < n
    requires Sum(s.pcs, Candidate) + Sum(s.pcs, Owed) <= MAX_PERMITS
    requires (strict || n <= MAX_PERMITS) && s.permits + n < U32
    ensures Covered(Apply(s, Release(t, n, strict))) <==> s.permits + n <= MAX_PERMITS
  {
    ReleaseKeepsCoverage(s, t, n, strict);
  }

  /** In every run in which each release fits when it is called: permits are conserved
      and in range, so the u32 never wraps; while a thread sleeps,
      permits are covered by awake candidates and owed wakes; and once nothing is left
      to run, a sleeper proves there is no permit to take. */
  lemma NoLostWakeup(s: State, steps: seq<Step>, end: State)
    requires Init(s) && Run(s, steps, end) && InLimit(s, steps)
    ensures end.permits + end.acquired == s.permits + end.released
    ensures end.permits <= MAX_PERMITS
    ensures Covered(end)
    ensures Sleeping(end.pcs)
            && (forall t :: 0 <= t < |end.pcs| ==> Candidate(end.pcs[t]) == 0 && Owed(end.pcs[t]) == 0)
            ==> end.permits == 0
  {
    InitInv(s);
    RunKeepsInv(s, steps, end);
    RunInLimit(s, steps, end);
    RunKeepsInitial(s, steps, end);
    if forall t :: 0 <= t < |end.pcs| ==> Candidate(end.pcs[t]) == 0 && Owed(end.pcs[t]) == 0 {
      SumZero(end.pcs, Candidate);
      SumZero(end.pcs, Owed);
    }
  }

  lemma {:induction false} RunKeepsInitial(s: State, steps: seq<Step>, end: State)
    requires Run(s, steps, end)
    ensures end.initial == s.initial
    decreases steps
  {
    if steps != [] {
      RunKeepsInitial(Apply(s, steps[0]), steps[1..], end);
    }
  }

  /** The waiter counter never exceeds the number of threads, so it cannot wrap with
      fewer than 2^32 of them. */
  lemma WaitersBounded(s: State)
    requires Inv(s)
    ensures s.waiters <= |s.pcs|
  {
    SumAtMost(s.pcs, Registered);
  }

  /** Two threads, no permits: the first one falls asleep. */
  lemma FirstThreadSleeps() returns (s: State, steps: seq<Step>, end: State)
    ensures Init(s) && Run(s, steps, end) && Disciplined(steps)
    ensures s.pcs == [Idle, Idle] && end == s.(pcs := [Asleep, Idle], waiters := 1) && s.permits == 0
  {
    s := State(0, 0, [Idle, Idle], 0, 0, 0, false);
    var s1 := s.(pcs := [Load(Fast), Idle]);
    var s2 := s.(pcs := [Announce, Idle]);
    var s3 := s.(pcs := [Load(Slow), Idle], waiters := 1);
    var s4 := s3.(pcs := [Recheck, Idle]);
    var s5 := s3.(pcs := [Wait, Idle]);
    end := s3.(pcs := [Asleep, Idle]);
    assert Apply(s, StartAcquire(0)) == s1;
    assert Apply(s1, DoLoad(0)) == s2;
    assert Apply(s2, DoAnnounce(0)) == s3;
    assert Apply(s3, DoLoad(0)) == s4;
    assert Apply(s4, DoRecheck(0)) == s5;
    assert Apply(s5, DoWait(0)) == end;
    assert Run(s, [], s);
    steps := RunExtends(s, [], s, StartAcquire(0));
    steps := RunExtends(s, steps, s1, DoLoad(0));
    steps := RunExtends(s, steps, s2, DoAnnounce(0));
    steps := RunExtends(s, steps, s3, DoLoad(0));
    steps := RunExtends(s, steps, s4, DoRecheck(0));
    steps := RunExtends(s, steps, s5, DoWait(0));
  }

  /** A panicking release has already added its permits and performs no wake, so it
      strands a sleeper: the hypothesis of NoLostWakeup cannot be dropped. */
  lemma PanickedReleaseStrandsSleeper() returns (s: State, steps: seq<Step>, end: State)
    ensures Init(s) && Run(s, steps, end) && Disciplined(steps)
    ensures Sleeping(end.pcs) && end.permits > 0
    ensures forall t :: 0 <= t < |end.pcs| ==> Candidate(end.pcs[t]) == 0 && Owed(end.pcs[t]) == 0
  {
    var mid;
    s, steps, mid := FirstThreadSleeps();
    var a := Release(1, MAX_PERMITS + 1, true);
    end := Apply(mid, a);
    assert end.pcs == [Asleep, Panicked];
    assert end.pcs[0] == Asleep;
    steps := RunExtends(s, steps, mid, a);
  }

  lemma {:induction false} RunExtends(s: State, steps: seq<Step>, mid: State, a: Step) returns (longer: seq<Step>)
    requires Run(s, steps, mid) && Enabled(mid, a)
    ensures longer == steps + [a] && Run(s, longer, Apply(mid, a))
    decreases steps
  {
    longer := steps + [a];
    if steps == [] {
      assert longer == [a] && [a][1..] == [];
    } else {
      var rest := RunExtends(Apply(s, steps[0]), steps[1..], mid, a);
      assert longer[1..] == rest;
    }
  }

  // ------------------------------------------------------------ no deadlock

  ghost predicate CanMove(s: State, t: nat) {
    exists a :: Enabled(s, a) && a.t == t
  }

  /** A releaser in the middle of waking still owes a wake. */
  ghost predicate StillOwes(s: State) {
    forall t :: 0 <= t < |s.pcs| && (s.pcs[t].ReadWaiters? || s.pcs[t].WakeOne?) ==> Owed(s.pcs[t]) > 0
  }

  lemma {:induction false} RunKeepsOwing(s: State, steps: seq<Step>, end: State)
    requires StillOwes(s) && Run(s, steps, end)
    ensures StillOwes(end)
    decreases steps
  {
    if steps != [] {
      StepKeepsOwing(s, steps[0]);
      RunKeepsOwing(Apply(s, steps[0]), steps[1..], end);
    }
  }

  lemma StepKeepsOwing(s: State, a: Step)
    requires StillOwes(s) && Enabled(s, a)
    ensures StillOwes(Apply(s, a))
  {}

  predicate Resting(p: Pc) {
    p == Idle || p == Asleep || p == Panicked
  }

  /** Nobody waits for anybody: whoever is awake inside an operation can go on. */
  lemma AwakeCanMove(s: State, t: nat)
    requires StillOwes(s) && t < |s.pcs| && !Resting(s.pcs[t])
    ensures CanMove(s, t)
  {
    var p := s.pcs[t];
    if p.WakeOne? {
      if Sleeping(s.pcs) {
        var x :| 0 <= x < |s.pcs| && s.pcs[x] == Asleep;
        assert Enabled(s, DoWakeOne(t, Some(x)));
      } else {
        assert Enabled(s, DoWakeOne(t, None));
      }
    } else {
      var a := match p {
        case Load(_) => DoLoad(t)
        case Cas(path, cur) => if s.permits == cur then CasOk(t) else CasFail(t)
        case ReadWaiters(_) => DoReadWaiters(t)
        case WakeAll(_) => DoWakeAll(t)
        case _ => SlowAction(t, p)
      };
      assert Enabled(s, a);
    }
  }

  /** Nothing happens any more unless a new call begins or a sleeper wakes by itself. */
  ghost predicate Quiescent(s: State) {
    forall t :: 0 <= t < |s.pcs| && CanMove(s, t) ==> Resting(s.pcs[t])
  }

  /** No lost wakeup, to the end: when nothing runs any more in a run whose releases fit,
      only sleepers are inside an operation, and a sleeper proves that there is no
      permit to take. */
  lemma QuiescentMeansNoPermits(s: State, steps: seq<Step>, end: State)
    requires Init(s) && Run(s, steps, end) && InLimit(s, steps) && Quiescent(end)
    ensures forall t :: 0 <= t < |end.pcs| ==> Resting(end.pcs[t])
    ensures Sleeping(end.pcs) ==> end.permits == 0
  {
    RunKeepsOwing(s, steps, end);
    forall t | 0 <= t < |end.pcs| ensures Resting(end.pcs[t]) {
      if !Resting(end.pcs[t]) {
        AwakeCanMove(end, t);
      }
    }
    forall t | 0 <= t < |end.pcs| ensures Candidate(end.pcs[t]) == 0 && Owed(end.pcs[t]) == 0 {
      assert Resting(end.pcs[t]);
    }
    NoLostWakeup(s, steps, end);
  }

  // --------------------------------------------------- the object in place

  /** The semaphore as the object the threads share, with the thread table beside
      it.  Each method is one atomic action of the source function it is named
      after, performed in place. */
  class System {
    var permits: nat
    var waiters: nat
    var pcs: seq<Pc>
    ghost var initial: nat
    ghost var acquired: nat
    ghost var released: nat
    ghost var overfull: bool

    ghost function View(): State
      reads this
    {
      State(permits, waiters, pcs, initial, acquired, released, overfull)
    }

    ghost predicate Valid()
      reads this
    {
      Inv(View())
    }

    constructor (n: nat, threads: nat)
      requires n <= MAX_PERMITS
      ensures Valid() && Init(View()) && permits == n && |pcs| == threads
    {
      permits, waiters, pcs := n, 0, seq(threads, _ => Idle);
      initial, acquired, released, overfull := n, 0, 0, false;
      new;
      InitInv(View());
    }

    /** `acquire` or `try_acquire` begins. */
    method Start(t: nat, single: bool)
      requires Valid() && t < |pcs| && pcs[t] == Idle
      modifies this
      ensures Valid() && View() == Apply(old(View()), if single then StartTry(t) else StartAcquire(t))
    {
      StepKeepsInv(View(), if single then StartTry(t) else StartAcquire(t));
      pcs := pcs[t := Load(if single then Once else Fast)];
    }

    /** The relaxed load that opens a decrement. */
    method LoadPermits(t: nat)
      requires Valid() && t < |pcs| && pcs[t].Load?
      modifies this
      ensures Valid() && View() == Apply(old(View()), DoLoad(t))
    {
      StepKeepsInv(View(), DoLoad(t));
      pcs := pcs[t := Seen(pcs[t].path, permits)];
    }

    /** One compare-and-swap of a decrement; a weak one may fail spuriously. */
    method CompareExchange(t: nat, spurious: bool) returns (ok: bool)
      requires Valid() && t < |pcs| && pcs[t].Cas? && (spurious ==> pcs[t].path != Once)
      modifies this
      ensures Valid() && ok == (old(permits) == old(pcs[t].cur) && !spurious)
      ensures View() == Apply(old(View()), if ok then CasOk(t) else CasFail(t))
    {
      var path := pcs[t].path;
      ok := permits == pcs[t].cur && !spurious;
      StepKeepsInv(View(), if ok then CasOk(t) else CasFail(t));
      if ok {
        permits := permits - 1;
        acquired := acquired + 1;
        pcs := pcs[t := if path == Slow then Leave else Idle];
      } else {
        pcs := pcs[t := if path == Once then Idle else Seen(path, permits)];
      }
    }

    /** The actions of `acquire_slow` around its decrement. */
    method AcquireSlow(t: nat)
      requires Valid() && t < |pcs| && pcs[t] in {Announce, Recheck, Wait, Leave}
      modifies this
      ensures Valid() && View() == Apply(old(View()), SlowAction(t, old(pcs[t])))
    {
      StepKeepsInv(View(), SlowAction(t, pcs[t]));
      SumAtLeast(pcs, t, Registered);
      if pcs[t] == Announce {
        waiters, pcs := waiters + 1, pcs[t := Load(Slow)];
      } else if pcs[t] == Recheck {
        pcs := pcs[t := if permits == 0 then Wait else Load(Slow)];
      } else if pcs[t] == Wait {
        pcs := pcs[t := if permits == 0 then Asleep else Load(Slow)];
      } else {
        waiters, pcs := waiters - 1, pcs[t := Idle];
      }
    }

    /** `fetch_add` and the overflow check behind it. */
    method ReleasePermits(t: nat, n: nat, strict: bool)
      requires Valid() && t < |pcs| && pcs[t] == Idle && n < U32
      modifies this
      ensures Valid() && View() == Apply(old(View()), Release(t, n, strict))
    {
      StepKeepsInv(View(), Release(t, n, strict));
      if n == 0 {
        return;
      }
      var prev := permits;
      permits := (prev + n) % U32;
      released, overfull := released + n, overfull || prev + n > MAX_PERMITS;
      pcs := pcs[t := if ReleaseCheckPasses(prev, n, strict) then ReadWaiters(n) else Panicked];
    }

    /** The releaser loads the waiter count and chooses between waking all and n. */
    method LoadWaiters(t: nat)
      requires Valid() && t < |pcs| && pcs[t].ReadWaiters?
      modifies this
      ensures Valid() && View() == Apply(old(View()), DoReadWaiters(t))
    {
      StepKeepsInv(View(), DoReadWaiters(t));
      var n := pcs[t].n;
      pcs := pcs[t := if waiters == 0 then Idle else if waiters <= n then WakeAll(n) else WakeOne(n)];
    }

    /** One wake call of `wake_waiters`. */
    method WakeWaiters(t: nat, target: Option<nat>)
      requires Valid() && t < |pcs|
      requires pcs[t].WakeAll? || Enabled(View(), DoWakeOne(t, target))
      modifies this
      ensures Valid()
      ensures View() == Apply(old(View()), if old(pcs[t]).WakeAll? then DoWakeAll(t) else DoWakeOne(t, target))
    {
      if pcs[t].WakeAll? {
        StepKeepsInv(View(), DoWakeAll(t));
        pcs := WokenAll(pcs[t := Idle]);
      } else {
        StepKeepsInv(View(), DoWakeOne(t, target));
        var left := pcs[t].left;
        pcs := pcs[t := if left > 1 then WakeOne(left - 1) else Idle];
        if target.Some? {
          pcs := pcs[target.value := Load(Slow)];
        }
      }
    }

    /** Any enabled action, performed in place by the source function it belongs to. */
    method Step(a: Step)
      requires Valid() && Enabled(View(), a)
      modifies this
      ensures Valid() && View() == Apply(old(View()), a)
    {
      match a
      case StartAcquire(t) => Start(t, false);
      case StartTry(t) => Start(t, true);
      case DoLoad(t) => LoadPermits(t);
      case CasOk(t) => var ok := CompareExchange(t, false);
      case CasFail(t) => var ok := CompareExchange(t, pcs[t].path != Once);
      case SpuriousWake(t) =>
        StepKeepsInv(View(), a);
        pcs := pcs[t := Load(Slow)];
      case Release(t, n, strict) => ReleasePermits(t, n, strict);
      case DoReadWaiters(t) => LoadWaiters(t);
      case DoWakeAll(t) => WakeWaiters(t, None);
      case DoWakeOne(t, target) => WakeWaiters(t, target);
      case _ => AcquireSlow(a.t);
    }

    /** Any schedule runs on the object, and ends where the machine says. */
    method Execute(steps: seq<Step>, ghost end: State)
      requires Valid() && Run(View(), steps, end)
      modifies this
      ensures Valid() && View() == end
    {
      var k := 0;
      while k < |steps|
        invariant k <= |steps| && Valid() && Run(View(), steps[k..], end)
      {
        assert steps[k..][0] == steps[k] && steps[k..][1..] == steps[k + 1..];
        Step(steps[k]);
        k := k + 1;
      }
    }
  }
}
