/** ThreadPerTaskPool interleaved step by step: submitters, the workers they
    spawn, and the one disposer.  Threads are rows of a table; a spawn adds a
    row, and the row's index is the worker's join handle.  `dispose` takes the
    pool by exclusive reference, so it starts only while nobody submits, and
    nobody starts to submit before it has returned. */
module ThreadPerTask {
  import opened Base

  datatype Pc =
    // submit
    | Idle
    | ReapLock
    | ReapAt(i: nat)
    | AcqLock
    | Pred
    | GoSleep
    | Asleep
    | Relock
    | Decide
    | Spawning
    | HandleLock(w: nat)
    | HandlePush(w: nat)
    // release: the end of a worker, or a submitter whose spawn failed
    | RelLock(worker: bool)
    | RelHeld(worker: bool)
    | RelNotify(worker: bool)
    // worker
    | Running
    | Finished
    // dispose
    | DispLock
    | DispNotifyAll
    | DispHandles
    | DispTaking
    | Joining(hs: seq<nat>)
    // the mutex of `thread_count` is about to be dropped
    | Unlock(next: Pc)

  /** `spawned` and `joined` are history. */
  datatype State = State(
    max: nat, count: nat, disposed: bool, borrowed: bool,
    countLock: Option<nat>, handleLock: Option<nat>, pcs: seq<Pc>,
    handles: seq<nat>, joined: seq<nat>, spawned: seq<nat>)

  datatype Step =
    | Submit(t: nat)
    | TakeHandleLock(t: nat)
    | Reap(t: nat, seen: bool)
    | TakeCountLock(t: nat)
    | DoPred(t: nat)
    | DoSleep(t: nat)
    | Awaken(t: nat)
    | DoDecide(t: nat)
    | DropCountLock(t: nat)
    | Spawn(t: nat, ok: bool)
    | PushHandle(t: nat)
    | JobEnds(t: nat)
    | Decrement(t: nat)
    | Notify(t: nat, target: Option<nat>)
    | BeginDispose(t: nat)
    | NotifyAll(t: nat)
    | TakeHandles(t: nat)
    | Join(t: nat)

  // ------------------------------------------------ reading program counters

  /** Owns a slot that has been counted and not released. */
  function Owns(p: Pc): nat {
    match p
    case Spawning => 1
    case Running => 1
    case RelLock(_) => 1
    case RelHeld(_) => 1
    case Unlock(next) => if next == Spawning then 1 else 0
    case _ => 0
  }

  /** Awake in the wait region of `acquire`, or about to notify a sleeper. */
  function Covers(p: Pc): nat {
    if p == Relock || p == Pred || p == Decide || p.RelNotify? then 1 else 0
  }

  predicate HoldsCount(p: Pc) {
    p == Pred || p == GoSleep || p == Decide || p.RelHeld? || p.RelNotify? || p.Unlock?
  }

  predicate WantsCount(p: Pc) {
    p == AcqLock || p == Relock || p.RelLock? || p == DispLock
  }

  predicate HoldsHandles(p: Pc) {
    p.ReapAt? || p.HandlePush? || p == DispTaking
  }

  predicate WantsHandles(p: Pc) {
    p == ReapLock || p.HandleLock? || p == DispHandles
  }

  predicate Worker(p: Pc) {
    match p
    case Running => true
    case Finished => true
    case RelLock(worker) => worker
    case RelHeld(worker) => worker
    case RelNotify(worker) => worker
    case Unlock(next) => next == Finished
    case _ => false
  }

  predicate Disposer(p: Pc) {
    p == DispLock || p == DispNotifyAll || p == DispHandles || p == DispTaking || p.Joining?
    || p == Unlock(DispNotifyAll)
  }

  /** Handles a thread carries in its hands. */
  function Carried(p: Pc): seq<nat> {
    match p
    case HandleLock(w) => [w]
    case HandlePush(w) => [w]
    case Joining(hs) => hs
    case _ => []
  }

  ghost predicate Sleeping(pcs: seq<Pc>) {
    exists i :: 0 <= i < |pcs| && pcs[i] == Asleep
  }

  // ---------------------------------------------------------------- actions

  function SwapRemove<T>(s: seq<T>, i: nat): seq<T>
    requires i < |s|
  {
    s[i := s[|s| - 1]][..|s| - 1]
  }

  ghost predicate Enabled(s: State, a: Step) {
    a.t < |s.pcs| &&
    var p := s.pcs[a.t];
    match a
    case Submit(_) => p == Idle && !s.borrowed
    case TakeHandleLock(_) => WantsHandles(p) && s.handleLock == None
    // is_finished never reports a thread that still runs
    case Reap(_, seen) => p.ReapAt? && (seen && p.i < |s.handles| ==>
                            s.handles[p.i] < |s.pcs| && s.pcs[s.handles[p.i]] == Finished)
    case TakeCountLock(_) => WantsCount(p) && s.countLock == None
    case DoPred(_) => p == Pred
    case DoSleep(_) => p == GoSleep
    case Awaken(_) => p == Asleep
    case DoDecide(_) => p == Decide
    case DropCountLock(_) => p.Unlock?
    case Spawn(_, _) => p == Spawning
    case PushHandle(_) => p.HandlePush?
    case JobEnds(_) => p == Running
    case Decrement(_) => p.RelHeld?
    case Notify(_, target) =>
      p.RelNotify? &&
      match target {
        case Some(x) => x < |s.pcs| && s.pcs[x] == Asleep
        case None => !Sleeping(s.pcs)
      }
    case BeginDispose(_) =>
      p == Idle && !s.borrowed &&
      forall i :: 0 <= i < |s.pcs| ==> s.pcs[i] == Idle || Worker(s.pcs[i])
    case NotifyAll(_) => p == DispNotifyAll
    case TakeHandles(_) => p == DispTaking
    case Join(_) => p.Joining? && (p.hs != [] ==> p.hs[0] < |s.pcs| && s.pcs[p.hs[0]] == Finished)
  }

  function Goto(s: State, t: nat, p: Pc): State
    requires t < |s.pcs|
  {
    s.(pcs := s.pcs[t := p])
  }

  function WokenAll(pcs: seq<Pc>): (r: seq<Pc>)
    ensures |r| == |pcs|
    ensures forall i :: 0 <= i < |pcs| ==> r[i] == if pcs[i] == Asleep then Relock else pcs[i]
  {
    seq(|pcs|, i requires 0 <= i < |pcs| => if pcs[i] == Asleep then Relock else pcs[i])
  }

  /** The program counter behind the mutex of `thread_count`. */
  function CountLocked(s: State, p: Pc): Pc {
    if p == AcqLock then (if s.max > 0 then Pred else Decide)
    else if p == Relock then Pred
    else if p.RelLock? then RelHeld(p.worker)
    else Unlock(DispNotifyAll)
  }

  /** The program counter behind the mutex of `handles`. */
  function HandlesLocked(p: Pc): Pc {
    if p == ReapLock then ReapAt(0)
    else if p.HandleLock? then HandlePush(p.w)
    else DispTaking
  }

  /** What a thread becomes once its release is over. */
  function Released(worker: bool): Pc {
    if worker then Finished else Idle
  }

  ghost function Apply(s: State, a: Step): State
    requires Enabled(s, a)
  {
    var t, p := a.t, s.pcs[a.t];
    match a
    case Submit(_) => if s.disposed then s else Goto(s, t, ReapLock)
    case TakeHandleLock(_) => Goto(s, t, HandlesLocked(p)).(handleLock := Some(t))
    case Reap(_, seen) =>
      if p.i >= |s.handles| then Goto(s, t, AcqLock).(handleLock := None)
      else if seen then s.(handles := SwapRemove(s.handles, p.i), joined := s.joined + [s.handles[p.i]])
      else Goto(s, t, ReapAt(p.i + 1))
    case TakeCountLock(_) => Goto(s, t, CountLocked(s, p)).(countLock := Some(t))
    case DoPred(_) => Goto(s, t, if !s.disposed && s.count >= s.max then GoSleep else Decide)
    case DoSleep(_) => Goto(s, t, Asleep).(countLock := None)
    case Awaken(_) => Goto(s, t, Relock)
    case DoDecide(_) =>
      if s.disposed then Goto(s, t, Unlock(Idle))
      else Goto(s, t, Unlock(Spawning)).(count := s.count + 1)
    case DropCountLock(_) => Goto(s, t, p.next).(countLock := None)
    case Spawn(_, ok) =>
      if ok then s.(pcs := s.pcs[t := HandleLock(|s.pcs|)] + [Running], spawned := s.spawned + [|s.pcs|])
      else Goto(s, t, RelLock(false))
    case PushHandle(_) => Goto(s, t, Idle).(handleLock := None, handles := s.handles + [p.w])
    case JobEnds(_) => Goto(s, t, RelLock(true))
    case Decrement(_) =>
      Goto(s, t, RelNotify(p.worker)).(count := if s.count > 0 then s.count - 1 else USIZE_MAX)
    case Notify(_, target) =>
      var pcs := s.pcs[t := Unlock(Released(p.worker))];
      s.(pcs := if target.Some? then pcs[target.value := Relock] else pcs)
    case BeginDispose(_) =>
      if s.disposed then s else Goto(s, t, DispLock).(disposed := true, borrowed := true)
    case NotifyAll(_) => s.(pcs := WokenAll(s.pcs[t := DispHandles]))
    case TakeHandles(_) => Goto(s, t, Joining(s.handles)).(handleLock := None, handles := [])
    case Join(_) =>
      if p.hs == [] then Goto(s, t, Idle).(borrowed := false)
      else Goto(s, t, Joining(p.hs[1..])).(joined := s.joined + [p.hs[0]])
  }

  ghost predicate Init(s: State) {
    && s.count == 0 && !s.disposed && !s.borrowed && s.countLock == None && s.handleLock == None
    && s.handles == [] && s.joined == [] && s.spawned == []
    && forall t :: 0 <= t < |s.pcs| ==> s.pcs[t] == Idle
  }

  ghost predicate Run(s: State, steps: seq<Step>, end: State)
    decreases steps
  {
    if steps == [] then end == s
    else Enabled(s, steps[0]) && Run(Apply(s, steps[0]), steps[1..], end)
  }
}

/** Slots and sleepers of the pool. */
module ThreadPerTaskSlots {
  import opened Base
  import opened Counting
  import opened ThreadPerTask

  // -------------------------------------------------------------- invariant

  ghost predicate LocksExact(s: State) {
    && (s.countLock.Some? ==> s.countLock.value < |s.pcs|)
    && (s.handleLock.Some? ==> s.handleLock.value < |s.pcs|)
    && forall t :: 0 <= t < |s.pcs| ==>
      && (HoldsCount(s.pcs[t]) <==> s.countLock == Some(t))
      && (HoldsHandles(s.pcs[t]) <==> s.handleLock == Some(t))
  }

  /** What the owner of the mutex of `thread_count` may rely on. */
  predicate LocalOk(s: State, p: Pc) {
    match p
    case GoSleep => s.count >= s.max
    case Decide => s.disposed || s.max == 0 || s.count < s.max
    case Unlock(next) => next == Spawning || next == Idle || next == Finished || next == DispNotifyAll
    case _ => true
  }

  ghost predicate AllOk(s: State) {
    forall t :: 0 <= t < |s.pcs| ==> LocalOk(s, s.pcs[t])
  }

  /** While a submitter sleeps, every free slot is matched by a submitter awake in the
      wait region or by a notify that is on its way. */
  ghost predicate Covered(s: State) {
    !s.disposed && s.max > 0 && Sleeping(s.pcs) ==> s.max <= s.count + Sum(s.pcs, Covers)
  }

  ghost predicate Slots(s: State) {
    && LocksExact(s) && AllOk(s)
    && s.count == Sum(s.pcs, Owns)
    && (s.max > 0 ==> s.count <= s.max)
    && Covered(s)
  }

  lemma StepMovesSums(pcs: seq<Pc>, t: nat, p: Pc)
    requires t < |pcs|
    ensures Sum(pcs[t := p], Owns) + Owns(pcs[t]) == Sum(pcs, Owns) + Owns(p)
    ensures Sum(pcs[t := p], Covers) + Covers(pcs[t]) == Sum(pcs, Covers) + Covers(p)
    ensures Sleeping(pcs[t := p]) && p != Asleep ==> Sleeping(pcs)
  {
    SumUpdate(pcs, t, p, Owns);
    SumUpdate(pcs, t, p, Covers);
    if Sleeping(pcs[t := p]) && p != Asleep {
      var i :| 0 <= i < |pcs| && pcs[t := p][i] == Asleep;
      assert pcs[i] == Asleep;
    }
  }

  /** Thread `t` moves, and takes or drops a mutex accordingly. */
  ghost predicate Moves(s: State, s': State, t: nat) {
    && t < |s.pcs| && |s'.pcs| == |s.pcs| && s'.pcs == s.pcs[t := s'.pcs[t]]
    && s'.countLock == (if HoldsCount(s'.pcs[t]) then Some(t) else if HoldsCount(s.pcs[t]) then None else s.countLock)
    && s'.handleLock == (if HoldsHandles(s'.pcs[t]) then Some(t)
                         else if HoldsHandles(s.pcs[t]) then None else s.handleLock)
    && (HoldsCount(s'.pcs[t]) ==> HoldsCount(s.pcs[t]) || s.countLock == None)
    && (HoldsHandles(s'.pcs[t]) ==> HoldsHandles(s.pcs[t]) || s.handleLock == None)
  }

  /** A step of one thread that changes only its own row. */
  lemma MoveKeepsSlots(s: State, s': State, t: nat)
    requires Slots(s) && Moves(s, s', t) && s'.max == s.max && (s.disposed ==> s'.disposed)
    requires s'.count + Owns(s.pcs[t]) == s.count + Owns(s'.pcs[t])
    requires LocalOk(s', s'.pcs[t])
    // the counter moves only under its mutex, and upwards only from a decision
    requires s'.count != s.count ==> HoldsCount(s.pcs[t])
    requires s'.count > s.count ==> s.pcs[t] == Decide && !s.disposed
    // going to sleep needs a full pool; otherwise coverage is handed on
    requires s'.pcs[t] == Asleep ==> s.pcs[t] == GoSleep && s'.count == s.count
    requires s'.disposed || s'.count >= s.max || !Sleeping(s.pcs)
             || s'.count + Covers(s'.pcs[t]) >= s.count + Covers(s.pcs[t])
    ensures Slots(s')
  {
    StepMovesSums(s.pcs, t, s'.pcs[t]);
  }

  lemma CountLockKeeps(s: State, a: Step)
    requires Slots(s) && Enabled(s, a) && (a.TakeCountLock? || a.DoPred? || a.DoSleep?)
    ensures Slots(Apply(s, a))
  {
    MoveKeepsSlots(s, Apply(s, a), a.t);
  }

  lemma AwakenKeeps(s: State, a: Step)
    requires Slots(s) && Enabled(s, a) && (a.Awaken? || a.JobEnds?)
    ensures Slots(Apply(s, a))
  {
    MoveKeepsSlots(s, Apply(s, a), a.t);
  }

  lemma UnlockKeeps(s: State, a: Step)
    requires Slots(s) && Enabled(s, a) && a.DropCountLock?
    ensures Slots(Apply(s, a))
  {
    assert LocalOk(s, s.pcs[a.t]);
    MoveKeepsSlots(s, Apply(s, a), a.t);
  }

  lemma DecideKeeps(s: State, a: Step)
    requires Slots(s) && Enabled(s, a) && (a.DoDecide? || a.Decrement?)
    ensures Slots(Apply(s, a))
  {
    SumAtLeast(s.pcs, a.t, Owns);
    MoveKeepsSlots(s, Apply(s, a), a.t);
  }

  lemma HandleKeeps(s: State, a: Step)
    requires Slots(s) && Enabled(s, a)
    requires a.TakeHandleLock? || a.PushHandle? || a.TakeHandles?
    ensures Slots(Apply(s, a))
  {
    MoveKeepsSlots(s, Apply(s, a), a.t);
  }

  lemma JoinKeeps(s: State, a: Step)
    requires Slots(s) && Enabled(s, a) && a.Join?
    ensures Slots(Apply(s, a))
  {
    MoveKeepsSlots(s, Apply(s, a), a.t);
  }

  lemma ReapKeeps(s: State, a: Step)
    requires Slots(s) && Enabled(s, a) && a.Reap?
    ensures Slots(Apply(s, a))
  {
    var p, s' := s.pcs[a.t], Apply(s, a);
    if p.i < |s.handles| && a.seen {
      assert s'.pcs == s.pcs;
      assert forall t :: 0 <= t < |s.pcs| ==> LocalOk(s, s.pcs[t]) == LocalOk(s', s.pcs[t]);
    } else {
      MoveKeepsSlots(s, s', a.t);
    }
  }

  lemma BeginKeeps(s: State, a: Step)
    requires Slots(s) && Enabled(s, a) && (a.Submit? || a.BeginDispose?)
    ensures Slots(Apply(s, a))
  {
    if !s.disposed {
      MoveKeepsSlots(s, Apply(s, a), a.t);
    }
  }

  lemma SpawnFacts(s: State, a: Step)
    requires Slots(s) && Enabled(s, a) && a.Spawn? && a.ok
    ensures LocksExact(Apply(s, a)) && AllOk(Apply(s, a))
    ensures Sleeping(Apply(s, a).pcs) ==> Sleeping(s.pcs)
  {
    var s' := Apply(s, a);
    forall i | 0 <= i < |s'.pcs|
      ensures s'.pcs[i] == if i == a.t then HandleLock(|s.pcs|) else if i == |s.pcs| then Running else s.pcs[i]
    {}
    assert forall i :: 0 <= i < |s.pcs| && i != a.t ==> LocalOk(s, s.pcs[i]) == LocalOk(s', s.pcs[i]);
  }

  /** The slot passes from the submitter to the worker it spawned. */
  lemma SpawnKeeps(s: State, a: Step)
    requires Slots(s) && Enabled(s, a) && a.Spawn? && a.ok
    ensures Slots(Apply(s, a))
  {
    var mid := s.pcs[a.t := HandleLock(|s.pcs|)];
    SpawnFacts(s, a);
    StepMovesSums(s.pcs, a.t, HandleLock(|s.pcs|));
    SumAppend(mid, Running, Owns);
    SumAppend(mid, Running, Covers);
  }

  lemma SpawnFailureKeeps(s: State, a: Step)
    requires Slots(s) && Enabled(s, a) && a.Spawn? && !a.ok
    ensures Slots(Apply(s, a))
  {
    MoveKeepsSlots(s, Apply(s, a), a.t);
  }

  lemma NotifyFacts(s: State, a: Step)
    requires Slots(s) && Enabled(s, a) && a.Notify?
    ensures LocksExact(Apply(s, a)) && AllOk(Apply(s, a))
  {
    var s' := Apply(s, a);
    forall i | 0 <= i < |s.pcs|
      ensures HoldsCount(s'.pcs[i]) == HoldsCount(s.pcs[i]) && HoldsHandles(s'.pcs[i]) == HoldsHandles(s.pcs[i])
      ensures LocalOk(s', s'.pcs[i])
    {
      assert LocalOk(s, s.pcs[i]);
    }
  }

  lemma NotifySums(s: State, a: Step)
    requires Enabled(s, a) && a.Notify?
    ensures Sum(Apply(s, a).pcs, Owns) == Sum(s.pcs, Owns)
    ensures Sum(Apply(s, a).pcs, Covers) + 1 == Sum(s.pcs, Covers) + (if a.target.Some? then 1 else 0)
  {
    var p := s.pcs[a.t];
    var next := Unlock(Released(p.worker));
    assert Owns(p) == Owns(next) == 0 && Covers(p) == 1 && Covers(next) == 0;
    StepMovesSums(s.pcs, a.t, next);
    if a.target.Some? {
      WakeSums(s.pcs[a.t := next], a.target.value);
    }
  }

  lemma WakeSums(pcs: seq<Pc>, x: nat)
    requires x < |pcs| && pcs[x] == Asleep
    ensures Sum(pcs[x := Relock], Owns) == Sum(pcs, Owns) && Sum(pcs[x := Relock], Covers) == Sum(pcs, Covers) + 1
  {
    StepMovesSums(pcs, x, Relock);
  }

  lemma NotifySleepers(s: State, a: Step)
    requires Enabled(s, a) && a.Notify?
    ensures if a.target.Some? then Sleeping(s.pcs) else !Sleeping(Apply(s, a).pcs)
  {
    if a.target.Some? {
      assert s.pcs[a.target.value] == Asleep;
    }
  }

  /** A release hands the freed slot's cover from the notify to the sleeper it wakes. */
  lemma NotifyKeeps(s: State, a: Step)
    requires Slots(s) && Enabled(s, a) && a.Notify?
    ensures Slots(Apply(s, a))
  {
    NotifyFacts(s, a);
    NotifySums(s, a);
    NotifySleepers(s, a);
  }

  lemma NotifyAllFacts(s: State, a: Step)
    requires Slots(s) && Enabled(s, a) && a.NotifyAll?
    ensures LocksExact(Apply(s, a)) && AllOk(Apply(s, a)) && !Sleeping(Apply(s, a).pcs)
  {
    var s' := Apply(s, a);
    forall i | 0 <= i < |s.pcs|
      ensures HoldsCount(s'.pcs[i]) == (HoldsCount(s.pcs[i]) && i != a.t)
      ensures HoldsHandles(s'.pcs[i]) == HoldsHandles(s.pcs[i])
      ensures LocalOk(s', s'.pcs[i]) && s'.pcs[i] != Asleep
    {
      assert LocalOk(s, s.pcs[i]);
    }
  }

  lemma NotifyAllKeeps(s: State, a: Step)
    requires Slots(s) && Enabled(s, a) && a.NotifyAll?
    ensures Slots(Apply(s, a))
  {
    var mid := s.pcs[a.t := DispHandles];
    NotifyAllFacts(s, a);
    StepMovesSums(s.pcs, a.t, DispHandles);
    SumSame(mid, Apply(s, a).pcs, Owns);
  }

  lemma StepKeepsSlots(s: State, a: Step)
    requires Slots(s) && Enabled(s, a)
    ensures Slots(Apply(s, a))
  {
    match a
    case TakeCountLock(_) => CountLockKeeps(s, a);
    case DoPred(_) => CountLockKeeps(s, a);
    case DoSleep(_) => CountLockKeeps(s, a);
    case DropCountLock(_) => UnlockKeeps(s, a);
    case Awaken(_) => AwakenKeeps(s, a);
    case DoDecide(_) => DecideKeeps(s, a);
    case Decrement(_) => DecideKeeps(s, a);
    case JobEnds(_) => AwakenKeeps(s, a);
    case Join(_) => JoinKeeps(s, a);
    case Reap(_, _) => ReapKeeps(s, a);
    case Submit(_) => BeginKeeps(s, a);
    case BeginDispose(_) => BeginKeeps(s, a);
    case Spawn(_, ok) => if ok { SpawnKeeps(s, a); } else { SpawnFailureKeeps(s, a); }
    case Notify(_, _) => NotifyKeeps(s, a);
    case NotifyAll(_) => NotifyAllKeeps(s, a);
    case _ => HandleKeeps(s, a);
  }

  lemma InitSlots(s: State)
    requires Init(s)
    ensures Slots(s)
  {
    SumZero(s.pcs, Owns);
  }

  lemma MaxStays(s: State, a: Step)
    requires Enabled(s, a)
    ensures Apply(s, a).max == s.max
  {}

  lemma {:induction false} RunKeepsSlots(s: State, steps: seq<Step>, end: State)
    requires Slots(s) && Run(s, steps, end)
    ensures Slots(end) && end.max == s.max
    decreases steps
  {
    if steps != [] {
      MaxStays(s, steps[0]);
      StepKeepsSlots(s, steps[0]);
      RunKeepsSlots(Apply(s, steps[0]), steps[1..], end);
    }
  }

  /** In every run: `thread_count` is the number of slots acquired and not released, it
      never exceeds a positive limit, and no release can underflow it. */
  lemma SlotAccounting(s: State, steps: seq<Step>, end: State, t: nat)
    requires Init(s) && Run(s, steps, end) && t < |end.pcs|
    ensures end.count == Sum(end.pcs, Owns)
    ensures s.max > 0 ==> end.count <= s.max
    ensures end.pcs[t].RelHeld? ==> end.count > 0
  {
    InitSlots(s);
    RunKeepsSlots(s, steps, end);
    SumAtLeast(end.pcs, t, Owns);
  }

  /** In every run: while a submitter sleeps, every free slot is matched by a submitter
      awake in the wait region or a notify on its way; so with neither left, a
      sleeping submitter proves that the pool is full. */
  lemma SubmittersAreNotStranded(s: State, steps: seq<Step>, end: State)
    requires Init(s) && Run(s, steps, end) && s.max > 0 && !end.disposed
    ensures Covered(end)
    ensures Sleeping(end.pcs) && (forall t :: 0 <= t < |end.pcs| ==> Covers(end.pcs[t]) == 0) ==> end.count == s.max
  {
    InitSlots(s);
    RunKeepsSlots(s, steps, end);
    if forall t :: 0 <= t < |end.pcs| ==> Covers(end.pcs[t]) == 0 {
      SumZero(end.pcs, Covers);
    }
  }
}
