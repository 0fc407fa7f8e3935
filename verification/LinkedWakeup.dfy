/** What every reachable state of the linked queue satisfies, part two: no wakeup
    is lost on either side, and dispose strands nobody. */
module LinkedWakeup {
  import opened Base
  import opened Counting
  import opened QueueOps
  import opened LinkedMachine
  import opened LinkedInvariant

  // ------------------------------------------------------------ definitions

  /** Will still take the mutex of `side` in order to notify. */
  predicate WillSignal<T>(capacity: nat, p: Pc<T>, side: Side) {
    match p
    case SigLock(sd, kind) => sd == side && kind != Dispose
    case Unlock(_, next) => next.SigLock? && next.side == side && next.kind != Dispose
    case Cascade(sd, prev) => sd != side && AfterCascade<T>(capacity, sd, prev).SigLock?
    case _ => false
  }

  /** Owes the sleepers of `side` a signal, is awake in the wait region of that
      side, or is committed to an operation that passes the turn on. */
  predicate Active<T>(capacity: nat, p: Pc<T>, side: Side) {
    || WillSignal(capacity, p, side)
    || match p {
         case SigHeld(sd, kind) => sd == side && kind != Dispose
         case Relock(op) => OpSide(op) == side
         case Pred(op) => OpSide(op) == side
         case PredCount(op) => OpSide(op) == side
         case Decide(op) => OpSide(op) == side
         case Link(_) => side == PushSide
         case Advance(_) => side == PushSide
         case Add(_) => side == PushSide
         case Take => side == PopSide
         case Free(_) => side == PopSide
         case Sub(_) => side == PopSide
         case Cascade(sd, prev) => sd == side && PassesOn(capacity, sd, prev)
         case _ => false
       }
  }

  /** Asleep, or holding the mutex with nothing left to check before sleeping. */
  predicate Dozing<T>(p: Pc<T>, side: Side) {
    (p.Asleep? || p.GoSleep?) && OpSide(p.op) == side
  }

  ghost predicate SomeDozing<T>(pcs: seq<Pc<T>>, side: Side) {
    exists i :: 0 <= i < |pcs| && Dozing(pcs[i], side)
  }

  ghost predicate SomeActive<T>(capacity: nat, pcs: seq<Pc<T>>, side: Side) {
    exists i :: 0 <= i < |pcs| && Active(capacity, pcs[i], side)
  }

  /** While the queue is not disposed: if a producer sleeps although there is room, or
      a consumer although there is an item, somebody is on the way. */
  ghost predicate NoLostWakeup<T>(s: State<T>, side: Side) {
    !s.chain.disposed && SomeDozing(s.pcs, side) && !Blocked(s.chain, side) ==>
      SomeActive(s.chain.capacity, s.pcs, side)
  }

  // ------------------------------------------------------------ preservation

  /** One thread moves.  Either it leaves the side covered itself, or the side was
      exposed before by the same sleepers and another thread covers it. */
  lemma MoveKeepsWakeup<T>(s: State<T>, s': State<T>, t: nat, side: Side)
    requires NoLostWakeup(s, side)
    requires t < |s.pcs| && |s'.pcs| == |s.pcs| && s'.pcs == s.pcs[t := s'.pcs[t]]
    requires s'.chain.capacity == s.chain.capacity
    requires
      || s'.chain.disposed
      || Blocked(s'.chain, side)
      || Active(s'.chain.capacity, s'.pcs[t], side)
      || !SomeDozing(s'.pcs, side)
      || (&& !s.chain.disposed && !Blocked(s.chain, side)
          && !Active(s.chain.capacity, s.pcs[t], side)
          && (Dozing(s'.pcs[t], side) ==> Dozing(s.pcs[t], side)))
    ensures NoLostWakeup(s', side)
  {
    if !s'.chain.disposed && SomeDozing(s'.pcs, side) && !Blocked(s'.chain, side) {
      if Active(s'.chain.capacity, s'.pcs[t], side) {
      } else {
        var i :| 0 <= i < |s'.pcs| && Dozing(s'.pcs[i], side);
        assert Dozing(s.pcs[i], side);
        var w :| 0 <= w < |s.pcs| && Active(s.chain.capacity, s.pcs[w], side);
        assert w != t && s'.pcs[w] == s.pcs[w];
      }
    }
  }

  /** Waking sleepers uncovers nobody. */
  lemma WakeKeepsWakeup<T>(s: State<T>, pcs': seq<Pc<T>>, side: Side)
    requires NoLostWakeup(s, side) && Wakes(s.pcs, pcs')
    ensures NoLostWakeup(s.(pcs := pcs'), side)
  {
    if SomeDozing(pcs', side) {
      var i :| 0 <= i < |pcs'| && Dozing(pcs'[i], side);
      assert Dozing(s.pcs[i], side);
      if SomeActive(s.chain.capacity, s.pcs, side) {
        var w :| 0 <= w < |s.pcs| && Active(s.chain.capacity, s.pcs[w], side);
        assert pcs'[w] == s.pcs[w];
      }
    }
  }

  lemma TestKeepsWakeup<T>(s: State<T>, a: Step<T>, side: Side)
    requires Enabled(s, a) && NoLostWakeup(s, side)
    requires a.Begin? || a.BeginDrain? || a.BeginDispose? || a.DoTest? || a.DoTestCount? || a.DoPred? || a.DoPredCount?
    ensures NoLostWakeup(Apply(s, a), side)
  {
    MoveKeepsWakeup(s, Apply(s, a), a.t, side);
  }

  lemma DecideKeepsWakeup<T>(s: State<T>, a: Step<T>, side: Side)
    requires Enabled(s, a) && NoLostWakeup(s, side)
    requires a.DoDecide? || a.DoReadKind? || a.DoDrainLoad? || a.Awaken? || a.DoSleep? || a.DoFail?
    ensures NoLostWakeup(Apply(s, a), side)
  {
    MoveKeepsWakeup(s, Apply(s, a), a.t, side);
  }

  lemma LockKeepsWakeup<T>(s: State<T>, a: Step<T>, side: Side)
    requires Structure(s) && Enabled(s, a) && NoLostWakeup(s, side)
    requires a.TakeLock?
    ensures NoLostWakeup(Apply(s, a), side)
  {
    MoveKeepsWakeup(s, Apply(s, a), a.t, side);
  }

  lemma UnlockKeepsWakeup<T>(s: State<T>, a: Step<T>, side: Side)
    requires Enabled(s, a) && LocalOk(s.chain, s.pcs[a.t]) && NoLostWakeup(s, side) && a.DoUnlock?
    ensures NoLostWakeup(Apply(s, a), side)
  {
    MoveKeepsWakeup(s, Apply(s, a), a.t, side);
  }

  lemma PushKeepsWakeup<T>(s: State<T>, a: Step<T>, side: Side)
    requires Structure(s) && Enabled(s, a) && NoLostWakeup(s, side)
    requires a.DoLink? || a.DoAdvance?
    ensures NoLostWakeup(Apply(s, a), side)
  {
    MoveKeepsWakeup(s, Apply(s, a), a.t, side);
  }

  lemma AddKeepsWakeup<T>(s: State<T>, a: Step<T>, side: Side)
    requires Structure(s) && Enabled(s, a) && NoLostWakeup(s, side) && a.DoAdd?
    ensures NoLostWakeup(Apply(s, a), side)
  {
    MoveKeepsWakeup(s, Apply(s, a), a.t, side);
  }

  lemma TakeKeepsWakeup<T>(s: State<T>, a: Step<T>, side: Side)
    requires Enabled(s, a) && NoLostWakeup(s, side) && a.DoTake?
    ensures NoLostWakeup(Apply(s, a), side)
  {
    MoveKeepsWakeup(s, Apply(s, a), a.t, side);
  }

  lemma FreeKeepsWakeup<T>(s: State<T>, a: Step<T>, side: Side)
    requires Enabled(s, a) && NoLostWakeup(s, side) && a.DoFree?
    ensures NoLostWakeup(Apply(s, a), side)
  {
    MoveKeepsWakeup(s, Apply(s, a), a.t, side);
  }

  lemma SubKeepsWakeup<T>(s: State<T>, a: Step<T>, side: Side)
    requires Structure(s) && Enabled(s, a) && NoLostWakeup(s, side) && a.DoSub?
    ensures NoLostWakeup(Apply(s, a), side)
  {
    assert s.chain.count <= s.chain.capacity;
    MoveKeepsWakeup(s, Apply(s, a), a.t, side);
  }

  lemma DrainKeepsWakeup<T>(s: State<T>, a: Step<T>, side: Side)
    requires Enabled(s, a) && NoLostWakeup(s, side)
    requires a.DoDrainTake? || a.DoDrainFree? || a.DoDrainSub?
    ensures NoLostWakeup(Apply(s, a), side)
  {
    MoveKeepsWakeup(s, Apply(s, a), a.t, side);
  }

  /** While a thread holds a mutex and is not dozing itself, only registered sleepers
      doze on that side. */
  lemma DozersAreSleepers<T>(s: State<T>, t: nat, side: Side)
    requires Structure(s) && t < |s.pcs| && Holds(s.pcs[t], side) && !s.pcs[t].GoSleep?
    ensures SomeDozing(s.pcs, side) ==> Sleeper(s.pcs, side) && WaitersOf(s, side) > 0
  {
    if SomeDozing(s.pcs, side) {
      var i :| 0 <= i < |s.pcs| && Dozing(s.pcs[i], side);
      assert !Holds(s.pcs[i], side);
      assert SleepsOn(s.pcs[i], side);
      SumAtLeast(s.pcs, i, WaitingPush);
      SumAtLeast(s.pcs, i, WaitingPop);
    }
  }

  /** The notifier moves on; then one sleeper of `side` wakes, or none is left. */
  lemma NotifyOneKeepsWakeup<T>(s: State<T>, t: nat, p: Pc<T>, side: Side, target: Option<nat>)
    requires Structure(s) && NoLostWakeup(s, side)
    requires t < |s.pcs| && Holds(s.pcs[t], side) && !s.pcs[t].GoSleep? && !s.pcs[t].Asleep?
    requires !p.Asleep? && !p.GoSleep?
    requires if WaitersOf(s, side) > 0 then TargetOk(s.pcs, side, target) else target == None
    ensures NoLostWakeup(s.(pcs := WakeOne(s.pcs[t := p], target)), side)
  {
    DozersAreSleepers(s, t, side);
    var s' := s.(pcs := WakeOne(s.pcs[t := p], target));
    match target
    case Some(x) =>
      assert s'.pcs[x] == Relock(s.pcs[x].op);
      assert Active(s'.chain.capacity, s'.pcs[x], side);
    case None =>
      assert !SomeDozing(s.pcs, side);
      forall i | 0 <= i < |s'.pcs| ensures !Dozing(s'.pcs[i], side) {
        assert !Dozing(s.pcs[i], side);
      }
  }

  /** A cascade that passes nothing on to this side. */
  lemma OtherCascadeKeepsWakeup<T>(s: State<T>, a: Step<T>, side: Side)
    requires Enabled(s, a) && NoLostWakeup(s, side) && a.DoCascade?
    requires s.pcs[a.t].side != side || !PassesOn(s.chain.capacity, side, s.pcs[a.t].prev)
    ensures NoLostWakeup(Apply(s, a), side)
  {
    var mid := Goto(s, a.t, Notified(s.chain.capacity, s.pcs[a.t]));
    NotifyWakes(s, a);
    MoveKeepsWakeup(s, mid, a.t, side);
    WakeKeepsWakeup(mid, Apply(s, a).pcs, side);
  }

  lemma CascadeKeepsWakeup<T>(s: State<T>, a: Step<T>, side: Side)
    requires Structure(s) && Enabled(s, a) && NoLostWakeup(s, side) && a.DoCascade?
    ensures NoLostWakeup(Apply(s, a), side)
  {
    var p := s.pcs[a.t];
    if p.side == side && PassesOn(s.chain.capacity, side, p.prev) {
      NotifyOneKeepsWakeup(s, a.t, Notified(s.chain.capacity, p), side, a.target);
    } else {
      OtherCascadeKeepsWakeup(s, a, side);
    }
  }

  lemma SignalKeepsWakeup<T>(s: State<T>, a: Step<T>, side: Side)
    requires Structure(s) && Enabled(s, a) && NoLostWakeup(s, side) && a.DoSignal?
    ensures NoLostWakeup(Apply(s, a), side)
  {
    var p := s.pcs[a.t];
    var mid := Goto(s, a.t, Notified(s.chain.capacity, p));
    if p.side != side || p.kind == Dispose {
      NotifyWakes(s, a);
      MoveKeepsWakeup(s, mid, a.t, side);
      WakeKeepsWakeup(mid, Apply(s, a).pcs, side);
    } else if p.kind == One {
      NotifyOneKeepsWakeup(s, a.t, mid.pcs[a.t], side, a.target);
    } else {
      DozersAreSleepers(s, a.t, side);
      NobodyDozes(s, a, side);
    }
  }

  /** A notify_all leaves no sleeper on its side. */
  lemma NobodyDozes<T>(s: State<T>, a: Step<T>, side: Side)
    requires Structure(s) && Enabled(s, a) && a.DoSignal? && s.pcs[a.t].side == side && s.pcs[a.t].kind != One
    requires s.pcs[a.t].kind == All ==> SomeDozing(s.pcs, side) ==> WaitersOf(s, side) > 0
    ensures !SomeDozing(Apply(s, a).pcs, side)
  {
    var s' := Apply(s, a);
    assert LockOf(s, side) == Some(a.t);
    forall i | 0 <= i < |s'.pcs| ensures !Dozing(s'.pcs[i], side) {
      assert Dozing(s.pcs[i], side) ==> SomeDozing(s.pcs, side);
      assert Holds(s.pcs[i], side) ==> i == a.t;
    }
  }

  lemma StepKeepsWakeup<T>(s: State<T>, a: Step<T>, side: Side)
    requires Structure(s) && Enabled(s, a) && NoLostWakeup(s, side)
    ensures NoLostWakeup(Apply(s, a), side)
  {
    match a
    case DoDecide(_) => DecideKeepsWakeup(s, a, side);
    case DoReadKind(_) => DecideKeepsWakeup(s, a, side);
    case DoDrainLoad(_) => DecideKeepsWakeup(s, a, side);
    case Awaken(_) => DecideKeepsWakeup(s, a, side);
    case DoSleep(_) => DecideKeepsWakeup(s, a, side);
    case DoFail(_) => DecideKeepsWakeup(s, a, side);
    case DoUnlock(_) =>
      HolderIsOwner(s, a.t);
      UnlockKeepsWakeup(s, a, side);
    case TakeLock(_) => LockKeepsWakeup(s, a, side);
    case DoLink(_) => PushKeepsWakeup(s, a, side);
    case DoAdvance(_) => PushKeepsWakeup(s, a, side);
    case DoAdd(_) => AddKeepsWakeup(s, a, side);
    case DoTake(_) => TakeKeepsWakeup(s, a, side);
    case DoFree(_) => FreeKeepsWakeup(s, a, side);
    case DoSub(_) => SubKeepsWakeup(s, a, side);
    case DoDrainTake(_) => DrainKeepsWakeup(s, a, side);
    case DoDrainFree(_) => DrainKeepsWakeup(s, a, side);
    case DoDrainSub(_) => DrainKeepsWakeup(s, a, side);
    case DoCascade(_, _) => CascadeKeepsWakeup(s, a, side);
    case DoSignal(_, _) => SignalKeepsWakeup(s, a, side);
    case _ => TestKeepsWakeup(s, a, side);
  }
}
