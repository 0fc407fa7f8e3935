/** No wakeup of the array queue is lost although notifies come after unlocking,
    and dispose strands nobody. */
module ArrayWakeup {
  import opened Counting
  import opened QueueOps
  import opened ArrayMachine
  import opened ArrayInvariant

  // ------------------------------------------------------------ wakeups

  /** Has decided to notify `side` and has not done so yet. */
  predicate WillNotify<T>(p: Pc<T>, side: Side) {
    match p
    case Notify(g) => if side == PopSide then g.notEmpty else g.notFull
    case NotifyAll(sd, _) => sd == side
    case _ => false
  }

  /** Owes the sleepers of `side` a notify, or is awake and will pass the turn on. */
  predicate Active<T>(p: Pc<T>, side: Side) {
    || WillNotify(p, side)
    || (p.Unlock? && WillNotify(p.next, side))
    || ((p.Relock? || p.Pred? || p.Decide? || p.Commit?) && OpSide(p.op) == side)
  }

  ghost predicate SomeActive<T>(pcs: seq<Pc<T>>, side: Side) {
    exists i :: 0 <= i < |pcs| && Active(pcs[i], side)
  }

  ghost predicate NoLostWakeup<T>(s: State<T>, side: Side) {
    !s.buf.disposed && Sleeper(s.pcs, side) && !Blocked(s.buf, side) ==> SomeActive(s.pcs, side)
  }

  lemma MoveKeepsWakeup<T>(s: State<T>, s': State<T>, t: nat, side: Side)
    requires NoLostWakeup(s, side)
    requires t < |s.pcs| && |s'.pcs| == |s.pcs| && s'.pcs == s.pcs[t := s'.pcs[t]]
    requires
      || s'.buf.disposed || Blocked(s'.buf, side) || Active(s'.pcs[t], side) || !Sleeper(s'.pcs, side)
      || (&& !s.buf.disposed && !Blocked(s.buf, side) && !Active(s.pcs[t], side)
          && (SleepsOn(s'.pcs[t], side) ==> SleepsOn(s.pcs[t], side)))
    ensures NoLostWakeup(s', side)
  {
    if !s'.buf.disposed && Sleeper(s'.pcs, side) && !Blocked(s'.buf, side) && !Active(s'.pcs[t], side) {
      var i :| 0 <= i < |s'.pcs| && SleepsOn(s'.pcs[i], side);
      assert SleepsOn(s.pcs[i], side);
      var w :| 0 <= w < |s.pcs| && Active(s.pcs[w], side);
      assert w != t && s'.pcs[w] == s.pcs[w];
    }
  }

  lemma WakeKeepsWakeup<T>(s: State<T>, pcs': seq<Pc<T>>, side: Side)
    requires NoLostWakeup(s, side) && Wakes(s.pcs, pcs')
    ensures NoLostWakeup(s.(pcs := pcs'), side)
  {
    if Sleeper(pcs', side) {
      var i :| 0 <= i < |pcs'| && SleepsOn(pcs'[i], side);
      assert SleepsOn(s.pcs[i], side);
      if SomeActive(s.pcs, side) {
        var w :| 0 <= w < |s.pcs| && Active(s.pcs[w], side);
        assert pcs'[w] == s.pcs[w];
      }
    }
  }

  lemma TestKeepsWakeup<T>(s: State<T>, a: Step<T>, side: Side)
    requires Structure(s) && Enabled(s, a) && NoLostWakeup(s, side)
    requires a.Begin? || a.BeginDrain? || a.BeginDispose? || a.Awaken? || a.TakeLock? || a.DoTest? || a.DoPred?
    ensures NoLostWakeup(Apply(s, a), side)
  {
    MoveKeepsWakeup(s, Apply(s, a), a.t, side);
  }

  lemma DecideKeepsWakeup<T>(s: State<T>, a: Step<T>, side: Side)
    requires Structure(s) && Enabled(s, a) && NoLostWakeup(s, side)
    requires a.DoDecide? || a.DoSleep? || a.DropLock? || a.DoFail?
    ensures NoLostWakeup(Apply(s, a), side)
  {
    HolderIsOwner(s, a.t);
    MoveKeepsWakeup(s, Apply(s, a), a.t, side);
  }

  /** The waiter counters are exact, so a sleeper makes `any()` true. */
  lemma SleepersAreCounted<T>(s: State<T>, side: Side)
    requires Structure(s) && Sleeper(s.pcs, side)
    ensures Waiters(s.buf, side) > 0
  {
    var i :| 0 <= i < |s.pcs| && SleepsOn(s.pcs[i], side);
    SumAtLeast(s.pcs, i, WaitingPush);
    SumAtLeast(s.pcs, i, WaitingPop);
  }

  lemma SleepersStay<T>(s: State<T>, s': State<T>, t: nat, side: Side)
    requires t < |s.pcs| && |s'.pcs| == |s.pcs| && s'.pcs == s.pcs[t := s'.pcs[t]] && !s'.pcs[t].Asleep?
    ensures Sleeper(s'.pcs, side) ==> Sleeper(s.pcs, side)
  {
    forall i | 0 <= i < |s.pcs| && SleepsOn(s'.pcs[i], side) ensures SleepsOn(s.pcs[i], side) {}
  }

  lemma CommitKeepsWakeup<T>(s: State<T>, a: Step<T>, side: Side)
    requires Structure(s) && Enabled(s, a) && NoLostWakeup(s, side) && (a.DoCommit? || a.DoDrain?)
    ensures NoLostWakeup(Apply(s, a), side)
  {
    HolderIsOwner(s, a.t);
    SleepersStay(s, Apply(s, a), a.t, side);
    if Sleeper(s.pcs, side) {
      SleepersAreCounted(s, side);
    }
    MoveKeepsWakeup(s, Apply(s, a), a.t, side);
  }

  /** A notify either leaves an awake thread behind or finds nobody asleep. */
  lemma NotifyOneKeepsWakeup<T>(s: State<T>, a: Step<T>, side: Side)
    requires Enabled(s, a) && NoLostWakeup(s, side) && a.DoNotify?
    ensures NoLostWakeup(Apply(s, a), side)
  {
    var s', g := Apply(s, a), s.pcs[a.t].signals;
    var mid := Goto(s, a.t, AfterNotify(g));
    if NextSide(g) == side {
      match a.target
      case Some(x) =>
        assert s'.pcs[x] == Relock(s.pcs[x].op) && Active(s'.pcs[x], side);
      case None =>
        SleepersStay(s, mid, a.t, side);
        assert s' == mid;
    } else {
      MoveKeepsWakeup(s, mid, a.t, side);
      WakeKeepsWakeup(mid, s'.pcs, side);
    }
  }

  lemma NotifyAllKeepsWakeup<T>(s: State<T>, a: Step<T>, side: Side)
    requires Enabled(s, a) && NoLostWakeup(s, side) && a.DoNotifyAll?
    ensures NoLostWakeup(Apply(s, a), side)
  {
    var s', p := Apply(s, a), s.pcs[a.t];
    if p.side == side {
      assert !Sleeper(s'.pcs, side);
    } else {
      var mid := Goto(s, a.t, if p.disposing && p.side == PopSide then NotifyAll(PushSide, true) else Idle);
      MoveKeepsWakeup(s, mid, a.t, side);
      WakeKeepsWakeup(mid, s'.pcs, side);
    }
  }

  lemma StepKeepsWakeup<T>(s: State<T>, a: Step<T>, side: Side)
    requires Structure(s) && Enabled(s, a) && NoLostWakeup(s, side)
    ensures NoLostWakeup(Apply(s, a), side)
  {
    match a
    case DoDecide(_) => DecideKeepsWakeup(s, a, side);
    case DoSleep(_) => DecideKeepsWakeup(s, a, side);
    case DropLock(_) => DecideKeepsWakeup(s, a, side);
    case DoFail(_) => DecideKeepsWakeup(s, a, side);
    case DoCommit(_) => CommitKeepsWakeup(s, a, side);
    case DoDrain(_) => CommitKeepsWakeup(s, a, side);
    case DoNotify(_, _) => NotifyOneKeepsWakeup(s, a, side);
    case DoNotifyAll(_) => NotifyAllKeepsWakeup(s, a, side);
    case _ => TestKeepsWakeup(s, a, side);
  }

  // ------------------------------------------------------------ dispose

  /** The winning disposer has not yet been through the mutex. */
  predicate Before<T>(p: Pc<T>) {
    p.DisposeLock?
  }

  /** The winning disposer has not yet notified all sleepers of `side`. */
  predicate DisposePending<T>(p: Pc<T>, side: Side) {
    || p.DisposeLock? || p.DisposeHeld?
    || (p.NotifyAll? && p.disposing && (p.side == side || side == PushSide))
  }

  /** Acts, under the mutex, on an earlier `disposed == false`. */
  predicate Unaware<T>(p: Pc<T>, side: Side) {
    (p.GoSleep? && OpSide(p.op) == side) || (side == PushSide && p.Commit? && p.op.PushOp?)
  }

  ghost predicate SomeBefore<T>(pcs: seq<Pc<T>>) {
    exists i :: 0 <= i < |pcs| && Before(pcs[i])
  }

  ghost predicate SomePending<T>(pcs: seq<Pc<T>>, side: Side) {
    exists i :: 0 <= i < |pcs| && DisposePending(pcs[i], side)
  }

  ghost predicate SomeUnaware<T>(pcs: seq<Pc<T>>, side: Side) {
    exists i :: 0 <= i < |pcs| && Unaware(pcs[i], side)
  }

  ghost predicate DisposeWaits<T>(s: State<T>, side: Side) {
    s.buf.disposed ==>
      && (SomeUnaware(s.pcs, side) ==> SomeBefore(s.pcs))
      && (Sleeper(s.pcs, side) ==> SomePending(s.pcs, side))
  }

  lemma MoveKeepsDispose<T>(s: State<T>, s': State<T>, t: nat, side: Side)
    requires DisposeWaits(s, side)
    requires t < |s.pcs| && |s'.pcs| == |s.pcs| && s'.pcs == s.pcs[t := s'.pcs[t]]
    requires s'.buf.disposed && !s.buf.disposed ==> Before(s'.pcs[t])
    requires s.buf.disposed ==> s'.buf.disposed
    requires Before(s.pcs[t]) ==> Before(s'.pcs[t]) || !SomeUnaware(s'.pcs, side)
    requires DisposePending(s.pcs[t], side) ==> DisposePending(s'.pcs[t], side)
    requires s.buf.disposed && Unaware(s'.pcs[t], side) ==> Unaware(s.pcs[t], side)
    requires s.buf.disposed && SleepsOn(s'.pcs[t], side) ==> Unaware(s.pcs[t], side)
    ensures DisposeWaits(s', side)
  {
    if s'.buf.disposed && !s.buf.disposed {
      assert Before(s'.pcs[t]) && DisposePending(s'.pcs[t], side);
    } else if s.buf.disposed {
      if SomeUnaware(s'.pcs, side) {
        var i :| 0 <= i < |s'.pcs| && Unaware(s'.pcs[i], side);
        assert Unaware(s.pcs[i], side);
        var d :| 0 <= d < |s.pcs| && Before(s.pcs[d]);
        assert Before(s'.pcs[d]);
      }
      if Sleeper(s'.pcs, side) {
        var i :| 0 <= i < |s'.pcs| && SleepsOn(s'.pcs[i], side);
        assert SleepsOn(s.pcs[i], side) || Unaware(s.pcs[i], side);
        PendingStays(s, s', t, side);
      }
    }
  }

  lemma PendingStays<T>(s: State<T>, s': State<T>, t: nat, side: Side)
    requires t < |s.pcs| && |s'.pcs| == |s.pcs| && s'.pcs == s.pcs[t := s'.pcs[t]]
    requires DisposePending(s.pcs[t], side) ==> DisposePending(s'.pcs[t], side)
    requires SomeBefore(s.pcs) || SomePending(s.pcs, side)
    ensures SomePending(s'.pcs, side)
  {
    var d :| 0 <= d < |s.pcs| && DisposePending(s.pcs[d], side);
    assert DisposePending(s'.pcs[d], side);
  }

  lemma BeginKeepsDispose<T>(s: State<T>, a: Step<T>, side: Side)
    requires Structure(s) && Enabled(s, a) && DisposeWaits(s, side)
    requires a.Begin? || a.BeginDrain? || a.BeginDispose? || a.Awaken?
    ensures DisposeWaits(Apply(s, a), side)
  {
    if !a.BeginDispose? || !s.buf.disposed {
      MoveKeepsDispose(s, Apply(s, a), a.t, side);
    }
  }

  lemma HolderKeepsDispose<T>(s: State<T>, a: Step<T>, side: Side)
    requires Structure(s) && Enabled(s, a) && DisposeWaits(s, side)
    requires a.DoTest? || a.DoPred? || a.DoDecide? || a.DoSleep? || a.DropLock? || a.DoFail?
             || a.DoCommit? || a.DoDrain?
    ensures DisposeWaits(Apply(s, a), side)
  {
    HolderIsOwner(s, a.t);
    MoveKeepsDispose(s, Apply(s, a), a.t, side);
  }

  /** Whoever is unaware holds the mutex, so the disposer has to wait for it. */
  lemma LockKeepsDispose<T>(s: State<T>, a: Step<T>, side: Side)
    requires Structure(s) && Enabled(s, a) && DisposeWaits(s, side) && a.TakeLock?
    ensures DisposeWaits(Apply(s, a), side)
  {
    var s' := Apply(s, a);
    forall i | 0 <= i < |s.pcs| ensures !Unaware(s'.pcs[i], side) {
      assert !Holds(s.pcs[i]);
    }
    MoveKeepsDispose(s, s', a.t, side);
  }

  lemma WakeKeepsDispose<T>(s: State<T>, pcs': seq<Pc<T>>, side: Side)
    requires DisposeWaits(s, side) && Wakes(s.pcs, pcs')
    ensures DisposeWaits(s.(pcs := pcs'), side)
  {
    if s.buf.disposed {
      if SomeUnaware(pcs', side) {
        var i :| 0 <= i < |pcs'| && Unaware(pcs'[i], side);
        assert Unaware(s.pcs[i], side);
        var d :| 0 <= d < |s.pcs| && Before(s.pcs[d]);
        assert Before(pcs'[d]);
      }
      if Sleeper(pcs', side) {
        var i :| 0 <= i < |pcs'| && SleepsOn(pcs'[i], side);
        assert SleepsOn(s.pcs[i], side);
        var d :| 0 <= d < |s.pcs| && DisposePending(s.pcs[d], side);
        assert DisposePending(pcs'[d], side);
      }
    }
  }

  lemma NotifyKeepsDispose<T>(s: State<T>, a: Step<T>, side: Side)
    requires Enabled(s, a) && DisposeWaits(s, side) && a.DoNotify?
    ensures DisposeWaits(Apply(s, a), side)
  {
    var mid := Goto(s, a.t, AfterNotify(s.pcs[a.t].signals));
    MoveKeepsDispose(s, mid, a.t, side);
    WakeKeepsDispose(mid, Apply(s, a).pcs, side);
  }

  lemma NotifyAllKeepsDispose<T>(s: State<T>, a: Step<T>, side: Side)
    requires Structure(s) && Enabled(s, a) && DisposeWaits(s, side) && a.DoNotifyAll?
    ensures DisposeWaits(Apply(s, a), side)
  {
    var s', p := Apply(s, a), s.pcs[a.t];
    var mid := Goto(s, a.t, if p.disposing && p.side == PopSide then NotifyAll(PushSide, true) else Idle);
    if p.side == side && p.disposing {
      assert !Sleeper(s'.pcs, side);
      UnawareStays(s, s', a.t, side);
    } else {
      MoveKeepsDispose(s, mid, a.t, side);
      WakeKeepsDispose(mid, s'.pcs, side);
    }
  }

  /** A step by a thread that is neither unaware nor before the mutex. */
  lemma UnawareStays<T>(s: State<T>, s': State<T>, t: nat, side: Side)
    requires DisposeWaits(s, side) && s'.buf == s.buf && t < |s.pcs| && |s'.pcs| == |s.pcs|
    requires !Unaware(s'.pcs[t], side) && !Before(s.pcs[t])
    requires forall i :: 0 <= i < |s.pcs| && i != t ==> s'.pcs[i] == s.pcs[i] || (s.pcs[i].Asleep? && s'.pcs[i].Relock?)
    ensures s.buf.disposed && SomeUnaware(s'.pcs, side) ==> SomeBefore(s'.pcs)
  {
    if s.buf.disposed && SomeUnaware(s'.pcs, side) {
      var i :| 0 <= i < |s'.pcs| && Unaware(s'.pcs[i], side);
      assert i != t && Unaware(s.pcs[i], side);
      var d :| 0 <= d < |s.pcs| && Before(s.pcs[d]);
      assert d != t && Before(s'.pcs[d]);
    }
  }

  lemma StepKeepsDispose<T>(s: State<T>, a: Step<T>, side: Side)
    requires Structure(s) && Enabled(s, a) && DisposeWaits(s, side)
    ensures DisposeWaits(Apply(s, a), side)
  {
    match a
    case Begin(_, _) => BeginKeepsDispose(s, a, side);
    case BeginDrain(_) => BeginKeepsDispose(s, a, side);
    case BeginDispose(_) => BeginKeepsDispose(s, a, side);
    case Awaken(_) => BeginKeepsDispose(s, a, side);
    case TakeLock(_) => LockKeepsDispose(s, a, side);
    case DoNotify(_, _) => NotifyKeepsDispose(s, a, side);
    case DoNotifyAll(_) => NotifyAllKeepsDispose(s, a, side);
    case _ => HolderKeepsDispose(s, a, side);
  }
}
