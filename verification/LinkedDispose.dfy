/** What every reachable state of the linked queue satisfies, part three: dispose
    strands no sleeper and freezes the accepted items. */
module LinkedDispose {
  import opened Base
  import opened QueueOps
  import opened LinkedMachine
  import opened LinkedInvariant

  /** The winning disposer has not yet been through the mutex of `side`. */
  predicate Before<T>(p: Pc<T>, side: Side) {
    match p
    case SigLock(sd, kind) => kind == Dispose && (sd == PopSide || side == PushSide)
    case SigHeld(sd, kind) => kind == Dispose && sd == PopSide && side == PushSide
    case Unlock(_, next) => next.SigLock? && next.kind == Dispose && side == PushSide
    case _ => false
  }

  /** ... or holds it, but has not called `notify_all` yet. */
  predicate Pending<T>(p: Pc<T>, side: Side) {
    Before(p, side) || (p.SigHeld? && p.kind == Dispose && p.side == side)
  }

  /** Has read `disposed == false` and may go to sleep on the strength of it. */
  predicate Stale<T>(p: Pc<T>, side: Side) {
    (p.PredCount? || p.GoSleep?) && OpSide(p.op) == side
  }

  /** Acts, under the mutex of `side`, on an earlier `disposed == false`. */
  predicate Unaware<T>(p: Pc<T>, side: Side) {
    Stale(p, side) || (side == PushSide && Committed(p))
  }

  ghost predicate SomeBefore<T>(pcs: seq<Pc<T>>, side: Side) {
    exists i :: 0 <= i < |pcs| && Before(pcs[i], side)
  }

  ghost predicate SomePending<T>(pcs: seq<Pc<T>>, side: Side) {
    exists i :: 0 <= i < |pcs| && Pending(pcs[i], side)
  }

  ghost predicate SomeUnaware<T>(pcs: seq<Pc<T>>, side: Side) {
    exists i :: 0 <= i < |pcs| && Unaware(pcs[i], side)
  }

  ghost predicate DisposeWaits<T>(s: State<T>, side: Side) {
    s.chain.disposed ==>
      && (SomeUnaware(s.pcs, side) ==> SomeBefore(s.pcs, side))
      && (Sleeper(s.pcs, side) ==> SomePending(s.pcs, side))
  }

  lemma MoveKeepsDispose<T>(s: State<T>, s': State<T>, t: nat, side: Side)
    requires DisposeWaits(s, side)
    requires t < |s.pcs| && |s'.pcs| == |s.pcs| && s'.pcs == s.pcs[t := s'.pcs[t]]
    requires s'.chain.disposed && !s.chain.disposed ==> Before(s'.pcs[t], side)
    requires s.chain.disposed ==> s'.chain.disposed
    requires Before(s.pcs[t], side) ==> Before(s'.pcs[t], side) || !SomeUnaware(s'.pcs, side)
    requires Pending(s.pcs[t], side) ==> Pending(s'.pcs[t], side)
    requires s.chain.disposed && Unaware(s'.pcs[t], side) ==> Unaware(s.pcs[t], side)
    requires s.chain.disposed && SleepsOn(s'.pcs[t], side) ==> SleepsOn(s.pcs[t], side) || Unaware(s.pcs[t], side)
    ensures DisposeWaits(s', side)
  {
    if s'.chain.disposed && !s.chain.disposed {
      assert Before(s'.pcs[t], side) && Pending(s'.pcs[t], side);
    } else if s.chain.disposed {
      if SomeUnaware(s'.pcs, side) {
        var i :| 0 <= i < |s'.pcs| && Unaware(s'.pcs[i], side);
        assert Unaware(s.pcs[i], side);
        var d :| 0 <= d < |s.pcs| && Before(s.pcs[d], side);
        assert Before(s'.pcs[d], side);
      }
      if Sleeper(s'.pcs, side) {
        var i :| 0 <= i < |s'.pcs| && SleepsOn(s'.pcs[i], side);
        assert SleepsOn(s.pcs[i], side) || Unaware(s.pcs[i], side);
        SomePendingStays(s, s', t, side);
      }
    }
  }

  lemma SomePendingStays<T>(s: State<T>, s': State<T>, t: nat, side: Side)
    requires t < |s.pcs| && |s'.pcs| == |s.pcs| && s'.pcs == s.pcs[t := s'.pcs[t]]
    requires Pending(s.pcs[t], side) ==> Pending(s'.pcs[t], side)
    requires SomeBefore(s.pcs, side) || SomePending(s.pcs, side)
    ensures SomePending(s'.pcs, side)
  {
    var d :| 0 <= d < |s.pcs| && Pending(s.pcs[d], side);
    assert Pending(s'.pcs[d], side);
  }

  lemma TestKeepsDispose<T>(s: State<T>, a: Step<T>, side: Side)
    requires Structure(s) && Enabled(s, a) && DisposeWaits(s, side)
    requires a.DoTest? || a.DoTestCount?
    ensures DisposeWaits(Apply(s, a), side)
  {
    HolderIsOwner(s, a.t);
    MoveKeepsDispose(s, Apply(s, a), a.t, side);
  }

  lemma PredKeepsDispose<T>(s: State<T>, a: Step<T>, side: Side)
    requires Enabled(s, a) && DisposeWaits(s, side)
    requires a.DoPred? || a.DoPredCount?
    ensures DisposeWaits(Apply(s, a), side)
  {
    MoveKeepsDispose(s, Apply(s, a), a.t, side);
  }

  lemma BeginKeepsDispose<T>(s: State<T>, a: Step<T>, side: Side)
    requires Enabled(s, a) && DisposeWaits(s, side)
    requires a.Begin? || a.BeginDrain? || a.BeginDispose?
    ensures DisposeWaits(Apply(s, a), side)
  {
    if !a.BeginDispose? || !s.chain.disposed {
      MoveKeepsDispose(s, Apply(s, a), a.t, side);
    }
  }

  lemma DecideKeepsDispose<T>(s: State<T>, a: Step<T>, side: Side)
    requires Structure(s) && Enabled(s, a) && DisposeWaits(s, side)
    requires a.DoDecide? || a.DoReadKind? || a.DoDrainLoad?
    ensures DisposeWaits(Apply(s, a), side)
  {
    MoveKeepsDispose(s, Apply(s, a), a.t, side);
  }

  lemma SleepKeepsDispose<T>(s: State<T>, a: Step<T>, side: Side)
    requires Enabled(s, a) && DisposeWaits(s, side)
    requires a.Awaken? || a.DoSleep? || a.DoFail?
    ensures DisposeWaits(Apply(s, a), side)
  {
    MoveKeepsDispose(s, Apply(s, a), a.t, side);
  }

  lemma ChainKeepsDispose<T>(s: State<T>, a: Step<T>, side: Side)
    requires Enabled(s, a) && DisposeWaits(s, side)
    requires a.DoLink? || a.DoAdvance? || a.DoAdd? || a.DoTake? || a.DoFree? || a.DoSub?
             || a.DoDrainTake? || a.DoDrainFree? || a.DoDrainSub?
    ensures DisposeWaits(Apply(s, a), side)
  {
    MoveKeepsDispose(s, Apply(s, a), a.t, side);
  }

  lemma UnlockKeepsDispose<T>(s: State<T>, a: Step<T>, side: Side)
    requires Structure(s) && Enabled(s, a) && DisposeWaits(s, side) && a.DoUnlock?
    ensures DisposeWaits(Apply(s, a), side)
  {
    HolderIsOwner(s, a.t);
    MoveKeepsDispose(s, Apply(s, a), a.t, side);
  }

  /** Whoever is unaware holds the mutex, so the disposer has to wait for it. */
  lemma UnawareHold<T>(s: State<T>, side: Side)
    requires Structure(s) && LockOf(s, side) == None
    ensures !SomeUnaware(s.pcs, side)
  {
    forall i | 0 <= i < |s.pcs| ensures !Unaware(s.pcs[i], side) {
      assert !Holds(s.pcs[i], side);
    }
  }

  lemma TakeLockKeepsDispose<T>(s: State<T>, a: Step<T>, side: Side)
    requires Structure(s) && Enabled(s, a) && DisposeWaits(s, side) && a.TakeLock?
    ensures DisposeWaits(Apply(s, a), side)
  {
    var s' := Apply(s, a);
    if Wants(s.pcs[a.t]).value == side {
      UnawareHold(s, side);
      forall i | s.chain.disposed && 0 <= i < |s'.pcs| ensures !Unaware(s'.pcs[i], side) {
        assert i == a.t || s'.pcs[i] == s.pcs[i];
      }
    }
    MoveKeepsDispose(s, s', a.t, side);
  }

  /** Waking sleepers is harmless here. */
  lemma WakeKeepsDispose<T>(s: State<T>, pcs': seq<Pc<T>>, side: Side)
    requires DisposeWaits(s, side) && Wakes(s.pcs, pcs')
    ensures DisposeWaits(s.(pcs := pcs'), side)
  {
    if s.chain.disposed {
      WakeKeepsUnaware(s.pcs, pcs', side);
      WakeKeepsSleepers(s.pcs, pcs', side);
    }
  }

  lemma WakeKeepsUnaware<T>(pcs: seq<Pc<T>>, pcs': seq<Pc<T>>, side: Side)
    requires Wakes(pcs, pcs')
    ensures SomeUnaware(pcs', side) ==> SomeUnaware(pcs, side)
    ensures SomeBefore(pcs, side) ==> SomeBefore(pcs', side)
  {
    if SomeUnaware(pcs', side) {
      var i :| 0 <= i < |pcs'| && Unaware(pcs'[i], side);
      assert Unaware(pcs[i], side);
    }
    if SomeBefore(pcs, side) {
      var d :| 0 <= d < |pcs| && Before(pcs[d], side);
      assert Before(pcs'[d], side);
    }
  }

  lemma WakeKeepsSleepers<T>(pcs: seq<Pc<T>>, pcs': seq<Pc<T>>, side: Side)
    requires Wakes(pcs, pcs')
    ensures Sleeper(pcs', side) ==> Sleeper(pcs, side)
    ensures SomePending(pcs, side) ==> SomePending(pcs', side)
  {
    if Sleeper(pcs', side) {
      var i :| 0 <= i < |pcs'| && SleepsOn(pcs'[i], side);
      assert SleepsOn(pcs[i], side);
    }
    if SomePending(pcs, side) {
      var d :| 0 <= d < |pcs| && Pending(pcs[d], side);
      assert Pending(pcs'[d], side);
    }
  }

  lemma CascadeKeepsDispose<T>(s: State<T>, a: Step<T>, side: Side)
    requires Enabled(s, a) && DisposeWaits(s, side) && a.DoCascade?
    ensures DisposeWaits(Apply(s, a), side)
  {
    var p := s.pcs[a.t];
    var mid := Goto(s, a.t, Notified(s.chain.capacity, p));
    NotifyWakes(s, a);
    MoveKeepsDispose(s, mid, a.t, side);
    WakeKeepsDispose(mid, Apply(s, a).pcs, side);
  }

  lemma SignalKeepsDispose<T>(s: State<T>, a: Step<T>, side: Side)
    requires Structure(s) && Enabled(s, a) && DisposeWaits(s, side) && a.DoSignal?
    ensures DisposeWaits(Apply(s, a), side)
  {
    var p := s.pcs[a.t];
    if p.kind == Dispose && p.side == side {
      NotifyAllEndsPending(s, a, side);
    } else {
      OtherSignalKeepsDispose(s, a, side);
    }
  }

  lemma OtherSignalKeepsDispose<T>(s: State<T>, a: Step<T>, side: Side)
    requires Enabled(s, a) && DisposeWaits(s, side) && a.DoSignal?
    requires s.pcs[a.t].kind != Dispose || s.pcs[a.t].side != side
    ensures DisposeWaits(Apply(s, a), side)
  {
    var mid := Goto(s, a.t, Notified(s.chain.capacity, s.pcs[a.t]));
    NotifyWakes(s, a);
    MoveKeepsDispose(s, mid, a.t, side);
    WakeKeepsDispose(mid, Apply(s, a).pcs, side);
  }

  /** The disposer's `notify_all` leaves neither a sleeper nor an unaware thread. */
  lemma NotifyAllEndsPending<T>(s: State<T>, a: Step<T>, side: Side)
    requires Structure(s) && Enabled(s, a) && a.DoSignal?
    requires s.pcs[a.t].kind == Dispose && s.pcs[a.t].side == side
    ensures !Sleeper(Apply(s, a).pcs, side) && !SomeUnaware(Apply(s, a).pcs, side)
  {
    var s' := Apply(s, a);
    assert LockOf(s, side) == Some(a.t);
    forall i | 0 <= i < |s'.pcs| ensures !Unaware(s'.pcs[i], side) {
      assert Holds(s.pcs[i], side) ==> i == a.t;
    }
  }

  lemma StepKeepsDispose<T>(s: State<T>, a: Step<T>, side: Side)
    requires Structure(s) && Enabled(s, a) && DisposeWaits(s, side)
    ensures DisposeWaits(Apply(s, a), side)
  {
    match a
    case DoDecide(_) => DecideKeepsDispose(s, a, side);
    case DoReadKind(_) => DecideKeepsDispose(s, a, side);
    case DoDrainLoad(_) => DecideKeepsDispose(s, a, side);
    case Awaken(_) => SleepKeepsDispose(s, a, side);
    case DoSleep(_) => SleepKeepsDispose(s, a, side);
    case DoFail(_) => SleepKeepsDispose(s, a, side);
    case DoUnlock(_) => UnlockKeepsDispose(s, a, side);
    case TakeLock(_) => TakeLockKeepsDispose(s, a, side);
    case DoCascade(_, _) => CascadeKeepsDispose(s, a, side);
    case DoSignal(_, _) => SignalKeepsDispose(s, a, side);
    case DoLink(_) => ChainKeepsDispose(s, a, side);
    case DoAdvance(_) => ChainKeepsDispose(s, a, side);
    case DoAdd(_) => ChainKeepsDispose(s, a, side);
    case DoTake(_) => ChainKeepsDispose(s, a, side);
    case DoFree(_) => ChainKeepsDispose(s, a, side);
    case DoSub(_) => ChainKeepsDispose(s, a, side);
    case DoDrainTake(_) => ChainKeepsDispose(s, a, side);
    case DoDrainFree(_) => ChainKeepsDispose(s, a, side);
    case DoDrainSub(_) => ChainKeepsDispose(s, a, side);
    case Begin(_, _) => BeginKeepsDispose(s, a, side);
    case BeginDrain(_) => BeginKeepsDispose(s, a, side);
    case BeginDispose(_) => BeginKeepsDispose(s, a, side);
    case DoTest(_) => TestKeepsDispose(s, a, side);
    case DoTestCount(_) => TestKeepsDispose(s, a, side);
    case _ => PredKeepsDispose(s, a, side);
  }
}
