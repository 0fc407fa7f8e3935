/** ThreadPerTaskPool never gets stuck: whoever is inside an operation and awake can go
    on, or waits for a mutex or for a worker that can.  In particular dispose always
    comes to its end, as far as the jobs do. */
module ThreadPerTaskProgress {
  import opened Base
  import opened Bags
  import opened ThreadPerTask
  import opened ThreadPerTaskSlots
  import opened ThreadPerTaskHandles

  ghost predicate CanMove(s: State, t: nat) {
    exists a :: Enabled(s, a) && a.t == t
  }

  /** Outside every operation, asleep on the condition variable, or a worker at its end. */
  predicate Resting(p: Pc) {
    p == Idle || p == Asleep || p == Finished
  }

  /** Somebody who is not at rest can go on. */
  ghost predicate SomeoneMoves(s: State) {
    exists t: nat :: t < |s.pcs| && !Resting(s.pcs[t]) && CanMove(s, t)
  }

  lemma CountOwnerCanMove(s: State, t: nat)
    requires t < |s.pcs| && HoldsCount(s.pcs[t])
    ensures CanMove(s, t) && !Resting(s.pcs[t])
  {
    var p := s.pcs[t];
    if p.RelNotify? {
      if Sleeping(s.pcs) {
        var x :| 0 <= x < |s.pcs| && s.pcs[x] == Asleep;
        assert Enabled(s, Notify(t, Some(x)));
      } else {
        assert Enabled(s, Notify(t, None));
      }
    } else {
      var a := match p {
        case Pred => DoPred(t)
        case GoSleep => DoSleep(t)
        case Decide => DoDecide(t)
        case RelHeld(_) => Decrement(t)
        case _ => DropCountLock(t)
      };
      assert Enabled(s, a);
    }
  }

  lemma HandleOwnerCanMove(s: State, t: nat)
    requires t < |s.pcs| && HoldsHandles(s.pcs[t])
    ensures CanMove(s, t) && !Resting(s.pcs[t])
  {
    var a := match s.pcs[t] {
      case ReapAt(_) => Reap(t, false)
      case HandlePush(_) => PushHandle(t)
      case _ => TakeHandles(t)
    };
    assert Enabled(s, a);
  }

  lemma CountWaiterIsServed(s: State, t: nat)
    requires LocksExact(s) && t < |s.pcs| && WantsCount(s.pcs[t])
    ensures SomeoneMoves(s)
  {
    if s.countLock == None {
      assert Enabled(s, TakeCountLock(t));
      assert CanMove(s, t) && !Resting(s.pcs[t]);
    } else {
      CountOwnerCanMove(s, s.countLock.value);
    }
  }

  lemma HandleWaiterIsServed(s: State, t: nat)
    requires LocksExact(s) && t < |s.pcs| && WantsHandles(s.pcs[t])
    ensures SomeoneMoves(s)
  {
    if s.handleLock == None {
      assert Enabled(s, TakeHandleLock(t));
      assert CanMove(s, t) && !Resting(s.pcs[t]);
    } else {
      HandleOwnerCanMove(s, s.handleLock.value);
    }
  }

  /** A worker that has not finished runs its job or releases its slot. */
  lemma WorkerGoesOn(s: State, w: nat)
    requires LocksExact(s) && w < |s.pcs| && Worker(s.pcs[w]) && s.pcs[w] != Finished
    ensures SomeoneMoves(s)
  {
    if s.pcs[w] == Running {
      assert Enabled(s, JobEnds(w));
      assert CanMove(s, w) && !Resting(s.pcs[w]);
    } else if s.pcs[w].RelLock? {
      CountWaiterIsServed(s, w);
    } else {
      CountOwnerCanMove(s, w);
    }
  }

  /** A handle in the disposer's hands is that of a worker. */
  lemma HandleIsWorker(s: State, t: nat)
    requires Ledger(s) && t < |s.pcs| && s.pcs[t].Joining? && s.pcs[t].hs != []
    ensures s.pcs[t].hs[0] < |s.pcs| && Worker(s.pcs[s.pcs[t].hs[0]])
  {
    var w := s.pcs[t].hs[0];
    assert w in s.pcs[t].hs && w in HandsOf(s.pcs[t]);
    GatherContains(s.pcs, t, HandsOf);
    assert w in InHands(s.pcs);
    assert multiset(s.spawned)[w] >= InHands(s.pcs)[w] > 0;
    assert w in s.spawned;
  }

  lemma JoinerGoesOn(s: State, t: nat)
    requires Slots(s) && Ledger(s) && t < |s.pcs| && s.pcs[t].Joining?
    ensures SomeoneMoves(s)
  {
    var hs := s.pcs[t].hs;
    if hs != [] {
      HandleIsWorker(s, t);
    }
    if hs == [] || s.pcs[hs[0]] == Finished {
      assert Enabled(s, Join(t));
      assert CanMove(s, t) && !Resting(s.pcs[t]);
    } else {
      WorkerGoesOn(s, hs[0]);
    }
  }

  /** In every reachable state in which some thread is neither outside the pool, nor
      asleep, nor finished, some such thread can go on. */
  lemma NoDeadlock(s: State, t: nat)
    requires Slots(s) && Ledger(s) && t < |s.pcs| && !Resting(s.pcs[t])
    ensures SomeoneMoves(s)
  {
    var p := s.pcs[t];
    if HoldsCount(p) {
      CountOwnerCanMove(s, t);
    } else if HoldsHandles(p) {
      HandleOwnerCanMove(s, t);
    } else if WantsCount(p) {
      CountWaiterIsServed(s, t);
    } else if WantsHandles(p) {
      HandleWaiterIsServed(s, t);
    } else if p.Joining? {
      JoinerGoesOn(s, t);
    } else {
      var a := if p == Spawning then Spawn(t, false) else if p == Running then JobEnds(t) else NotifyAll(t);
      assert Enabled(s, a);
      assert CanMove(s, t);
    }
  }

  // ------------------------------------------------------------ dispose

  /** While the pool is borrowed there is somebody who disposes it. */
  ghost predicate DisposerExists(s: State) {
    s.borrowed ==> exists t :: 0 <= t < |s.pcs| && Disposer(s.pcs[t])
  }

  lemma BorrowingBegins(s: State, a: Step)
    requires Enabled(s, a) && !s.borrowed && Apply(s, a).borrowed
    ensures |Apply(s, a).pcs| == |s.pcs| && Disposer(Apply(s, a).pcs[a.t])
  {}

  lemma StepKeepsDisposer(s: State, a: Step)
    requires Ledger(s) && Enabled(s, a) && DisposerExists(s)
    ensures DisposerExists(Apply(s, a))
  {
    var s' := Apply(s, a);
    if s.borrowed {
      var t :| 0 <= t < |s.pcs| && Disposer(s.pcs[t]);
      DisposedStep(s, a);
      assert s'.borrowed ==> Disposer(s'.pcs[t]);
    } else if s'.borrowed {
      BorrowingBegins(s, a);
    }
  }

  lemma {:induction false} RunKeepsDisposer(s: State, steps: seq<Step>, end: State)
    requires Slots(s) && Ledger(s) && DisposerExists(s) && Run(s, steps, end)
    ensures DisposerExists(end)
    decreases steps
  {
    if steps != [] {
      StepKeepsSlots(s, steps[0]);
      StepKeepsLedger(s, steps[0]);
      StepKeepsDisposer(s, steps[0]);
      RunKeepsDisposer(Apply(s, steps[0]), steps[1..], end);
    }
  }

  /** Nothing happens any more unless a new call begins or a sleeper wakes by itself. */
  ghost predicate Quiescent(s: State) {
    !SomeoneMoves(s)
  }

  lemma QuiescentRests(s: State)
    requires Slots(s) && Ledger(s) && DisposerExists(s) && Quiescent(s)
    ensures forall t :: 0 <= t < |s.pcs| ==> Resting(s.pcs[t])
    ensures !s.borrowed
  {
    forall t | 0 <= t < |s.pcs| ensures Resting(s.pcs[t]) {
      if !Resting(s.pcs[t]) {
        NoDeadlock(s, t);
      }
    }
  }

  lemma NobodySleepsDisposed(s: State)
    requires Phases(s) && s.disposed
    ensures !Sleeping(s.pcs)
  {
    forall t | 0 <= t < |s.pcs| ensures s.pcs[t] != Asleep {
      assert s.pcs[t] == Idle || Worker(s.pcs[t]) || Disposer(s.pcs[t]);
    }
  }

  lemma RestingCoversNothing(pcs: seq<Pc>)
    requires forall t :: 0 <= t < |pcs| ==> Resting(pcs[t])
    ensures forall t :: 0 <= t < |pcs| ==> Covers(pcs[t]) == 0
  {
    forall t | 0 <= t < |pcs| ensures Covers(pcs[t]) == 0 {
      assert Resting(pcs[t]);
    }
  }

  /** When nothing runs any more: only sleepers are inside an operation, a sleeping
      submitter proves that the pool is full, and if the pool has been disposed, that
      dispose has returned. */
  lemma QuiescentMeansFull(s: State, steps: seq<Step>, end: State)
    requires Init(s) && Run(s, steps, end) && Quiescent(end)
    ensures forall t :: 0 <= t < |end.pcs| ==> Resting(end.pcs[t])
    ensures Sleeping(end.pcs) ==> !end.disposed && (s.max > 0 ==> end.count == s.max)
    ensures !end.borrowed
  {
    InitLedger(s);
    RunKeepsLedger(s, steps, end);
    RunKeepsDisposer(s, steps, end);
    QuiescentRests(end);
    if end.disposed {
      NobodySleepsDisposed(end);
    } else if s.max > 0 {
      RestingCoversNothing(end.pcs);
      SubmittersAreNotStranded(s, steps, end);
    }
  }
}
