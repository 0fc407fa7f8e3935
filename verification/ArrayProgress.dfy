/** The array queue never gets stuck: whoever is inside an operation and awake can go
    on, or waits for the mutex, whose owner can.  When nothing runs any more, only
    sleepers that have a reason to sleep are left. */
module ArrayProgress {
  import opened Base
  import opened QueueOps
  import opened ArrayMachine
  import opened ArrayInvariant
  import opened ArrayWakeup
  import opened ArrayTheorems

  /** A thread on its way to notify has somebody to notify. */
  predicate Owes<T>(p: Pc<T>) {
    && (p.Notify? ==> p.signals.notEmpty || p.signals.notFull)
    && (p.Unlock? ==> !p.next.Unlock?)
    && (p.Unlock? && p.next.Notify? ==> p.next.signals.notEmpty || p.next.signals.notFull)
  }

  ghost predicate Orderly<T>(s: State<T>) {
    && (s.lock.Some? ==> s.lock.value < |s.pcs|)
    && forall t :: 0 <= t < |s.pcs| ==> Owes(s.pcs[t])
  }

  lemma ActorOwes<T>(s: State<T>, a: Step<T>)
    requires Enabled(s, a) && Owes(s.pcs[a.t])
    ensures |Apply(s, a).pcs| == |s.pcs| && Owes(Apply(s, a).pcs[a.t])
    ensures Apply(s, a).lock in {s.lock, None, Some(a.t)}
  {}

  lemma StepKeepsOrder<T>(s: State<T>, a: Step<T>)
    requires Orderly(s) && Enabled(s, a)
    ensures Orderly(Apply(s, a))
  {
    ActorOwes(s, a);
    forall i | 0 <= i < |s.pcs| ensures Owes(Apply(s, a).pcs[i]) {
      if i != a.t {
        OthersStay(s, a, i);
      }
    }
  }

  lemma {:induction false} RunKeepsOrder<T>(s: State<T>, steps: seq<Step<T>>, end: State<T>)
    requires Orderly(s) && Run(s, steps, end)
    ensures Orderly(end)
    decreases steps
  {
    if steps != [] {
      StepKeepsOrder(s, steps[0]);
      RunKeepsOrder(Apply(s, steps[0]), steps[1..], end);
    }
  }

  lemma PickTarget<T>(pcs: seq<Pc<T>>, side: Side) returns (target: Option<nat>)
    ensures TargetOk(pcs, side, target)
  {
    if Sleeper(pcs, side) {
      var x :| 0 <= x < |pcs| && SleepsOn(pcs[x], side);
      target := Some(x);
    } else {
      target := None;
    }
  }

  ghost predicate CanMove<T(!new)>(s: State<T>, t: nat) {
    exists a :: Enabled(s, a) && a.t == t
  }

  /** The owner of the mutex can always go on. */
  lemma OwnerCanMove<T(!new)>(s: State<T>, h: nat)
    requires Structure(s) && h < |s.pcs| && Holds(s.pcs[h])
    ensures CanMove(s, h)
  {
    HolderIsOwner(s, h);
    var a: Step<T> := match s.pcs[h] {
      case Test(_) => DoTest(h)
      case Pred(_) => DoPred(h, false)
      case GoSleep(_) => DoSleep(h)
      case Decide(_) => DoDecide(h)
      case Commit(_) => DoCommit(h)
      case Fail(_, _) => DoFail(h)
      case DrainHeld => DoDrain(h)
      case _ => DropLock(h)
    };
    assert Enabled(s, a);
  }

  lemma NotifierCanMove<T(!new)>(s: State<T>, t: nat)
    requires t < |s.pcs| && Owes(s.pcs[t]) && (s.pcs[t].Notify? || s.pcs[t].NotifyAll?)
    ensures CanMove(s, t)
  {
    if s.pcs[t].Notify? {
      var target := PickTarget(s.pcs, NextSide(s.pcs[t].signals));
      assert Enabled(s, DoNotify(t, target));
    } else {
      assert Enabled(s, DoNotifyAll(t));
    }
  }

  /** In every reachable state every thread inside an operation is asleep on a condition
      variable, can go on, or waits for the mutex while its owner can go on. */
  lemma NoDeadlock<T(!new)>(s: State<T>, t: nat)
    requires Structure(s) && Orderly(s) && t < |s.pcs| && !s.pcs[t].Idle? && !s.pcs[t].Asleep?
    ensures CanMove(s, t)
            || (Wants(s.pcs[t]) && s.lock.Some? && s.lock.value < |s.pcs|
                && Holds(s.pcs[s.lock.value]) && CanMove(s, s.lock.value))
  {
    if Wants(s.pcs[t]) {
      if s.lock == None {
        assert Enabled(s, TakeLock(t));
      } else {
        OwnerCanMove(s, s.lock.value);
      }
    } else if Holds(s.pcs[t]) {
      OwnerCanMove(s, t);
    } else {
      NotifierCanMove(s, t);
    }
  }

  /** Nothing happens any more unless a new call begins or a sleeper wakes by itself. */
  ghost predicate Quiescent<T(!new)>(s: State<T>) {
    forall t :: 0 <= t < |s.pcs| && CanMove(s, t) ==> s.pcs[t].Idle? || s.pcs[t].Asleep?
  }

  lemma QuiescentThreads<T(!new)>(s: State<T>, t: nat)
    requires Structure(s) && Orderly(s) && Quiescent(s) && t < |s.pcs|
    ensures s.pcs[t].Idle? || s.pcs[t].Asleep?
  {
    if !s.pcs[t].Idle? && !s.pcs[t].Asleep? {
      NoDeadlock(s, t);
    }
  }

  /** No lost wakeup, to the end: when nothing runs any more, nobody is inside an
      operation but sleepers, a sleeping producer proves the queue full, a sleeping
      consumer proves it empty, and on a disposed queue nobody sleeps. */
  lemma QuiescentMeansBlocked<T(!new)>(s: State<T>, steps: seq<Step<T>>, end: State<T>, side: Side)
    requires Init(s) && Run(s, steps, end) && Quiescent(end)
    ensures forall t :: 0 <= t < |end.pcs| ==> end.pcs[t].Idle? || end.pcs[t].Asleep?
    ensures Sleeper(end.pcs, side) ==> !end.buf.disposed && Blocked(end.buf, side)
  {
    InitInv(s);
    RunKeepsInv(s, steps, end);
    RunKeepsOrder(s, steps, end);
    forall t | 0 <= t < |end.pcs| ensures end.pcs[t].Idle? || end.pcs[t].Asleep? {
      QuiescentThreads(end, t);
    }
    forall t | 0 <= t < |end.pcs| ensures !Active(end.pcs[t], side) && !DisposePending(end.pcs[t], side) {}
    assert !SomeActive(end.pcs, side) && !SomePending(end.pcs, side);
  }
}
