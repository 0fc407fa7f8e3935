/** The linked queue never gets stuck: whoever holds a mutex can go on and gives it
    up after boundedly many steps of its own, so only sleepers that have a reason
    to sleep remain when nothing runs any more. */
module LinkedProgress {
  import opened Base
  import opened LinkedChain
  import opened QueueOps
  import opened LinkedMachine
  import opened LinkedInvariant
  import opened LinkedWakeup
  import opened LinkedDispose
  import opened LinkedTheorems

  /** Own steps a mutex holder needs, at most, before it gives the mutex up. */
  function Rank<T>(c: Chain<T>, p: Pc<T>): nat {
    match p
    case Unlock(_, _) => 1
    case GoSleep(_) => 1
    case Fail(_, _) => 1
    case Cascade(_, _) => 2
    case SigHeld(_, _) => 2
    case ReadKind(_) => 2
    case Sub(_) => 3
    case Free(_) => 4
    case Take => 5
    case Add(_) => 3
    case Advance(_) => 4
    case Link(_) => 5
    case Decide(_) => 6
    case PredCount(_) => 7
    case Pred(_) => 8
    case TestCount(_) => 9
    case Test(_) => 10
    case Draining(n, out) => if |out| < n then 2 + 2 * (n - |out|) else 2
    case DrainFree(n, out, _) => if |out| < n then 1 + 2 * (n - |out|) else 1
    case DrainLoad => 3 + 2 * c.count
    case _ => 0
  }

  /** By `a`, thread `h` comes closer to giving up the mutex of `side`, or gives it up. */
  ghost predicate Advances<T>(s: State<T>, h: nat, side: Side, a: Step<T>) {
    && h < |s.pcs| && Enabled(s, a) && a.t == h && |Apply(s, a).pcs| == |s.pcs|
    && var s' := Apply(s, a);
       if Holds(s'.pcs[h], side) then Rank(s'.chain, s'.pcs[h]) < Rank(s.chain, s.pcs[h])
       else LockOf(s', side) == None
  }

  lemma PickTarget<T>(pcs: seq<Pc<T>>, side: Side) returns (target: Option<nat>)
    ensures TargetOk(pcs, side, target)
  {
    if Sleeper(pcs, side) {
      var x :| 0 <= x < |pcs| && SleepsOn(pcs[x], side);
      target := Some(x);
    } else {
      target := None;
    }
  }

  predicate Leaving<T>(p: Pc<T>) {
    p.GoSleep? || p.Fail? || p.Unlock?
  }

  lemma TesterAdvances<T>(s: State<T>, h: nat, side: Side) returns (a: Step<T>)
    requires h < |s.pcs| && Holds(s.pcs[h], side) && (s.pcs[h].Test? || s.pcs[h].Pred? || s.pcs[h].PredCount?)
    ensures Advances(s, h, side, a) && Apply(s, a).chain == s.chain
  {
    a := match s.pcs[h] {
      case Test(_) => DoTest(h)
      case Pred(_) => DoPred(h)
      case _ => DoPredCount(h, false)
    };
  }

  lemma DeciderAdvances<T>(s: State<T>, h: nat, side: Side) returns (a: Step<T>)
    requires h < |s.pcs| && Holds(s.pcs[h], side) && LocalOk(s.chain, s.pcs[h])
    requires s.pcs[h].TestCount? || s.pcs[h].Decide? || s.pcs[h].ReadKind?
    ensures Advances(s, h, side, a) && Apply(s, a).chain == s.chain
  {
    a := match s.pcs[h] {
      case TestCount(_) => DoTestCount(h)
      case Decide(_) => DoDecide(h)
      case _ => DoReadKind(h)
    };
  }

  lemma LeaverAdvances<T>(s: State<T>, h: nat, side: Side) returns (a: Step<T>)
    requires h < |s.pcs| && Holds(s.pcs[h], side) && Leaving(s.pcs[h]) && LocalOk(s.chain, s.pcs[h])
    ensures Advances(s, h, side, a) && Apply(s, a).chain == s.chain
  {
    a := match s.pcs[h] {
      case GoSleep(_) => DoSleep(h)
      case Fail(_, _) => DoFail(h)
      case _ => DoUnlock(h)
    };
  }

  lemma CascaderAdvances<T>(s: State<T>, h: nat, side: Side) returns (a: Step<T>)
    requires h < |s.pcs| && Holds(s.pcs[h], side) && s.pcs[h].Cascade?
    ensures Advances(s, h, side, a) && Apply(s, a).chain == s.chain
  {
    var p := s.pcs[h];
    var target := PickTarget(s.pcs, p.side);
    a := DoCascade(h, if PassesOn(s.chain.capacity, p.side, p.prev) && WaitersOf(s, p.side) > 0 then target else None);
  }

  lemma SignallerAdvances<T>(s: State<T>, h: nat, side: Side) returns (a: Step<T>)
    requires h < |s.pcs| && Holds(s.pcs[h], side) && s.pcs[h].SigHeld?
    ensures Advances(s, h, side, a) && Apply(s, a).chain == s.chain
  {
    var p := s.pcs[h];
    var target := PickTarget(s.pcs, p.side);
    a := DoSignal(h, if p.kind == One && WaitersOf(s, p.side) > 0 then target else None);
  }

  lemma PusherAdvances<T>(s: State<T>, h: nat) returns (a: Step<T>)
    requires h < |s.pcs| && (s.pcs[h].Link? || s.pcs[h].Advance? || s.pcs[h].Add?)
    ensures Advances(s, h, PushSide, a)
  {
    a := match s.pcs[h] {
      case Link(_) => DoLink(h)
      case Advance(_) => DoAdvance(h)
      case _ => DoAdd(h)
    };
  }

  /** What a consumer finds under its mutex, for the next two lemmas. */
  ghost predicate Finds<T>(c: Chain<T>, k: Pc<T>) {
    && (k.Take? || k.Free? || k.DrainFree? || (k.Draining? && |k.out| < k.n) ==> c.items != [])
    && (k.Sub? ==> c.count > 0)
    && (k.Draining? ==> |k.out| <= k.n <= c.count)
    && (k.DrainFree? ==> |k.out| < k.n <= c.count)
  }

  lemma ConsumerIsReady<T>(s: State<T>, h: nat)
    requires Structure(s) && h < |s.pcs| && Holds(s.pcs[h], PopSide)
    ensures Finds(s.chain, s.pcs[h])
  {
    HolderIsOwner(s, h);
    ConsumerFinds(s.chain, Producer(s), s.pcs[h]);
  }

  lemma PopperAdvances<T>(s: State<T>, h: nat) returns (a: Step<T>)
    requires h < |s.pcs| && Finds(s.chain, s.pcs[h]) && (s.pcs[h].Take? || s.pcs[h].Free? || s.pcs[h].Sub?)
    ensures Advances(s, h, PopSide, a)
  {
    a := match s.pcs[h] {
      case Take => DoTake(h)
      case Free(_) => DoFree(h)
      case _ => DoSub(h)
    };
  }

  lemma DrainLoaderAdvances<T>(s: State<T>, h: nat) returns (a: Step<T>)
    requires h < |s.pcs| && Finds(s.chain, s.pcs[h]) && s.pcs[h].DrainLoad?
    ensures Advances(s, h, PopSide, a)
    ensures s.chain.count == 0 ==> Apply(s, a).chain == s.chain
  {
    a := DoDrainLoad(h);
  }

  lemma DrainTakerAdvances<T>(s: State<T>, h: nat) returns (a: Step<T>)
    requires h < |s.pcs| && Finds(s.chain, s.pcs[h]) && s.pcs[h].Draining? && |s.pcs[h].out| < s.pcs[h].n
    ensures Advances(s, h, PopSide, a)
  {
    a := DoDrainTake(h);
  }

  lemma DrainFreerAdvances<T>(s: State<T>, h: nat) returns (a: Step<T>)
    requires h < |s.pcs| && Finds(s.chain, s.pcs[h]) && s.pcs[h].DrainFree?
    ensures Advances(s, h, PopSide, a)
  {
    a := DoDrainFree(h);
  }

  lemma DrainEnderAdvances<T>(s: State<T>, h: nat) returns (a: Step<T>)
    requires h < |s.pcs| && Finds(s.chain, s.pcs[h]) && s.pcs[h].Draining? && |s.pcs[h].out| >= s.pcs[h].n
    ensures Advances(s, h, PopSide, a)
    ensures s.chain.count == 0 ==> Apply(s, a).chain == s.chain
  {
    a := DoDrainSub(h);
  }

  lemma DrainerAdvances<T>(s: State<T>, h: nat) returns (a: Step<T>)
    requires h < |s.pcs| && Finds(s.chain, s.pcs[h])
    requires s.pcs[h].DrainLoad? || s.pcs[h].Draining? || s.pcs[h].DrainFree?
    ensures Advances(s, h, PopSide, a)
    ensures s.chain.count == 0 ==> Apply(s, a).chain == s.chain
  {
    var p := s.pcs[h];
    if p.DrainLoad? {
      a := DrainLoaderAdvances(s, h);
    } else if p.DrainFree? {
      a := DrainFreerAdvances(s, h);
    } else if |p.out| < p.n {
      a := DrainTakerAdvances(s, h);
    } else {
      a := DrainEnderAdvances(s, h);
    }
  }

  /** Whoever holds a mutex can take a step that brings it closer to giving it up.  A
      consumer that finds the queue empty, or a producer that is not committed to its
      push, does so without touching the chain. */
  lemma HolderAdvances<T>(s: State<T>, h: nat, side: Side) returns (a: Step<T>)
    requires Structure(s) && h < |s.pcs| && Holds(s.pcs[h], side)
    ensures Advances(s, h, side, a) && !a.Begin?
    ensures (if side == PushSide then !Committed(s.pcs[h]) else s.chain.count == 0) ==> Apply(s, a).chain == s.chain
  {
    var p := s.pcs[h];
    HolderIsOwner(s, h);
    if Holds(p, PopSide) {
      ConsumerIsReady(s, h);
    }
    if p.Test? || p.Pred? || p.PredCount? {
      a := TesterAdvances(s, h, side);
    } else if p.TestCount? || p.Decide? || p.ReadKind? {
      a := DeciderAdvances(s, h, side);
    } else if Leaving(p) {
      a := LeaverAdvances(s, h, side);
    } else if p.Cascade? {
      a := CascaderAdvances(s, h, side);
    } else if p.SigHeld? {
      a := SignallerAdvances(s, h, side);
    } else if p.Link? || p.Advance? || p.Add? {
      a := PusherAdvances(s, h);
    } else if p.Take? || p.Free? || p.Sub? {
      a := PopperAdvances(s, h);
    } else {
      a := DrainerAdvances(s, h);
    }
  }

  /** Critical sections are bounded: from every reachable state, whoever holds a mutex
      gives it up by at most `Rank` steps of its own. */
  lemma {:induction false} MutexIsGivenUp<T>(s: State<T>, h: nat, side: Side)
    returns (steps: seq<Step<T>>, end: State<T>)
    requires Structure(s) && h < |s.pcs| && Holds(s.pcs[h], side)
    ensures Run(s, steps, end) && Structure(end) && LockOf(end, side) == None
    ensures |steps| <= Rank(s.chain, s.pcs[h]) && forall i :: 0 <= i < |steps| ==> steps[i].t == h
    decreases Rank(s.chain, s.pcs[h])
  {
    var a := HolderAdvances(s, h, side);
    var s' := Apply(s, a);
    StepKeepsStructure(s, a);
    var rest := [];
    if Holds(s'.pcs[h], side) {
      rest, end := MutexIsGivenUp(s', h, side);
    } else {
      end := s';
      assert Run(s', [], s');
    }
    steps := [a] + rest;
    assert steps[1..] == rest;
  }

  // ------------------------------------------------------------ no deadlock

  ghost predicate CanMove<T(!new)>(s: State<T>, t: nat) {
    exists a :: Enabled(s, a) && a.t == t
  }

  /** In every reachable state every thread inside an operation is asleep on a condition
      variable, can go on, or waits for a mutex whose holder can go on. */
  lemma NoDeadlock<T(!new)>(s: State<T>, t: nat)
    requires Inv(s) && t < |s.pcs| && !s.pcs[t].Idle? && !s.pcs[t].Asleep?
    ensures CanMove(s, t)
            || (Wants(s.pcs[t]).Some?
                && var o := LockOf(s, Wants(s.pcs[t]).value);
                   o.Some? && o.value < |s.pcs| && Holds(s.pcs[o.value], Wants(s.pcs[t]).value) && CanMove(s, o.value))
  {
    var p := s.pcs[t];
    if Wants(p).Some? {
      var side := Wants(p).value;
      if LockOf(s, side) == None {
        assert Enabled(s, TakeLock(t));
      } else {
        var a := HolderAdvances(s, LockOf(s, side).value, side);
        assert Enabled(s, a);
      }
    } else {
      var a := HolderAdvances(s, t, if Holds(p, PushSide) then PushSide else PopSide);
      assert Enabled(s, a);
    }
  }

  /** Nothing happens any more unless a new call begins or a sleeper wakes by itself. */
  ghost predicate Quiescent<T(!new)>(s: State<T>) {
    forall t :: 0 <= t < |s.pcs| && CanMove(s, t) ==> s.pcs[t].Idle? || s.pcs[t].Asleep?
  }

  lemma QuiescentThreads<T(!new)>(s: State<T>, t: nat)
    requires Inv(s) && Quiescent(s) && t < |s.pcs|
    ensures s.pcs[t].Idle? || s.pcs[t].Asleep?
  {
    if !s.pcs[t].Idle? && !s.pcs[t].Asleep? {
      NoDeadlock(s, t);
    }
  }

  /** No lost wakeup, to the end: when nothing runs any more, nobody is inside an
      operation but sleepers, a sleeping producer proves the queue full, a sleeping
      consumer proves it empty, and on a disposed queue nobody sleeps. */
  lemma QuiescentMeansBlocked<T(!new)>(s: State<T>, steps: seq<Step<T>>, end: State<T>, side: Side)
    requires Init(s) && Run(s, steps, end) && Quiescent(end)
    ensures forall t :: 0 <= t < |end.pcs| ==> end.pcs[t].Idle? || end.pcs[t].Asleep?
    ensures Sleeper(end.pcs, side) ==> !end.chain.disposed && Blocked(end.chain, side)
  {
    InitInv(s);
    RunKeepsInv(s, steps, end);
    forall t | 0 <= t < |end.pcs| ensures end.pcs[t].Idle? || end.pcs[t].Asleep? {
      QuiescentThreads(end, t);
    }
    forall t | 0 <= t < |end.pcs|
      ensures !Active(end.chain.capacity, end.pcs[t], side) && !Pending(end.pcs[t], side)
    {}
    if Sleeper(end.pcs, side) {
      var i :| 0 <= i < |end.pcs| && SleepsOn(end.pcs[i], side);
      assert Dozing(end.pcs[i], side);
    }
  }
}
