/** No item of a push is lost or doubled by the linked queue: whatever was offered has
    been accepted, handed back with an error, or is still under way. */
module LinkedConservation {
  import opened Base
  import opened Bags
  import opened QueueOps
  import opened LinkedMachine
  import opened LinkedInvariant
  import LinkedTheorems

  /** The item of a push still under way. */
  function Carried<T>(p: Pc<T>): Option<T> {
    match p
    case Link(x) => Some(x)
    case Advance(x) => Some(x)
    case Add(x) => Some(x)
    case Lock(op) => Offer(op)
    case Test(op) => Offer(op)
    case TestCount(op) => Offer(op)
    case Pred(op) => Offer(op)
    case PredCount(op) => Offer(op)
    case GoSleep(op) => Offer(op)
    case Asleep(op) => Offer(op)
    case Relock(op) => Offer(op)
    case Decide(op) => Offer(op)
    case Fail(op, _) => Offer(op)
    case _ => None
  }

  function Flying<T>(p: Pc<T>): multiset<T> {
    Bag(Carried(p))
  }

  function InFlight<T>(pcs: seq<Pc<T>>): multiset<T> {
    Gather(pcs, Flying)
  }

  /** Items that enter the system, and items given back, by one step. */
  function Enters<T>(a: Step<T>): multiset<T> {
    if a.Begin? then Bag(Offer(a.op)) else multiset{}
  }

  function Returns<T>(s: State<T>, a: Step<T>): multiset<T> {
    if a.DoFail? && a.t < |s.pcs| then Flying(s.pcs[a.t]) else multiset{}
  }

  // ... and over a run.

  ghost function Offered<T>(steps: seq<Step<T>>): multiset<T> {
    if steps == [] then multiset{} else Enters(steps[0]) + Offered(steps[1..])
  }

  ghost function Returned<T>(s: State<T>, steps: seq<Step<T>>, end: State<T>): multiset<T>
    requires Run(s, steps, end)
    decreases steps
  {
    if steps == [] then multiset{} else Returns(s, steps[0]) + Returned(Apply(s, steps[0]), steps[1..], end)
  }

  // ------------------------------------------------------------ one step

  /** Thread `t` moves on, and keeps the item it has, if any. */
  ghost predicate Keeps<T>(s: State<T>, s': State<T>, t: nat) {
    && t < |s.pcs| && |s'.pcs| == |s.pcs| && s'.pcs == s.pcs[t := s'.pcs[t]]
    && s'.accepted == s.accepted && Carried(s'.pcs[t]) == Carried(s.pcs[t])
  }

  lemma QueueActionsKeep<T>(s: State<T>, a: Step<T>)
    requires Enabled(s, a) && (a.DoLink? || a.DoAdvance? || a.DoTake? || a.DoFree? || a.DoSub?)
    ensures Keeps(s, Apply(s, a), a.t)
  {}

  lemma DrainActionsKeep<T>(s: State<T>, a: Step<T>)
    requires Enabled(s, a) && (a.DoDrainLoad? || a.DoDrainTake? || a.DoDrainFree? || a.DoDrainSub?)
    ensures Keeps(s, Apply(s, a), a.t)
  {}

  lemma DecisionsKeep<T>(s: State<T>, a: Step<T>)
    requires Enabled(s, a) && (Decides(a) || a.DoPred?) && LocalOk(s.chain, s.pcs[a.t])
    ensures Keeps(s, Apply(s, a), a.t)
  {}

  lemma LocksKeep<T>(s: State<T>, a: Step<T>)
    requires Enabled(s, a) && LocalOk(s.chain, s.pcs[a.t])
    requires a.BeginDrain? || a.TakeLock? || a.DoSleep? || a.Awaken? || a.DoUnlock?
             || (a.BeginDispose? && !s.chain.disposed)
    ensures Keeps(s, Apply(s, a), a.t)
  {}

  lemma NotifiesKeep<T>(s: State<T>, a: Step<T>, i: nat)
    requires Enabled(s, a) && (a.DoCascade? || a.DoSignal?) && i < |s.pcs|
    ensures |Apply(s, a).pcs| == |s.pcs| && Carried(Apply(s, a).pcs[i]) == Carried(s.pcs[i])
    ensures Apply(s, a).accepted == s.accepted
  {}

  /** What enters is what leaves and what stays. */
  ghost predicate Balanced<T>(s: State<T>, a: Step<T>, s': State<T>) {
    multiset(s'.accepted) + Returns(s, a) + InFlight(s'.pcs) == multiset(s.accepted) + Enters(a) + InFlight(s.pcs)
  }

  lemma KeepsBalance<T>(s: State<T>, s': State<T>, t: nat)
    requires Keeps(s, s', t)
    ensures InFlight(s'.pcs) == InFlight(s.pcs)
  {
    GatherUpdate(s.pcs, t, s'.pcs[t], Flying);
    Cancel(InFlight(s'.pcs), Flying(s.pcs[t]), InFlight(s.pcs));
  }

  /** The item of thread `t` leaves flight, or a new one takes off. */
  lemma TakesOff<T>(pcs: seq<Pc<T>>, t: nat, p: Pc<T>)
    requires t < |pcs| && Carried(pcs[t]) == None
    ensures InFlight(pcs[t := p]) == InFlight(pcs) + Flying(p)
  {
    GatherUpdate(pcs, t, p, Flying);
    assert InFlight(pcs[t := p]) == InFlight(pcs[t := p]) + multiset{};
  }

  lemma Lands<T>(pcs: seq<Pc<T>>, t: nat, p: Pc<T>)
    requires t < |pcs| && Carried(p) == None
    ensures InFlight(pcs[t := p]) + Flying(pcs[t]) == InFlight(pcs)
  {
    GatherUpdate(pcs, t, p, Flying);
    assert InFlight(pcs) == InFlight(pcs) + multiset{};
  }

  lemma BeginBalances<T>(s: State<T>, a: Step<T>)
    requires Enabled(s, a) && a.Begin?
    ensures Balanced(s, a, Apply(s, a))
  {
    TakesOff(s.pcs, a.t, Lock(a.op));
  }

  lemma FailBalances<T>(s: State<T>, a: Step<T>)
    requires Enabled(s, a) && a.DoFail?
    ensures Balanced(s, a, Apply(s, a))
  {
    Lands(s.pcs, a.t, Idle);
  }

  lemma AddBalances<T>(s: State<T>, a: Step<T>)
    requires Enabled(s, a) && a.DoAdd?
    ensures Balanced(s, a, Apply(s, a))
  {
    Lands(s.pcs, a.t, Cascade(PushSide, s.chain.count));
    assert multiset(Apply(s, a).accepted) == multiset(s.accepted) + multiset{s.pcs[a.t].item};
  }

  lemma NotifyBalances<T>(s: State<T>, a: Step<T>)
    requires Enabled(s, a) && (a.DoCascade? || a.DoSignal?)
    ensures Balanced(s, a, Apply(s, a))
  {
    var s' := Apply(s, a);
    NotifiesKeep(s, a, a.t);
    forall i | 0 <= i < |s.pcs| ensures Flying(s'.pcs[i]) == Flying(s.pcs[i]) {
      NotifiesKeep(s, a, i);
    }
    GatherSame(s.pcs, s'.pcs, Flying);
  }

  lemma StepBalances<T>(s: State<T>, a: Step<T>)
    requires Structure(s) && Enabled(s, a)
    ensures Balanced(s, a, Apply(s, a))
  {
    HolderIsOwner(s, a.t);
    if a.Begin? {
      BeginBalances(s, a);
    } else if a.DoFail? {
      FailBalances(s, a);
    } else if a.DoAdd? {
      AddBalances(s, a);
    } else if a.DoCascade? || a.DoSignal? {
      NotifyBalances(s, a);
    } else if a.BeginDispose? && s.chain.disposed {
    } else {
      if a.DoLink? || a.DoAdvance? || a.DoTake? || a.DoFree? || a.DoSub? {
        QueueActionsKeep(s, a);
      } else if ChainAction(a) {
        DrainActionsKeep(s, a);
      } else if Decides(a) || a.DoPred? {
        DecisionsKeep(s, a);
      } else {
        LocksKeep(s, a);
      }
      KeepsBalance(s, Apply(s, a), a.t);
    }
  }

  // ------------------------------------------------------------ runs

  lemma Chain<T>(a0: multiset<T>, f0: multiset<T>, o1: multiset<T>, r1: multiset<T>, a1: multiset<T>, f1: multiset<T>,
                 o2: multiset<T>, r2: multiset<T>, a2: multiset<T>, f2: multiset<T>)
    requires a1 + r1 + f1 == a0 + o1 + f0 && a2 + r2 + f2 == a1 + o2 + f1
    ensures a2 + (r1 + r2) + f2 == a0 + (o1 + o2) + f0
  {
    assert a2 + (r1 + r2) + f2 == (a2 + r2 + f2) + r1;
    assert (a1 + o2 + f1) + r1 == (a1 + r1 + f1) + o2;
    assert (a0 + o1 + f0) + o2 == a0 + (o1 + o2) + f0;
  }

  lemma {:induction false} RunBalances<T>(s: State<T>, steps: seq<Step<T>>, end: State<T>)
    requires Structure(s) && Run(s, steps, end)
    ensures multiset(end.accepted) + Returned(s, steps, end) + InFlight(end.pcs)
            == multiset(s.accepted) + Offered(steps) + InFlight(s.pcs)
    decreases steps
  {
    if steps != [] {
      var a, s' := steps[0], Apply(s, steps[0]);
      StepBalances(s, a);
      StepKeepsStructure(s, a);
      RunBalances(s', steps[1..], end);
      Chain(multiset(s.accepted), InFlight(s.pcs), Enters(a), Returns(s, a), multiset(s'.accepted), InFlight(s'.pcs),
            Offered(steps[1..]), Returned(s', steps[1..], end), multiset(end.accepted), InFlight(end.pcs));
    }
  }

  /** In every run every offered item is accepted, handed back, or still under way, and
      only one of these; with no push under way, offered is accepted plus handed back. */
  lemma OfferedItemsConserved<T>(s: State<T>, steps: seq<Step<T>>, end: State<T>)
    requires Init(s) && Run(s, steps, end)
    ensures Offered(steps) == multiset(end.accepted) + Returned(s, steps, end) + InFlight(end.pcs)
    ensures (forall i :: 0 <= i < |end.pcs| ==> Carried(end.pcs[i]) == None) ==>
              Offered(steps) == multiset(end.accepted) + Returned(s, steps, end)
  {
    LinkedTheorems.InitInv(s);
    GatherEmpty(s.pcs, Flying);
    RunBalances(s, steps, end);
    assert multiset(s.accepted) + Offered(steps) + InFlight(s.pcs) == Offered(steps);
    if forall i :: 0 <= i < |end.pcs| ==> Carried(end.pcs[i]) == None {
      GatherEmpty(end.pcs, Flying);
    }
  }
}
