/** Where the linked queue promises less than one might think, and exactly when it
    can be relied upon. */
module LinkedLimits {
  import opened Base
  import opened QueueOps
  import opened LinkedMachine
  import opened LinkedInvariant
  import opened LinkedTheorems
  import opened LinkedProgress
  import QueueSpec

  // ------------------------------------------------------------ runs

  lemma {:induction false} RunConcat<T>(s: State<T>, before: seq<Step<T>>, mid: State<T>,
                                        after: seq<Step<T>>, end: State<T>)
    requires Run(s, before, mid) && Run(mid, after, end)
    ensures Run(s, before + after, end)
    decreases before
  {
    if before == [] {
      assert before + after == after;
    } else {
      RunConcat(Apply(s, before[0]), before[1..], mid, after, end);
      assert (before + after)[1..] == before[1..] + after;
    }
  }

  lemma OneStep<T>(s: State<T>, a: Step<T>)
    requires Enabled(s, a)
    ensures Run(s, [a], Apply(s, a))
  {
    assert [a][1..] == [];
    assert Run(Apply(s, a), [], Apply(s, a));
  }

  lemma RunExtends<T>(s: State<T>, before: seq<Step<T>>, mid: State<T>, a: Step<T>)
    requires Run(s, before, mid) && Enabled(mid, a)
    ensures Run(s, before + [a], Apply(mid, a))
  {
    OneStep(mid, a);
    RunConcat(s, before, mid, [a], Apply(mid, a));
  }

  lemma {:induction false} RunKeepsStructure<T>(s: State<T>, steps: seq<Step<T>>, end: State<T>)
    requires Structure(s) && Run(s, steps, end)
    ensures Structure(end)
    decreases steps
  {
    if steps != [] {
      StepKeepsStructure(s, steps[0]);
      RunKeepsStructure(Apply(s, steps[0]), steps[1..], end);
    }
  }

  lemma {:induction false} RunKeepsOwners<T>(s: State<T>, steps: seq<Step<T>>, end: State<T>)
    requires OwnersExist(s) && Run(s, steps, end)
    ensures OwnersExist(end)
    decreases steps
  {
    if steps != [] {
      StepKeepsOwners(s, steps[0]);
      RunKeepsOwners(Apply(s, steps[0]), steps[1..], end);
    }
  }

  /** Thread `t` begins no further operation. */
  ghost predicate SameCall<T>(steps: seq<Step<T>>, t: nat) {
    forall k :: 0 <= k < |steps| ==> !(steps[k].Begin? && steps[k].t == t)
  }

  ghost predicate NoCalls<T>(steps: seq<Step<T>>) {
    forall k :: 0 <= k < |steps| ==> !steps[k].Begin?
  }

  lemma NoCallsConcat<T>(a: seq<Step<T>>, b: seq<Step<T>>)
    requires NoCalls(a) && NoCalls(b)
    ensures NoCalls(a + b)
  {}

  lemma SameCallConcat<T>(a: seq<Step<T>>, b: seq<Step<T>>, t: nat)
    requires SameCall(a, t) && SameCall(b, t)
    ensures SameCall(a + b, t)
  {}

  /** The steps of an operation up to the mutex and its first test. */
  ghost predicate ArrivalSteps<T>(steps: seq<Step<T>>, t: nat, op: Op<T>) {
    forall k :: 0 <= k < |steps| ==>
      steps[k].t == t && (steps[k] == Begin(t, op) || steps[k].TakeLock? || steps[k].DoTest?)
  }

  /** A try_push of an idle thread gets past its test of `disposed`. */
  lemma PusherArrives<T>(s: State<T>, i: nat, x: T) returns (steps: seq<Step<T>>, end: State<T>)
    requires i < |s.pcs| && s.pcs[i] == Idle && s.pushLock == None && !s.chain.disposed
    ensures Run(s, steps, end) && ArrivalSteps(steps, i, PushOp(Try, x))
    ensures forall t :: t != i ==> SameCall(steps, t)
    ensures end == s.(pushLock := Some(i), pcs := s.pcs[i := TestCount(PushOp(Try, x))])
  {
    var s1 := Apply(s, Begin(i, PushOp(Try, x)));
    var s2 := Apply(s1, TakeLock(i));
    end := Apply(s2, DoTest(i));
    OneStep(s, Begin(i, PushOp(Try, x)));
    RunExtends(s, [Begin(i, PushOp(Try, x))], s1, TakeLock(i));
    steps := [Begin(i, PushOp(Try, x))] + [TakeLock(i)];
    RunExtends(s, steps, s2, DoTest(i));
    steps := steps + [DoTest(i)];
    assert s.pcs[i := TestCount(PushOp(Try, x))] == end.pcs;
  }

  /** A try_pop of an idle thread gets its mutex. */
  lemma TryPopperArrives<T>(s: State<T>, t: nat) returns (steps: seq<Step<T>>, end: State<T>)
    requires t < |s.pcs| && s.pcs[t] == Idle && s.popLock == None
    ensures Run(s, steps, end)
    ensures end == s.(popLock := Some(t), pcs := s.pcs[t := TestCount(PopOp(Try))])
  {
    var s1 := Apply(s, Begin(t, PopOp(Try)));
    end := Apply(s1, TakeLock(t));
    OneStep(s, Begin(t, PopOp(Try)));
    RunExtends(s, [Begin(t, PopOp(Try))], s1, TakeLock(t));
    steps := [Begin(t, PopOp(Try))] + [TakeLock(t)];
    assert s.pcs[t := TestCount(PopOp(Try))] == end.pcs;
  }

  /** A blocking pop of an idle thread finds the queue disposed. */
  lemma PopperArrives<T>(s: State<T>, t: nat) returns (steps: seq<Step<T>>, end: State<T>)
    requires t < |s.pcs| && s.pcs[t] == Idle && s.popLock == None && s.chain.disposed
    ensures Run(s, steps, end) && ArrivalSteps(steps, t, PopOp(Block))
    ensures end == s.(popLock := Some(t), pcs := s.pcs[t := Decide(PopOp(Block))])
  {
    var s1 := Apply(s, Begin(t, PopOp(Block)));
    var s2 := Apply(s1, TakeLock(t));
    end := Apply(s2, DoTest(t));
    OneStep(s, Begin(t, PopOp(Block)));
    RunExtends(s, [Begin(t, PopOp(Block))], s1, TakeLock(t));
    steps := [Begin(t, PopOp(Block))] + [TakeLock(t)];
    RunExtends(s, steps, s2, DoTest(t));
    steps := steps + [DoTest(t)];
    assert s.pcs[t := Decide(PopOp(Block))] == end.pcs;
  }

  // ------------------------------------------- a push that is under way

  /** The item of a committed push, and the actions left before it is counted. */
  function ItemOf<T>(p: Pc<T>): T
    requires Committed(p)
  {
    if p.TestCount? then p.op.item else p.item
  }

  function Phase<T>(p: Pc<T>): nat {
    if p.TestCount? then 3 else if p.Link? then 2 else if p.Advance? then 1 else 0
  }

  function PushAction<T>(i: nat, p: Pc<T>): Step<T> {
    match p
    case TestCount(_) => DoTestCount(i)
    case Link(_) => DoLink(i)
    case Advance(_) => DoAdvance(i)
    case _ => DoAdd(i)
  }

  /** Thread `i` is committed to a push into a queue with room. */
  ghost predicate Racing<T>(s: State<T>, i: nat) {
    Structure(s) && i < |s.pcs| && Committed(s.pcs[i]) && s.chain.count < s.chain.capacity
  }

  lemma PusherMoves<T>(s: State<T>, i: nat)
    requires i < |s.pcs| && Committed(s.pcs[i]) && s.chain.count < s.chain.capacity
    ensures Enabled(s, PushAction(i, s.pcs[i]))
    ensures var p, s' := s.pcs[i], Apply(s, PushAction(i, s.pcs[i]));
      && |s'.pcs| == |s.pcs| && s' == s.(chain := s'.chain, pcs := s.pcs[i := s'.pcs[i]], accepted := s'.accepted)
      && s'.chain.disposed == s.chain.disposed && s'.chain.capacity == s.chain.capacity
      && if p.Add? then s'.chain.count == s.chain.count + 1 && s'.accepted == s.accepted + [p.item]
                        && s'.pcs[i] == Cascade(PushSide, s.chain.count)
         else Committed(s'.pcs[i]) && ItemOf(s'.pcs[i]) == ItemOf(p) && Phase(s'.pcs[i]) < Phase(p)
              && s'.chain.count == s.chain.count && s'.accepted == s.accepted
  {}

  /** The steps of a committed push, up to its `fetch_add`. */
  ghost predicate PushSteps<T>(steps: seq<Step<T>>, i: nat) {
    forall k :: 0 <= k < |steps| ==>
      steps[k].t == i && (steps[k].DoTestCount? || steps[k].DoLink? || steps[k].DoAdvance? || steps[k].DoAdd?)
  }

  /** Where a committed push leads: the item is accepted, nobody else has moved. */
  ghost predicate Pushed<T>(s: State<T>, i: nat, end: State<T>)
    requires i < |s.pcs| && Committed(s.pcs[i])
  {
    && end == s.(chain := end.chain, pcs := s.pcs[i := Cascade(PushSide, s.chain.count)],
                 accepted := s.accepted + [ItemOf(s.pcs[i])])
    && end.chain.count == s.chain.count + 1 && end.chain.disposed == s.chain.disposed
  }

  lemma PushedLater<T>(s: State<T>, i: nat, end: State<T>)
    requires i < |s.pcs| && Committed(s.pcs[i]) && !s.pcs[i].Add? && s.chain.count < s.chain.capacity
    requires Enabled(s, PushAction(i, s.pcs[i])) && |Apply(s, PushAction(i, s.pcs[i])).pcs| == |s.pcs|
    requires Committed(Apply(s, PushAction(i, s.pcs[i])).pcs[i]) && Pushed(Apply(s, PushAction(i, s.pcs[i])), i, end)
    ensures Pushed(s, i, end)
  {
    PusherMoves(s, i);
    var s' := Apply(s, PushAction(i, s.pcs[i]));
    assert s'.pcs[i := Cascade(PushSide, s.chain.count)] == s.pcs[i := Cascade(PushSide, s.chain.count)];
  }

  lemma PushedNow<T>(s: State<T>, i: nat)
    requires Racing(s, i) && s.pcs[i].Add?
    ensures Enabled(s, DoAdd(i)) && Pushed(s, i, Apply(s, DoAdd(i)))
    ensures Run(s, [DoAdd(i)], Apply(s, DoAdd(i))) && Structure(Apply(s, DoAdd(i)))
  {
    PusherMoves(s, i);
    StepKeepsStructure(s, DoAdd(i));
    OneStep(s, DoAdd(i));
  }

  lemma StepsPrepend<T>(s: State<T>, a: Step<T>, rest: seq<Step<T>>, end: State<T>, i: nat)
    returns (steps: seq<Step<T>>)
    requires Enabled(s, a) && Run(Apply(s, a), rest, end) && NoCalls(rest) && PushSteps(rest, i)
    requires !a.Begin? && PushSteps([a], i)
    ensures Run(s, steps, end) && NoCalls(steps) && PushSteps(steps, i)
  {
    OneStep(s, a);
    RunConcat(s, [a], Apply(s, a), rest, end);
    NoCallsConcat([a], rest);
    steps := [a] + rest;
  }

  /** The push goes through, whatever has happened to the queue since its last test. */
  lemma {:induction false} PushGoesThrough<T>(s: State<T>, i: nat) returns (steps: seq<Step<T>>, end: State<T>)
    requires Racing(s, i)
    ensures Run(s, steps, end) && NoCalls(steps) && PushSteps(steps, i) && Structure(end) && Pushed(s, i, end)
    decreases Phase(s.pcs[i])
  {
    if s.pcs[i].Add? {
      PushedNow(s, i);
      steps, end := [DoAdd(i)], Apply(s, DoAdd(i));
    } else {
      PusherMoves(s, i);
      var a := PushAction(i, s.pcs[i]);
      StepKeepsStructure(s, a);
      var rest;
      rest, end := PushGoesThrough(Apply(s, a), i);
      PushedLater(s, i, end);
      steps := StepsPrepend(s, a, rest, end, i);
    }
  }

  /** Watched threads, neither asleep nor at the mutex of `side`, stay where they are
      until that mutex is free, or held by a push that is committed. */
  ghost predicate Aside<T>(s: State<T>, side: Side, watched: set<nat>) {
    forall w :: w in watched ==> w < |s.pcs| && !Holds(s.pcs[w], side) && !s.pcs[w].Asleep?
  }

  ghost predicate Opened<T>(s: State<T>, side: Side) {
    || LockOf(s, side) == None
    || (side == PushSide && s.pushLock.value < |s.pcs| && Committed(s.pcs[s.pushLock.value]))
  }

  lemma {:induction false} SideOpens<T>(s: State<T>, side: Side, watched: set<nat>)
    returns (steps: seq<Step<T>>, end: State<T>)
    requires Structure(s) && OwnersExist(s) && Aside(s, side, watched)
    requires side == PopSide ==> s.chain.count == 0
    ensures Run(s, steps, end) && NoCalls(steps) && Opened(end, side) && end.chain == s.chain && |end.pcs| == |s.pcs|
    ensures forall w :: w in watched ==> w < |end.pcs| && end.pcs[w] == s.pcs[w]
    decreases if LockOf(s, side).Some? then 1 + Rank(s.chain, PcAt(s, LockOf(s, side))) else 0
  {
    if Opened(s, side) {
      steps, end := [], s;
    } else {
      var h := LockOf(s, side).value;
      var a := HolderAdvances(s, h, side);
      var s' := Apply(s, a);
      StepKeepsStructure(s, a);
      StepKeepsOwners(s, a);
      forall w | w in watched ensures w < |s'.pcs| && s'.pcs[w] == s.pcs[w] {
        OthersStay(s, a, w);
      }
      if Holds(s'.pcs[h], side) {
        HolderIsOwner(s', h);
      }
      var rest;
      rest, end := SideOpens(s', side, watched);
      OneStep(s, a);
      RunConcat(s, [a], s', rest, end);
      NoCallsConcat([a], rest);
      steps := [a] + rest;
    }
  }

  // --------------------------------------------- when try_pop can be trusted

  /** Whatever happens from here on: when thread `t` is about to report a queue as
      unavailable from try_pop, the queue is empty. */
  ghost predicate AnswersAreRight<T(!new)>(s: State<T>, t: nat) {
    forall steps, end ::
      (Run(s, steps, end) && t < |end.pcs| && end.pcs[t] == Fail(PopOp(Try), ResourceUnavailable)) ==>
        end.chain.count == 0
  }

  /** The same for the one call that is under way: `t` begins nothing else. */
  ghost predicate ThisAnswerIsRight<T(!new)>(s: State<T>, t: nat) {
    forall steps, end ::
      (Run(s, steps, end) && SameCall(steps, t)
       && t < |end.pcs| && end.pcs[t] == Fail(PopOp(Try), ResourceUnavailable)) ==>
        end.chain.count == 0
  }

  lemma WrongAnswerAhead<T(!new)>(s: State<T>, before: seq<Step<T>>, mid: State<T>, t: nat)
    requires Run(s, before, mid) && SameCall(before, t) && ThisAnswerIsRight(s, t)
    ensures ThisAnswerIsRight(mid, t)
  {
    forall steps, end
      | Run(mid, steps, end) && SameCall(steps, t)
        && t < |end.pcs| && end.pcs[t] == Fail(PopOp(Try), ResourceUnavailable)
      ensures end.chain.count == 0
    {
      RunConcat(s, before, mid, steps, end);
      SameCallConcat(before, steps, t);
    }
  }

  /** Distinct threads: `t` runs try_pop, `i` and `j` are free to push and to dispose. */
  ghost predicate Bystanders<T>(s: State<T>, t: nat, i: nat, j: nat) {
    && t < |s.pcs| && i < |s.pcs| && j < |s.pcs| && t != i && t != j && i != j
    && s.pcs[i] == Idle && s.pcs[j] == Idle
  }

  lemma RacingPushSpoilsTheAnswer<T>(s: State<T>, t: nat, i: nat) returns (steps: seq<Step<T>>, end: State<T>)
    requires Racing(s, i) && s.chain.disposed && t < |s.pcs| && s.pcs[t] == ReadKind(PopOp(Try))
    ensures Run(s, steps, end) && NoCalls(steps)
    ensures |end.pcs| == |s.pcs| && end.pcs[t] == Fail(PopOp(Try), ResourceUnavailable)
    ensures end.chain.count == s.chain.count + 1 && end.delivered == s.delivered
    ensures end.accepted == s.accepted + [ItemOf(s.pcs[i])]
  {
    var mid;
    steps, mid := PushGoesThrough(s, i);
    RunExtends(s, steps, mid, DoReadKind(t));
    NoCallsConcat(steps, [DoReadKind(t)]);
    steps, end := steps + [DoReadKind(t)], Apply(mid, DoReadKind(t));
  }

  lemma SomePushCommits<T>(s: State<T>, t: nat, i: nat, j: nat, x: T)
    returns (steps: seq<Step<T>>, end: State<T>, h: nat)
    requires Structure(s) && OwnersExist(s) && Bystanders(s, t, i, j) && s.pcs[t] == ReadKind(PopOp(Try))
    requires !s.chain.disposed
    ensures Run(s, steps, end) && SameCall(steps, t) && |end.pcs| == |s.pcs| && end.chain == s.chain
    ensures h < |end.pcs| && Committed(end.pcs[h]) && end.pcs[j] == Idle && end.pcs[t] == s.pcs[t]
  {
    steps, end := SideOpens(s, PushSide, {t, i, j});
    assert end.pcs[t] == s.pcs[t] && end.pcs[i] == Idle && end.pcs[j] == Idle;
    if end.pushLock == None {
      var more, arrived := PusherArrives(end, i, x);
      RunConcat(s, steps, end, more, arrived);
      SameCallConcat(steps, more, t);
      steps, end, h := steps + more, arrived, i;
    } else {
      h := end.pushLock.value;
    }
  }

  /** As long as the queue is not disposed, a push and a dispose can still get between
      the two reads of try_pop, whoever holds the push mutex at the moment. */
  lemma SomePushRaces<T>(s: State<T>, t: nat, i: nat, j: nat, x: T)
    returns (steps: seq<Step<T>>, end: State<T>, h: nat)
    requires Structure(s) && OwnersExist(s) && Bystanders(s, t, i, j) && s.pcs[t] == ReadKind(PopOp(Try))
    requires !s.chain.disposed && s.chain.count == 0
    ensures Run(s, steps, end) && SameCall(steps, t) && Racing(end, h) && end.chain.disposed
    ensures t < |end.pcs| && end.pcs[t] == s.pcs[t]
  {
    var mid;
    steps, mid, h := SomePushCommits(s, t, i, j, x);
    RunKeepsStructure(s, steps, mid);
    steps, end := DisposeIntoRace(s, steps, mid, t, h, j);
  }

  lemma DisposeIntoRace<T>(s: State<T>, before: seq<Step<T>>, mid: State<T>, t: nat, h: nat, j: nat)
    returns (steps: seq<Step<T>>, end: State<T>)
    requires Run(s, before, mid) && SameCall(before, t)
    requires Structure(mid) && !mid.chain.disposed && mid.chain.count == 0
    requires t < |mid.pcs| && h < |mid.pcs| && Committed(mid.pcs[h])
    requires j < |mid.pcs| && mid.pcs[j] == Idle && t != j
    ensures Run(s, steps, end) && SameCall(steps, t) && Racing(end, h) && end.chain.disposed
    ensures t < |end.pcs| && end.pcs[t] == mid.pcs[t]
  {
    DisposeLetsRace(mid, t, h, j);
    end := Apply(mid, BeginDispose(j));
    RunExtends(s, before, mid, BeginDispose(j));
    SameCallConcat(before, [BeginDispose(j)], t);
    steps := before + [BeginDispose(j)];
  }

  lemma DisposeLetsRace<T>(s: State<T>, t: nat, h: nat, j: nat)
    requires Structure(s) && !s.chain.disposed && s.chain.count == 0
    requires t < |s.pcs| && h < |s.pcs| && Committed(s.pcs[h]) && j < |s.pcs| && s.pcs[j] == Idle && t != j
    ensures Racing(Apply(s, BeginDispose(j)), h) && Apply(s, BeginDispose(j)).chain.disposed
    ensures Apply(s, BeginDispose(j)).pcs[t] == s.pcs[t]
  {
    StepKeepsStructure(s, BeginDispose(j));
    assert Apply(s, BeginDispose(j)).pcs == s.pcs[j := SigLock(PopSide, Dispose)];
  }

  lemma ClosedStaysEmpty<T>(s: State<T>, steps: seq<Step<T>>, end: State<T>)
    requires Structure(s) && s.chain.disposed && s.chain.count == 0 && !SomeCommitted(s) && Run(s, steps, end)
    ensures Structure(end) && end.chain.count == 0 && Items(end) == []
    ensures end.delivered == end.accepted == s.accepted
  {
    ClosedRunAcceptsNothing(s, steps, end);
    RunGrowsDelivered(s, steps, end);
    RunKeepsStructure(s, steps, end);
    assert |Items(s)| == 0 && |Items(end)| == end.chain.count;
    assert |end.accepted| == |end.delivered| + |Items(end)|;
    assert |s.accepted| == |s.delivered|;
  }

  lemma {:induction false} ClosedRunAcceptsNothing<T>(s: State<T>, steps: seq<Step<T>>, end: State<T>)
    requires Structure(s) && Run(s, steps, end) && s.chain.disposed && !SomeCommitted(s)
    ensures end.accepted == s.accepted
    decreases steps
  {
    if steps != [] {
      StepRefines(s, steps[0]);
      CommittedMoves(s, steps[0]);
      ClosedRunAcceptsNothing(Apply(s, steps[0]), steps[1..], end);
    }
  }

  lemma RacingPushIsNotTrusted<T(!new)>(s: State<T>, t: nat, h: nat)
    requires Racing(s, h) && s.chain.disposed && t < |s.pcs| && s.pcs[t] == ReadKind(PopOp(Try))
    ensures !ThisAnswerIsRight(s, t)
  {
    var steps, end := RacingPushSpoilsTheAnswer(s, t, h);
  }

  lemma AllAnswersMeansThisOne<T(!new)>(s: State<T>, t: nat)
    requires AnswersAreRight(s, t)
    ensures ThisAnswerIsRight(s, t)
  {}

  lemma ClosedQueueIsTrusted<T(!new)>(s: State<T>, t: nat)
    requires Structure(s) && s.chain.disposed && s.chain.count == 0 && !SomeCommitted(s)
    ensures AnswersAreRight(s, t)
  {
    forall steps, end | Run(s, steps, end) ensures end.chain.count == 0 {
      ClosedStaysEmpty(s, steps, end);
    }
  }

  /** The answer try_pop gives after it has seen the queue empty is right under every
      schedule if and only if, when it looks, the queue is disposed and no push is past
      its own test of `disposed`; and so are those of all later calls.  (On
      a queue not disposed, two more threads suffice to make this very answer wrong.) */
  lemma TryPopAnswersAreRight<T(!new)>(s: State<T>, t: nat, i: nat, j: nat, x: T)
    requires Structure(s) && OwnersExist(s) && s.chain.count == 0 && t < |s.pcs| && s.pcs[t] == TestCount(PopOp(Try))
    requires s.chain.disposed || Bystanders(s, t, i, j)
    ensures ThisAnswerIsRight(Apply(s, DoTestCount(t)), t) <==> s.chain.disposed && !SomeCommitted(s)
    ensures AnswersAreRight(Apply(s, DoTestCount(t)), t) <==> s.chain.disposed && !SomeCommitted(s)
  {
    var empty := Apply(s, DoTestCount(t));
    StepKeepsStructure(s, DoTestCount(t));
    StepKeepsOwners(s, DoTestCount(t));
    assert empty.pcs == s.pcs[t := ReadKind(PopOp(Try))] && empty.chain == s.chain;
    if AnswersAreRight(empty, t) {
      AllAnswersMeansThisOne(empty, t);
    }
    if !s.chain.disposed {
      OpenLookIsNotTrusted(empty, t, i, j, x);
    } else if SomeCommitted(s) {
      var h :| 0 <= h < |s.pcs| && Committed(s.pcs[h]);
      RacingPushIsNotTrusted(empty, t, h);
    } else {
      CommittedMoves(s, DoTestCount(t));
      ClosedQueueIsTrusted(empty, t);
      AllAnswersMeansThisOne(empty, t);
    }
  }

  lemma OpenLookIsNotTrusted<T(!new)>(s: State<T>, t: nat, i: nat, j: nat, x: T)
    requires Structure(s) && OwnersExist(s) && Bystanders(s, t, i, j) && s.pcs[t] == ReadKind(PopOp(Try))
    requires !s.chain.disposed && s.chain.count == 0
    ensures !ThisAnswerIsRight(s, t)
  {
    var steps, mid, h := SomePushRaces(s, t, i, j, x);
    RacingPushIsNotTrusted(mid, t, h);
    if ThisAnswerIsRight(s, t) {
      WrongAnswerAhead(s, steps, mid, t);
    }
  }

  // ------------------------------------------------ ... as its caller sees it

  predicate Told<T(==)>(p: Pc<T>) {
    p == ReadKind(PopOp(Try)) || p == Fail(PopOp(Try), ResourceUnavailable)
  }

  /** The queue is closed, and if thread `t` has been told that it is empty, it is. */
  ghost predicate Trusting<T>(s: State<T>, t: nat) {
    && Structure(s) && s.chain.disposed && !SomeCommitted(s) && t < |s.pcs|
    && s.pcs[t] != Test(PopOp(Try)) && (Told(s.pcs[t]) ==> s.chain.count == 0)
  }

  /** The acting thread does not come to the one test try_pop does not make. */
  ghost predicate SkipsTest<T>(s: State<T>, a: Step<T>)
    requires Enabled(s, a)
  {
    |Apply(s, a).pcs| == |s.pcs| && (Apply(s, a).pcs[a.t] == Test(PopOp(Try)) ==> s.pcs[a.t] == Test(PopOp(Try)))
  }

  lemma ChainActionsSkipTest<T>(s: State<T>, a: Step<T>)
    requires Enabled(s, a) && (ChainAction(a) || Decides(a) || a.DoPred?)
    ensures SkipsTest(s, a)
  {}

  lemma OtherActionsSkipTest<T>(s: State<T>, a: Step<T>)
    requires Enabled(s, a) && LocalOk(s.chain, s.pcs[a.t]) && !ChainAction(a) && !Decides(a) && !a.DoPred?
    ensures SkipsTest(s, a)
  {}

  lemma TryPopSkipsTest<T>(s: State<T>, a: Step<T>)
    requires Enabled(s, a) && LocalOk(s.chain, s.pcs[a.t])
    ensures SkipsTest(s, a)
  {
    if ChainAction(a) || Decides(a) || a.DoPred? {
      ChainActionsSkipTest(s, a);
    } else {
      OtherActionsSkipTest(s, a);
    }
  }

  lemma ToldOnlyWhenEmpty<T>(s: State<T>, a: Step<T>)
    requires Structure(s) && Enabled(s, a) && s.pcs[a.t] != Test(PopOp(Try)) && !Told(s.pcs[a.t])
    requires |Apply(s, a).pcs| == |s.pcs| && Told(Apply(s, a).pcs[a.t])
    ensures s.chain.count == 0
  {
    OnlyDecisionsFail(s, a);
    HolderIsOwner(s, a.t);
  }

  lemma ClosedCountFalls<T>(s: State<T>, a: Step<T>)
    requires Structure(s) && Enabled(s, a) && s.chain.disposed && !SomeCommitted(s)
    ensures Structure(Apply(s, a)) && Apply(s, a).chain.disposed && Apply(s, a).chain.count <= s.chain.count
  {
    StepRefines(s, a);
    assert |Items(s)| == s.chain.count && |Items(Apply(s, a))| == Apply(s, a).chain.count;
  }

  lemma StepKeepsTrust<T>(s: State<T>, a: Step<T>, t: nat)
    requires Trusting(s, t) && Enabled(s, a)
    ensures Trusting(Apply(s, a), t)
  {
    CommittedMoves(s, a);
    ClosedCountFalls(s, a);
    LocksMove(s, a);
    if a.t != t {
      OthersStay(s, a, t);
    } else {
      HolderIsOwner(s, t);
      TryPopSkipsTest(s, a);
      if Told(Apply(s, a).pcs[t]) && !Told(s.pcs[t]) {
        ToldOnlyWhenEmpty(s, a);
      }
    }
  }

  lemma {:induction false} RunKeepsTrust<T>(s: State<T>, steps: seq<Step<T>>, end: State<T>, t: nat)
    requires Trusting(s, t) && Run(s, steps, end)
    ensures Trusting(end, t)
    decreases steps
  {
    if steps != [] {
      StepKeepsTrust(s, steps[0], t);
      RunKeepsTrust(Apply(s, steps[0]), steps[1..], end, t);
    }
  }

  lemma TrustedQueueAnswersRight<T(!new)>(s: State<T>, t: nat)
    requires Trusting(s, t)
    ensures AnswersAreRight(s, t)
  {
    forall steps, end | Run(s, steps, end) && t < |end.pcs| && end.pcs[t] == Fail(PopOp(Try), ResourceUnavailable)
      ensures end.chain.count == 0
    {
      RunKeepsTrust(s, steps, end, t);
    }
  }

  /** For the caller: a try_pop on an empty queue can be trusted under every schedule if
      and only if, when it is called, the queue is closed. */
  lemma TryPopCanBeTrusted<T(!new)>(s: State<T>, t: nat, i: nat, j: nat, x: T)
    requires Structure(s) && OwnersExist(s) && s.chain.count == 0 && t < |s.pcs| && s.pcs[t] == Idle
    requires s.chain.disposed || Bystanders(s, t, i, j)
    ensures ThisAnswerIsRight(Apply(s, Begin(t, PopOp(Try))), t) <==> Abstract(s).closed
    ensures AnswersAreRight(Apply(s, Begin(t, PopOp(Try))), t) <==> Abstract(s).closed
  {
    var s1 := Apply(s, Begin(t, PopOp(Try)));
    StepKeepsStructure(s, Begin(t, PopOp(Try)));
    StepKeepsOwners(s, Begin(t, PopOp(Try)));
    if AnswersAreRight(s1, t) {
      AllAnswersMeansThisOne(s1, t);
    }
    if Abstract(s).closed {
      CommittedMoves(s, Begin(t, PopOp(Try)));
      TrustedQueueAnswersRight(s1, t);
      AllAnswersMeansThisOne(s1, t);
    } else {
      var h := i;
      if s.chain.disposed {
        h :| 0 <= h < |s.pcs| && Committed(s.pcs[h]);
      }
      OpenQueueIsNotTrusted(s1, t, h, i, j, x);
    }
  }

  lemma TryPopTakesItsMutex<T>(s: State<T>, t: nat)
    requires Structure(s) && OwnersExist(s)
    requires t < |s.pcs| && s.pcs[t] == Lock(PopOp(Try)) && s.popLock == None
    ensures Enabled(s, TakeLock(t)) && Structure(Apply(s, TakeLock(t))) && OwnersExist(Apply(s, TakeLock(t)))
    ensures Apply(s, TakeLock(t)) == s.(popLock := Some(t), pcs := s.pcs[t := TestCount(PopOp(Try))])
  {
    StepKeepsStructure(s, TakeLock(t));
    StepKeepsOwners(s, TakeLock(t));
  }

  /** While the queue is empty, try_pop can get its mutex without anything else changing. */
  lemma TryPopGetsItsMutex<T>(s: State<T>, t: nat, watched: set<nat>) returns (steps: seq<Step<T>>, end: State<T>)
    requires Structure(s) && OwnersExist(s) && s.chain.count == 0 && t in watched && Aside(s, PopSide, watched)
    requires s.pcs[t] == Lock(PopOp(Try))
    ensures Run(s, steps, end) && NoCalls(steps) && end.chain == s.chain && |end.pcs| == |s.pcs|
    ensures end.pcs[t] == TestCount(PopOp(Try))
    ensures forall w :: w in watched && w != t ==> w < |end.pcs| && end.pcs[w] == s.pcs[w]
    ensures Structure(end) && OwnersExist(end)
  {
    var mid;
    steps, mid := SideOpens(s, PopSide, watched);
    assert mid.pcs[t] == s.pcs[t];
    RunKeepsStructure(s, steps, mid);
    RunKeepsOwners(s, steps, mid);
    TryPopTakesItsMutex(mid, t);
    end := Apply(mid, TakeLock(t));
    RunExtends(s, steps, mid, TakeLock(t));
    NoCallsConcat(steps, [TakeLock(t)]);
    steps := steps + [TakeLock(t)];
  }

  lemma OpenQueueIsNotTrusted<T(!new)>(s: State<T>, t: nat, h: nat, i: nat, j: nat, x: T)
    requires Structure(s) && OwnersExist(s) && s.chain.count == 0 && t < |s.pcs| && s.pcs[t] == Lock(PopOp(Try))
    requires if s.chain.disposed then h < |s.pcs| && Committed(s.pcs[h]) else Bystanders(s, t, i, j)
    ensures !ThisAnswerIsRight(s, t)
  {
    var steps, locked;
    if s.chain.disposed {
      steps, locked := TryPopGetsItsMutex(s, t, {t, h});
    } else {
      steps, locked := TryPopGetsItsMutex(s, t, {t, i, j});
    }
    LockedQueueIsNotTrusted(locked, t, h, i, j, x);
    if ThisAnswerIsRight(s, t) {
      WrongAnswerAhead(s, steps, locked, t);
    }
  }

  lemma LockedQueueIsNotTrusted<T(!new)>(s: State<T>, t: nat, h: nat, i: nat, j: nat, x: T)
    requires Structure(s) && OwnersExist(s) && s.chain.count == 0 && t < |s.pcs| && s.pcs[t] == TestCount(PopOp(Try))
    requires if s.chain.disposed then h < |s.pcs| && Committed(s.pcs[h]) else Bystanders(s, t, i, j)
    ensures !ThisAnswerIsRight(s, t)
  {
    TryPopAnswersAreRight(s, t, i, j, x);
    assert s.chain.disposed ==> SomeCommitted(s);
    if ThisAnswerIsRight(s, t) {
      RightBeforeTheLook(s, t);
    }
  }

  lemma RightBeforeTheLook<T(!new)>(s: State<T>, t: nat)
    requires t < |s.pcs| && s.pcs[t] == TestCount(PopOp(Try)) && ThisAnswerIsRight(s, t)
    ensures ThisAnswerIsRight(Apply(s, DoTestCount(t)), t)
  {
    OneStep(s, DoTestCount(t));
    WrongAnswerAhead(s, [DoTestCount(t)], Apply(s, DoTestCount(t)), t);
  }

  /** In particular after a dispose has returned: a try_pop called then, whatever the
      queue holds, reports it as unavailable only when every accepted item has been
      delivered, and that is final. */
  lemma TryPopAfterDisposeIsFinal<T>(s: State<T>, t: nat, steps: seq<Step<T>>, end: State<T>,
                                     later: seq<Step<T>>, last: State<T>)
    requires Inv(s) && DisposeDone(s) && t < |s.pcs| && s.pcs[t] == Idle && Run(s, steps, end)
    requires t < |end.pcs| && end.pcs[t] == Fail(PopOp(Try), ResourceUnavailable) && Run(end, later, last)
    ensures Structure(last) && Items(last) == [] && last.delivered == last.accepted == s.accepted
  {
    DisposeStrandsNobody(s, PopSide);
    assert Trusting(s, t);
    RunKeepsTrust(s, steps, end, t);
    RunKeepsStructure(s, steps, end);
    ClosedRunAcceptsNothing(s, steps, end);
    ClosedStaysEmpty(end, later, last);
  }

  lemma TryPopperSeesEmpty<T>(s: State<T>, t: nat, i: nat, j: nat, x: T)
    returns (steps: seq<Step<T>>, end: State<T>)
    requires Init(s) && Bystanders(s, t, i, j)
    ensures Run(s, steps, end) && |end.pcs| == |s.pcs| && end.pcs[t] == ReadKind(PopOp(Try))
    ensures end.pcs[i] == TestCount(PushOp(Try, x)) && end.pcs[j] == Idle
    ensures end.chain == s.chain && end.accepted == [] && end.delivered == []
  {
    var s1, pushing;
    steps, s1 := TryPopperArrives(s, t);
    var s2 := Apply(s1, DoTestCount(t));
    RunExtends(s, steps, s1, DoTestCount(t));
    steps := steps + [DoTestCount(t)];
    pushing, end := PusherArrives(s2, i, x);
    RunConcat(s, steps, s2, pushing, end);
    steps := steps + pushing;
  }

  /** try_pop reads `count` and `disposed` at different instants, so it can report a
      disposed queue as unavailable although an accepted item is in it and nothing was
      ever delivered: in every program with three threads. */
  lemma TryPopMayRefuseANonEmptyQueue<T>(s: State<T>, t: nat, i: nat, j: nat, x: T)
    returns (steps: seq<Step<T>>, end: State<T>)
    requires Init(s) && Bystanders(s, t, i, j)
    ensures Run(s, steps, end) && |end.pcs| == |s.pcs| && end.pcs[t] == Fail(PopOp(Try), ResourceUnavailable)
    ensures end.accepted == [x] && end.delivered == [] && end.chain.count == 1
  {
    var mid, rest;
    steps, mid := TryPopperSeesEmpty(s, t, i, j, x);
    InitInv(s);
    RunKeepsStructure(s, steps, mid);
    rest, end := DisposeSpoilsTheAnswer(mid, t, i, j);
    RunConcat(s, steps, mid, rest, end);
    steps := steps + rest;
  }

  lemma DisposeSpoilsTheAnswer<T>(s: State<T>, t: nat, i: nat, j: nat) returns (steps: seq<Step<T>>, end: State<T>)
    requires Racing(s, i) && !s.chain.disposed && t < |s.pcs| && s.pcs[t] == ReadKind(PopOp(Try))
    requires j < |s.pcs| && s.pcs[j] == Idle
    ensures Run(s, steps, end) && |end.pcs| == |s.pcs| && end.pcs[t] == Fail(PopOp(Try), ResourceUnavailable)
    ensures end.chain.count == s.chain.count + 1 && end.delivered == s.delivered
    ensures end.accepted == s.accepted + [ItemOf(s.pcs[i])]
  {
    var a := BeginDispose(j);
    StepKeepsStructure(s, a);
    OneStep(s, a);
    var rest;
    rest, end := RacingPushSpoilsTheAnswer(Apply(s, a), t, i);
    RunConcat(s, [a], Apply(s, a), rest, end);
    steps := [a] + rest;
  }

  // ------------------------------------------- when a refused pop is final

  ghost predicate NothingIsAccepted<T(!new)>(s: State<T>) {
    forall steps, end :: Run(s, steps, end) ==> end.accepted == s.accepted
  }

  lemma RacingPushIsAccepted<T(!new)>(s: State<T>, i: nat)
    requires Racing(s, i)
    ensures !NothingIsAccepted(s)
  {
    var steps, end := PushGoesThrough(s, i);
    assert |end.accepted| > |s.accepted|;
  }

  lemma ClosedAcceptsNothing<T(!new)>(s: State<T>)
    requires Structure(s) && s.chain.disposed && !SomeCommitted(s)
    ensures NothingIsAccepted(s)
  {
    forall steps, end | Run(s, steps, end) ensures end.accepted == s.accepted {
      ClosedRunAcceptsNothing(s, steps, end);
    }
  }

  /** A blocking or timed pop that is refused finds an empty, disposed queue.  The
      refusal is final under every schedule if and only if the queue is closed. */
  lemma RefusedPopIsFinal<T(!new)>(s: State<T>, t: nat)
    requires Structure(s) && t < |s.pcs| && s.pcs[t].Decide? && s.pcs[t].op.PopOp? && s.chain.count == 0
    ensures EventOf(s, DoDecide(t)) == QueueSpec.Refuse && s.chain.disposed
    ensures NothingIsAccepted(Apply(s, DoDecide(t))) <==> Abstract(s).closed
  {
    RefusalMoves(s, t);
    var s' := Apply(s, DoDecide(t));
    if SomeCommitted(s) {
      var i :| 0 <= i < |s.pcs| && Committed(s.pcs[i]);
      RacingPushIsAccepted(s', i);
    } else {
      CommittedMoves(s, DoDecide(t));
      ClosedAcceptsNothing(s');
    }
  }

  lemma RefusalMoves<T>(s: State<T>, t: nat)
    requires Structure(s) && t < |s.pcs| && s.pcs[t].Decide? && s.pcs[t].op.PopOp? && s.chain.count == 0
    ensures EventOf(s, DoDecide(t)) == QueueSpec.Refuse && s.chain.disposed
    ensures var s' := Apply(s, DoDecide(t));
      Structure(s') && s'.chain == s.chain && s'.pcs == s.pcs[t := Fail(s.pcs[t].op, ResourceUnavailable)]
  {
    HolderIsOwner(s, t);
    StepKeepsStructure(s, DoDecide(t));
  }

  /** A push commits, the queue is disposed, and a blocking pop finds it empty. */
  lemma PopperMeetsDisposedQueue<T>(s: State<T>, t: nat, i: nat, j: nat, x: T)
    returns (steps: seq<Step<T>>, end: State<T>)
    requires Init(s) && Bystanders(s, t, i, j)
    ensures Run(s, steps, end) && |end.pcs| == |s.pcs| && end.pcs[t] == Decide(PopOp(Block))
    ensures end.chain == s.chain.(disposed := true) && end.accepted == [] && end.delivered == []
    ensures end.pcs[i] == TestCount(PushOp(Try, x))
  {
    var s1;
    steps, s1 := PusherArrives(s, i, x);
    var s2 := Apply(s1, BeginDispose(j));
    RunExtends(s, steps, s1, BeginDispose(j));
    steps := steps + [BeginDispose(j)];
    var popping;
    popping, end := PopperArrives(s2, t);
    RunConcat(s, steps, s2, popping, end);
    steps := steps + popping;
  }

  lemma RefusedPopIsOvertaken<T>(s: State<T>, t: nat, i: nat) returns (steps: seq<Step<T>>, end: State<T>)
    requires Racing(s, i) && t < |s.pcs| && s.pcs[t] == Decide(PopOp(Block)) && s.chain.count == 0
    requires s.chain.disposed
    ensures EventOf(s, DoDecide(t)) == QueueSpec.Refuse && !Abstract(s).closed
    ensures Run(Apply(s, DoDecide(t)), steps, end) && end.chain.count == 1
    ensures end.accepted == s.accepted + [ItemOf(s.pcs[i])] && end.delivered == s.delivered
  {
    var s' := Apply(s, DoDecide(t));
    StepKeepsStructure(s, DoDecide(t));
    assert Committed(s.pcs[i]) && SomeCommitted(s);
    steps, end := PushGoesThrough(s', i);
  }

  /** It need not be closed: in every program with three threads a blocking pop can be
      refused before it is, and an item accepted afterwards. */
  lemma PopMayRefuseEarly<T>(s: State<T>, t: nat, i: nat, j: nat, x: T)
    returns (before: seq<Step<T>>, mid: State<T>, after: seq<Step<T>>, end: State<T>)
    requires Init(s) && Bystanders(s, t, i, j)
    ensures Run(s, before, mid) && Structure(mid) && t < |mid.pcs| && mid.pcs[t] == Decide(PopOp(Block))
    ensures EventOf(mid, DoDecide(t)) == QueueSpec.Refuse && !Abstract(mid).closed
    ensures Run(Apply(mid, DoDecide(t)), after, end)
    ensures end.accepted == [x] && end.delivered == [] && end.chain.count == 1
  {
    before, mid := PopperMeetsDisposedQueue(s, t, i, j, x);
    StructureFromInit(s, before, mid);
    after, end := RefusedPopIsOvertaken(mid, t, i);
  }

  lemma StructureFromInit<T>(s: State<T>, steps: seq<Step<T>>, end: State<T>)
    requires Init(s) && Run(s, steps, end)
    ensures Structure(end)
  {
    InitInv(s);
    RunKeepsStructure(s, steps, end);
  }
}
