/** The main results about the linked queue, over every run of every number of
    threads: it refines the atomic FIFO of QueueSpec, loses no wakeup, and its
    dispose strands nobody. */
module LinkedTheorems {
  import opened Base
  import opened Counting
  import opened LinkedChain
  import opened QueueOps
  import opened LinkedMachine
  import opened LinkedInvariant
  import opened LinkedWakeup
  import opened LinkedDispose
  import QueueSpec

  ghost predicate Inv<T>(s: State<T>) {
    && Structure(s) && OwnersExist(s)
    && NoLostWakeup(s, PushSide) && NoLostWakeup(s, PopSide)
    && DisposeWaits(s, PushSide) && DisposeWaits(s, PopSide)
  }

  lemma InitInv<T>(s: State<T>)
    requires Init(s)
    ensures Inv(s)
  {
    SumZero(s.pcs, WaitingPush);
    SumZero(s.pcs, WaitingPop);
  }

  lemma StepKeepsInv<T>(s: State<T>, a: Step<T>)
    requires Inv(s) && Enabled(s, a)
    ensures Inv(Apply(s, a))
  {
    StepKeepsStructure(s, a);
    StepKeepsOwners(s, a);
    StepKeepsWakeup(s, a, PushSide);
    StepKeepsWakeup(s, a, PopSide);
    StepKeepsDispose(s, a, PushSide);
    StepKeepsDispose(s, a, PopSide);
  }

  lemma {:induction false} RunKeepsInv<T>(s: State<T>, steps: seq<Step<T>>, end: State<T>)
    requires Inv(s) && Run(s, steps, end)
    ensures Inv(end)
    decreases steps
  {
    if steps != [] {
      StepKeepsInv(s, steps[0]);
      RunKeepsInv(Apply(s, steps[0]), steps[1..], end);
    }
  }

  /** The abstract queue of a state. */
  ghost function Items<T>(s: State<T>): seq<T>
    requires Structure(s)
  {
    Contents(s.chain, Producer(s), Consumer(s))
  }

  // ------------------------------------------------------------ shape

  /** The chain of every reachable state: its length, its bound, and the agreement of
      `count` with the abstract queue. */
  lemma ChainMatchesCount<T>(s: State<T>, steps: seq<Step<T>>, end: State<T>)
    requires Init(s) && Run(s, steps, end)
    ensures Structure(end)
    ensures |end.chain.items| == end.chain.count + Uncounted(Producer(end)) - |Unlinked(Consumer(end))|
    ensures |Items(end)| == end.chain.count <= end.chain.capacity
    ensures |end.chain.items| <= end.chain.capacity
    ensures end.accepted == end.delivered + Items(end)
  {
    InitInv(s);
    RunKeepsInv(s, steps, end);
    CountedPushFits(end);
  }

  /** A linked node has its place reserved before it is counted. */
  lemma CountedPushFits<T>(s: State<T>)
    requires Structure(s)
    ensures s.chain.count + Uncounted(Producer(s)) <= s.chain.capacity
  {}

  /** Takes an item or frees a dummy next. */
  predicate Unlinks<T>(k: Pc<T>) {
    k.Take? || k.Free? || k.DrainFree? || (k.Draining? && |k.out| < k.n)
  }

  lemma UnlinkerFinds<T>(c: Chain<T>, p: Pc<T>, k: Pc<T>)
    requires Sizes(c, p, k) && Unlinks(k)
    ensures |c.items| > (if c.lag then 1 else 0)
    ensures k.Free? || k.DrainFree? ==> c.items[0] == k.item
    ensures c.taken == (k.Free? || k.DrainFree?)
  {}

  /** Whenever a thread is about to unlink, the successor of the dummy exists, and the
      dummy it frees is not the node `tail` points at. */
  lemma UnlinkIsSafe<T>(s: State<T>, steps: seq<Step<T>>, end: State<T>, t: nat)
    requires Init(s) && Run(s, steps, end) && t < |end.pcs| && Unlinks(end.pcs[t])
    ensures |end.chain.items| > (if end.chain.lag then 1 else 0)
    ensures end.pcs[t].Free? || end.pcs[t].DrainFree? ==> end.chain.items[0] == end.pcs[t].item
    ensures end.chain.taken == (end.pcs[t].Free? || end.pcs[t].DrainFree?)
  {
    InitInv(s);
    RunKeepsInv(s, steps, end);
    OwnerUnlinks(end, t);
    UnlinkerFinds(end.chain, Producer(end), end.pcs[t]);
  }

  lemma OwnerUnlinks<T>(s: State<T>, t: nat)
    requires Structure(s) && t < |s.pcs| && Unlinks(s.pcs[t])
    ensures Sizes(s.chain, Producer(s), s.pcs[t])
  {
    HolderIsOwner(s, t);
  }

  /** Every subtraction takes at most what `count` holds, and every thread about to
      act on the chain finds the preconditions of its action: no step gets stuck. */
  lemma ChainActionsEnabled<T>(s: State<T>, t: nat)
    requires Structure(s) && t < |s.pcs|
    ensures s.pcs[t].Take? ==> Enabled(s, DoTake(t))
    ensures s.pcs[t].Free? ==> Enabled(s, DoFree(t))
    ensures s.pcs[t].Sub? ==> Enabled(s, DoSub(t))
    ensures s.pcs[t].Draining? ==> Enabled(s, DoDrainTake(t)) || Enabled(s, DoDrainSub(t))
    ensures s.pcs[t].DrainFree? ==> Enabled(s, DoDrainFree(t))
  {
    HolderIsOwner(s, t);
    if Holds(s.pcs[t], PopSide) {
      ConsumerFinds(s.chain, Producer(s), s.pcs[t]);
    }
  }

  lemma ConsumerFinds<T>(c: Chain<T>, p: Pc<T>, k: Pc<T>)
    requires Sizes(c, p, k)
    ensures k.Take? || k.Free? || k.DrainFree? || (k.Draining? && |k.out| < k.n) ==> c.items != []
    ensures k.Sub? ==> c.count > 0
    ensures k.Draining? ==> k.n <= c.count
  {}

  // ------------------------------------------------------------ refinement

  ghost predicate SomeCommitted<T>(s: State<T>) {
    exists i :: 0 <= i < |s.pcs| && Committed(s.pcs[i])
  }

  ghost function Abstract<T>(s: State<T>): QueueSpec.Queue<T>
    requires Structure(s)
  {
    QueueSpec.Queue(s.chain.capacity, Items(s), s.chain.disposed,
                    s.chain.disposed && !SomeCommitted(s), s.accepted, s.delivered)
  }

  /** What a step means to the users of the queue. */
  function EventOf<T>(s: State<T>, a: Step<T>): QueueSpec.Event<T>
    requires a.t < |s.pcs|
  {
    var p := s.pcs[a.t];
    match a
    case DoAdd(_) => if p.Add? then QueueSpec.Accept(p.item) else QueueSpec.Quiet
    case DoSub(_) => if p.Sub? then QueueSpec.Deliver([p.item]) else QueueSpec.Quiet
    case DoDrainSub(_) => if p.Draining? then QueueSpec.Deliver(p.out) else QueueSpec.Quiet
    case BeginDispose(_) => if s.chain.disposed then QueueSpec.Quiet else QueueSpec.Event.Dispose
    case DoDecide(_) =>
      if p.Decide? && (if p.op.PushOp? then s.chain.disposed else IsEmpty(s.chain))
      then QueueSpec.Announced(p.op, ResourceUnavailable) else QueueSpec.Quiet
    case DoTest(_) =>
      if p.Test? && s.chain.disposed && p.op.PushOp? && p.op.mode == Try
      then QueueSpec.Announced(p.op, ResourceUnavailable) else QueueSpec.Quiet
    case DoTestCount(_) =>
      if p.TestCount? && p.op.mode == Try && Blocked(s.chain, OpSide(p.op))
      then QueueSpec.Announced(p.op, WouldBlock) else QueueSpec.Quiet
    case DoPredCount(_, expired) =>
      if p.PredCount? && expired && Blocked(s.chain, OpSide(p.op))
      then QueueSpec.Announced(p.op, Timeout) else QueueSpec.Quiet
    case _ => QueueSpec.Quiet
  }

  /** The thread of `a` ends up with an error, or on the way to one. */
  ghost predicate Fails<T>(s: State<T>, a: Step<T>)
    requires Enabled(s, a)
  {
    |Apply(s, a).pcs| == |s.pcs| && (Apply(s, a).pcs[a.t].Fail? || Apply(s, a).pcs[a.t].ReadKind?)
  }

  lemma ChainActionsDoNotFail<T>(s: State<T>, a: Step<T>)
    requires Enabled(s, a) && ChainAction(a)
    ensures !Fails(s, a)
  {}

  lemma OtherActionsDoNotFail<T>(s: State<T>, a: Step<T>)
    requires Enabled(s, a) && LocalOk(s.chain, s.pcs[a.t])
    requires a.Begin? || a.BeginDrain? || a.BeginDispose? || a.TakeLock? || a.DoPred? || a.DoSleep? || a.Awaken?
             || a.DoFail? || a.DoCascade? || a.DoSignal? || a.DoUnlock?
    ensures !Fails(s, a)
  {}

  lemma OnlyDecisionsFail<T>(s: State<T>, a: Step<T>)
    requires Structure(s) && Enabled(s, a) && Fails(s, a)
    ensures Decides(a)
  {
    HolderIsOwner(s, a.t);
    if ChainAction(a) {
      ChainActionsDoNotFail(s, a);
    } else if !Decides(a) {
      assert LocalOk(s.chain, s.pcs[a.t]);
      OtherActionsDoNotFail(s, a);
    }
  }

  lemma DecisionsAreAnnounced<T>(s: State<T>, a: Step<T>)
    requires Structure(s) && Enabled(s, a) && Fails(s, a) && Decides(a)
    ensures var p := Apply(s, a).pcs[a.t];
      && (p.Fail? && p.op != PopOp(Try) ==> EventOf(s, a) == QueueSpec.Announced(p.op, p.err))
      && (p.Fail? && p.op == PopOp(Try) ==> (p.err == ResourceUnavailable <==> s.chain.disposed))
      && (p.ReadKind? ==> EventOf(s, a) == QueueSpec.SeeEmpty && IsEmpty(s.chain))
  {
    HolderIsOwner(s, a.t);
  }

  /** Every error a caller gets is an event of the FIFO at the instant it is decided;
      try_pop alone announces no more than that it sees the queue empty. */
  lemma ErrorsAreAnnounced<T>(s: State<T>, a: Step<T>)
    requires Structure(s) && Enabled(s, a) && Fails(s, a)
    ensures var p := Apply(s, a).pcs[a.t];
      && (p.Fail? && p.op != PopOp(Try) ==> EventOf(s, a) == QueueSpec.Announced(p.op, p.err))
      && (p.Fail? && p.op == PopOp(Try) ==> (p.err == ResourceUnavailable <==> s.chain.disposed))
      && (p.ReadKind? ==> EventOf(s, a) == QueueSpec.SeeEmpty && IsEmpty(s.chain))
  {
    OnlyDecisionsFail(s, a);
    DecisionsAreAnnounced(s, a);
  }

  /** ... and every error announced is the one the caller gets: the thread turns to it with
      the same step. */
  lemma AnnouncedIsAnswered<T>(s: State<T>, a: Step<T>)
    requires Structure(s) && Enabled(s, a)
    ensures |Apply(s, a).pcs| == |s.pcs|
    ensures match EventOf(s, a) {
        case HandBack(err, x) =>
          exists mode :: Apply(s, a).pcs[a.t] == Fail(PushOp(mode, x), err)
        case Refuse => exists mode :: Apply(s, a).pcs[a.t] == Fail(PopOp(mode), ResourceUnavailable)
        case SeeEmpty =>
          || Apply(s, a).pcs[a.t] == ReadKind(PopOp(Try))
          || exists mode :: Apply(s, a).pcs[a.t] == Fail(PopOp(mode), Timeout)
        case _ => true
      }
  {
    LocksMove(s, a);
    if EventOf(s, a).HandBack? || EventOf(s, a).Refuse? || EventOf(s, a).SeeEmpty? {
      var op := s.pcs[a.t].op;
      assert op == if op.PushOp? then PushOp(op.mode, op.item) else PopOp(op.mode);
    }
  }

  lemma HistoriesMove<T>(s: State<T>, a: Step<T>)
    requires Enabled(s, a)
    ensures var s' := Apply(s, a);
      match EventOf(s, a) {
        case Accept(x) => s'.accepted == s.accepted + [x] && s'.delivered == s.delivered
        case Deliver(out) => s'.accepted == s.accepted && s'.delivered == s.delivered + out
        case _ => s'.accepted == s.accepted && s'.delivered == s.delivered
      }
    ensures Apply(s, a).chain.disposed == (s.chain.disposed || EventOf(s, a).Dispose?)
    ensures Apply(s, a).chain.capacity == s.chain.capacity
  {}

  /** A notifier moves on, and some sleepers wake. */
  lemma OthersWake<T>(s: State<T>, a: Step<T>, i: nat)
    requires Enabled(s, a) && (a.DoCascade? || a.DoSignal?) && i < |s.pcs| && i != a.t
    ensures |Apply(s, a).pcs| == |s.pcs|
    ensures Apply(s, a).pcs[i] == s.pcs[i] || (s.pcs[i].Asleep? && Apply(s, a).pcs[i] == Relock(s.pcs[i].op))
  {}

  /** A step moves its own thread; the others stay, or wake. */
  lemma OthersStay<T>(s: State<T>, a: Step<T>, i: nat)
    requires Enabled(s, a) && i < |s.pcs| && i != a.t
    ensures |Apply(s, a).pcs| == |s.pcs|
    ensures Apply(s, a).pcs[i] == s.pcs[i] || (s.pcs[i].Asleep? && Apply(s, a).pcs[i] == Relock(s.pcs[i].op))
  {
    if a.DoCascade? || a.DoSignal? {
      OthersWake(s, a, i);
    } else if ChainAction(a) {
      OthersStayPut(s, a);
    } else {
      RestStayPut(s, a);
    }
  }

  lemma OthersStayPut<T>(s: State<T>, a: Step<T>)
    requires Enabled(s, a) && ChainAction(a)
    ensures |Apply(s, a).pcs| == |s.pcs| && Apply(s, a).pcs == s.pcs[a.t := Apply(s, a).pcs[a.t]]
  {}

  lemma RestStayPut<T>(s: State<T>, a: Step<T>)
    requires Enabled(s, a) && !ChainAction(a) && !a.DoCascade? && !a.DoSignal?
    ensures |Apply(s, a).pcs| == |s.pcs| && Apply(s, a).pcs == s.pcs[a.t := Apply(s, a).pcs[a.t]]
  {}

  /** On a disposed queue a step neither commits its thread to a push nor makes it a
      disposer with a notify to come, unless it was one already. */
  ghost predicate NothingAnew<T>(s: State<T>, a: Step<T>)
    requires Enabled(s, a)
  {
    var p, pcs := s.pcs[a.t], Apply(s, a).pcs;
    |pcs| == |s.pcs| && (Committed(pcs[a.t]) ==> Committed(p)) && (Pending(pcs[a.t], PushSide) ==> Pending(p, PushSide))
  }

  lemma TestsBringNothingNew<T>(s: State<T>, a: Step<T>)
    requires Enabled(s, a) && s.chain.disposed && LocalOk(s.chain, s.pcs[a.t])
    requires a.DoTest? || a.DoTestCount? || a.DoPred? || a.DoPredCount? || a.DoDecide? || a.DoReadKind? || a.DoSleep?
             || a.Awaken? || a.DoFail? || a.Begin? || a.BeginDrain? || a.BeginDispose? || a.TakeLock?
    ensures NothingAnew(s, a)
  {}

  lemma ChainActionsBringNothingNew<T>(s: State<T>, a: Step<T>)
    requires Enabled(s, a) && ChainAction(a)
    ensures NothingAnew(s, a)
  {}

  lemma NotifiesBringNothingNew<T>(s: State<T>, a: Step<T>)
    requires Enabled(s, a) && LocalOk(s.chain, s.pcs[a.t]) && (a.DoSignal? || a.DoCascade? || a.DoUnlock?)
    ensures NothingAnew(s, a)
  {}

  lemma NothingNewOnceDisposed<T>(s: State<T>, a: Step<T>)
    requires Structure(s) && Enabled(s, a) && s.chain.disposed
    ensures NothingAnew(s, a)
  {
    HolderIsOwner(s, a.t);
    if a.DoSignal? || a.DoCascade? || a.DoUnlock? {
      NotifiesBringNothingNew(s, a);
    } else if ChainAction(a) {
      ChainActionsBringNothingNew(s, a);
    } else {
      assert LocalOk(s.chain, s.pcs[a.t]);
      TestsBringNothingNew(s, a);
    }
  }

  /** Once disposed, nobody passes the last test of `disposed` any more. */
  lemma CommittedMoves<T>(s: State<T>, a: Step<T>)
    requires Structure(s) && Enabled(s, a) && s.chain.disposed && !SomeCommitted(s)
    ensures !SomeCommitted(Apply(s, a))
  {
    assert !Committed(s.pcs[a.t]);
    NothingNewOnceDisposed(s, a);
    forall i | 0 <= i < |s.pcs| ensures !Committed(Apply(s, a).pcs[i]) {
      if i != a.t {
        OthersStay(s, a, i);
        assert !Committed(s.pcs[i]);
      }
    }
  }

  /** What an event claims about the queue is so when it happens. */
  lemma EventIsTrue<T>(s: State<T>, a: Step<T>)
    requires Structure(s) && Enabled(s, a)
    ensures match EventOf(s, a) {
        case Accept(_) => SomeCommitted(s) && s.chain.count < s.chain.capacity
        case Refuse => s.chain.disposed && s.chain.count == 0
        case SeeEmpty => s.chain.count == 0
        case HandBack(err, _) =>
          (err == ResourceUnavailable && s.chain.disposed)
          || ((err == WouldBlock || err == Timeout) && s.chain.count >= s.chain.capacity)
        case _ => true
      }
  {
    HolderIsOwner(s, a.t);
    if EventOf(s, a).Accept? {
      assert Committed(s.pcs[a.t]);
    }
  }

  lemma ItemsMatchCount<T>(s: State<T>)
    requires Structure(s)
    ensures |Items(s)| == s.chain.count <= s.chain.capacity && s.accepted == s.delivered + Items(s)
  {}

  /** Every step of every interleaving is a step of the atomic FIFO: a push takes
      effect at its `fetch_add`, a pop or drain at its `fetch_sub`, an error when it is
      decided, and nothing else is visible. */
  lemma StepRefines<T>(s: State<T>, a: Step<T>)
    requires Structure(s) && Enabled(s, a)
    ensures Structure(Apply(s, a))
    ensures QueueSpec.Next(Abstract(s), EventOf(s, a), Abstract(Apply(s, a)))
  {
    StepKeepsStructure(s, a);
    HistoriesMove(s, a);
    var s' := Apply(s, a);
    ItemsMatchCount(s);
    ItemsMatchCount(s');
    if Abstract(s).closed {
      CommittedMoves(s, a);
    }
    HistoryFixesItems(Abstract(s), Abstract(s'), EventOf(s, a));
    EventIsTrue(s, a);
  }

  /** The histories determine the contents, so they determine how the contents move. */
  lemma HistoryFixesItems<T>(q: QueueSpec.Queue<T>, q': QueueSpec.Queue<T>, e: QueueSpec.Event<T>)
    requires q.accepted == q.delivered + q.items && q'.accepted == q'.delivered + q'.items
    requires match e {
        case Accept(x) => q'.accepted == q.accepted + [x] && q'.delivered == q.delivered
        case Deliver(out) => q'.accepted == q.accepted && q'.delivered == q.delivered + out
        case _ => q'.accepted == q.accepted && q'.delivered == q.delivered
      }
    ensures match e {
        case Accept(x) => q'.items == q.items + [x]
        case Deliver(out) => out <= q.items && q'.items == q.items[|out|..]
        case _ => q'.items == q.items
      }
  {
    assert q.items == q.accepted[|q.delivered|..];
    assert q'.items == q'.accepted[|q'.delivered|..];
    if e.Deliver? {
      assert q.delivered + q.items == q.delivered + (e.out + q'.items);
      assert q.items == (q.delivered + (e.out + q'.items))[|q.delivered|..];
      assert q.items == e.out + q'.items;
    }
  }

  // ------------------------------------------------------------ runs

  /** The abstract states a run passes through, and what happens between them. */
  ghost function Abstracts<T>(s: State<T>, steps: seq<Step<T>>, end: State<T>): (qs: seq<QueueSpec.Queue<T>>)
    requires Structure(s) && Run(s, steps, end)
    ensures |qs| == |steps| + 1 && qs[0] == Abstract(s)
    decreases steps
  {
    if steps == [] then [Abstract(s)]
    else
      StepKeepsStructure(s, steps[0]);
      [Abstract(s)] + Abstracts(Apply(s, steps[0]), steps[1..], end)
  }

  ghost function Events<T>(s: State<T>, steps: seq<Step<T>>, end: State<T>): (es: seq<QueueSpec.Event<T>>)
    requires Run(s, steps, end)
    ensures |es| == |steps|
    decreases steps
  {
    if steps == [] then []
    else [EventOf(s, steps[0])] + Events(Apply(s, steps[0]), steps[1..], end)
  }

  /** Every run is a trace of the atomic FIFO, ending in the run's last state. */
  lemma {:induction false} RunRefines<T>(s: State<T>, steps: seq<Step<T>>, end: State<T>)
    requires Structure(s) && Run(s, steps, end)
    ensures QueueSpec.Trace(Abstracts(s, steps, end), Events(s, steps, end))
    ensures Structure(end) && Abstracts(s, steps, end)[|steps|] == Abstract(end)
    decreases steps
  {
    if steps != [] {
      StepRefines(s, steps[0]);
      var s' := Apply(s, steps[0]);
      RunRefines(s', steps[1..], end);
      QueueSpec.TracePrepend(Abstract(s), EventOf(s, steps[0]),
                             Abstracts(s', steps[1..], end), Events(s', steps[1..], end));
    }
  }

  // ------------------------------------------------------------ wakeups

  /** In every reachable state of a queue that is not disposed, a producer that sleeps
      although there is room, or a consumer that sleeps although there is an item,
      implies a thread that owes it a signal, is awake in the wait region, or is
      committed to an operation that passes the turn on.  So once no such thread is
      left, sleepers sleep for a reason. */
  lemma NobodySleepsForNothing<T>(s: State<T>, steps: seq<Step<T>>, end: State<T>, side: Side)
    requires Init(s) && Run(s, steps, end) && !end.chain.disposed
    ensures SomeDozing(end.pcs, side) && !Blocked(end.chain, side) ==> SomeActive(end.chain.capacity, end.pcs, side)
    ensures Sleeper(end.pcs, side) && !SomeActive(end.chain.capacity, end.pcs, side) ==> Blocked(end.chain, side)
  {
    InitInv(s);
    RunKeepsInv(s, steps, end);
    if Sleeper(end.pcs, side) {
      var i :| 0 <= i < |end.pcs| && SleepsOn(end.pcs[i], side);
      assert Dozing(end.pcs[i], side);
    }
  }

  // ------------------------------------------------------------ dispose

  /** Disposed, and the winning disposer is past both of its `notify_all`. */
  ghost predicate DisposeDone<T>(s: State<T>) {
    s.chain.disposed && !SomePending(s.pcs, PushSide)
  }

  lemma PendingIsForBoth<T>(pcs: seq<Pc<T>>)
    requires SomePending(pcs, PopSide)
    ensures SomePending(pcs, PushSide)
  {
    var i :| 0 <= i < |pcs| && Pending(pcs[i], PopSide);
    assert Pending(pcs[i], PushSide);
  }

  /** After the winning dispose nobody sleeps, nobody is on the way to sleep, and no
      push can be accepted. */
  lemma DisposeStrandsNobody<T>(s: State<T>, side: Side)
    requires Inv(s) && DisposeDone(s)
    ensures !Sleeper(s.pcs, side) && !SomeUnaware(s.pcs, side) && Abstract(s).closed
  {
    if SomePending(s.pcs, PopSide) {
      PendingIsForBoth(s.pcs);
    }
    forall i | 0 <= i < |s.pcs|
      ensures !Before(s.pcs[i], PushSide) && !Before(s.pcs[i], PopSide)
    {
      assert !Pending(s.pcs[i], PushSide);
    }
    assert !SomeUnaware(s.pcs, PushSide);
    forall i | 0 <= i < |s.pcs| ensures !Committed(s.pcs[i]) {
      assert !Unaware(s.pcs[i], PushSide);
    }
  }

  lemma DisposeDoneStays<T>(s: State<T>, a: Step<T>)
    requires Structure(s) && Enabled(s, a) && DisposeDone(s)
    ensures DisposeDone(Apply(s, a))
  {
    HistoriesMove(s, a);
    assert !Pending(s.pcs[a.t], PushSide);
    NothingNewOnceDisposed(s, a);
    forall i | 0 <= i < |s.pcs| ensures !Pending(Apply(s, a).pcs[i], PushSide) {
      if i != a.t {
        OthersStay(s, a, i);
        assert !Pending(s.pcs[i], PushSide);
      }
    }
  }

  /** ... and it stays that way: in every continuation nobody ever sleeps again and
      the accepted items stay the same. */
  lemma {:induction false} DisposeIsFinal<T>(s: State<T>, steps: seq<Step<T>>, end: State<T>, side: Side)
    requires Inv(s) && DisposeDone(s) && Run(s, steps, end)
    ensures !Sleeper(end.pcs, side) && !SomeUnaware(end.pcs, side) && end.accepted == s.accepted
    decreases steps
  {
    DisposeStrandsNobody(s, side);
    if steps != [] {
      DisposeDoneStays(s, steps[0]);
      StepKeepsInv(s, steps[0]);
      StepRefines(s, steps[0]);
      DisposeIsFinal(Apply(s, steps[0]), steps[1..], end, side);
    }
  }

  /** After the winning dispose, a pop or pop_timeout that reports the queue as
      unavailable has seen every accepted item delivered, in order. */
  lemma RefusalAfterDispose<T>(s: State<T>, a: Step<T>, steps: seq<Step<T>>, end: State<T>)
    requires Inv(s) && DisposeDone(s) && Enabled(s, a) && EventOf(s, a) == QueueSpec.Refuse
    requires Run(s, steps, end)
    ensures s.delivered == s.accepted && end.delivered == s.delivered && Structure(end) && Items(end) == []
  {
    StepRefines(s, a);
    RunKeepsInv(s, steps, end);
    DisposeIsFinal(s, steps, end, PopSide);
    RunGrowsDelivered(s, steps, end);
    assert Abstract(s).items == [];
    assert |end.accepted| == |end.delivered| + |Items(end)|;
  }

  lemma {:induction false} RunGrowsDelivered<T>(s: State<T>, steps: seq<Step<T>>, end: State<T>)
    requires Run(s, steps, end)
    ensures s.delivered <= end.delivered
    decreases steps
  {
    if steps != [] {
      HistoriesMove(s, steps[0]);
      RunGrowsDelivered(Apply(s, steps[0]), steps[1..], end);
    }
  }

  // ------------------------------------------------------------ drain

  /** Thread `t` drains, and `snapshot` was the whole queue when it loaded `count`. */
  ghost predicate Drains<T>(s: State<T>, t: nat, snapshot: seq<T>)
    requires Structure(s)
  {
    && t < |s.pcs| && (s.pcs[t].Draining? || s.pcs[t].DrainFree?)
    && s.pcs[t].n == |snapshot| && snapshot <= Items(s)
  }

  /** Only the drain itself can deliver while it holds the pop mutex. */
  lemma OnlyTheDrainDelivers<T>(s: State<T>, a: Step<T>, t: nat)
    requires Structure(s) && Enabled(s, a) && t < |s.pcs| && t != a.t
    requires s.pcs[t].Draining? || s.pcs[t].DrainFree?
    ensures !EventOf(s, a).Deliver?
  {
    HolderIsOwner(s, t);
    HolderIsOwner(s, a.t);
  }

  lemma DrainGoesOn<T>(s: State<T>, a: Step<T>)
    requires Enabled(s, a) && (s.pcs[a.t].Draining? || s.pcs[a.t].DrainFree?) && !a.DoDrainSub?
    ensures |Apply(s, a).pcs| == |s.pcs| && !EventOf(s, a).Deliver?
    ensures var p, p' := s.pcs[a.t], Apply(s, a).pcs[a.t]; (p'.Draining? || p'.DrainFree?) && p'.n == p.n
  {}

  lemma DrainKeepsSnapshot<T>(s: State<T>, a: Step<T>, t: nat, snapshot: seq<T>)
    requires Structure(s) && Enabled(s, a) && Drains(s, t, snapshot) && a != DoDrainSub(t)
    ensures Structure(Apply(s, a)) && Drains(Apply(s, a), t, snapshot)
  {
    StepRefines(s, a);
    if a.t == t {
      DrainGoesOn(s, a);
    } else {
      OthersStay(s, a, t);
      OnlyTheDrainDelivers(s, a, t);
    }
  }

  lemma {:induction false} RunKeepsSnapshot<T>(s: State<T>, steps: seq<Step<T>>, end: State<T>,
                                               t: nat, snapshot: seq<T>)
    requires Structure(s) && Run(s, steps, end) && Drains(s, t, snapshot) && DoDrainSub(t) !in steps
    ensures Structure(end) && Drains(end, t, snapshot)
    decreases steps
  {
    if steps != [] {
      DrainKeepsSnapshot(s, steps[0], t, snapshot);
      RunKeepsSnapshot(Apply(s, steps[0]), steps[1..], end, t, snapshot);
    }
  }

  lemma WholePrefix<T>(out: seq<T>, snapshot: seq<T>, items: seq<T>)
    requires out <= items && snapshot <= items && |out| == |snapshot|
    ensures out == snapshot && items == snapshot + items[|out|..]
  {}

  lemma DrainEnds<T>(s: State<T>, t: nat, snapshot: seq<T>)
    requires Structure(s) && Drains(s, t, snapshot) && Enabled(s, DoDrainSub(t))
    ensures s.pcs[t].out == snapshot && Structure(Apply(s, DoDrainSub(t)))
    ensures Items(s) == snapshot + Items(Apply(s, DoDrainSub(t)))
  {
    HolderIsOwner(s, t);
    StepRefines(s, DoDrainSub(t));
    assert EventOf(s, DoDrainSub(t)) == QueueSpec.Deliver(s.pcs[t].out);
    WholePrefix(s.pcs[t].out, snapshot, Items(s));
  }

  /** A drain returns exactly what the queue held when it loaded `count`, whatever is
      pushed while it runs; the pushed items stay behind, in order. */
  lemma DrainReturnsSnapshot<T>(s: State<T>, t: nat, steps: seq<Step<T>>, end: State<T>)
    requires Structure(s) && Enabled(s, DoDrainLoad(t))
    requires Run(Apply(s, DoDrainLoad(t)), steps, end) && DoDrainSub(t) !in steps && Enabled(end, DoDrainSub(t))
    ensures Structure(end) && Structure(Apply(end, DoDrainSub(t)))
    ensures end.pcs[t].out == Items(s)
    ensures Items(end) == Items(s) + Items(Apply(end, DoDrainSub(t)))
  {
    var loaded := Apply(s, DoDrainLoad(t));
    StepRefines(s, DoDrainLoad(t));
    assert Drains(loaded, t, Items(s));
    RunKeepsSnapshot(loaded, steps, end, t, Items(s));
    DrainEnds(end, t, Items(s));
  }
}
