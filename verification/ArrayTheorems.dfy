/** The main results about the array queue, over every run of every number of
    threads. */
module ArrayTheorems {
  import opened Base
  import opened Counting
  import opened Bags
  import opened QueueOps
  import opened ArrayMachine
  import opened ArrayInvariant
  import opened ArrayWakeup
  import QueueSpec

  ghost predicate Inv<T>(s: State<T>) {
    && Structure(s)
    && NoLostWakeup(s, PushSide) && NoLostWakeup(s, PopSide)
    && DisposeWaits(s, PushSide) && DisposeWaits(s, PopSide)
  }

  lemma InitInv<T>(s: State<T>)
    requires Init(s)
    ensures Inv(s)
  {
    SumZero(s.pcs, WaitingPush);
    SumZero(s.pcs, WaitingPop);
  }

  lemma StepKeepsInv<T>(s: State<T>, a: Step<T>)
    requires Inv(s) && Enabled(s, a)
    ensures Inv(Apply(s, a))
  {
    StepKeepsStructure(s, a);
    StepKeepsWakeup(s, a, PushSide);
    StepKeepsWakeup(s, a, PopSide);
    StepKeepsDispose(s, a, PushSide);
    StepKeepsDispose(s, a, PopSide);
  }

  lemma {:induction false} RunKeepsInv<T>(s: State<T>, steps: seq<Step<T>>, end: State<T>)
    requires Inv(s) && Run(s, steps, end)
    ensures Inv(end)
    decreases steps
  {
    if steps != [] {
      StepKeepsInv(s, steps[0]);
      RunKeepsInv(Apply(s, steps[0]), steps[1..], end);
    }
  }

  // ------------------------------------------------------------ wakeups

  /** In every reachable state: a consumer that sleeps although an item is there, or a
      producer that sleeps although there is room, implies a pending notify or an
      awake thread that passes the turn on. */
  lemma NobodySleepsForNothing<T>(s: State<T>, steps: seq<Step<T>>, end: State<T>, side: Side)
    requires Init(s) && Run(s, steps, end) && !end.buf.disposed
    ensures Sleeper(end.pcs, side) && !Blocked(end.buf, side) ==> SomeActive(end.pcs, side)
    ensures Waiters(end.buf, side) == 0 ==> !Sleeper(end.pcs, side)
  {
    InitInv(s);
    RunKeepsInv(s, steps, end);
    if Sleeper(end.pcs, side) {
      SleepersAreCounted(end, side);
    }
  }

  /** The `expect` behind `pop_front` never fails: whoever commits a pop finds an item,
      whoever commits a push finds room. */
  lemma CommitNeverFails<T>(s: State<T>, steps: seq<Step<T>>, end: State<T>, t: nat)
    requires Init(s) && Run(s, steps, end) && t < |end.pcs| && end.pcs[t].Commit?
    ensures Enabled(end, DoCommit(t))
    ensures end.pcs[t].op.PushOp? ==> |end.buf.items| < end.buf.capacity
    ensures end.pcs[t].op.PopOp? ==> end.buf.items != []
  {
    InitInv(s);
    RunKeepsInv(s, steps, end);
    HolderIsOwner(end, t);
  }

  // ------------------------------------------------------------ refinement

  ghost predicate SomeCommitted<T>(s: State<T>) {
    exists i :: 0 <= i < |s.pcs| && s.pcs[i].Commit? && s.pcs[i].op.PushOp?
  }

  ghost function Abstract<T>(s: State<T>): QueueSpec.Queue<T> {
    QueueSpec.Queue(s.buf.capacity, s.buf.items, s.buf.disposed,
                    s.buf.disposed && !SomeCommitted(s), s.accepted, s.delivered)
  }

  /** What a step means to the users of the queue. */
  ghost function EventOf<T>(s: State<T>, a: Step<T>): QueueSpec.Event<T>
    requires Enabled(s, a)
  {
    var p := s.pcs[a.t];
    match a
    case DoCommit(_) =>
      if p.op.PushOp? then QueueSpec.Accept(p.op.item) else QueueSpec.Deliver([s.buf.items[0]])
    case DoDrain(_) => QueueSpec.Deliver(s.buf.items)
    case BeginDispose(_) => if s.buf.disposed then QueueSpec.Quiet else QueueSpec.Event.Dispose
    case DoTest(_) =>
      if p.op.mode != Try then QueueSpec.Quiet
      else if p.op.PushOp? && s.buf.disposed then QueueSpec.Announced(p.op, ResourceUnavailable)
      else if p.op.PushOp? && |s.buf.items| >= s.buf.capacity then QueueSpec.Announced(p.op, WouldBlock)
      else if p.op.PopOp? && s.buf.items == [] then
        QueueSpec.Announced(p.op, if s.buf.disposed then ResourceUnavailable else WouldBlock)
      else QueueSpec.Quiet
    case DoPred(_, expired) =>
      if expired && !s.buf.disposed && Blocked(s.buf, OpSide(p.op)) then QueueSpec.Announced(p.op, Timeout)
      else QueueSpec.Quiet
    case DoDecide(_) =>
      if (if p.op.PushOp? then s.buf.disposed else s.buf.items == [])
      then QueueSpec.Announced(p.op, ResourceUnavailable) else QueueSpec.Quiet
    case _ => QueueSpec.Quiet
  }

  /** Every error a caller gets is an event of the FIFO, at the instant it is decided. */
  lemma ErrorsAreAnnounced<T>(s: State<T>, a: Step<T>)
    requires Structure(s) && Enabled(s, a) && !s.pcs[a.t].Fail?
    requires |Apply(s, a).pcs| == |s.pcs| && Apply(s, a).pcs[a.t].Fail?
    ensures var p := Apply(s, a).pcs[a.t]; EventOf(s, a) == QueueSpec.Announced(p.op, p.err)
  {
    if Holds(s.pcs[a.t]) {
      HolderIsOwner(s, a.t);
    }
  }

  /** ... and every error announced is the one the caller gets: the thread turns to it with
      the same step. */
  lemma AnnouncedIsAnswered<T>(s: State<T>, a: Step<T>)
    requires Structure(s) && Enabled(s, a)
    ensures |Apply(s, a).pcs| == |s.pcs|
    ensures match EventOf(s, a) {
        case HandBack(err, x) => exists mode :: Apply(s, a).pcs[a.t] == Fail(PushOp(mode, x), err)
        case Refuse => exists mode :: Apply(s, a).pcs[a.t] == Fail(PopOp(mode), ResourceUnavailable)
        case SeeEmpty =>
          exists mode, err :: Apply(s, a).pcs[a.t] == Fail(PopOp(mode), err) && (err == WouldBlock || err == Timeout)
        case _ => true
      }
  {
    if EventOf(s, a).HandBack? || EventOf(s, a).Refuse? || EventOf(s, a).SeeEmpty? {
      HolderIsOwner(s, a.t);
      var op := s.pcs[a.t].op;
      assert op == if op.PushOp? then PushOp(op.mode, op.item) else PopOp(op.mode);
    }
  }

  lemma OthersStay<T>(s: State<T>, a: Step<T>, i: nat)
    requires Enabled(s, a) && i < |s.pcs| && i != a.t
    ensures |Apply(s, a).pcs| == |s.pcs|
    ensures Apply(s, a).pcs[i] == s.pcs[i] || (s.pcs[i].Asleep? && Apply(s, a).pcs[i].Relock?)
  {}

  lemma NotCommittedAnew<T>(s: State<T>, a: Step<T>)
    requires Enabled(s, a) && s.buf.disposed && LocalOk(s.buf, s.pcs[a.t])
    ensures |Apply(s, a).pcs| == |s.pcs|
    ensures var p := Apply(s, a).pcs[a.t];
      p.Commit? && p.op.PushOp? ==> s.pcs[a.t] == p
  {}

  lemma CommittedMoves<T>(s: State<T>, a: Step<T>)
    requires Structure(s) && Enabled(s, a) && s.buf.disposed && !SomeCommitted(s)
    ensures !SomeCommitted(Apply(s, a))
  {
    if Holds(s.pcs[a.t]) {
      HolderIsOwner(s, a.t);
    }
    NotCommittedAnew(s, a);
    var s' := Apply(s, a);
    forall i | 0 <= i < |s.pcs| ensures !(s'.pcs[i].Commit? && s'.pcs[i].op.PushOp?) {
      assert !(s.pcs[i].Commit? && s.pcs[i].op.PushOp?);
      if i != a.t {
        OthersStay(s, a, i);
      }
    }
  }

  lemma BufferMoves<T>(s: State<T>, a: Step<T>)
    requires Structure(s) && Enabled(s, a)
    ensures var b, b' := s.buf, Apply(s, a).buf;
      && b'.capacity == b.capacity && b'.disposed == (b.disposed || EventOf(s, a).Dispose?)
      && match EventOf(s, a) {
           case Accept(x) => b'.items == b.items + [x]
           case Deliver(out) => out <= b.items && b'.items == b.items[|out|..]
           case _ => b'.items == b.items
         }
  {}

  lemma HistoriesMove<T>(s: State<T>, a: Step<T>)
    requires Enabled(s, a)
    ensures var s' := Apply(s, a);
      match EventOf(s, a) {
        case Accept(x) => s'.accepted == s.accepted + [x] && s'.delivered == s.delivered
        case Deliver(out) => s'.accepted == s.accepted && s'.delivered == s.delivered + out
        case _ => s'.accepted == s.accepted && s'.delivered == s.delivered
      }
  {}

  /** A refusal of any pop happens on a disposed, empty queue that can accept nothing. */
  lemma RefusalMeansClosed<T>(s: State<T>, a: Step<T>)
    requires Structure(s) && Enabled(s, a) && EventOf(s, a) == QueueSpec.Refuse
    ensures s.buf.disposed && s.buf.items == [] && !SomeCommitted(s)
  {
    HolderIsOwner(s, a.t);
    forall i | 0 <= i < |s.pcs| ensures !(s.pcs[i].Commit? && s.pcs[i].op.PushOp?) {
      assert Holds(s.pcs[i]) ==> i == a.t;
    }
  }

  /** Every step of every interleaving is a step of the atomic FIFO. */
  lemma StepRefines<T>(s: State<T>, a: Step<T>)
    requires Structure(s) && Enabled(s, a)
    ensures Structure(Apply(s, a))
    ensures QueueSpec.Next(Abstract(s), EventOf(s, a), Abstract(Apply(s, a)))
  {
    StepKeepsStructure(s, a);
    BufferMoves(s, a);
    HistoriesMove(s, a);
    if Abstract(s).closed {
      CommittedMoves(s, a);
    }
    match EventOf(s, a)
    case Accept(_) =>
      HolderIsOwner(s, a.t);
      assert SomeCommitted(s);
    case Refuse => RefusalMeansClosed(s, a);
    case _ =>
  }

  ghost function Abstracts<T>(s: State<T>, steps: seq<Step<T>>, end: State<T>): (qs: seq<QueueSpec.Queue<T>>)
    requires Run(s, steps, end)
    ensures |qs| == |steps| + 1 && qs[0] == Abstract(s)
    decreases steps
  {
    if steps == [] then [Abstract(s)]
    else [Abstract(s)] + Abstracts(Apply(s, steps[0]), steps[1..], end)
  }

  ghost function Events<T>(s: State<T>, steps: seq<Step<T>>, end: State<T>): (es: seq<QueueSpec.Event<T>>)
    requires Run(s, steps, end)
    ensures |es| == |steps|
    decreases steps
  {
    if steps == [] then []
    else [EventOf(s, steps[0])] + Events(Apply(s, steps[0]), steps[1..], end)
  }

  /** Every run is a trace of the atomic FIFO, ending in the run's last state. */
  lemma {:induction false} RunRefines<T>(s: State<T>, steps: seq<Step<T>>, end: State<T>)
    requires Structure(s) && Run(s, steps, end)
    ensures QueueSpec.Trace(Abstracts(s, steps, end), Events(s, steps, end))
    ensures Structure(end) && Abstracts(s, steps, end)[|steps|] == Abstract(end)
    decreases steps
  {
    if steps != [] {
      StepRefines(s, steps[0]);
      var s' := Apply(s, steps[0]);
      RunRefines(s', steps[1..], end);
      QueueSpec.TracePrepend(Abstract(s), EventOf(s, steps[0]),
                             Abstracts(s', steps[1..], end), Events(s', steps[1..], end));
    }
  }

  // ------------------------------------------------------------ finality

  /** One refusal is enough: from then on nothing is accepted, the queue stays empty,
      and everything accepted has been delivered in order. */
  lemma RefusalIsFinal<T>(s: State<T>, a: Step<T>, steps: seq<Step<T>>, end: State<T>)
    requires Structure(s) && Enabled(s, a) && EventOf(s, a) == QueueSpec.Refuse && Run(s, steps, end)
    ensures end.buf.items == [] && end.accepted == s.accepted == end.delivered == s.delivered
  {
    RefusalMeansClosed(s, a);
    ClosedStaysEmpty(s, steps, end);
  }

  lemma {:induction false} ClosedStaysEmpty<T>(s: State<T>, steps: seq<Step<T>>, end: State<T>)
    requires Structure(s) && Run(s, steps, end)
    requires s.buf.disposed && s.buf.items == [] && !SomeCommitted(s)
    ensures end.buf.items == [] && end.accepted == s.accepted == end.delivered == s.delivered
    decreases steps
  {
    if steps != [] {
      StepRefines(s, steps[0]);
      ClosedStaysEmpty(Apply(s, steps[0]), steps[1..], end);
    }
  }

  /** Disposed, and the winning disposer is past both of its `notify_all`. */
  ghost predicate DisposeDone<T>(s: State<T>) {
    s.buf.disposed && !SomePending(s.pcs, PushSide)
  }

  lemma DisposeStrandsNobody<T>(s: State<T>, side: Side)
    requires Inv(s) && DisposeDone(s)
    ensures !Sleeper(s.pcs, side) && !SomeUnaware(s.pcs, side) && Abstract(s).closed
  {
    forall i | 0 <= i < |s.pcs|
      ensures !Before(s.pcs[i]) && !DisposePending(s.pcs[i], PopSide)
    {
      assert !DisposePending(s.pcs[i], PushSide);
    }
    assert !SomeUnaware(s.pcs, PushSide);
    forall i | 0 <= i < |s.pcs| ensures !(s.pcs[i].Commit? && s.pcs[i].op.PushOp?) {
      assert !Unaware(s.pcs[i], PushSide);
    }
  }

  lemma NotPendingAnew<T>(s: State<T>, a: Step<T>)
    requires Enabled(s, a) && s.buf.disposed && !DisposePending(s.pcs[a.t], PushSide)
    requires LocalOk(s.buf, s.pcs[a.t])
    ensures |Apply(s, a).pcs| == |s.pcs|
    ensures !DisposePending(Apply(s, a).pcs[a.t], PushSide)
  {}

  /** After the winning dispose, in every continuation nobody ever sleeps again and the
      accepted items stay the same. */
  lemma {:induction false} DisposeIsFinal<T>(s: State<T>, steps: seq<Step<T>>, end: State<T>, side: Side)
    requires Inv(s) && DisposeDone(s) && Run(s, steps, end)
    ensures !Sleeper(end.pcs, side) && !SomeUnaware(end.pcs, side) && end.accepted == s.accepted
    decreases steps
  {
    DisposeStrandsNobody(s, side);
    if steps != [] {
      var a := steps[0];
      assert !DisposePending(s.pcs[a.t], PushSide);
      if Holds(s.pcs[a.t]) {
        HolderIsOwner(s, a.t);
      }
      NotPendingAnew(s, a);
      forall i | 0 <= i < |s.pcs| ensures !DisposePending(Apply(s, a).pcs[i], PushSide) {
        if i != a.t {
          OthersStay(s, a, i);
          assert !DisposePending(s.pcs[i], PushSide);
        }
      }
      BufferMoves(s, a);
      StepKeepsInv(s, a);
      StepRefines(s, a);
      DisposeIsFinal(Apply(s, a), steps[1..], end, side);
    }
  }

  // ------------------------------------------------------------ conservation

  function InFlight<T>(pcs: seq<Pc<T>>): multiset<T> {
    Gather(pcs, Flying)
  }

  /** Every offered item is accepted, handed back, or still under way, and only one of
      these, however often equal items are offered. */
  ghost predicate Conserved<T>(s: State<T>) {
    s.offered == multiset(s.accepted) + s.returned + InFlight(s.pcs)
  }

  /** A step that leaves every item where it is. */
  lemma StayConserves<T>(s: State<T>, s': State<T>, t: nat)
    requires Conserved(s) && t < |s.pcs| && |s'.pcs| == |s.pcs| && s'.pcs == s.pcs[t := s'.pcs[t]]
    requires s'.offered == s.offered && s'.accepted == s.accepted && s'.returned == s.returned
    requires Carried(s'.pcs[t]) == Carried(s.pcs[t])
    ensures Conserved(s')
  {
    GatherUpdate(s.pcs, t, s'.pcs[t], Flying);
    Cancel(InFlight(s'.pcs), Flying(s.pcs[t]), InFlight(s.pcs));
  }

  /** A push begins. */
  lemma EnterConserves<T>(s: State<T>, s': State<T>, t: nat)
    requires Conserved(s) && t < |s.pcs| && |s'.pcs| == |s.pcs| && s'.pcs == s.pcs[t := s'.pcs[t]]
    requires s'.offered == s.offered + Flying(s'.pcs[t]) && s'.accepted == s.accepted && s'.returned == s.returned
    requires Carried(s.pcs[t]) == None
    ensures Conserved(s')
  {
    GatherUpdate(s.pcs, t, s'.pcs[t], Flying);
    assert InFlight(s'.pcs) == InFlight(s'.pcs) + multiset{};
  }

  /** An item is accepted. */
  lemma AcceptConserves<T>(s: State<T>, s': State<T>, t: nat, x: T)
    requires Conserved(s) && t < |s.pcs| && |s'.pcs| == |s.pcs| && s'.pcs == s.pcs[t := s'.pcs[t]]
    requires s'.offered == s.offered && s'.accepted == s.accepted + [x] && s'.returned == s.returned
    requires Carried(s.pcs[t]) == Some(x) && Carried(s'.pcs[t]) == None
    ensures Conserved(s')
  {
    GatherUpdate(s.pcs, t, s'.pcs[t], Flying);
    assert InFlight(s.pcs) == InFlight(s'.pcs) + multiset{x};
    assert multiset(s'.accepted) == multiset(s.accepted) + multiset{x};
  }

  /** An item is handed back. */
  lemma ReturnConserves<T>(s: State<T>, s': State<T>, t: nat)
    requires Conserved(s) && t < |s.pcs| && |s'.pcs| == |s.pcs| && s'.pcs == s.pcs[t := s'.pcs[t]]
    requires s'.offered == s.offered && s'.accepted == s.accepted && s'.returned == s.returned + Flying(s.pcs[t])
    requires Carried(s'.pcs[t]) == None
    ensures Conserved(s')
  {
    GatherUpdate(s.pcs, t, s'.pcs[t], Flying);
    assert InFlight(s.pcs) == InFlight(s'.pcs) + Flying(s.pcs[t]);
  }

  /** Tests, waits and unlocks leave the items alone. */
  lemma TestMovesNothing<T>(s: State<T>, a: Step<T>)
    requires Enabled(s, a) && LocalOk(s.buf, s.pcs[a.t])
    requires !a.Begin? && !a.DoCommit? && !a.DoFail? && !a.DoNotify? && !a.DoNotifyAll?
    requires !a.BeginDispose? || !s.buf.disposed
    ensures var s' := Apply(s, a);
      && s'.offered == s.offered && s'.accepted == s.accepted && s'.returned == s.returned
      && |s'.pcs| == |s.pcs| && s'.pcs == s.pcs[a.t := s'.pcs[a.t]]
      && Carried(s'.pcs[a.t]) == Carried(s.pcs[a.t])
  {}

  lemma TestConserves<T>(s: State<T>, a: Step<T>)
    requires Structure(s) && Enabled(s, a) && Conserved(s)
    requires !a.Begin? && !a.DoCommit? && !a.DoFail? && !a.DoNotify? && !a.DoNotifyAll?
    ensures Conserved(Apply(s, a))
  {
    if Holds(s.pcs[a.t]) {
      HolderIsOwner(s, a.t);
    }
    if !a.BeginDispose? || !s.buf.disposed {
      TestMovesNothing(s, a);
      StayConserves(s, Apply(s, a), a.t);
    }
  }

  lemma ItemConserves<T>(s: State<T>, a: Step<T>)
    requires Enabled(s, a) && Conserved(s) && (a.Begin? || a.DoCommit? || a.DoFail?)
    ensures Conserved(Apply(s, a))
  {
    match a
    case Begin(_, _) => EnterConserves(s, Apply(s, a), a.t);
    case DoFail(_) => ReturnConserves(s, Apply(s, a), a.t);
    case DoCommit(_) =>
      if s.pcs[a.t].op.PushOp? {
        AcceptConserves(s, Apply(s, a), a.t, s.pcs[a.t].op.item);
      } else {
        StayConserves(s, Apply(s, a), a.t);
      }
  }

  lemma NotifyMovesNothing<T>(s: State<T>, a: Step<T>, i: nat)
    requires Enabled(s, a) && (a.DoNotify? || a.DoNotifyAll?) && i < |s.pcs|
    ensures |Apply(s, a).pcs| == |s.pcs| && Carried(Apply(s, a).pcs[i]) == Carried(s.pcs[i])
  {}

  lemma NotifyConserves<T>(s: State<T>, a: Step<T>)
    requires Enabled(s, a) && Conserved(s) && (a.DoNotify? || a.DoNotifyAll?)
    ensures Conserved(Apply(s, a))
  {
    forall i | 0 <= i < |s.pcs|
      ensures |Apply(s, a).pcs| == |s.pcs| && Carried(s.pcs[i]) == Carried(Apply(s, a).pcs[i])
    {
      NotifyMovesNothing(s, a, i);
    }
    NotifyMovesNothing(s, a, a.t);
    GatherSame(s.pcs, Apply(s, a).pcs, Flying);
  }

  lemma {:induction false} RunConserves<T>(s: State<T>, steps: seq<Step<T>>, end: State<T>)
    requires Structure(s) && Conserved(s) && Run(s, steps, end)
    ensures Structure(end) && Conserved(end)
    decreases steps
  {
    if steps != [] {
      var a := steps[0];
      StepKeepsStructure(s, a);
      match a {
        case Begin(_, _) => ItemConserves(s, a);
        case DoCommit(_) => ItemConserves(s, a);
        case DoFail(_) => ItemConserves(s, a);
        case DoNotify(_, _) => NotifyConserves(s, a);
        case DoNotifyAll(_) => NotifyConserves(s, a);
        case _ => TestConserves(s, a);
      }
      RunConserves(Apply(s, a), steps[1..], end);
    }
  }

  /** Over any run: what was accepted is what was delivered followed by the buffer, the
      buffer fits, and every offered item is accounted for; with no push under way,
      offered is exactly accepted plus handed back. */
  lemma HistoryConserved<T>(s: State<T>, steps: seq<Step<T>>, end: State<T>)
    requires Init(s) && Run(s, steps, end)
    ensures end.accepted == end.delivered + end.buf.items && |end.buf.items| <= end.buf.capacity
    ensures end.offered == multiset(end.accepted) + end.returned + InFlight(end.pcs)
    ensures (forall i :: 0 <= i < |end.pcs| ==> Carried(end.pcs[i]) == None) ==>
              end.offered == multiset(end.accepted) + end.returned
  {
    InitInv(s);
    GatherEmpty(s.pcs, Flying);
    RunConserves(s, steps, end);
    if forall i :: 0 <= i < |end.pcs| ==> Carried(end.pcs[i]) == None {
      GatherEmpty(end.pcs, Flying);
    }
  }
}
