/** ThreadPool: workers that pop jobs until the queue refuses, and a dispose that
    disposes the queue and joins them.  The queue is any queue that refines
    QueueSpec.  Submitting needs a shared reference to the pool and disposing an
    exclusive one, so no submit of the pool overlaps its dispose.  The queue itself is
    shared: somebody outside the pool may push into it, dispose it, or take jobs out
    of it, as the three flags of the state say. */
module ThreadPool {
  import opened Counting
  import opened Bags
  import QueueSpec

  datatype Worker<+Job> =
    | Popping
    | Busy(job: Job)
    | Exited      // its pop was refused
    | Crashed     // its job panicked

  /** Where `dispose` is: not begun, before the queue is disposed, waiting for the
      queue's dispose to return, joining worker `k`. */
  datatype Phase = Open | Begun | QueueDisposed | Joining(k: nat)

  /** `strict`: the queue refuses a pop only when it can accept nothing any more.
      `pushers`, `disposers`, `takers`: what others do to the queue.  `executed` and
      `taken` are history. */
  datatype State<Job> = State(
    q: QueueSpec.Queue<Job>, strict: bool, pushers: bool, disposers: bool, takers: bool,
    workers: seq<Worker<Job>>, phase: Phase, executed: seq<Job>, taken: seq<Job>)

  datatype Step<+Job> =
    | Submit(job: Job)
    | OutsidePush(job: Job)
    | OutsideDispose
    | OutsideTake(n: nat)
    | Pop(w: nat)
    | Refused(w: nat)
    | JobDone(w: nat)
    | JobPanics(w: nat)
    | BeginDispose
    | DisposeQueue
    | QueueCloses
    | QueueDisposeReturns
    | JoinWorker

  predicate CanAccept<Job>(q: QueueSpec.Queue<Job>) {
    !q.closed && |q.items| < q.capacity
  }

  ghost predicate Enabled<Job>(s: State<Job>, a: Step<Job>) {
    match a
    case Submit(_) => s.phase == Open && CanAccept(s.q)
    case OutsidePush(_) => s.pushers && CanAccept(s.q)
    case OutsideDispose => s.disposers && !s.q.disposed
    case OutsideTake(n) => s.takers && 0 < n <= |s.q.items|
    case Pop(w) => w < |s.workers| && s.workers[w].Popping? && s.q.items != []
    case Refused(w) =>
      w < |s.workers| && s.workers[w].Popping? && s.q.items == [] && s.q.disposed && (s.strict ==> s.q.closed)
    case JobDone(w) => w < |s.workers| && s.workers[w].Busy?
    case JobPanics(w) => w < |s.workers| && s.workers[w].Busy?
    case BeginDispose => s.phase == Open
    case DisposeQueue => s.phase == Begun
    case QueueCloses => s.q.disposed && !s.q.closed
    // LinkedTheorems and ArrayTheorems: a returned dispose leaves the queue closed
    case QueueDisposeReturns => s.phase == QueueDisposed && s.q.closed
    case JoinWorker => s.phase.Joining? && s.phase.k < |s.workers| &&
                       (s.workers[s.phase.k].Exited? || s.workers[s.phase.k].Crashed?)
  }

  function Put<Job>(q: QueueSpec.Queue<Job>, job: Job): QueueSpec.Queue<Job> {
    q.(items := q.items + [job], accepted := q.accepted + [job])
  }

  function Give<Job>(q: QueueSpec.Queue<Job>, n: nat): QueueSpec.Queue<Job>
    requires n <= |q.items|
  {
    q.(items := q.items[n..], delivered := q.delivered + q.items[..n])
  }

  ghost function Apply<Job>(s: State<Job>, a: Step<Job>): State<Job>
    requires Enabled(s, a)
  {
    match a
    case Submit(job) => s.(q := Put(s.q, job))
    case OutsidePush(job) => s.(q := Put(s.q, job))
    case OutsideDispose => s.(q := s.q.(disposed := true))
    case OutsideTake(n) => s.(q := Give(s.q, n), taken := s.taken + s.q.items[..n])
    case Pop(w) => s.(q := Give(s.q, 1), workers := s.workers[w := Busy(s.q.items[0])])
    case Refused(w) => s.(workers := s.workers[w := Exited])
    case JobDone(w) => s.(workers := s.workers[w := Popping], executed := s.executed + [s.workers[w].job])
    case JobPanics(w) => s.(workers := s.workers[w := Crashed], executed := s.executed + [s.workers[w].job])
    case BeginDispose => s.(phase := Begun)
    // the dispose of a queue that is disposed already returns at once
    case DisposeQueue =>
      if s.q.disposed then s.(phase := Joining(0))
      else s.(phase := QueueDisposed, q := s.q.(disposed := true))
    case QueueCloses => s.(q := s.q.(closed := true))
    case QueueDisposeReturns => s.(phase := Joining(0))
    case JoinWorker => s.(phase := Joining(s.phase.k + 1))
  }

  function EventOf<Job>(s: State<Job>, a: Step<Job>): QueueSpec.Event<Job> {
    match a
    case Submit(job) => QueueSpec.Accept(job)
    case OutsidePush(job) => QueueSpec.Accept(job)
    case OutsideDispose => QueueSpec.Event.Dispose
    case OutsideTake(n) => if n <= |s.q.items| then QueueSpec.Deliver(s.q.items[..n]) else QueueSpec.Quiet
    case Pop(_) => if s.q.items != [] then QueueSpec.Deliver([s.q.items[0]]) else QueueSpec.Quiet
    case Refused(_) => QueueSpec.Refuse
    case DisposeQueue => if s.q.disposed then QueueSpec.Quiet else QueueSpec.Event.Dispose
    case _ => QueueSpec.Quiet
  }

  ghost predicate Init<Job>(s: State<Job>) {
    && s.q == QueueSpec.Queue(s.q.capacity, [], false, false, [], [])
    && s.phase == Open && s.executed == [] && s.taken == []
    && forall w :: 0 <= w < |s.workers| ==> s.workers[w].Popping?
  }

  ghost predicate Run<Job>(s: State<Job>, steps: seq<Step<Job>>, end: State<Job>)
    decreases steps
  {
    if steps == [] then end == s
    else Enabled(s, steps[0]) && Run(Apply(s, steps[0]), steps[1..], end)
  }

  // -------------------------------------------------------------- invariant

  function JobsOf<Job>(w: Worker<Job>): multiset<Job> {
    if w.Busy? then multiset{w.job} else multiset{}
  }

  function InHand<Job>(ws: seq<Worker<Job>>): multiset<Job> {
    Gather(ws, JobsOf)
  }

  /** What left the queue has been executed once, is being executed, or was taken. */
  ghost predicate Books<Job>(s: State<Job>) {
    && multiset(s.q.delivered) == multiset(s.executed) + InHand(s.workers) + multiset(s.taken)
    && (!s.takers ==> s.taken == [])
  }

  ghost predicate SomeExited<Job>(s: State<Job>) {
    exists w :: 0 <= w < |s.workers| && s.workers[w].Exited?
  }

  predicate Gone<Job>(w: Worker<Job>) {
    w.Exited? || w.Crashed?
  }

  /** No job can slip in behind the last worker. */
  predicate Tight<Job>(s: State<Job>) {
    s.strict || (!s.pushers && !s.disposers)
  }

  /** Phases of dispose, workers and the queue fit together. */
  ghost predicate Phased<Job>(s: State<Job>) {
    && (s.q.closed ==> s.q.disposed)
    && (s.q.disposed ==> s.disposers || s.phase == QueueDisposed || s.phase.Joining?)
    && (s.phase.Joining? ==> (s.disposers || s.q.closed) && s.phase.k <= |s.workers|)
    && (forall w :: 0 <= w < |s.workers| && s.phase.Joining? && w < s.phase.k ==> Gone(s.workers[w]))
    && (SomeExited(s) ==> s.q.disposed && (s.strict ==> s.q.closed))
    && (SomeExited(s) && Tight(s) ==> s.q.items == [])
  }

  ghost predicate Inv<Job>(s: State<Job>) {
    QueueSpec.Sound(s.q) && Books(s) && Phased(s)
  }

  lemma QueueMoves<Job>(s: State<Job>, a: Step<Job>)
    requires Inv(s) && Enabled(s, a)
    ensures QueueSpec.Next(s.q, EventOf(s, a), Apply(s, a).q)
  {
    if a.Pop? {
      assert s.q.items[..1] == [s.q.items[0]];
    }
  }

  /** A worker takes a job, or puts one behind it. */
  lemma TakeKeepsBooks<Job>(s: State<Job>, s': State<Job>, w: nat, job: Job)
    requires Books(s) && w < |s.workers| && s.workers[w].Popping?
    requires s'.workers == s.workers[w := Busy(job)] && s'.executed == s.executed
    requires s'.q.delivered == s.q.delivered + [job] && s'.taken == s.taken && s'.takers == s.takers
    ensures Books(s')
  {
    GatherUpdate(s.workers, w, Busy(job), JobsOf);
    assert InHand(s'.workers) == InHand(s'.workers) + multiset{};
    assert multiset(s'.q.delivered) == multiset(s.q.delivered) + multiset{job};
  }

  lemma FinishKeepsBooks<Job>(s: State<Job>, s': State<Job>, w: nat)
    requires Books(s) && w < |s.workers| && s.workers[w].Busy? && |s'.workers| == |s.workers|
    requires s'.workers == s.workers[w := s'.workers[w]] && !s'.workers[w].Busy?
    requires s'.executed == s.executed + [s.workers[w].job] && s'.q.delivered == s.q.delivered
    requires s'.taken == s.taken && s'.takers == s.takers
    ensures Books(s')
  {
    var job := s.workers[w].job;
    GatherUpdate(s.workers, w, s'.workers[w], JobsOf);
    assert InHand(s.workers) == InHand(s.workers) + multiset{};
    assert multiset(s'.executed) == multiset(s.executed) + multiset{job};
  }

  lemma ExitKeepsBooks<Job>(s: State<Job>, s': State<Job>, w: nat)
    requires Books(s) && w < |s.workers| && s.workers[w].Popping?
    requires s'.workers == s.workers[w := Exited] && s'.executed == s.executed && s'.q.delivered == s.q.delivered
    requires s'.taken == s.taken && s'.takers == s.takers
    ensures Books(s')
  {
    GatherUpdate(s.workers, w, Exited, JobsOf);
    assert InHand(s.workers) == InHand(s.workers) + multiset{};
    assert InHand(s'.workers) == InHand(s'.workers) + multiset{};
  }

  lemma TakenKeepsBooks<Job>(s: State<Job>, s': State<Job>, out: seq<Job>)
    requires Books(s) && s.takers && s'.takers && s'.workers == s.workers && s'.executed == s.executed
    requires s'.q.delivered == s.q.delivered + out && s'.taken == s.taken + out
    ensures Books(s')
  {
    assert multiset(s'.q.delivered) == multiset(s.q.delivered) + multiset(out);
    assert multiset(s'.taken) == multiset(s.taken) + multiset(out);
  }

  lemma StepKeepsBooks<Job>(s: State<Job>, a: Step<Job>)
    requires Books(s) && Enabled(s, a)
    ensures Books(Apply(s, a))
  {
    match a
    case Pop(w) =>
      assert s.q.items[..1] == [s.q.items[0]];
      TakeKeepsBooks(s, Apply(s, a), w, s.q.items[0]);
    case OutsideTake(n) => TakenKeepsBooks(s, Apply(s, a), s.q.items[..n]);
    case JobDone(w) => FinishKeepsBooks(s, Apply(s, a), w);
    case JobPanics(w) => FinishKeepsBooks(s, Apply(s, a), w);
    case Refused(w) => ExitKeepsBooks(s, Apply(s, a), w);
    case _ =>
  }

  /** Nobody but a refused worker exits. */
  lemma ExitsMove<Job>(s: State<Job>, a: Step<Job>)
    requires Enabled(s, a) && !a.Refused?
    ensures SomeExited(Apply(s, a)) ==> SomeExited(s)
  {
    var s' := Apply(s, a);
    if SomeExited(s') {
      var w :| 0 <= w < |s'.workers| && s'.workers[w].Exited?;
      assert s.workers[w].Exited?;
    }
  }

  lemma WorkerKeepsPhased<Job>(s: State<Job>, a: Step<Job>)
    requires Phased(s) && Enabled(s, a) && (a.Pop? || a.JobDone? || a.JobPanics? || a.Refused?)
    ensures Phased(Apply(s, a))
  {
    if !a.Refused? {
      ExitsMove(s, a);
    }
  }

  lemma QueueKeepsPhased<Job>(s: State<Job>, a: Step<Job>)
    requires Phased(s) && Enabled(s, a) && !a.Pop? && !a.JobDone? && !a.JobPanics? && !a.Refused?
    ensures Phased(Apply(s, a))
  {
    ExitsMove(s, a);
  }

  lemma StepKeepsInv<Job>(s: State<Job>, a: Step<Job>)
    requires Inv(s) && Enabled(s, a)
    ensures Inv(Apply(s, a))
  {
    QueueMoves(s, a);
    QueueSpec.StepSound(s.q, EventOf(s, a), Apply(s, a).q);
    StepKeepsBooks(s, a);
    if a.Pop? || a.JobDone? || a.JobPanics? || a.Refused? {
      WorkerKeepsPhased(s, a);
    } else {
      QueueKeepsPhased(s, a);
    }
  }

  ghost predicate SameSetting<Job>(s: State<Job>, s': State<Job>) {
    && |s'.workers| == |s.workers| && s'.strict == s.strict && s'.q.capacity == s.q.capacity
    && s'.pushers == s.pushers && s'.disposers == s.disposers && s'.takers == s.takers
  }

  lemma StepKeepsSetting<Job>(s: State<Job>, a: Step<Job>)
    requires Enabled(s, a)
    ensures SameSetting(s, Apply(s, a))
  {}

  lemma {:induction false} RunKeepsSetting<Job>(s: State<Job>, steps: seq<Step<Job>>, end: State<Job>)
    requires Run(s, steps, end)
    ensures SameSetting(s, end)
    decreases steps
  {
    if steps != [] {
      StepKeepsSetting(s, steps[0]);
      RunKeepsSetting(Apply(s, steps[0]), steps[1..], end);
    }
  }

  lemma {:induction false} RunKeepsInv<Job>(s: State<Job>, steps: seq<Step<Job>>, end: State<Job>)
    requires Inv(s) && Run(s, steps, end)
    ensures Inv(end) && SameSetting(s, end)
    decreases steps
  {
    RunKeepsSetting(s, steps, end);
    if steps != [] {
      StepKeepsInv(s, steps[0]);
      RunKeepsInv(Apply(s, steps[0]), steps[1..], end);
    }
  }

  lemma InitInv<Job>(s: State<Job>)
    requires Init(s)
    ensures Inv(s)
  {
    GatherEmpty(s.workers, JobsOf);
  }

  // ---------------------------------------------------------------- results

  /** `dispose` has joined every worker. */
  predicate DisposeReturned<Job>(s: State<Job>) {
    s.phase.Joining? && s.phase.k == |s.workers|
  }

  /** Jobs leave the queue in the order in which it accepted them, and each one that
      left is executed once, in a worker's hands, or taken by somebody else, at every
      instant of every run. */
  lemma JobsLeaveInOrder<Job>(s: State<Job>, steps: seq<Step<Job>>, end: State<Job>)
    requires Init(s) && Run(s, steps, end)
    ensures end.q.delivered <= end.q.accepted
    ensures multiset(end.q.delivered) == multiset(end.executed) + InHand(end.workers) + multiset(end.taken)
    ensures !s.takers ==> end.taken == []
  {
    InitInv(s);
    RunKeepsInv(s, steps, end);
    assert end.q.delivered == end.q.accepted[..|end.q.delivered|];
  }

  /** When dispose has returned and at least one worker's loop ended by a refused pop:
      every accepted job has been executed exactly once, or taken by somebody else.  It
      holds for a queue that refuses only when closed, and for any queue that nobody
      else pushes into or disposes. */
  lemma EveryJobRunsOnce<Job>(s: State<Job>, steps: seq<Step<Job>>, end: State<Job>)
    requires Init(s) && Run(s, steps, end) && DisposeReturned(end) && SomeExited(end) && Tight(s)
    ensures multiset(end.executed) + multiset(end.taken) == multiset(end.q.accepted)
    ensures end.q.delivered == end.q.accepted && (!s.takers ==> end.taken == [])
  {
    InitInv(s);
    RunKeepsInv(s, steps, end);
    forall w | 0 <= w < |end.workers| ensures JobsOf(end.workers[w]) == multiset{} {
      assert Gone(end.workers[w]);
    }
    GatherEmpty(end.workers, JobsOf);
    assert end.q.accepted == end.q.delivered;
    assert InHand(end.workers) == multiset{};
  }

  // ------------------------------------------------------- jobs that panic

  function Panics<Job>(steps: seq<Step<Job>>): nat {
    if steps == [] then 0 else (if steps[0].JobPanics? then 1 else 0) + Panics(steps[1..])
  }

  lemma {:induction false} PanicsAdd<Job>(steps: seq<Step<Job>>, a: Step<Job>)
    ensures Panics(steps + [a]) == Panics(steps) + (if a.JobPanics? then 1 else 0)
  {
    if steps == [] {
      assert [] + [a] == [a] && [a][1..] == [];
    } else {
      assert (steps + [a])[1..] == steps[1..] + [a];
      PanicsAdd(steps[1..], a);
    }
  }

  function Crash<Job>(w: Worker<Job>): nat {
    if w.Crashed? then 1 else 0
  }

  lemma CrashIsPanic<Job>(s: State<Job>, a: Step<Job>)
    requires Enabled(s, a)
    ensures Sum(Apply(s, a).workers, Crash) <= Sum(s.workers, Crash) + Panics([a])
  {
    assert [a][1..] == [];
    match a
    case Pop(w) => SumUpdate(s.workers, w, Busy(s.q.items[0]), Crash);
    case Refused(w) => SumUpdate(s.workers, w, Exited, Crash);
    case JobDone(w) => SumUpdate(s.workers, w, Popping, Crash);
    case JobPanics(w) => SumUpdate(s.workers, w, Crashed, Crash);
    case _ =>
  }

  /** Each panic ends one worker, and nothing else crashes one. */
  lemma {:induction false} CrashesArePanics<Job>(s: State<Job>, steps: seq<Step<Job>>, end: State<Job>)
    requires Run(s, steps, end)
    ensures Sum(end.workers, Crash) <= Sum(s.workers, Crash) + Panics(steps)
    decreases steps
  {
    if steps != [] {
      assert [steps[0]][1..] == [];
      CrashIsPanic(s, steps[0]);
      CrashesArePanics(Apply(s, steps[0]), steps[1..], end);
    }
  }

  /** In particular with fewer panics than workers. */
  lemma EveryJobRunsOnceDespitePanics<Job>(s: State<Job>, steps: seq<Step<Job>>, end: State<Job>)
    requires Init(s) && Run(s, steps, end) && DisposeReturned(end) && Tight(s)
    requires Panics(steps) < |s.workers|
    ensures multiset(end.executed) + multiset(end.taken) == multiset(end.q.accepted)
    ensures end.q.delivered == end.q.accepted && (!s.takers ==> end.taken == [])
  {
    InitInv(s);
    RunKeepsInv(s, steps, end);
    SumZero(s.workers, Crash);
    CrashesArePanics(s, steps, end);
    if !SomeExited(end) {
      forall w | 0 <= w < |end.workers| ensures Crash(end.workers[w]) == 1 {
        assert Gone(end.workers[w]);
      }
      SumOnes(end.workers, Crash);
      assert false;
    }
    EveryJobRunsOnce(s, steps, end);
  }

  // ------------------------------------------------------ how a job is lost

  lemma {:induction false} RunExtends<Job>(s: State<Job>, steps: seq<Step<Job>>, mid: State<Job>, a: Step<Job>)
    returns (longer: seq<Step<Job>>)
    requires Run(s, steps, mid) && Enabled(mid, a)
    ensures longer == steps + [a] && Run(s, longer, Apply(mid, a))
    ensures Panics(longer) == Panics(steps) + (if a.JobPanics? then 1 else 0)
    decreases steps
  {
    PanicsAdd(steps, a);
    longer := steps + [a];
    if steps == [] {
      assert longer == [a] && [a][1..] == [];
    } else {
      var rest := RunExtends(Apply(s, steps[0]), steps[1..], mid, a);
      assert longer[1..] == rest;
    }
  }

  ghost predicate AllPopping<Job>(s: State<Job>) {
    forall w :: 0 <= w < |s.workers| ==> s.workers[w].Popping?
  }

  ghost predicate AllGone<Job>(s: State<Job>) {
    forall w :: 0 <= w < |s.workers| ==> Gone(s.workers[w])
  }

  /** Every worker finds the disposed queue empty and leaves. */
  lemma WorkersLeave<Job>(s: State<Job>, before: seq<Step<Job>>, mid: State<Job>)
    returns (steps: seq<Step<Job>>, end: State<Job>)
    requires Run(s, before, mid) && AllPopping(mid)
    requires mid.q.items == [] && mid.q.disposed && (mid.strict ==> mid.q.closed)
    ensures Run(s, steps, end) && Panics(steps) == Panics(before)
    ensures end == mid.(workers := end.workers) && |end.workers| == |mid.workers| && AllGone(end)
  {
    steps, end := before, mid;
    var k := 0;
    while k < |end.workers|
      invariant k <= |end.workers| == |mid.workers| && end == mid.(workers := end.workers)
      invariant Run(s, steps, end) && Panics(steps) == Panics(before)
      invariant forall w :: 0 <= w < |end.workers| ==> if w < k then end.workers[w].Exited? else end.workers[w].Popping?
    {
      steps := RunExtends(s, steps, end, Refused(k));
      end := Apply(end, Refused(k));
      k := k + 1;
    }
  }

  /** Dispose joins them one by one. */
  lemma WorkersJoined<Job>(s: State<Job>, before: seq<Step<Job>>, mid: State<Job>)
    returns (steps: seq<Step<Job>>, end: State<Job>)
    requires Run(s, before, mid) && mid.phase == Joining(0) && AllGone(mid)
    ensures Run(s, steps, end) && Panics(steps) == Panics(before)
    ensures end == mid.(phase := Joining(|mid.workers|))
  {
    steps, end := before, mid;
    var k := 0;
    while k < |mid.workers|
      invariant k <= |mid.workers| && end == mid.(phase := Joining(k))
      invariant Run(s, steps, end) && Panics(steps) == Panics(before)
    {
      assert Gone(mid.workers[k]);
      steps := RunExtends(s, steps, end, JoinWorker);
      end := Apply(end, JoinWorker);
      k := k + 1;
    }
  }

  /** Dispose has returned, and fewer jobs were executed than accepted. */
  ghost predicate Loses<Job>(s: State<Job>, steps: seq<Step<Job>>, end: State<Job>, panics: nat) {
    && Run(s, steps, end) && Panics(steps) == panics && DisposeReturned(end)
    && |end.executed| < |end.q.accepted|
  }

  /** With a queue that may refuse before it is closed (LinkedBQ), a job pushed from
      outside while the pool is disposed can be accepted after the last worker has
      left, and is then never executed. */
  lemma LateOutsidePushIsNeverRun<Job>(s: State<Job>, job: Job) returns (steps: seq<Step<Job>>, end: State<Job>)
    requires Init(s) && !s.strict && s.pushers && 0 < s.q.capacity
    ensures Loses(s, steps, end, 0) && end.q.accepted == end.q.items == [job] && end.executed == []
  {
    var s1 := Apply(s, BeginDispose);
    var s2 := Apply(s1, DisposeQueue);
    assert Run(s, [], s);
    steps := RunExtends(s, [], s, BeginDispose);
    steps := RunExtends(s, steps, s1, DisposeQueue);
    var s3, s4, s5, s6;
    steps, s3 := WorkersLeave(s, steps, s2);
    s4 := Apply(s3, OutsidePush(job));
    s5 := Apply(s4, QueueCloses);
    s6 := Apply(s5, QueueDisposeReturns);
    steps := RunExtends(s, steps, s3, OutsidePush(job));
    steps := RunExtends(s, steps, s4, QueueCloses);
    steps := RunExtends(s, steps, s5, QueueDisposeReturns);
    steps, end := WorkersJoined(s, steps, s6);
  }

  /** ... and so can a job of the pool's own, if the queue is disposed from outside: the
      workers leave while its submit is past its test of `disposed`. */
  lemma OutsideDisposeLosesASubmit<Job>(s: State<Job>, job: Job) returns (steps: seq<Step<Job>>, end: State<Job>)
    requires Init(s) && !s.strict && s.disposers && 0 < s.q.capacity
    ensures Loses(s, steps, end, 0) && end.q.accepted == end.q.items == [job] && end.executed == []
  {
    var s1 := Apply(s, OutsideDispose);
    assert Run(s, [], s);
    steps := RunExtends(s, [], s, OutsideDispose);
    var s2, s3, s4, s5;
    steps, s2 := WorkersLeave(s, steps, s1);
    s3 := Apply(s2, Submit(job));
    s4 := Apply(s3, BeginDispose);
    s5 := Apply(s4, DisposeQueue);
    steps := RunExtends(s, steps, s2, Submit(job));
    steps := RunExtends(s, steps, s3, BeginDispose);
    steps := RunExtends(s, steps, s4, DisposeQueue);
    steps, end := WorkersJoined(s, steps, s5);
  }

  /** The pool's dispose runs to the point where it joins; the queue closes on the way. */
  lemma PoolCloses<Job>(s: State<Job>, before: seq<Step<Job>>, mid: State<Job>)
    returns (steps: seq<Step<Job>>, end: State<Job>)
    requires Run(s, before, mid) && mid.phase == Open && !mid.q.disposed && !mid.q.closed
    ensures Run(s, steps, end) && Panics(steps) == Panics(before)
    ensures end == mid.(phase := QueueDisposed, q := mid.q.(disposed := true, closed := true))
  {
    var s1 := Apply(mid, BeginDispose);
    var s2 := Apply(s1, DisposeQueue);
    end := Apply(s2, QueueCloses);
    steps := RunExtends(s, before, mid, BeginDispose);
    steps := RunExtends(s, steps, s1, DisposeQueue);
    steps := RunExtends(s, steps, s2, QueueCloses);
  }

  /** A job that somebody else takes is not executed by the pool. */
  lemma TakenJobIsNeverRun<Job>(s: State<Job>, job: Job) returns (steps: seq<Step<Job>>, end: State<Job>)
    requires Init(s) && s.takers && 0 < s.q.capacity
    ensures Loses(s, steps, end, 0) && end.q.accepted == end.taken == [job] && end.executed == []
  {
    var s1 := Apply(s, Submit(job));
    var s2 := Apply(s1, OutsideTake(1));
    assert Run(s, [], s);
    steps := RunExtends(s, [], s, Submit(job));
    steps := RunExtends(s, steps, s1, OutsideTake(1));
    var s3, s4;
    steps, s3 := PoolCloses(s, steps, s2);
    steps, s4 := WorkersLeave(s, steps, s3);
    steps := RunExtends(s, steps, s4, QueueDisposeReturns);
    steps, end := WorkersJoined(s, steps, Apply(s4, QueueDisposeReturns));
  }

  /** Each worker in turn takes a job that panics. */
  lemma WorkersCrash<Job>(s: State<Job>, job: Job) returns (steps: seq<Step<Job>>, end: State<Job>)
    requires Init(s) && 0 < s.q.capacity
    ensures Run(s, steps, end) && Panics(steps) == |s.workers| && AllGone(end)
    ensures end == s.(q := end.q, workers := end.workers, executed := end.executed)
    ensures end.q == s.q.(accepted := end.q.accepted, delivered := end.q.delivered)
    ensures |end.workers| == |s.workers| == |end.q.accepted| == |end.executed|
  {
    assert Run(s, [], s);
    steps, end := [], s;
    var k := 0;
    while k < |s.workers|
      invariant k <= |s.workers| == |end.workers| && Run(s, steps, end) && Panics(steps) == k
      invariant end == s.(q := end.q, workers := end.workers, executed := end.executed)
      invariant end.q == s.q.(accepted := end.q.accepted, delivered := end.q.delivered)
      invariant |end.q.accepted| == |end.executed| == k
      invariant forall w :: 0 <= w < |end.workers| ==>
                  if w < k then end.workers[w].Crashed? else end.workers[w].Popping?
    {
      steps, end := OneMoreCrash(s, steps, end, k, job);
      k := k + 1;
    }
  }

  lemma OneMoreCrash<Job>(s: State<Job>, before: seq<Step<Job>>, mid: State<Job>, w: nat, job: Job)
    returns (steps: seq<Step<Job>>, end: State<Job>)
    requires Run(s, before, mid) && mid.phase == Open && !mid.q.closed && mid.q.items == [] && 0 < mid.q.capacity
    requires w < |mid.workers| && mid.workers[w].Popping?
    ensures Run(s, steps, end) && Panics(steps) == Panics(before) + 1
    ensures end == mid.(q := end.q, workers := mid.workers[w := Crashed], executed := mid.executed + [job])
    ensures end.q == mid.q.(accepted := mid.q.accepted + [job], delivered := mid.q.delivered + [job])
  {
    var s1 := Apply(mid, Submit(job));
    var s2 := Apply(s1, Pop(w));
    end := Apply(s2, JobPanics(w));
    assert s1.q.items == [job] && s1.q.items[..1] == [job] && s1.q.items[1..] == [];
    steps := RunExtends(s, before, mid, Submit(job));
    steps := RunExtends(s, steps, s1, Pop(w));
    steps := RunExtends(s, steps, s2, JobPanics(w));
    assert end.workers == mid.workers[w := Crashed];
  }

  /** As many panics as workers leave nobody to execute the next job. */
  lemma PanicsLoseAJob<Job>(s: State<Job>, job: Job) returns (steps: seq<Step<Job>>, end: State<Job>)
    requires Init(s) && 0 < s.q.capacity
    ensures Loses(s, steps, end, |s.workers|)
  {
    var s1, s3;
    steps, s1 := WorkersCrash(s, job);
    var s2 := Apply(s1, Submit(job));
    steps := RunExtends(s, steps, s1, Submit(job));
    steps, s3 := PoolCloses(s, steps, s2);
    steps := RunExtends(s, steps, s3, QueueDisposeReturns);
    steps, end := WorkersJoined(s, steps, Apply(s3, QueueDisposeReturns));
  }

  /** Every job accepted by the time dispose has returned was executed by the pool, in
      every run with at most `panics` panicking jobs. */
  ghost predicate AlwaysRunsEveryJob<Job(!new)>(s: State<Job>, panics: nat) {
    forall steps, end ::
      (Run(s, steps, end) && Panics(steps) <= panics && DisposeReturned(end)) ==>
        multiset(end.executed) == multiset(end.q.accepted)
  }

  lemma LossRefutes<Job(!new)>(s: State<Job>, steps: seq<Step<Job>>, end: State<Job>, k: nat, panics: nat)
    requires Loses(s, steps, end, k) && k <= panics
    ensures !AlwaysRunsEveryJob(s, panics)
  {
    assert |multiset(end.executed)| == |end.executed| && |multiset(end.q.accepted)| == |end.q.accepted|;
  }

  /** The pool executes every accepted job in every run if and only if fewer jobs panic
      than there are workers, nobody else takes jobs out of the queue, and the queue
      refuses a pop only when closed or nobody else pushes into it or disposes it. */
  lemma EveryJobRunsOnceIff<Job(!new)>(s: State<Job>, panics: nat, job: Job)
    requires Init(s) && 0 < s.q.capacity
    ensures AlwaysRunsEveryJob(s, panics) <==>
              panics < |s.workers| && !s.takers && (s.strict || (!s.pushers && !s.disposers))
  {
    if |s.workers| <= panics {
      var steps, end := PanicsLoseAJob(s, job);
      LossRefutes(s, steps, end, |s.workers|, panics);
    } else if s.takers {
      var steps, end := TakenJobIsNeverRun(s, job);
      LossRefutes(s, steps, end, 0, panics);
    } else if !s.strict && s.pushers {
      var steps, end := LateOutsidePushIsNeverRun(s, job);
      LossRefutes(s, steps, end, 0, panics);
    } else if !s.strict && s.disposers {
      var steps, end := OutsideDisposeLosesASubmit(s, job);
      LossRefutes(s, steps, end, 0, panics);
    } else {
      forall steps, end | Run(s, steps, end) && Panics(steps) <= panics && DisposeReturned(end)
        ensures multiset(end.executed) == multiset(end.q.accepted)
      {
        EveryJobRunsOnceDespitePanics(s, steps, end);
        assert multiset(end.taken) == multiset{};
      }
    }
  }
}
