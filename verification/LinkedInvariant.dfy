/** What every reachable state of the linked queue satisfies, part one: who holds
    which mutex, how the chain, the counter and the histories fit together. */
module LinkedInvariant {
  import opened Base
  import opened Counting
  import opened LinkedChain
  import opened QueueOps
  import opened LinkedMachine

  // ------------------------------------------------------------ definitions

  function PcAt<T>(s: State<T>, o: Option<nat>): Pc<T> {
    if o.Some? && o.value < |s.pcs| then s.pcs[o.value] else Idle
  }

  /** The program counters of the producer and the consumer that own a mutex. */
  function Producer<T>(s: State<T>): Pc<T> { PcAt(s, s.pushLock) }

  function Consumer<T>(s: State<T>): Pc<T> { PcAt(s, s.popLock) }

  /** Items a consumer has unlinked but not yet subtracted from `count`. */
  function Unlinked<T>(p: Pc<T>): seq<T> {
    match p
    case Sub(x) => [x]
    case Draining(_, out) => out
    case DrainFree(_, out, _) => out
    case _ => []
  }

  /** Nodes a producer has linked but not yet added to `count`. */
  function Uncounted<T>(p: Pc<T>): nat {
    if p.Advance? || p.Add? then 1 else 0
  }

  ghost predicate LocksExact<T>(s: State<T>) {
    forall t :: 0 <= t < |s.pcs| ==>
      && (Holds(s.pcs[t], PushSide) <==> s.pushLock == Some(t))
      && (Holds(s.pcs[t], PopSide) <==> s.popLock == Some(t))
  }

  ghost predicate WaitersExact<T>(s: State<T>) {
    && s.pushWaiters == Sum(s.pcs, WaitingPush)
    && s.popWaiters == Sum(s.pcs, WaitingPop)
  }

  /** What a mutex holder may rely on. */
  predicate LocalOk<T(==)>(c: Chain<T>, p: Pc<T>) {
    match p
    case Decide(op) => c.disposed || !Blocked(c, OpSide(op))
    case ReadKind(op) => op == PopOp(Try)
    case Fail(_, err) => err == ResourceUnavailable ==> c.disposed
    case Link(_) => c.count < c.capacity
    case Advance(x) => c.count < c.capacity && c.items != [] && c.items[|c.items| - 1] == x
    case Add(x) => c.count < c.capacity && c.items != [] && c.items[|c.items| - 1] == x
    case Take => c.count > 0
    case Free(x) => c.count > 0 && c.items != [] && c.items[0] == x
    case Sub(_) => c.count > 0
    case Cascade(side, prev) => if side == PushSide then prev < c.capacity else 1 <= prev <= c.capacity
    case Draining(n, out) => |out| <= n <= c.count
    case DrainFree(n, out, x) => |out| < n <= c.count && c.items != [] && c.items[0] == x
    case Unlock(_, next) => next == Idle || next.SigLock?
    case _ => true
  }

  /** The abstract queue: it changes only at `fetch_add` and `fetch_sub`. */
  function Contents<T>(c: Chain<T>, producer: Pc<T>, consumer: Pc<T>): seq<T>
    requires Uncounted(producer) <= |c.items|
  {
    Unlinked(consumer) + c.items[..|c.items| - Uncounted(producer)]
  }

  /** Chain length against `count`, with the two half-finished operations in between. */
  ghost predicate Sizes<T>(c: Chain<T>, producer: Pc<T>, consumer: Pc<T>) {
    && (producer.Idle? || Holds(producer, PushSide)) && (consumer.Idle? || Holds(consumer, PopSide))
    && 0 < c.capacity && c.count <= c.capacity
    && |Unlinked(consumer)| + |c.items| == c.count + Uncounted(producer)
    && Uncounted(producer) <= |c.items|
    && c.lag == producer.Advance?
    && c.taken == (consumer.Free? || consumer.DrainFree?)
    && LocalOk(c, producer) && LocalOk(c, consumer)
  }

  /** ... and the histories against the abstract queue. */
  ghost predicate Core<T>(c: Chain<T>, producer: Pc<T>, consumer: Pc<T>, accepted: seq<T>, delivered: seq<T>) {
    Sizes(c, producer, consumer) && accepted == delivered + Contents(c, producer, consumer)
  }

  ghost predicate Structure<T>(s: State<T>) {
    && LocksExact(s) && WaitersExact(s)
    && Core(s.chain, Producer(s), Consumer(s), s.accepted, s.delivered)
  }

  // --------------------------------------------- the chain, action by action

  /** A program counter that pins nothing down in the chain. */
  predicate Light<T>(p: Pc<T>) {
    Unlinked(p) == [] && Uncounted(p) == 0 && !p.Free? && !p.DrainFree?
  }

  lemma SameContents<T>(c: Chain<T>, p: Pc<T>, k: Pc<T>, c': Chain<T>, p': Pc<T>, k': Pc<T>)
    requires c'.items == c.items && Uncounted(p') == Uncounted(p) <= |c.items| && Unlinked(k') == Unlinked(k)
    ensures Contents(c', p', k') == Contents(c, p, k)
  {}

  lemma ProducerMovesSizes<T>(c: Chain<T>, p: Pc<T>, p': Pc<T>, k: Pc<T>)
    requires Sizes(c, p, k) && Light(p) && Light(p') && LocalOk(c, p')
    requires p'.Idle? || Holds(p', PushSide)
    ensures Sizes(c, p', k)
  {}

  lemma CoreProducerMoves<T>(c: Chain<T>, p: Pc<T>, p': Pc<T>, k: Pc<T>, acc: seq<T>, del: seq<T>)
    requires Core(c, p, k, acc, del) && Light(p) && Light(p') && LocalOk(c, p')
    requires p'.Idle? || Holds(p', PushSide)
    ensures Core(c, p', k, acc, del)
  {
    ProducerMovesSizes(c, p, p', k);
    SameContents(c, p, k, c, p', k);
  }

  lemma ConsumerMovesSizes<T>(c: Chain<T>, p: Pc<T>, k: Pc<T>, k': Pc<T>)
    requires Sizes(c, p, k) && Light(k) && LocalOk(c, k')
    requires k'.Idle? || Holds(k', PopSide)
    requires Light(k') || (k'.Draining? && k'.out == [])
    ensures Sizes(c, p, k') && Unlinked(k') == Unlinked(k)
  {}

  lemma CoreConsumerMoves<T>(c: Chain<T>, p: Pc<T>, k: Pc<T>, k': Pc<T>, acc: seq<T>, del: seq<T>)
    requires Core(c, p, k, acc, del) && Light(k) && LocalOk(c, k')
    requires k'.Idle? || Holds(k', PopSide)
    requires Light(k') || (k'.Draining? && k'.out == [])
    ensures Core(c, p, k', acc, del)
  {
    ConsumerMovesSizes(c, p, k, k');
    SameContents(c, p, k, c, p, k');
  }

  lemma DisposeKeepsFacts<T>(c: Chain<T>, p: Pc<T>)
    requires LocalOk(c, p)
    ensures LocalOk(c.(disposed := true), p)
  {}

  lemma CoreDispose<T>(c: Chain<T>, p: Pc<T>, k: Pc<T>, acc: seq<T>, del: seq<T>)
    requires Core(c, p, k, acc, del)
    ensures Core(c.(disposed := true), p, k, acc, del)
  {
    DisposeKeepsFacts(c, p);
    DisposeKeepsFacts(c, k);
    SameContents(c, p, k, c.(disposed := true), p, k);
  }

  lemma LinkKeepsFacts<T>(c: Chain<T>, x: T, k: Pc<T>)
    requires LocalOk(c, k)
    requires k.Idle? || Holds(k, PopSide)
    ensures LocalOk(LinkNode(c, x), k)
  {}

  lemma LastApart<T>(s: seq<T>, x: T)
    ensures (s + [x])[..|s|] == s == s[..|s|]
  {}

  lemma CoreLink<T>(c: Chain<T>, x: T, k: Pc<T>, acc: seq<T>, del: seq<T>)
    requires Core(c, Link(x), k, acc, del)
    ensures Core(LinkNode(c, x), Advance(x), k, acc, del)
  {
    LastApart(c.items, x);
    LinkKeepsFacts(c, x, k);
    assert Contents(LinkNode(c, x), Advance(x), k) == Contents(c, Link(x), k);
  }

  lemma AdvanceSizes<T>(c: Chain<T>, x: T, k: Pc<T>)
    requires Sizes(c, Advance(x), k)
    ensures Sizes(AdvanceTail(c), Add(x), k)
  {}

  lemma CoreAdvance<T>(c: Chain<T>, x: T, k: Pc<T>, acc: seq<T>, del: seq<T>)
    requires Core(c, Advance(x), k, acc, del)
    ensures Core(AdvanceTail(c), Add(x), k, acc, del)
  {
    AdvanceSizes(c, x, k);
    SameContents(c, Advance(x), k, AdvanceTail(c), Add(x), k);
  }

  lemma AddSizes<T>(c: Chain<T>, x: T, k: Pc<T>)
    requires Sizes(c, Add(x), k)
    ensures Sizes(AddCount(c), Cascade(PushSide, c.count), k)
    ensures c.items != [] && c.items[|c.items| - 1] == x
  {}

  lemma LastJoins<T>(front: seq<T>, s: seq<T>)
    requires s != []
    ensures front + s[..|s|] == (front + s[..|s| - 1]) + [s[|s| - 1]]
  {}

  /** A push takes effect. */
  lemma CoreAdd<T>(c: Chain<T>, x: T, k: Pc<T>, acc: seq<T>, del: seq<T>)
    requires Core(c, Add(x), k, acc, del)
    ensures Core(AddCount(c), Cascade(PushSide, c.count), k, acc + [x], del)
    ensures Contents(AddCount(c), Cascade(PushSide, c.count), k) == Contents(c, Add(x), k) + [x]
  {
    AddSizes(c, x, k);
    LastJoins(Unlinked(k), c.items);
    assert del + (Contents(c, Add(x), k) + [x]) == acc + [x];
  }

  lemma TakeSizes<T>(c: Chain<T>, p: Pc<T>)
    requires Sizes(c, p, Take)
    ensures |c.items| > (if c.lag then 1 else 0)
    ensures Sizes(TakeItem(c), p, Free(c.items[0]))
  {}

  lemma CoreTake<T>(c: Chain<T>, p: Pc<T>, acc: seq<T>, del: seq<T>)
    requires Core(c, p, Take, acc, del)
    ensures |c.items| > (if c.lag then 1 else 0)
    ensures Core(TakeItem(c), p, Free(c.items[0]), acc, del)
  {
    TakeSizes(c, p);
    SameContents(c, p, Take, TakeItem(c), p, Free(c.items[0]));
  }

  lemma FreeKeepsFacts<T>(c: Chain<T>, p: Pc<T>)
    requires LocalOk(c, p) && c.items != [] && |c.items| > Uncounted(p)
    requires p.Idle? || Holds(p, PushSide)
    ensures LocalOk(FreeHead(c), p)
  {}

  lemma FirstMoves<T>(out: seq<T>, s: seq<T>, m: nat)
    requires 0 < m <= |s|
    ensures out + s[..m] == (out + [s[0]]) + s[1..][..m - 1]
  {}

  /** Freeing the old dummy never reaches the producer's tail. */
  lemma CoreFree<T>(c: Chain<T>, p: Pc<T>, x: T, acc: seq<T>, del: seq<T>)
    requires Core(c, p, Free(x), acc, del)
    ensures |c.items| > (if c.lag then 1 else 0)
    ensures Core(FreeHead(c), p, Sub(x), acc, del)
  {
    FreeKeepsFacts(c, p);
    FirstMoves([], c.items, |c.items| - Uncounted(p));
    assert [] + [x] == [x];
    assert Contents(FreeHead(c), p, Sub(x)) == Contents(c, p, Free(x));
  }

  lemma Regroup<T>(a: seq<T>, b: seq<T>, c: seq<T>)
    ensures a + (b + c) == (a + b) + ([] + c)
  {}

  lemma SubKeepsSizes<T>(c: Chain<T>, p: Pc<T>, x: T)
    requires Sizes(c, p, Sub(x))
    ensures Sizes(SubCount(c, 1), p, Cascade(PopSide, c.count))
  {}

  /** A pop takes effect. */
  lemma CoreSub<T>(c: Chain<T>, p: Pc<T>, x: T, acc: seq<T>, del: seq<T>)
    requires Core(c, p, Sub(x), acc, del)
    ensures Core(SubCount(c, 1), p, Cascade(PopSide, c.count), acc, del + [x])
    ensures Contents(c, p, Sub(x)) == [x] + Contents(SubCount(c, 1), p, Cascade(PopSide, c.count))
  {
    SubKeepsSizes(c, p, x);
    UnlinkedCounts(c, p, Sub(x), 1, Cascade(PopSide, c.count), acc, del);
  }

  /** Items already unlinked are delivered; nothing else about the contents changes. */
  lemma UnlinkedCounts<T>(c: Chain<T>, p: Pc<T>, k: Pc<T>, n: nat, k': Pc<T>, acc: seq<T>, del: seq<T>)
    requires Uncounted(p) <= |c.items| && n <= c.count && Unlinked(k') == []
    requires acc == del + Contents(c, p, k)
    ensures acc == (del + Unlinked(k)) + Contents(SubCount(c, n), p, k')
    ensures Contents(c, p, k) == Unlinked(k) + Contents(SubCount(c, n), p, k')
  {
    var rest := c.items[..|c.items| - Uncounted(p)];
    assert Contents(SubCount(c, n), p, k') == [] + rest == rest;
    Regroup(del, Unlinked(k), rest);
  }

  lemma DrainTakeSizes<T>(c: Chain<T>, p: Pc<T>, n: nat, out: seq<T>)
    requires Sizes(c, p, Draining(n, out)) && |out| < n
    ensures |c.items| > (if c.lag then 1 else 0)
    ensures Sizes(TakeItem(c), p, DrainFree(n, out, c.items[0]))
  {}

  lemma CoreDrainTake<T>(c: Chain<T>, p: Pc<T>, n: nat, out: seq<T>, acc: seq<T>, del: seq<T>)
    requires Core(c, p, Draining(n, out), acc, del) && |out| < n
    ensures |c.items| > (if c.lag then 1 else 0)
    ensures Core(TakeItem(c), p, DrainFree(n, out, c.items[0]), acc, del)
  {
    DrainTakeSizes(c, p, n, out);
    SameContents(c, p, Draining(n, out), TakeItem(c), p, DrainFree(n, out, c.items[0]));
  }

  lemma CoreDrainFree<T>(c: Chain<T>, p: Pc<T>, n: nat, out: seq<T>, x: T, acc: seq<T>, del: seq<T>)
    requires Core(c, p, DrainFree(n, out, x), acc, del)
    ensures |c.items| > (if c.lag then 1 else 0)
    ensures Core(FreeHead(c), p, Draining(n, out + [x]), acc, del)
  {
    FreeKeepsFacts(c, p);
    FirstMoves(out, c.items, |c.items| - Uncounted(p));
    assert Contents(FreeHead(c), p, Draining(n, out + [x])) == Contents(c, p, DrainFree(n, out, x));
  }

  lemma DrainSubKeepsSizes<T>(c: Chain<T>, p: Pc<T>, n: nat, out: seq<T>, next: Pc<T>)
    requires Sizes(c, p, Draining(n, out)) && |out| >= n && (next == Idle || next.SigLock?)
    ensures Sizes(SubCount(c, n), p, Unlock(PopSide, next))
  {}

  /** A drain takes effect. */
  lemma CoreDrainSub<T>(c: Chain<T>, p: Pc<T>, n: nat, out: seq<T>, next: Pc<T>, acc: seq<T>, del: seq<T>)
    requires Core(c, p, Draining(n, out), acc, del) && |out| >= n
    requires next == Idle || next.SigLock?
    ensures Core(SubCount(c, n), p, Unlock(PopSide, next), acc, del + out)
    ensures Contents(c, p, Draining(n, out)) == out + Contents(SubCount(c, n), p, Unlock(PopSide, next))
  {
    DrainSubKeepsSizes(c, p, n, out, next);
    UnlinkedCounts(c, p, Draining(n, out), n, Unlock(PopSide, next), acc, del);
  }

  // -------------------------------------------------------- the thread table

  lemma WaitersMove<T>(pcs: seq<Pc<T>>, t: nat, p: Pc<T>)
    requires t < |pcs|
    ensures Sum(pcs[t := p], WaitingPush) + WaitingPush(pcs[t]) == Sum(pcs, WaitingPush) + WaitingPush(p)
    ensures Sum(pcs[t := p], WaitingPop) + WaitingPop(pcs[t]) == Sum(pcs, WaitingPop) + WaitingPop(p)
    ensures WaitingPush(pcs[t]) <= Sum(pcs, WaitingPush) && WaitingPop(pcs[t]) <= Sum(pcs, WaitingPop)
  {
    SumUpdate(pcs, t, p, WaitingPush);
    SumUpdate(pcs, t, p, WaitingPop);
    SumAtLeast(pcs, t, WaitingPush);
    SumAtLeast(pcs, t, WaitingPop);
  }

  /** Thread `t` moves from one program counter to another. */
  ghost predicate Moves<T>(s: State<T>, s': State<T>, t: nat) {
    && t < |s.pcs| && |s'.pcs| == |s.pcs| && s'.pcs == s.pcs[t := s'.pcs[t]]
    && s'.pushWaiters + WaitingPush(s.pcs[t]) == s.pushWaiters + WaitingPush(s'.pcs[t])
    && s'.popWaiters + WaitingPop(s.pcs[t]) == s.popWaiters + WaitingPop(s'.pcs[t])
  }

  /** A step that keeps its mutex, if it has one. */
  lemma PlainMove<T>(s: State<T>, s': State<T>, t: nat)
    requires LocksExact(s) && WaitersExact(s) && Moves(s, s', t)
    requires s'.pushLock == s.pushLock && s'.popLock == s.popLock
    requires Holds(s'.pcs[t], PushSide) == Holds(s.pcs[t], PushSide)
    requires Holds(s'.pcs[t], PopSide) == Holds(s.pcs[t], PopSide)
    ensures LocksExact(s') && WaitersExact(s')
    ensures Producer(s') == if s.pushLock == Some(t) then s'.pcs[t] else Producer(s)
    ensures Consumer(s') == if s.popLock == Some(t) then s'.pcs[t] else Consumer(s)
    ensures s.pushLock == Some(t) ==> Producer(s) == s.pcs[t]
    ensures s.popLock == Some(t) ==> Consumer(s) == s.pcs[t]
  {
    WaitersMove(s.pcs, t, s'.pcs[t]);
  }

  lemma AcquireMove<T>(s: State<T>, s': State<T>, t: nat, side: Side)
    requires LocksExact(s) && WaitersExact(s) && Moves(s, s', t)
    requires LockOf(s, side) == None
    requires s'.pushLock == if side == PushSide then Some(t) else s.pushLock
    requires s'.popLock == if side == PopSide then Some(t) else s.popLock
    requires forall x :: Holds(s'.pcs[t], x) == (x == side)
    requires forall x :: !Holds(s.pcs[t], x)
    ensures LocksExact(s') && WaitersExact(s')
    ensures Producer(s') == if side == PushSide then s'.pcs[t] else Producer(s)
    ensures Consumer(s') == if side == PopSide then s'.pcs[t] else Consumer(s)
    ensures PcAt(s, LockOf(s, side)) == Idle
  {
    WaitersMove(s.pcs, t, s'.pcs[t]);
  }

  lemma ReleaseMove<T>(s: State<T>, s': State<T>, t: nat, side: Side)
    requires LocksExact(s) && WaitersExact(s) && Moves(s, s', t)
    requires s'.pushLock == if side == PushSide then None else s.pushLock
    requires s'.popLock == if side == PopSide then None else s.popLock
    requires forall x :: Holds(s.pcs[t], x) == (x == side)
    requires forall x :: !Holds(s'.pcs[t], x)
    ensures LocksExact(s') && WaitersExact(s')
    ensures Producer(s') == if side == PushSide then Idle else Producer(s)
    ensures Consumer(s') == if side == PopSide then Idle else Consumer(s)
    ensures PcAt(s, LockOf(s, side)) == s.pcs[t]
  {
    WaitersMove(s.pcs, t, s'.pcs[t]);
  }

  /** Waking sleepers changes nothing but where they are. */
  ghost predicate Wakes<T>(pcs: seq<Pc<T>>, pcs': seq<Pc<T>>) {
    && |pcs'| == |pcs|
    && forall i :: 0 <= i < |pcs| ==>
         pcs'[i] == pcs[i] || (pcs[i].Asleep? && pcs'[i] == Relock(pcs[i].op))
  }

  lemma WakeKeepsWaiters<T>(pcs: seq<Pc<T>>, pcs': seq<Pc<T>>)
    requires Wakes(pcs, pcs')
    ensures Sum(pcs', WaitingPush) == Sum(pcs, WaitingPush)
    ensures Sum(pcs', WaitingPop) == Sum(pcs, WaitingPop)
  {
    SumSame(pcs, pcs', WaitingPush);
    SumSame(pcs, pcs', WaitingPop);
  }

  lemma WakeMove<T>(s: State<T>, pcs': seq<Pc<T>>)
    requires Structure(s) && Wakes(s.pcs, pcs')
    ensures Structure(s.(pcs := pcs'))
    ensures Producer(s.(pcs := pcs')) == Producer(s) && Consumer(s.(pcs := pcs')) == Consumer(s)
  {
    var s' := s.(pcs := pcs');
    WakeKeepsWaiters(s.pcs, pcs');
    assert WaitersExact(s');
    assert LocksExact(s');
    assert Producer(s') == Producer(s) && Consumer(s') == Consumer(s);
  }

  // ------------------------------------------------------------ every step

  /** A test or decision: the chain, the mutexes and the histories stay. */
  lemma TestMove<T>(s: State<T>, s': State<T>, t: nat)
    requires Structure(s) && Moves(s, s', t)
    requires s'.chain == s.chain && s'.accepted == s.accepted && s'.delivered == s.delivered
    requires s'.pushLock == s.pushLock && s'.popLock == s.popLock
    requires Holds(s'.pcs[t], PushSide) == Holds(s.pcs[t], PushSide)
    requires Holds(s'.pcs[t], PopSide) == Holds(s.pcs[t], PopSide)
    requires Light(s.pcs[t]) && LocalOk(s.chain, s'.pcs[t])
    requires Light(s'.pcs[t]) || (s'.pcs[t].Draining? && s'.pcs[t].out == [])
    ensures Structure(s')
    ensures Contents(s'.chain, Producer(s'), Consumer(s')) == Contents(s.chain, Producer(s), Consumer(s))
  {
    PlainMove(s, s', t);
    if s.pushLock == Some(t) {
      CoreProducerMoves(s.chain, Producer(s), s'.pcs[t], Consumer(s), s.accepted, s.delivered);
    } else if s.popLock == Some(t) {
      CoreConsumerMoves(s.chain, Producer(s), Consumer(s), s'.pcs[t], s.accepted, s.delivered);
    }
  }

  lemma BeginKeeps<T>(s: State<T>, a: Step<T>)
    requires Structure(s) && Enabled(s, a) && (a.Begin? || a.BeginDrain? || a.Awaken?)
    ensures Structure(Apply(s, a))
  {
    TestMove(s, Apply(s, a), a.t);
  }

  lemma TestKeeps<T>(s: State<T>, a: Step<T>)
    requires Structure(s) && Enabled(s, a) && a.DoTest?
    ensures Structure(Apply(s, a))
  {
    HolderIsOwner(s, a.t);
    TestMove(s, Apply(s, a), a.t);
  }

  lemma TestCountKeeps<T>(s: State<T>, a: Step<T>)
    requires Structure(s) && Enabled(s, a) && a.DoTestCount?
    ensures Structure(Apply(s, a))
  {
    HolderIsOwner(s, a.t);
    TestMove(s, Apply(s, a), a.t);
  }

  lemma PredKeeps<T>(s: State<T>, a: Step<T>)
    requires Structure(s) && Enabled(s, a) && a.DoPred?
    ensures Structure(Apply(s, a))
  {
    HolderIsOwner(s, a.t);
    SumAtLeast(s.pcs, a.t, WaitingPush);
    SumAtLeast(s.pcs, a.t, WaitingPop);
    TestMove(s, Apply(s, a), a.t);
  }

  lemma PredCountKeeps<T>(s: State<T>, a: Step<T>)
    requires Structure(s) && Enabled(s, a) && a.DoPredCount?
    ensures Structure(Apply(s, a))
  {
    HolderIsOwner(s, a.t);
    SumAtLeast(s.pcs, a.t, WaitingPush);
    SumAtLeast(s.pcs, a.t, WaitingPop);
    TestMove(s, Apply(s, a), a.t);
  }

  lemma DecideKeeps<T>(s: State<T>, a: Step<T>)
    requires Structure(s) && Enabled(s, a) && a.DoDecide?
    ensures Structure(Apply(s, a))
  {
    HolderIsOwner(s, a.t);
    TestMove(s, Apply(s, a), a.t);
  }

  lemma ReadKindKeeps<T>(s: State<T>, a: Step<T>)
    requires Structure(s) && Enabled(s, a) && a.DoReadKind?
    ensures Structure(Apply(s, a))
  {
    HolderIsOwner(s, a.t);
    TestMove(s, Apply(s, a), a.t);
  }

  lemma DrainLoadKeeps<T>(s: State<T>, a: Step<T>)
    requires Structure(s) && Enabled(s, a) && a.DoDrainLoad?
    ensures Structure(Apply(s, a))
  {
    HolderIsOwner(s, a.t);
    TestMove(s, Apply(s, a), a.t);
  }

  /** The facts a mutex owner relies on hold of any thread that holds one. */
  lemma HolderIsOwner<T>(s: State<T>, t: nat)
    requires Structure(s) && t < |s.pcs|
    ensures Holds(s.pcs[t], PushSide) ==> s.pushLock == Some(t) && Producer(s) == s.pcs[t] && LocalOk(s.chain, s.pcs[t])
    ensures Holds(s.pcs[t], PopSide) ==> s.popLock == Some(t) && Consumer(s) == s.pcs[t] && LocalOk(s.chain, s.pcs[t])
  {}

  lemma DisposeKeeps<T>(s: State<T>, a: Step<T>)
    requires Structure(s) && Enabled(s, a) && a.BeginDispose?
    ensures Structure(Apply(s, a))
  {
    if !s.chain.disposed {
      PlainMove(s, Apply(s, a), a.t);
      CoreDispose(s.chain, Producer(s), Consumer(s), s.accepted, s.delivered);
    }
  }

  lemma TakeLockKeeps<T>(s: State<T>, a: Step<T>)
    requires Structure(s) && Enabled(s, a) && a.TakeLock?
    ensures Structure(Apply(s, a))
  {
    var s', t, side := Apply(s, a), a.t, Wants(s.pcs[a.t]).value;
    AcquireMove(s, s', t, side);
    if side == PushSide {
      CoreProducerMoves(s.chain, Idle, s'.pcs[t], Consumer(s), s.accepted, s.delivered);
    } else {
      CoreConsumerMoves(s.chain, Producer(s), Idle, s'.pcs[t], s.accepted, s.delivered);
    }
  }

  lemma DropMove<T>(s: State<T>, s': State<T>, t: nat, side: Side)
    requires Structure(s) && Moves(s, s', t)
    requires s'.chain == s.chain && s'.accepted == s.accepted && s'.delivered == s.delivered
    requires s'.pushLock == if side == PushSide then None else s.pushLock
    requires s'.popLock == if side == PopSide then None else s.popLock
    requires forall x :: Holds(s.pcs[t], x) == (x == side)
    requires forall x :: !Holds(s'.pcs[t], x)
    requires Light(s.pcs[t])
    ensures Structure(s')
  {
    ReleaseMove(s, s', t, side);
    if side == PushSide {
      CoreProducerMoves(s.chain, s.pcs[t], Idle, Consumer(s), s.accepted, s.delivered);
    } else {
      CoreConsumerMoves(s.chain, Producer(s), s.pcs[t], Idle, s.accepted, s.delivered);
    }
  }

  lemma SleepKeeps<T>(s: State<T>, a: Step<T>)
    requires Structure(s) && Enabled(s, a) && (a.DoSleep? || a.DoFail?)
    ensures Structure(Apply(s, a))
  {
    DropMove(s, Apply(s, a), a.t, OpSide(s.pcs[a.t].op));
  }

  lemma UnlockKeeps<T>(s: State<T>, a: Step<T>)
    requires Structure(s) && Enabled(s, a) && a.DoUnlock?
    ensures Structure(Apply(s, a))
  {
    HolderIsOwner(s, a.t);
    DropMove(s, Apply(s, a), a.t, s.pcs[a.t].side);
  }

  /** An action of the producer (or of the consumer) on the chain. */
  lemma OwnerMove<T>(s: State<T>, s': State<T>, t: nat, side: Side)
    requires Structure(s) && Moves(s, s', t)
    requires s'.pushLock == s.pushLock && s'.popLock == s.popLock
    requires forall x :: Holds(s.pcs[t], x) == Holds(s'.pcs[t], x) == (x == side)
    requires if side == PushSide
             then Core(s'.chain, s'.pcs[t], Consumer(s), s'.accepted, s'.delivered)
             else Core(s'.chain, Producer(s), s'.pcs[t], s'.accepted, s'.delivered)
    ensures Structure(s')
    ensures Producer(s') == (if side == PushSide then s'.pcs[t] else Producer(s))
    ensures Consumer(s') == (if side == PopSide then s'.pcs[t] else Consumer(s))
  {
    PlainMove(s, s', t);
  }

  lemma LinkKeeps<T>(s: State<T>, a: Step<T>)
    requires Structure(s) && Enabled(s, a) && a.DoLink?
    ensures Structure(Apply(s, a))
  {
    HolderIsOwner(s, a.t);
    CoreLink(s.chain, s.pcs[a.t].item, Consumer(s), s.accepted, s.delivered);
    OwnerMove(s, Apply(s, a), a.t, PushSide);
  }

  lemma AdvanceKeeps<T>(s: State<T>, a: Step<T>)
    requires Structure(s) && Enabled(s, a) && a.DoAdvance?
    ensures Structure(Apply(s, a))
  {
    HolderIsOwner(s, a.t);
    CoreAdvance(s.chain, s.pcs[a.t].item, Consumer(s), s.accepted, s.delivered);
    OwnerMove(s, Apply(s, a), a.t, PushSide);
  }

  lemma AddKeeps<T>(s: State<T>, a: Step<T>)
    requires Structure(s) && Enabled(s, a) && a.DoAdd?
    ensures Structure(Apply(s, a))
  {
    HolderIsOwner(s, a.t);
    CoreAdd(s.chain, s.pcs[a.t].item, Consumer(s), s.accepted, s.delivered);
    OwnerMove(s, Apply(s, a), a.t, PushSide);
  }

  lemma TakeKeeps<T>(s: State<T>, a: Step<T>)
    requires Structure(s) && Enabled(s, a) && a.DoTake?
    ensures Structure(Apply(s, a))
  {
    HolderIsOwner(s, a.t);
    CoreTake(s.chain, Producer(s), s.accepted, s.delivered);
    OwnerMove(s, Apply(s, a), a.t, PopSide);
  }

  lemma FreeKeeps<T>(s: State<T>, a: Step<T>)
    requires Structure(s) && Enabled(s, a) && a.DoFree?
    ensures Structure(Apply(s, a))
  {
    HolderIsOwner(s, a.t);
    CoreFree(s.chain, Producer(s), s.pcs[a.t].item, s.accepted, s.delivered);
    OwnerMove(s, Apply(s, a), a.t, PopSide);
  }

  lemma SubKeeps<T>(s: State<T>, a: Step<T>)
    requires Structure(s) && Enabled(s, a) && a.DoSub?
    ensures Structure(Apply(s, a))
  {
    HolderIsOwner(s, a.t);
    CoreSub(s.chain, Producer(s), s.pcs[a.t].item, s.accepted, s.delivered);
    OwnerMove(s, Apply(s, a), a.t, PopSide);
  }

  lemma DrainTakeKeeps<T>(s: State<T>, a: Step<T>)
    requires Structure(s) && Enabled(s, a) && a.DoDrainTake?
    ensures Structure(Apply(s, a))
  {
    HolderIsOwner(s, a.t);
    CoreDrainTake(s.chain, Producer(s), s.pcs[a.t].n, s.pcs[a.t].out, s.accepted, s.delivered);
    OwnerMove(s, Apply(s, a), a.t, PopSide);
  }

  lemma DrainFreeKeeps<T>(s: State<T>, a: Step<T>)
    requires Structure(s) && Enabled(s, a) && a.DoDrainFree?
    ensures Structure(Apply(s, a))
  {
    var k := s.pcs[a.t];
    HolderIsOwner(s, a.t);
    CoreDrainFree(s.chain, Producer(s), k.n, k.out, k.item, s.accepted, s.delivered);
    OwnerMove(s, Apply(s, a), a.t, PopSide);
  }

  lemma DrainSubKeeps<T>(s: State<T>, a: Step<T>)
    requires Structure(s) && Enabled(s, a) && a.DoDrainSub?
    ensures Structure(Apply(s, a))
  {
    var k := s.pcs[a.t];
    HolderIsOwner(s, a.t);
    CoreDrainSub(s.chain, Producer(s), k.n, k.out, Apply(s, a).pcs[a.t].next, s.accepted, s.delivered);
    OwnerMove(s, Apply(s, a), a.t, PopSide);
  }

  /** Cascades and signals: the notifier moves, then sleepers wake. */
  function Notified<T>(capacity: nat, p: Pc<T>): Pc<T> {
    match p
    case Cascade(side, prev) => Unlock(side, AfterCascade(capacity, side, prev))
    case SigHeld(side, kind) => Unlock(side, AfterSignal(side, kind))
    case _ => p
  }

  lemma NotifyWakes<T>(s: State<T>, a: Step<T>)
    requires Enabled(s, a) && (a.DoCascade? || a.DoSignal?)
    ensures var mid := Goto(s, a.t, Notified(s.chain.capacity, s.pcs[a.t]));
      Wakes(mid.pcs, Apply(s, a).pcs) && Apply(s, a) == mid.(pcs := Apply(s, a).pcs)
  {}

  lemma NotifierMoves<T>(s: State<T>, t: nat)
    requires Structure(s) && t < |s.pcs| && (s.pcs[t].Cascade? || s.pcs[t].SigHeld?)
    ensures Structure(Goto(s, t, Notified(s.chain.capacity, s.pcs[t])))
  {
    TestMove(s, Goto(s, t, Notified(s.chain.capacity, s.pcs[t])), t);
  }

  lemma NotifyKeeps<T>(s: State<T>, a: Step<T>)
    requires Structure(s) && Enabled(s, a) && (a.DoCascade? || a.DoSignal?)
    ensures Structure(Apply(s, a))
  {
    NotifyWakes(s, a);
    NotifierMoves(s, a.t);
    WakeMove(Goto(s, a.t, Notified(s.chain.capacity, s.pcs[a.t])), Apply(s, a).pcs);
  }

  lemma ChainActionKeepsStructure<T>(s: State<T>, a: Step<T>)
    requires Structure(s) && Enabled(s, a) && ChainAction(a)
    ensures Structure(Apply(s, a))
  {
    match a
    case DoDrainLoad(_) => DrainLoadKeeps(s, a);
    case DoLink(_) => LinkKeeps(s, a);
    case DoAdvance(_) => AdvanceKeeps(s, a);
    case DoAdd(_) => AddKeeps(s, a);
    case DoTake(_) => TakeKeeps(s, a);
    case DoFree(_) => FreeKeeps(s, a);
    case DoSub(_) => SubKeeps(s, a);
    case DoDrainTake(_) => DrainTakeKeeps(s, a);
    case DoDrainFree(_) => DrainFreeKeeps(s, a);
    case DoDrainSub(_) => DrainSubKeeps(s, a);
  }

  lemma DecisionKeepsStructure<T>(s: State<T>, a: Step<T>)
    requires Structure(s) && Enabled(s, a) && (Decides(a) || a.DoPred?)
    ensures Structure(Apply(s, a))
  {
    match a
    case DoTest(_) => TestKeeps(s, a);
    case DoTestCount(_) => TestCountKeeps(s, a);
    case DoPred(_) => PredKeeps(s, a);
    case DoPredCount(_, _) => PredCountKeeps(s, a);
    case DoDecide(_) => DecideKeeps(s, a);
    case DoReadKind(_) => ReadKindKeeps(s, a);
  }

  lemma LockActionKeepsStructure<T>(s: State<T>, a: Step<T>)
    requires Structure(s) && Enabled(s, a) && !ChainAction(a) && !Decides(a) && !a.DoPred?
    ensures Structure(Apply(s, a))
  {
    match a
    case Begin(_, _) => BeginKeeps(s, a);
    case BeginDrain(_) => BeginKeeps(s, a);
    case Awaken(_) => BeginKeeps(s, a);
    case BeginDispose(_) => DisposeKeeps(s, a);
    case TakeLock(_) => TakeLockKeeps(s, a);
    case DoSleep(_) => SleepKeeps(s, a);
    case DoFail(_) => SleepKeeps(s, a);
    case DoUnlock(_) => UnlockKeeps(s, a);
    case DoCascade(_, _) => NotifyKeeps(s, a);
    case DoSignal(_, _) => NotifyKeeps(s, a);
  }

  lemma StepKeepsStructure<T>(s: State<T>, a: Step<T>)
    requires Structure(s) && Enabled(s, a)
    ensures Structure(Apply(s, a))
  {
    if ChainAction(a) {
      ChainActionKeepsStructure(s, a);
    } else if Decides(a) || a.DoPred? {
      DecisionKeepsStructure(s, a);
    } else {
      LockActionKeepsStructure(s, a);
    }
  }

  // ------------------------------------------------------------ owners

  /** A mutex is owned by a thread of the table. */
  ghost predicate OwnersExist<T>(s: State<T>) {
    && (s.pushLock.Some? ==> s.pushLock.value < |s.pcs|)
    && (s.popLock.Some? ==> s.popLock.value < |s.pcs|)
  }

  /** A mutex stays, is dropped, or goes to the thread that acts. */
  lemma LocksMove<T>(s: State<T>, a: Step<T>)
    requires Enabled(s, a)
    ensures |Apply(s, a).pcs| == |s.pcs|
    ensures Apply(s, a).pushLock in {s.pushLock, None, Some(a.t)}
    ensures Apply(s, a).popLock in {s.popLock, None, Some(a.t)}
  {}

  lemma StepKeepsOwners<T>(s: State<T>, a: Step<T>)
    requires OwnersExist(s) && Enabled(s, a)
    ensures OwnersExist(Apply(s, a))
  {
    LocksMove(s, a);
  }
}
