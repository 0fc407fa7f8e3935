/** Join handles of the pool: every spawned worker is joined exactly once, by a
    reap or by dispose, and when dispose has returned the pool is idle. */
module ThreadPerTaskHandles {
  import opened Counting
  import opened Bags
  import opened ThreadPerTask
  import opened ThreadPerTaskSlots

  // ------------------------------------------------------- swap_remove, reap

  lemma SwapRemoveKeepsRest<T>(s: seq<T>, i: nat)
    requires i < |s|
    ensures multiset(SwapRemove(s, i)) + multiset{s[i]} == multiset(s)
  {
    var last := |s| - 1;
    var swapped := s[i := s[last]];
    assert swapped == swapped[..last] + [swapped[last]];
    assert s == s[..last] + [s[last]];
    if i < last {
      assert swapped[..last] == s[..i] + [s[last]] + s[i + 1..last];
      assert s[..last] == s[..i] + [s[i]] + s[i + 1..last];
    } else {
      assert swapped == s;
    }
  }

  // Small facts about multisets.

  lemma OneMore<T>(s: seq<T>, x: T)
    ensures multiset(s + [x]) == multiset(s) + multiset{x}
  {}

  lemma HeadOut<T>(s: seq<T>)
    requires s != []
    ensures multiset(s) == multiset{s[0]} + multiset(s[1..])
  {
    assert s == [s[0]] + s[1..];
  }

  lemma MoveOver<T>(a: multiset<T>, x: T, b: multiset<T>)
    ensures a + (multiset{x} + b) == (a + multiset{x}) + b
  {}

  lemma MoveIn<T>(a: multiset<T>, b: multiset<T>, x: T)
    ensures a + (b + multiset{x}) == (a + b) + multiset{x}
  {}

  lemma MoveAcross<T>(a: multiset<T>, b: multiset<T>, x: T)
    ensures (a + multiset{x}) + b == (a + b) + multiset{x}
  {}

  /** The handle vector with the loop of `reap`.  `finished(h)` is the answer the one
      call of `is_finished` on handle `h` gets. */
  class HandleTable<H(==)> {
    var handles: seq<H>

    constructor ()
      ensures handles == []
    {
      handles := [];
    }

    method Push(h: H)
      modifies this
      ensures handles == old(handles) + [h]
    {
      handles := handles + [h];
    }

    /** Although swap_remove reorders the vector under the loop, every handle is inspected
        exactly once; the kept ones are those seen running, the joined ones the rest. */
    method Reap(finished: H -> bool) returns (joined: seq<H>, ghost inspected: seq<H>)
      modifies this
      ensures multiset(inspected) == multiset(old(handles))
      ensures multiset(handles) + multiset(joined) == multiset(old(handles))
      ensures forall h :: h in handles ==> !finished(h)
      ensures forall h :: h in joined ==> finished(h)
    {
      joined, inspected := [], [];
      var i := 0;
      while i < |handles|
        invariant Inspected(old(handles), handles, i, inspected, joined, finished)
        decreases |handles| - i
      {
        var h := handles[i];
        if finished(h) {
          InspectFinished(old(handles), handles, i, inspected, joined, finished);
          handles := SwapRemove(handles, i);
          joined := joined + [h];
        } else {
          InspectRunning(old(handles), handles, i, inspected, joined, finished);
          i := i + 1;
        }
        inspected := inspected + [h];
      }
      AllInspected(old(handles), handles, inspected, joined, finished);
    }
  }

  /** The loop of `reap` at position `i`: what has been inspected is in front of `i` or
      joined, what has not is behind. */
  ghost predicate Inspected<H>(all: seq<H>, hs: seq<H>, i: nat, inspected: seq<H>, joined: seq<H>,
                               finished: H -> bool) {
    && i <= |hs|
    && multiset(inspected) + multiset(hs[i..]) == multiset(all)
    && multiset(hs[..i]) + multiset(joined) == multiset(inspected)
    && (forall k :: 0 <= k < i ==> !finished(hs[k]))
    && (forall h :: h in joined ==> finished(h))
  }

  lemma AllInspected<H>(all: seq<H>, hs: seq<H>, inspected: seq<H>, joined: seq<H>, finished: H -> bool)
    requires Inspected(all, hs, |hs|, inspected, joined, finished)
    ensures multiset(inspected) == multiset(all) && multiset(hs) + multiset(joined) == multiset(all)
    ensures forall h :: h in hs ==> !finished(h)
    ensures forall h :: h in joined ==> finished(h)
  {
    assert hs[..|hs|] == hs && hs[|hs|..] == [];
  }

  lemma InspectFinished<H>(all: seq<H>, hs: seq<H>, i: nat, inspected: seq<H>, joined: seq<H>, finished: H -> bool)
    requires Inspected(all, hs, i, inspected, joined, finished) && i < |hs| && finished(hs[i])
    ensures Inspected(all, SwapRemove(hs, i), i, inspected + [hs[i]], joined + [hs[i]], finished)
  {
    var h := hs[i];
    HeadOut(hs[i..]);
    assert hs[i..][1..] == hs[i + 1..];
    SwapRemoveTail(hs, i);
    OneMore(inspected, h);
    OneMore(joined, h);
    MoveOver(multiset(inspected), h, multiset(hs[i + 1..]));
    MoveIn(multiset(hs[..i]), multiset(joined), h);
    forall k | 0 <= k < i ensures !finished(SwapRemove(hs, i)[k]) {
      assert SwapRemove(hs, i)[..i][k] == hs[..i][k];
    }
  }

  lemma InspectRunning<H>(all: seq<H>, hs: seq<H>, i: nat, inspected: seq<H>, joined: seq<H>, finished: H -> bool)
    requires Inspected(all, hs, i, inspected, joined, finished) && i < |hs| && !finished(hs[i])
    ensures Inspected(all, hs, i + 1, inspected + [hs[i]], joined, finished)
  {
    var h := hs[i];
    HeadOut(hs[i..]);
    assert hs[i..][1..] == hs[i + 1..];
    OneMore(inspected, h);
    OneMore(hs[..i], h);
    assert hs[..i + 1] == hs[..i] + [h];
    MoveOver(multiset(inspected), h, multiset(hs[i + 1..]));
    MoveAcross(multiset(hs[..i]), multiset(joined), h);
  }

  /** What swap_remove at `i` does to the part the loop has yet to see. */
  lemma SwapRemoveTail<T>(s: seq<T>, i: nat)
    requires i < |s|
    ensures SwapRemove(s, i)[..i] == s[..i]
    ensures multiset(SwapRemove(s, i)[i..]) == multiset(s[i + 1..])
  {
    var last := |s| - 1;
    if i < last {
      assert SwapRemove(s, i)[i..] == [s[last]] + s[i + 1..last];
      assert s[i + 1..] == s[i + 1..last] + [s[last]];
    } else {
      assert SwapRemove(s, i)[i..] == [] && s[i + 1..] == [];
    }
  }

  // ----------------------------------------------------------------- books

  function HandsOf(p: Pc): multiset<nat> {
    multiset(Carried(p))
  }

  function InHands(pcs: seq<Pc>): multiset<nat> {
    Gather(pcs, HandsOf)
  }

  /** Every spawned handle is in the vector, joined, or in some thread's hands. */
  ghost predicate Books(s: State) {
    multiset(s.spawned) == multiset(s.handles) + multiset(s.joined) + InHands(s.pcs)
  }

  lemma StayKeepsBooks(s: State, s': State, t: nat)
    requires Books(s) && t < |s.pcs| && |s'.pcs| == |s.pcs| && s'.pcs == s.pcs[t := s'.pcs[t]]
    requires s'.spawned == s.spawned && s'.handles == s.handles && s'.joined == s.joined
    requires Carried(s'.pcs[t]) == Carried(s.pcs[t])
    ensures Books(s')
  {
    GatherUpdate(s.pcs, t, s'.pcs[t], HandsOf);
    Cancel(InHands(s'.pcs), multiset(Carried(s.pcs[t])), InHands(s.pcs));
  }

  lemma ReapKeepsBooks(s: State, a: Step)
    requires Enabled(s, a) && Books(s) && a.Reap?
    ensures Books(Apply(s, a))
  {
    var i := s.pcs[a.t].i;
    if i < |s.handles| && a.seen {
      SwapRemoveKeepsRest(s.handles, i);
      assert multiset(s.joined + [s.handles[i]]) == multiset(s.joined) + multiset{s.handles[i]};
    } else {
      StayKeepsBooks(s, Apply(s, a), a.t);
    }
  }

  lemma OneMoreInHands(spawned: multiset<nat>, handles: multiset<nat>, joined: multiset<nat>,
                       hands: multiset<nat>, hands': multiset<nat>, w: nat)
    requires spawned == handles + joined + hands && hands' + multiset{} == hands + multiset{w}
    ensures spawned + multiset{w} == handles + joined + hands'
  {
    assert hands' == hands' + multiset{};
  }

  lemma OneJoined(spawned: multiset<nat>, handles: multiset<nat>, joined: multiset<nat>,
                  hands: multiset<nat>, hands': multiset<nat>, w: nat, rest: multiset<nat>)
    requires spawned == handles + joined + hands && hands' + (multiset{w} + rest) == hands + rest
    ensures spawned == handles + (joined + multiset{w}) + hands'
  {
    assert (hands' + multiset{w}) + rest == hands + rest;
    Cancel(hands' + multiset{w}, rest, hands);
  }

  lemma SpawnedBooks(s: State, s': State, t: nat, w: nat)
    requires Books(s) && t < |s.pcs| && Carried(s.pcs[t]) == []
    requires s'.pcs == s.pcs[t := HandleLock(w)] + [Running] && s'.spawned == s.spawned + [w]
    requires s'.handles == s.handles && s'.joined == s.joined
    ensures Books(s')
  {
    var mid := s.pcs[t := HandleLock(w)];
    GatherUpdate(s.pcs, t, HandleLock(w), HandsOf);
    GatherAppend(mid, Running, HandsOf);
    OneMore(s.spawned, w);
    assert multiset(Carried(HandleLock(w))) == multiset{w};
    OneMoreInHands(multiset(s.spawned), multiset(s.handles), multiset(s.joined), InHands(s.pcs), InHands(mid), w);
  }

  lemma SpawnKeepsBooks(s: State, a: Step)
    requires Enabled(s, a) && Books(s) && a.Spawn?
    ensures Books(Apply(s, a))
  {
    if a.ok {
      SpawnedBooks(s, Apply(s, a), a.t, |s.pcs|);
    } else {
      StayKeepsBooks(s, Apply(s, a), a.t);
    }
  }

  lemma PushKeepsBooks(s: State, a: Step)
    requires Enabled(s, a) && Books(s) && a.PushHandle?
    ensures Books(Apply(s, a))
  {
    var w := s.pcs[a.t].w;
    GatherUpdate(s.pcs, a.t, Idle, HandsOf);
    assert multiset([w]) == multiset{w};
    assert InHands(s.pcs) == InHands(s.pcs[a.t := Idle]) + multiset{w};
    assert multiset(s.handles + [w]) == multiset(s.handles) + multiset{w};
  }

  lemma TakenBooks(s: State, s': State, t: nat)
    requires Books(s) && t < |s.pcs| && Carried(s.pcs[t]) == []
    requires s'.pcs == s.pcs[t := Joining(s.handles)] && s'.handles == []
    requires s'.joined == s.joined && s'.spawned == s.spawned
    ensures Books(s')
  {
    GatherUpdate(s.pcs, t, Joining(s.handles), HandsOf);
    assert Carried(Joining(s.handles)) == s.handles;
    AllTaken(multiset(s.spawned), multiset(s.handles), multiset(s.joined), InHands(s.pcs), InHands(s'.pcs));
  }

  lemma AllTaken(spawned: multiset<nat>, handles: multiset<nat>, joined: multiset<nat>,
                 hands: multiset<nat>, hands': multiset<nat>)
    requires spawned == handles + joined + hands
    requires hands' + multiset([]) == hands + handles
    ensures spawned == multiset([]) + joined + hands'
  {
    assert hands' == hands + handles;
  }

  lemma TakeKeepsBooks(s: State, a: Step)
    requires Enabled(s, a) && Books(s) && a.TakeHandles?
    ensures Books(Apply(s, a))
  {
    TakenBooks(s, Apply(s, a), a.t);
  }

  lemma JoinedBooks(s: State, s': State, t: nat, hs: seq<nat>)
    requires Books(s) && t < |s.pcs| && hs != [] && Carried(s.pcs[t]) == hs
    requires s'.pcs == s.pcs[t := Joining(hs[1..])] && s'.joined == s.joined + [hs[0]]
    requires s'.handles == s.handles && s'.spawned == s.spawned
    ensures Books(s')
  {
    GatherUpdate(s.pcs, t, Joining(hs[1..]), HandsOf);
    assert Carried(Joining(hs[1..])) == hs[1..];
    HeadOut(hs);
    OneMore(s.joined, hs[0]);
    OneJoined(multiset(s.spawned), multiset(s.handles), multiset(s.joined),
              InHands(s.pcs), InHands(s'.pcs), hs[0], multiset(hs[1..]));
  }

  lemma JoinKeepsBooks(s: State, a: Step)
    requires Enabled(s, a) && Books(s) && a.Join?
    ensures Books(Apply(s, a))
  {
    var hs := s.pcs[a.t].hs;
    if hs == [] {
      StayKeepsBooks(s, Apply(s, a), a.t);
    } else {
      JoinedBooks(s, Apply(s, a), a.t, hs);
    }
  }

  lemma NotifyCarries(s: State, a: Step, i: nat)
    requires Enabled(s, a) && (a.Notify? || a.NotifyAll?) && i < |s.pcs|
    ensures |Apply(s, a).pcs| == |s.pcs| && Carried(Apply(s, a).pcs[i]) == Carried(s.pcs[i])
  {}

  lemma NotifyKeepsBooks(s: State, a: Step)
    requires Enabled(s, a) && Books(s) && (a.Notify? || a.NotifyAll?)
    ensures Books(Apply(s, a))
  {
    forall i | 0 <= i < |s.pcs| ensures Carried(Apply(s, a).pcs[i]) == Carried(s.pcs[i]) {
      NotifyCarries(s, a, i);
    }
    GatherSame(s.pcs, Apply(s, a).pcs, HandsOf);
  }

  lemma WaitKeepsBooks(s: State, a: Step)
    requires Enabled(s, a) && Books(s)
    requires a.DoPred? || a.DoSleep? || a.Awaken? || a.DoDecide? || a.TakeCountLock?
    ensures Books(Apply(s, a))
  {
    StayKeepsBooks(s, Apply(s, a), a.t);
  }

  lemma LockKeepsBooks(s: State, a: Step)
    requires Enabled(s, a) && Books(s) && LocalOk(s, s.pcs[a.t])
    requires a.DropCountLock? || a.TakeHandleLock? || a.JobEnds? || a.Decrement?
    ensures Books(Apply(s, a))
  {
    StayKeepsBooks(s, Apply(s, a), a.t);
  }

  lemma BeginKeepsBooks(s: State, a: Step)
    requires Enabled(s, a) && Books(s) && (a.Submit? || a.BeginDispose?)
    ensures Books(Apply(s, a))
  {
    if !s.disposed {
      StayKeepsBooks(s, Apply(s, a), a.t);
    }
  }

  lemma StepKeepsBooks(s: State, a: Step)
    requires AllOk(s) && Enabled(s, a) && Books(s)
    ensures Books(Apply(s, a))
  {
    match a
    case Reap(_, _) => ReapKeepsBooks(s, a);
    case Spawn(_, _) => SpawnKeepsBooks(s, a);
    case PushHandle(_) => PushKeepsBooks(s, a);
    case TakeHandles(_) => TakeKeepsBooks(s, a);
    case Join(_) => JoinKeepsBooks(s, a);
    case Notify(_, _) => NotifyKeepsBooks(s, a);
    case NotifyAll(_) => NotifyKeepsBooks(s, a);
    case Submit(_) => BeginKeepsBooks(s, a);
    case BeginDispose(_) => BeginKeepsBooks(s, a);
    case DropCountLock(_) => LockKeepsBooks(s, a);
    case TakeHandleLock(_) => LockKeepsBooks(s, a);
    case JobEnds(_) => LockKeepsBooks(s, a);
    case Decrement(_) => LockKeepsBooks(s, a);
    case _ => WaitKeepsBooks(s, a);
  }

  // ------------------------------------------------------------ rows, phases

  /** Exactly the spawned rows are workers; joined workers have finished. */
  ghost predicate Rows(s: State) {
    && (forall i :: 0 <= i < |s.pcs| ==> (Worker(s.pcs[i]) <==> i in s.spawned))
    && (forall w :: w in s.spawned ==> w < |s.pcs|)
    && (forall i, j :: 0 <= i < j < |s.spawned| ==> s.spawned[i] < s.spawned[j])
    && (forall w :: w in s.joined ==> w < |s.pcs| && s.pcs[w] == Finished)
  }

  /** After `dispose` has begun, only workers and the disposer move, and there is one
      disposer exactly while the pool is borrowed; the vector is empty once taken. */
  ghost predicate Phases(s: State) {
    && (s.borrowed ==> s.disposed)
    && (s.disposed ==> forall i :: 0 <= i < |s.pcs| ==> s.pcs[i] == Idle || Worker(s.pcs[i]) || Disposer(s.pcs[i]))
    && (forall i :: 0 <= i < |s.pcs| && Disposer(s.pcs[i]) ==> s.borrowed)
    && (forall i, j :: 0 <= i < |s.pcs| && 0 <= j < |s.pcs| && Disposer(s.pcs[i]) && Disposer(s.pcs[j]) ==> i == j)
    && (s.disposed && !s.borrowed ==> s.handles == [])
    && (forall i :: 0 <= i < |s.pcs| && s.pcs[i].Joining? ==> s.handles == [])
  }

  ghost predicate Ledger(s: State) {
    AllOk(s) && Books(s) && Rows(s) && Phases(s)
  }

  lemma OthersStay(s: State, a: Step, i: nat)
    requires Enabled(s, a) && i < |s.pcs| && i != a.t
    ensures |Apply(s, a).pcs| >= |s.pcs|
    ensures Apply(s, a).pcs[i] == s.pcs[i] || (s.pcs[i] == Asleep && Apply(s, a).pcs[i] == Relock)
  {}

  /** A worker stays a worker, anybody else stays no worker; Finished is the end. */
  ghost predicate SameKind(s: State, a: Step)
    requires Enabled(s, a)
  {
    && |Apply(s, a).pcs| >= |s.pcs|
    && Worker(Apply(s, a).pcs[a.t]) == Worker(s.pcs[a.t])
    && (s.pcs[a.t] == Finished ==> Apply(s, a).pcs[a.t] == Finished)
  }

  lemma WaitKeepsKind(s: State, a: Step)
    requires Enabled(s, a) && LocalOk(s, s.pcs[a.t])
    requires a.TakeCountLock? || a.DoPred? || a.DoSleep? || a.Awaken? || a.DoDecide? || a.DropCountLock?
    ensures SameKind(s, a)
  {}

  lemma ReleaseKeepsKind(s: State, a: Step)
    requires Enabled(s, a) && (a.Spawn? || a.JobEnds? || a.Decrement? || a.Notify? || a.NotifyAll?)
    ensures SameKind(s, a)
  {}

  lemma HandleKeepsKind(s: State, a: Step)
    requires Enabled(s, a)
    requires a.Submit? || a.TakeHandleLock? || a.Reap? || a.PushHandle? || a.BeginDispose? || a.TakeHandles? || a.Join?
    ensures SameKind(s, a)
  {}

  lemma OwnRow(s: State, a: Step)
    requires Enabled(s, a) && LocalOk(s, s.pcs[a.t])
    ensures SameKind(s, a)
  {
    if a.TakeCountLock? || a.DoPred? || a.DoSleep? || a.Awaken? || a.DoDecide? || a.DropCountLock? {
      WaitKeepsKind(s, a);
    } else if a.Spawn? || a.JobEnds? || a.Decrement? || a.Notify? || a.NotifyAll? {
      ReleaseKeepsKind(s, a);
    } else {
      HandleKeepsKind(s, a);
    }
  }

  lemma HistoryRows(s: State, a: Step)
    requires Enabled(s, a)
    ensures var s' := Apply(s, a);
      if a.Spawn? && a.ok then
        && |s'.pcs| == |s.pcs| + 1 && s'.pcs[|s.pcs|] == Running
        && s'.spawned == s.spawned + [|s.pcs|] && s'.joined == s.joined
      else
        && |s'.pcs| == |s.pcs| && s'.spawned == s.spawned
        && (s'.joined == s.joined
            || exists w: nat :: w < |s.pcs| && s.pcs[w] == Finished && s'.joined == s.joined + [w])
  {}

  lemma KindsStay(s: State, a: Step, i: nat)
    requires Enabled(s, a) && AllOk(s) && i < |s.pcs|
    ensures |Apply(s, a).pcs| >= |s.pcs|
    ensures Worker(Apply(s, a).pcs[i]) == Worker(s.pcs[i])
    ensures s.pcs[i] == Finished ==> Apply(s, a).pcs[i] == Finished
  {
    if i != a.t {
      OthersStay(s, a, i);
    } else {
      assert LocalOk(s, s.pcs[i]);
      OwnRow(s, a);
    }
  }

  /** Rows, from what a step does to kinds and histories. */
  lemma RowsFollow(s: State, s': State)
    requires Rows(s) && |s'.pcs| >= |s.pcs|
    requires forall i :: 0 <= i < |s.pcs| ==> Worker(s'.pcs[i]) == Worker(s.pcs[i])
    requires forall i :: 0 <= i < |s.pcs| && s.pcs[i] == Finished ==> s'.pcs[i] == Finished
    requires
      || (&& |s'.pcs| == |s.pcs| + 1 && s'.pcs[|s.pcs|] == Running
          && s'.spawned == s.spawned + [|s.pcs|] && s'.joined == s.joined)
      || (&& |s'.pcs| == |s.pcs| && s'.spawned == s.spawned
          && (s'.joined == s.joined
              || exists w: nat :: w < |s.pcs| && s.pcs[w] == Finished && s'.joined == s.joined + [w]))
    ensures Rows(s')
  {
    forall k | 0 <= k < |s.spawned| ensures s.spawned[k] < |s.pcs| {
      assert s.spawned[k] in s.spawned;
    }
  }

  lemma StepKeepsRows(s: State, a: Step)
    requires Enabled(s, a) && AllOk(s) && Rows(s)
    ensures Rows(Apply(s, a))
  {
    var s' := Apply(s, a);
    HistoryRows(s, a);
    forall i | 0 <= i < |s.pcs|
      ensures Worker(s'.pcs[i]) == Worker(s.pcs[i])
      ensures s.pcs[i] == Finished ==> s'.pcs[i] == Finished
    {
      KindsStay(s, a, i);
    }
    RowsFollow(s, s');
  }

  lemma ClientIsNoDisposer(s: State, a: Step)
    requires Enabled(s, a) && !s.disposed
    requires a.Submit? || a.TakeHandleLock? || a.Reap? || a.DoPred? || a.DoSleep? || a.DoDecide? || a.Spawn?
             || a.PushHandle? || a.TakeCountLock?
    ensures !Apply(s, a).disposed && Apply(s, a).borrowed == s.borrowed
    ensures |Apply(s, a).pcs| >= |s.pcs|
    ensures !Disposer(s.pcs[a.t]) ==> !Disposer(Apply(s, a).pcs[a.t])
  {}

  lemma ReleaserIsNoDisposer(s: State, a: Step)
    requires Enabled(s, a) && !s.disposed && LocalOk(s, s.pcs[a.t]) && !Disposer(s.pcs[a.t])
    requires a.Awaken? || a.DropCountLock? || a.JobEnds? || a.Decrement? || a.Notify?
    ensures !Apply(s, a).disposed && Apply(s, a).borrowed == s.borrowed
    ensures |Apply(s, a).pcs| >= |s.pcs| && !Disposer(Apply(s, a).pcs[a.t])
  {}

  lemma NoDisposerYet(s: State, a: Step)
    requires Enabled(s, a) && AllOk(s) && Phases(s) && !s.disposed && !a.BeginDispose?
    ensures !Apply(s, a).disposed && !Apply(s, a).borrowed
    ensures |Apply(s, a).pcs| >= |s.pcs| && !Disposer(Apply(s, a).pcs[a.t])
  {
    assert LocalOk(s, s.pcs[a.t]) && !Disposer(s.pcs[a.t]) && !s.borrowed;
    if a.Awaken? || a.DropCountLock? || a.JobEnds? || a.Decrement? || a.Notify? {
      ReleaserIsNoDisposer(s, a);
    } else {
      ClientIsNoDisposer(s, a);
    }
  }

  lemma PhasesBefore(s: State, a: Step)
    requires Enabled(s, a) && AllOk(s) && Phases(s) && !s.disposed && !a.BeginDispose?
    ensures Phases(Apply(s, a))
  {
    var s' := Apply(s, a);
    NoDisposerYet(s, a);
    HistoryRows(s, a);
    forall i | 0 <= i < |s'.pcs| ensures !Disposer(s'.pcs[i]) {
      if i < |s.pcs| && i != a.t {
        OthersStay(s, a, i);
        assert !Disposer(s.pcs[i]);
      }
    }
  }

  lemma PhasesBegin(s: State, a: Step)
    requires Enabled(s, a) && Phases(s) && a.BeginDispose?
    ensures Phases(Apply(s, a))
  {}

  /** What a thread may do once dispose has begun. */
  ghost predicate DisposedMove(s: State, s': State, t: nat)
    requires t < |s.pcs|
  {
    && |s'.pcs| == |s.pcs| && s'.disposed
    && (s'.handles == s.handles || s'.handles == [])
    && if Disposer(s.pcs[t]) then
         || (Disposer(s'.pcs[t]) && s'.borrowed == s.borrowed && (s'.pcs[t].Joining? ==> s'.handles == []))
         || (s'.pcs[t] == Idle && !s'.borrowed && s'.handles == [])
       else
         && s'.borrowed == s.borrowed && s'.handles == s.handles
         && (s'.pcs[t] == Idle || Worker(s'.pcs[t]))
  }

  lemma DisposerMove(s: State, a: Step)
    requires Enabled(s, a) && s.disposed && LocalOk(s, s.pcs[a.t]) && Disposer(s.pcs[a.t])
    requires s.pcs[a.t].Joining? ==> s.handles == []
    ensures DisposedMove(s, Apply(s, a), a.t)
  {}

  lemma WorkerMove(s: State, a: Step)
    requires Enabled(s, a) && s.disposed && LocalOk(s, s.pcs[a.t])
    requires s.pcs[a.t] == Idle || Worker(s.pcs[a.t])
    ensures DisposedMove(s, Apply(s, a), a.t)
  {}

  lemma DisposedStep(s: State, a: Step)
    requires Enabled(s, a) && AllOk(s) && Phases(s) && s.disposed
    ensures DisposedMove(s, Apply(s, a), a.t)
    ensures forall i :: 0 <= i < |s.pcs| && i != a.t ==> Apply(s, a).pcs[i] == s.pcs[i]
  {
    assert LocalOk(s, s.pcs[a.t]);
    assert s.pcs[a.t] == Idle || Worker(s.pcs[a.t]) || Disposer(s.pcs[a.t]);
    if Disposer(s.pcs[a.t]) {
      DisposerMove(s, a);
    } else {
      WorkerMove(s, a);
    }
    forall i | 0 <= i < |s.pcs| && i != a.t ensures Apply(s, a).pcs[i] == s.pcs[i] {
      OthersStay(s, a, i);
      assert s.pcs[i] != Asleep;
    }
  }

  lemma PhasesFollow(s: State, s': State, t: nat)
    requires Phases(s) && s.disposed && t < |s.pcs| && DisposedMove(s, s', t)
    requires forall i :: 0 <= i < |s.pcs| && i != t ==> s'.pcs[i] == s.pcs[i]
    ensures Phases(s')
  {
    forall i | 0 <= i < |s.pcs| && Disposer(s'.pcs[i])
      ensures Disposer(s.pcs[i]) && s'.borrowed && (s'.pcs[i].Joining? ==> s'.handles == [])
    {}
  }

  lemma PhasesAfter(s: State, a: Step)
    requires Enabled(s, a) && AllOk(s) && Phases(s) && s.disposed
    ensures Phases(Apply(s, a))
  {
    DisposedStep(s, a);
    PhasesFollow(s, Apply(s, a), a.t);
  }

  lemma StepKeepsLedger(s: State, a: Step)
    requires Enabled(s, a) && Slots(s) && Ledger(s)
    ensures Ledger(Apply(s, a))
  {
    StepKeepsSlots(s, a);
    StepKeepsBooks(s, a);
    StepKeepsRows(s, a);
    if s.disposed {
      PhasesAfter(s, a);
    } else if a.BeginDispose? {
      PhasesBegin(s, a);
    } else {
      PhasesBefore(s, a);
    }
  }

  lemma {:induction false} RunKeepsLedger(s: State, steps: seq<Step>, end: State)
    requires Slots(s) && Ledger(s) && Run(s, steps, end)
    ensures Slots(end) && Ledger(end)
    decreases steps
  {
    if steps != [] {
      StepKeepsSlots(s, steps[0]);
      StepKeepsLedger(s, steps[0]);
      RunKeepsLedger(Apply(s, steps[0]), steps[1..], end);
    }
  }

  lemma InitLedger(s: State)
    requires Init(s)
    ensures Slots(s) && Ledger(s)
  {
    InitSlots(s);
    GatherEmpty(s.pcs, HandsOf);
  }

  /** In every run: no worker is joined twice, and only finished workers are joined. */
  lemma JoinedAtMostOnce(s: State, steps: seq<Step>, end: State)
    requires Init(s) && Run(s, steps, end)
    ensures multiset(end.joined) <= multiset(end.spawned)
    ensures forall w :: multiset(end.spawned)[w] <= 1
    ensures forall w :: w in end.joined ==> w < |end.pcs| && end.pcs[w] == Finished
  {
    InitLedger(s);
    RunKeepsLedger(s, steps, end);
    forall w ensures multiset(end.spawned)[w] <= 1 {
      IncreasingIsDistinct(end.spawned, w);
    }
  }

  lemma {:induction false} IncreasingIsDistinct(s: seq<nat>, w: nat)
    requires forall i, j :: 0 <= i < j < |s| ==> s[i] < s[j]
    ensures multiset(s)[w] <= 1
  {
    if s != [] {
      var last := |s| - 1;
      IncreasingIsDistinct(s[..last], w);
      assert s == s[..last] + [s[last]];
      if s[last] == w {
        assert w !in s[..last];
      }
    }
  }

  /** When dispose has returned, nobody carries a handle and the vector is empty. */
  lemma EveryoneJoined(s: State)
    requires Ledger(s) && s.disposed && !s.borrowed
    ensures multiset(s.joined) == multiset(s.spawned) && s.handles == []
  {
    forall t | 0 <= t < |s.pcs| ensures Carried(s.pcs[t]) == [] {
      assert !Disposer(s.pcs[t]);
    }
    GatherEmpty(s.pcs, HandsOf);
  }

  lemma EveryoneIdle(s: State)
    requires Ledger(s) && s.disposed && !s.borrowed
    ensures forall t :: 0 <= t < |s.pcs| ==> s.pcs[t] == Idle || s.pcs[t] == Finished
  {
    EveryoneJoined(s);
    forall t | 0 <= t < |s.pcs| ensures s.pcs[t] == Idle || s.pcs[t] == Finished {
      assert !Disposer(s.pcs[t]);
      if Worker(s.pcs[t]) {
        assert t in multiset(s.spawned);
        assert t in s.joined;
      }
    }
  }

  /** When dispose has returned, every worker ever spawned has finished and has been
      joined exactly once, and no slot is counted any more. */
  lemma DisposeLeavesPoolIdle(s: State, steps: seq<Step>, end: State)
    requires Init(s) && Run(s, steps, end) && end.disposed && !end.borrowed
    ensures multiset(end.joined) == multiset(end.spawned)
    ensures forall t :: 0 <= t < |end.pcs| ==> end.pcs[t] == Idle || end.pcs[t] == Finished
    ensures end.count == 0 && end.handles == []
  {
    InitLedger(s);
    RunKeepsLedger(s, steps, end);
    EveryoneJoined(end);
    EveryoneIdle(end);
    SumZero(end.pcs, Owns);
  }
}
