/** Shared vocabulary: optional values, the error codes the queues and
    semaphores return, and the capacity rule both queues apply. */
module Base {
  datatype Option<+T> = None | Some(value: T)

  /** The members of the error enum that the modelled operations return. */
  datatype HioError = Failed | ResourceUnavailable | Timeout | WouldBlock

  const USIZE_MAX: nat := 0xFFFF_FFFF_FFFF_FFFF

  /** Capacity 0 asks for an unbounded queue. */
  function EnsureCapacity(capacity: nat): (c: nat)
    ensures c > 0
    ensures capacity > 0 ==> c == capacity
    ensures capacity == 0 ==> c == USIZE_MAX
  {
    if capacity == 0 then USIZE_MAX else capacity
  }
}

/** Weighted sums over a table of threads.  An atomic counter such as the number
    of registered waiters is compared with the sum of what each thread contributes. */
module Counting {

  function Sum<P>(ps: seq<P>, w: P -> nat): nat {
    if ps == [] then 0 else w(ps[0]) + Sum(ps[1..], w)
  }

  lemma {:induction false} SumUpdate<P>(ps: seq<P>, i: nat, p: P, w: P -> nat)
    requires i < |ps|
    ensures Sum(ps[i := p], w) + w(ps[i]) == Sum(ps, w) + w(p)
  {
    if i == 0 {
      assert ps[i := p][1..] == ps[1..];
    } else {
      assert ps[i := p][1..] == ps[1..][i - 1 := p];
      SumUpdate(ps[1..], i - 1, p, w);
    }
  }

  lemma {:induction false} SumAtLeast<P>(ps: seq<P>, i: nat, w: P -> nat)
    requires i < |ps|
    ensures w(ps[i]) <= Sum(ps, w)
  {
    if i > 0 {
      SumAtLeast(ps[1..], i - 1, w);
    }
  }

  lemma {:induction false} SumZero<P>(ps: seq<P>, w: P -> nat)
    requires forall i :: 0 <= i < |ps| ==> w(ps[i]) == 0
    ensures Sum(ps, w) == 0
  {
    if ps != [] {
      SumZero(ps[1..], w);
    }
  }

  lemma {:induction false} SumOnes<P>(ps: seq<P>, w: P -> nat)
    requires forall i :: 0 <= i < |ps| ==> w(ps[i]) == 1
    ensures Sum(ps, w) == |ps|
  {
    if ps != [] {
      SumOnes(ps[1..], w);
    }
  }

  lemma {:induction false} SumSame<P>(ps: seq<P>, rs: seq<P>, w: P -> nat)
    requires |ps| == |rs|
    requires forall i :: 0 <= i < |ps| ==> w(ps[i]) == w(rs[i])
    ensures Sum(ps, w) == Sum(rs, w)
  {
    if ps != [] {
      forall i | 0 <= i < |ps[1..]| ensures w(ps[1..][i]) == w(rs[1..][i]) {
        assert ps[1..][i] == ps[i + 1] && rs[1..][i] == rs[i + 1];
      }
      SumSame(ps[1..], rs[1..], w);
    }
  }

  lemma {:induction false} SumAppend<P>(ps: seq<P>, p: P, w: P -> nat)
    ensures Sum(ps + [p], w) == Sum(ps, w) + w(p)
  {
    if ps == [] {
      assert ps + [p] == [p];
    } else {
      assert (ps + [p])[1..] == ps[1..] + [p];
      SumAppend(ps[1..], p, w);
    }
  }

  /** When every thread weighs at most one, the sum is at most the number of threads. */
  lemma {:induction false} SumAtMost<P>(ps: seq<P>, w: P -> nat)
    requires forall i :: 0 <= i < |ps| ==> w(ps[i]) <= 1
    ensures Sum(ps, w) <= |ps|
  {
    if ps != [] {
      SumAtMost(ps[1..], w);
    }
  }
}

/** The same for items: what all threads together carry. */
module Bags {

  function Gather<P, V>(ps: seq<P>, w: P -> multiset<V>): multiset<V> {
    if ps == [] then multiset{} else w(ps[0]) + Gather(ps[1..], w)
  }

  lemma Exchange<V>(x: multiset<V>, a: multiset<V>, b: multiset<V>, c: multiset<V>, d: multiset<V>)
    requires a + b == c + d
    ensures (x + a) + b == (x + c) + d
  {
    assert (x + a) + b == x + (a + b);
    assert (x + c) + d == x + (c + d);
  }

  lemma Cancel<V>(a: multiset<V>, b: multiset<V>, c: multiset<V>)
    requires a + b == c + b
    ensures a == c
  {
    assert a == (a + b) - b;
    assert c == (c + b) - b;
  }

  lemma {:induction false} GatherUpdate<P, V>(ps: seq<P>, i: nat, p: P, w: P -> multiset<V>)
    requires i < |ps|
    ensures Gather(ps[i := p], w) + w(ps[i]) == Gather(ps, w) + w(p)
  {
    if i == 0 {
      assert ps[i := p][1..] == ps[1..];
    } else {
      assert ps[i := p][1..] == ps[1..][i - 1 := p];
      GatherUpdate(ps[1..], i - 1, p, w);
      Exchange(w(ps[0]), Gather(ps[1..][i - 1 := p], w), w(ps[i]), Gather(ps[1..], w), w(p));
    }
  }

  lemma {:induction false} GatherContains<P, V>(ps: seq<P>, i: nat, w: P -> multiset<V>)
    requires i < |ps|
    ensures w(ps[i]) <= Gather(ps, w)
  {
    if i > 0 {
      GatherContains(ps[1..], i - 1, w);
    }
  }

  lemma {:induction false} GatherSame<P, V>(ps: seq<P>, rs: seq<P>, w: P -> multiset<V>)
    requires |ps| == |rs|
    requires forall i :: 0 <= i < |ps| ==> w(ps[i]) == w(rs[i])
    ensures Gather(ps, w) == Gather(rs, w)
  {
    if ps != [] {
      forall i | 0 <= i < |ps[1..]| ensures w(ps[1..][i]) == w(rs[1..][i]) {
        assert ps[1..][i] == ps[i + 1] && rs[1..][i] == rs[i + 1];
      }
      GatherSame(ps[1..], rs[1..], w);
    }
  }

  lemma {:induction false} GatherEmpty<P, V>(ps: seq<P>, w: P -> multiset<V>)
    requires forall i :: 0 <= i < |ps| ==> w(ps[i]) == multiset{}
    ensures Gather(ps, w) == multiset{}
  {
    if ps != [] {
      GatherEmpty(ps[1..], w);
    }
  }

  lemma {:induction false} GatherAppend<P, V>(ps: seq<P>, p: P, w: P -> multiset<V>)
    requires w(p) == multiset{}
    ensures Gather(ps + [p], w) == Gather(ps, w)
  {
    if ps == [] {
      assert ps + [p] == [p] && [p][1..] == [];
    } else {
      assert (ps + [p])[1..] == ps[1..] + [p];
      GatherAppend(ps[1..], p, w);
    }
  }
}

/** Runs of any machine as the sequence of the states they pass through. */
module Traces {

  ghost predicate Trace<S, M>(follows: (S, M, S) -> bool, states: seq<S>, moves: seq<M>) {
    && |states| == |moves| + 1
    && forall k :: 0 <= k < |moves| ==> follows(states[k], moves[k], states[k + 1])
  }

  lemma TraceExtends<S, M>(follows: (S, M, S) -> bool, states: seq<S>, moves: seq<M>, m: M, next: S)
    requires Trace(follows, states, moves) && follows(states[|moves|], m, next)
    ensures Trace(follows, states + [next], moves + [m])
  {
    forall k | 0 <= k < |moves| + 1
      ensures follows((states + [next])[k], (moves + [m])[k], (states + [next])[k + 1])
    {
      if k < |moves| {
        assert follows(states[k], moves[k], states[k + 1]);
      }
    }
  }
}
