/** The linked queue on the heap.  The class owns real nodes; each memory action
    of linked_bq.rs is a method proved against LinkedChain, and the operations
    are put together from them as in the source. */
module LinkedQueue {
  import opened Base
  import opened LinkedChain
  import SequentialSpec

  class Node<T> {
    var item: Option<T>
    var next: Node?<T>

    constructor (item: Option<T>)
      ensures this.item == item && this.next == null
    {
      this.item, this.next := item, null;
    }
  }

  ghost predicate Distinct<T>(s: seq<T>) {
    forall i, j :: 0 <= i < j < |s| ==> s[i] != s[j]
  }

  ghost function Elements<T>(s: seq<T>): set<T> {
    set x | x in s
  }

  lemma ElementsOfRest<T>(s: seq<T>)
    requires s != [] && Distinct(s)
    ensures Distinct(s[1..]) && Elements(s[1..]) == Elements(s) - {s[0]}
  {
    assert s == [s[0]] + s[1..];
  }

  lemma ElementsOfLonger<T>(s: seq<T>, x: T)
    requires Distinct(s) && x !in Elements(s)
    ensures Distinct(s + [x]) && Elements(s + [x]) == Elements(s) + {x}
  {
    forall i, j | 0 <= i < j < |s + [x]| ensures (s + [x])[i] != (s + [x])[j] {
      assert s[i] in Elements(s);
    }
  }

  class LinkedBQ<T> {
    const capacity: nat
    var count: nat
    var disposed: bool
    var head: Node<T>
    var tail: Node<T>

    /** The chain from the dummy, its items, and the two half-done states of LinkedChain. */
    ghost var nodes: seq<Node<T>>
    ghost var items: seq<T>
    ghost var lag: bool
    ghost var taken: bool

    /** Every node ever allocated, and the log of frees. */
    ghost var made: set<Node<T>>
    ghost var freed: seq<Node<T>>

    ghost function View(): Chain<T>
      reads this
    {
      Chain(capacity, items, lag, taken, count, disposed)
    }

    ghost predicate Linked()
      reads this, nodes
    {
      && |nodes| == |items| + 1 && Distinct(nodes)
      && (lag ==> |nodes| >= 2) && (taken ==> |nodes| >= 2)
      && head == nodes[0] && tail == nodes[|nodes| - (if lag then 2 else 1)]
      && (forall i {:trigger nodes[i].next} :: 0 <= i < |nodes| - 1 ==> nodes[i].next == nodes[i + 1])
      && nodes[|nodes| - 1].next == null
      && nodes[0].item == None
      && (forall i :: 0 < i < |nodes| ==> nodes[i].item == if taken && i == 1 then None else Some(items[i - 1]))
    }

    /** Each node is in the chain or has been freed, once. */
    ghost predicate Accounted()
      reads this
    {
      && Distinct(freed)
      && Elements(freed) !! Elements(nodes)
      && made == Elements(freed) + Elements(nodes)
    }

    ghost predicate Valid()
      reads this, nodes
    {
      Linked() && Accounted()
    }

    constructor (capacity: nat)
      ensures Valid() && fresh(nodes)
      ensures View() == Chain(EnsureCapacity(capacity), [], false, false, 0, false)
      ensures freed == []
    {
      var dummy := new Node<T>(None);
      this.capacity := EnsureCapacity(capacity);
      count, disposed := 0, false;
      head, tail := dummy, dummy;
      nodes, items, lag, taken := [dummy], [], false, false;
      made, freed := {dummy}, [];
    }

    // --------------------------------------------------- memory actions

    /** A new node is linked behind the tail. */
    method Link(x: T)
      requires Valid() && !lag
      modifies this, nodes
      ensures Valid() && View() == LinkNode(old(View()), x)
      ensures |nodes| == |old(nodes)| + 1 && nodes[..|old(nodes)|] == old(nodes) && fresh(nodes[|old(nodes)|])
      ensures freed == old(freed)
    {
      var node := new Node<T>(Some(x));
      tail.next := node;
      nodes, items, lag := nodes + [node], items + [x], true;
      made := made + {node};
    }

    /** `tail` catches up with the node just linked. */
    method Advance()
      requires Valid() && lag
      modifies this
      ensures Valid() && View() == AdvanceTail(old(View()))
      ensures nodes == old(nodes) && freed == old(freed)
    {
      assert tail == nodes[|nodes| - 2];
      tail, lag := tail.next, false;
    }

    method FetchAdd() returns (prev: nat)
      requires Valid()
      modifies this`count
      ensures Valid() && prev == old(count) && View() == AddCount(old(View()))
    {
      prev := count;
      count := count + 1;
    }

    /** The item of the dummy's successor is taken; there must be one. */
    method Take() returns (x: T)
      requires Valid() && !taken && items != []
      modifies this, nodes
      ensures Valid() && x == old(items)[0] && View() == TakeItem(old(View()))
      ensures nodes == old(nodes) && freed == old(freed)
    {
      assert nodes[1].item == Some(items[0]);
      var next := head.next;
      x := next.item.value;
      next.item := None;
      taken := true;
    }

    /** The old dummy is freed.  It is not the node `tail` points at, and it has not
        been freed before. */
    method Free()
      requires Valid() && taken && |items| > (if lag then 1 else 0)
      modifies this
      ensures Valid() && View() == FreeHead(old(View()))
      ensures nodes == old(nodes)[1..]
      ensures freed == old(freed) + [old(nodes)[0]] && old(nodes)[0] !in old(freed) && old(nodes)[0] != tail
    {
      var oldHead := head;
      assert oldHead in Elements(nodes);
      ElementsOfRest(nodes);
      ElementsOfLonger(freed, oldHead);
      freed := freed + [oldHead];
      head := oldHead.next;
      nodes, items, taken := nodes[1..], items[1..], false;
    }

    method FetchSub(n: nat) returns (prev: nat)
      requires Valid() && n <= count
      modifies this`count
      ensures Valid() && prev == old(count) && View() == SubCount(old(View()), n)
    {
      prev := count;
      count := count - n;
    }

    // ------------------------------------------------ operations, one thread

    ghost function Contents(): SequentialSpec.Queue<T>
      reads this
    {
      SequentialSpec.Queue(capacity, items, disposed)
    }

    /** Between operations of a single thread nothing is half done. */
    ghost predicate Settled()
      reads this, nodes
    {
      Valid() && !lag && !taken && count == |items| <= capacity && capacity > 0
    }

    /** Nodes are only added fresh. */
    twostate predicate Grows()
      reads this
    {
      forall i :: 0 <= i < |nodes| ==> nodes[i] in old(nodes) || fresh(nodes[i])
    }

    /** en_q: link, advance, count.  Returns whether the consumers must be signalled. */
    method EnQ(x: T) returns (wasEmpty: bool)
      requires Settled() && count < capacity
      modifies this, nodes
      ensures Settled() && Grows() && wasEmpty == (old(items) == [])
      ensures Contents() == old(Contents()).(items := old(items) + [x])
    {
      Link(x);
      Advance();
      var prev := FetchAdd();
      wasEmpty := prev == 0;
    }

    /** unlink_head: the item behind the dummy leaves, the dummy is freed. */
    method UnlinkHead() returns (x: T)
      requires Valid() && !lag && !taken && items != []
      modifies this, nodes
      ensures Valid() && !lag && !taken && count == old(count) && disposed == old(disposed)
      ensures x == old(items)[0] && items == old(items)[1..] && nodes == old(nodes)[1..]
      ensures freed == old(freed) + [old(nodes)[0]]
    {
      x := Take();
      Free();
    }

    /** de_q: unlink and subtract.  Returns whether the producers must be signalled. */
    method DeQ() returns (x: T, wasFull: bool)
      requires Settled() && count > 0
      modifies this, nodes
      ensures Settled() && Grows() && wasFull == (|old(items)| == capacity)
      ensures x == old(items)[0] && Contents() == old(Contents()).(items := old(items)[1..])
    {
      x := UnlinkHead();
      var prev := FetchSub(1);
      wasFull := prev == capacity;
    }

    method Push(x: T) returns (o: SequentialSpec.Outcome<T>)
      requires Settled()
      modifies this, nodes
      ensures Settled() && Grows()
      ensures (Contents(), o) == SequentialSpec.Perform(old(Contents()), SequentialSpec.Push(x))
    {
      if !disposed && count >= capacity {
        return SequentialSpec.Blocks;
      }
      if disposed {
        return SequentialSpec.Refused(ResourceUnavailable, x);
      }
      var _ := EnQ(x);
      o := SequentialSpec.Done;
    }

    method TryPush(x: T) returns (o: SequentialSpec.Outcome<T>)
      requires Settled()
      modifies this, nodes
      ensures Settled() && Grows()
      ensures (Contents(), o) == SequentialSpec.Perform(old(Contents()), SequentialSpec.TryPush(x))
    {
      if disposed {
        return SequentialSpec.Refused(ResourceUnavailable, x);
      }
      if count >= capacity {
        return SequentialSpec.Refused(WouldBlock, x);
      }
      var _ := EnQ(x);
      o := SequentialSpec.Done;
    }

    method PushTimeout(x: T) returns (o: SequentialSpec.Outcome<T>)
      requires Settled()
      modifies this, nodes
      ensures Settled() && Grows()
      ensures (Contents(), o) == SequentialSpec.Perform(old(Contents()), SequentialSpec.PushFor(x))
    {
      var timedOut := !disposed && count >= capacity;
      if timedOut {
        return SequentialSpec.Refused(Timeout, x);
      }
      if disposed {
        return SequentialSpec.Refused(ResourceUnavailable, x);
      }
      var _ := EnQ(x);
      o := SequentialSpec.Done;
    }

    method Pop() returns (o: SequentialSpec.Outcome<T>)
      requires Settled()
      modifies this, nodes
      ensures Settled() && Grows()
      ensures (Contents(), o) == SequentialSpec.Perform(old(Contents()), SequentialSpec.Pop)
    {
      if !disposed && count == 0 {
        return SequentialSpec.Blocks;
      }
      if count == 0 {
        return SequentialSpec.Error(ResourceUnavailable);
      }
      var x, _ := DeQ();
      o := SequentialSpec.Item(x);
    }

    method TryPop() returns (o: SequentialSpec.Outcome<T>)
      requires Settled()
      modifies this, nodes
      ensures Settled() && Grows()
      ensures (Contents(), o) == SequentialSpec.Perform(old(Contents()), SequentialSpec.TryPop)
    {
      if count == 0 {
        return SequentialSpec.Error(if disposed then ResourceUnavailable else WouldBlock);
      }
      var x, _ := DeQ();
      o := SequentialSpec.Item(x);
    }

    method PopTimeout() returns (o: SequentialSpec.Outcome<T>)
      requires Settled()
      modifies this, nodes
      ensures Settled() && Grows()
      ensures (Contents(), o) == SequentialSpec.Perform(old(Contents()), SequentialSpec.PopFor)
    {
      var timedOut := !disposed && count == 0;
      if timedOut {
        return SequentialSpec.Error(Timeout);
      }
      if count == 0 {
        return SequentialSpec.Error(ResourceUnavailable);
      }
      var x, _ := DeQ();
      o := SequentialSpec.Item(x);
    }

    method Drain() returns (out: seq<T>)
      requires Settled()
      modifies this, nodes
      ensures Settled() && Grows()
      ensures (Contents(), SequentialSpec.Items(out)) == SequentialSpec.Perform(old(Contents()), SequentialSpec.Drain)
    {
      var n := count;
      out := [];
      for k := 0 to n
        invariant Valid() && !lag && !taken && count == n == |old(items)| && disposed == old(disposed)
        invariant out == old(items)[..k] && items == old(items)[k..] && nodes == old(nodes)[k..]
      {
        var x := UnlinkHead();
        out := out + [x];
      }
      assert out == old(items) && items == [];
      if n > 0 {
        var _ := FetchSub(n);
      }
    }

    method Dispose() returns (won: bool)
      requires Settled()
      modifies this`disposed
      ensures Settled() && won == !old(disposed)
      ensures Contents() == old(Contents()).(disposed := true)
    {
      won := !disposed;
      disposed := true;
    }

    method Call(call: SequentialSpec.Call<T>) returns (o: SequentialSpec.Outcome<T>)
      requires Settled()
      modifies this, nodes
      ensures Settled() && Grows()
      ensures (Contents(), o) == SequentialSpec.Perform(old(Contents()), call)
    {
      match call
      case Push(x) => o := Push(x);
      case TryPush(x) => o := TryPush(x);
      case PushFor(x) => o := PushTimeout(x);
      case Pop => o := Pop();
      case TryPop => o := TryPop();
      case PopFor => o := PopTimeout();
      case Drain =>
        var out := Drain();
        o := SequentialSpec.Items(out);
      case Dispose =>
        var _ := Dispose();
        o := SequentialSpec.Done;
      case Size => o := SequentialSpec.Number(count);
      case IsDisposed => o := SequentialSpec.Truth(disposed);
    }

    /** The drop loop walks the chain once.  Together with the frees of UnlinkHead it
        frees every node ever allocated, each one exactly once. */
    method Drop()
      requires Valid()
      modifies this
      ensures Distinct(freed) && Elements(freed) == made == old(made)
      ensures old(freed) <= freed
    {
      var current: Node?<T> := head;
      ghost var k := 0;
      while current != null
        invariant k <= |nodes| && current == if k < |nodes| then nodes[k] else null
        invariant nodes == old(nodes) && made == old(made) && Linked()
        invariant freed == old(freed) + nodes[..k] && Distinct(freed)
        invariant Elements(freed) == Elements(old(freed)) + Elements(nodes[..k])
        decreases |nodes| - k
      {
        var tmp: Node<T> := current;
        current := tmp.next;
        PrefixGrows(nodes, k);
        assert tmp !in Elements(freed);
        ElementsOfLonger(freed, tmp);
        freed := freed + [tmp];
        assert freed == old(freed) + nodes[..k + 1];
        k := k + 1;
      }
      assert nodes[..k] == nodes;
    }
  }

  lemma PrefixGrows<T>(s: seq<T>, k: nat)
    requires k < |s| && Distinct(s)
    ensures s[..k + 1] == s[..k] + [s[k]] && s[k] !in Elements(s[..k]) && s[k] in Elements(s)
    ensures Elements(s[..k + 1]) == Elements(s[..k]) + {s[k]}
  {}
}
