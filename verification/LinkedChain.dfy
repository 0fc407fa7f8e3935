/** The memory of the linked queue as a value: what each memory action of
    linked_bq.rs does to the chain of nodes, the shared counter and the
    disposed flag.  The heap class and the step machine are both built on
    these functions. */
module LinkedChain {

  /** `items` are the nodes behind the dummy, oldest first.  `lag`: a node is linked
      but `tail` still points at its predecessor.  `taken`: the first node's item
      has been moved out but the old dummy in front of it is not freed yet. */
  datatype Chain<T> = Chain(
    capacity: nat, items: seq<T>, lag: bool, taken: bool, count: nat, disposed: bool)

  /** The new node is written behind the node `tail` points at. */
  function LinkNode<T>(c: Chain<T>, x: T): Chain<T> {
    c.(items := c.items + [x], lag := true)
  }

  /** `tail` moves on to the new node. */
  function AdvanceTail<T>(c: Chain<T>): Chain<T> {
    c.(lag := false)
  }

  function AddCount<T>(c: Chain<T>): Chain<T> {
    c.(count := c.count + 1)
  }

  /** The item of the node behind the dummy is taken. */
  function TakeItem<T>(c: Chain<T>): Chain<T> {
    c.(taken := true)
  }

  /** The dummy is freed and its successor becomes the dummy. */
  function FreeHead<T>(c: Chain<T>): Chain<T>
    requires c.items != []
  {
    c.(items := c.items[1..], taken := false)
  }

  function SubCount<T>(c: Chain<T>, n: nat): Chain<T>
    requires n <= c.count
  {
    c.(count := c.count - n)
  }

  predicate IsFull<T>(c: Chain<T>) {
    c.count >= c.capacity
  }

  predicate IsEmpty<T>(c: Chain<T>) {
    c.count == 0
  }
}
