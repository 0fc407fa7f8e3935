/** The operations both queue machines interleave. */
module QueueOps {
  import opened Base

  datatype Side = PushSide | PopSide

  /** The blocking, `try_` and `_timeout` variants. */
  datatype Mode = Block | Try | Timed

  datatype Op<+T> = PushOp(mode: Mode, item: T) | PopOp(mode: Mode)

  function OpSide<T>(op: Op<T>): Side {
    if op.PushOp? then PushSide else PopSide
  }

  /** The item a push offers, and the bag of at most one item a thread carries. */
  function Offer<T>(op: Op<T>): Option<T> {
    if op.PushOp? then Some(op.item) else None
  }

  function Bag<T>(o: Option<T>): multiset<T> {
    if o.Some? then multiset{o.value} else multiset{}
  }
}
