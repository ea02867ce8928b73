/**
 * `Atomic<Value>`: a value guarded by a serial `DispatchQueue`. Serialisation is not
 * modelled; the cell is a plain mutable value, and `access` runs its closure at once.
 */
module Atomics {

  /** The identity of a `DispatchQueue`, the store's serialisation domain. */
  type QueueId = nat

  class Cell<T> {
    var value: T
    const queue: QueueId

    constructor (value: T, queue: QueueId)
      ensures this.value == value && this.queue == queue
    {
      this.value := value;
      this.queue := queue;
    }

    /** `access(block)` with a mutating block: the block's effect on the value. */
    method Access(block: T -> T)
      modifies this
      ensures value == block(old(value))
    {
      value := block(value);
    }
  }
}
