/**
 * `ReadOnlyStore<InputState, State>`: a read-only view of a field of a writable parent,
 * notified through the parent's `downstream`.
 */
module ReadOnlyStores {
  import opened Atomics
  import opened Callbacks
  import opened Downstream
  import opened Subscribers
  import opened AnyStores

  class ReadOnlyStore<R, I, S> {
    const inputStore: AnyStore<R, I, I>
    /** A read-only `KeyPath<InputState, State>` */
    const keyPath: I -> S
    const downstream: DownstreamList
    const subscribers: SubscriberTable<S>

    /** `init(_:keyPath:)`: empty lists, and this store appended to the parent's `downstream`. */
    constructor (inputStore: AnyStore<R, I, I>, keyPath: I -> S)
      modifies inputStore.downstream
      ensures this.inputStore == inputStore && this.keyPath == keyPath
      ensures fresh(downstream) && downstream.closures == []
      ensures fresh(subscribers) && subscribers.subscribers == map[] && subscribers.calls == []
      ensures inputStore.downstream.closures == old(inputStore.downstream.closures) + [NotifyDownstream(this)]
    {
      this.inputStore := inputStore;
      this.keyPath := keyPath;
      downstream := new DownstreamList([]);
      subscribers := new SubscriberTable();
      new;
      inputStore.AppendDownstream(NotifyDownstream(this));
    }

    /** `state`: the parent's state at `keyPath`. */
    function State(): S
      reads inputStore.cell
    {
      keyPath(inputStore.State())
    }

    method Subscribe(triggerNow: bool, closure: CallbackId) returns (disposable: SubscriberDisposable<S>)
      modifies subscribers
      ensures fresh(disposable) && disposable.subscribable == subscribers
      ensures subscribers.subscribers == old(subscribers.subscribers)[disposable := closure]
      ensures subscribers.calls == old(subscribers.calls) +
        (if triggerNow then [Call(disposable, closure, State())] else [])
    {
      disposable := subscribers.SubscribeTriggering(triggerNow, closure, State());
    }
  }
}
