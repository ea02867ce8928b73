/**
 * The second revision's store: subscribers are closures keyed by the identity of the
 * disposable handed back, and a dispatch mutates the state and tells every subscriber
 * the result, all inside one access to the state's `Atomic`.
 */
module EarlySwux {
  import opened Atomics
  import opened Callbacks
  import opened Subscribers

  datatype DispatchMode = Sync | Async

  class Store<S> {
    const subscribers: SubscriberTable<S>
    const state: Cell<S>

    /** `init(_ state:)` */
    constructor (state: S, queue: QueueId)
      ensures fresh(this.state) && this.state.value == state && this.state.queue == queue
      ensures fresh(subscribers) && subscribers.subscribers == map[] && subscribers.calls == []
    {
      this.state := new Cell(state, queue);
      subscribers := new SubscriberTable();
    }

    /**
     * `subscribe(_:on:)`: the subscriber's closure is stored under a new disposable and
     * not called. Which queue the closure hops to is not modelled.
     */
    method Subscribe(closure: CallbackId) returns (disposable: SubscriberDisposable<S>)
      modifies subscribers
      ensures fresh(disposable) && disposable.subscribable == subscribers
      ensures disposable !in old(subscribers.subscribers)
      ensures subscribers.subscribers == old(subscribers.subscribers)[disposable := closure]
      ensures subscribers.calls == old(subscribers.calls)
      ensures state.value == old(state.value)
    {
      disposable := subscribers.Subscribe(closure);
    }

    /**
     * `dispatch(_:dispatchMode:)`: the action mutates the state, then every subscriber is
     * called once with the mutated state. Both modes run the same block.
     */
    method Dispatch(mutate: S -> S, mode: DispatchMode)
      modifies state, subscribers
      ensures state.value == mutate(old(state.value))
      ensures subscribers.subscribers == old(subscribers.subscribers)
      ensures Extends(old(subscribers.calls), subscribers.calls)
      ensures IsBroadcast(subscribers.subscribers, state.value, subscribers.calls[|old(subscribers.calls)|..])
    {
      state.Access(mutate);
      subscribers.NotifySubscribers(state.value);
    }
  }

  /** Two dispatches: the state is the composition, and each subscriber was told both results in turn. */
  method DispatchTwice<S>(store: Store<S>, first: S -> S, second: S -> S)
    modifies store.state, store.subscribers
    ensures store.state.value == second(first(old(store.state.value)))
    ensures |store.subscribers.calls| == |old(store.subscribers.calls)| + 2 * |store.subscribers.subscribers|
  {
    ghost var before := store.subscribers.calls;
    store.Dispatch(first, Sync);
    ghost var middle := store.subscribers.calls;
    BroadcastCallsEachOnce(store.subscribers.subscribers, first(old(store.state.value)), middle[|before|..]);
    store.Dispatch(second, Async);
    BroadcastCallsEachOnce(store.subscribers.subscribers, store.state.value, store.subscribers.calls[|middle|..]);
  }
}
