/**
 * `ReadStore<InputState, State>`: a read-only view of a field of a readable parent, with
 * the two subscriber dictionaries of a subscribable store.
 */
module ReadStores {
  import opened Optionals
  import opened Callbacks
  import opened Downstream
  import opened Subscriptions
  import opened AnyStores

  class ReadStore<R(!new), I, S> {
    const inputStore: AnyReadStore<R, I>
    /** A read-only `KeyPath<InputState, State>` */
    const keyPath: I -> S
    const upstream: Option<Notifier>
    const subscribable: Subscribable<R, S>

    /** `init(_:keyPath:)`: captures the parent's `notifyUpstream`; the parent is not changed. */
    constructor (inputStore: AnyReadStore<R, I>, keyPath: I -> S)
      ensures this.inputStore == inputStore && this.keyPath == keyPath
      ensures upstream == Some(inputStore.notifyUpstream)
      ensures fresh(subscribable)
      ensures subscribable.actionSubscribers == map[] && subscribable.upstreamSubscribers == map[]
      ensures subscribable.calls == []
      ensures Valid()
    {
      this.inputStore := inputStore;
      this.keyPath := keyPath;
      upstream := Some(inputStore.notifyUpstream);
      subscribable := new Subscribable(inputStore.cell, r => keyPath(inputStore.state(r)));
    }

    /** The subscriber dictionaries read the store's own state. */
    ghost predicate Valid()
    {
      subscribable.root == inputStore.cell && forall r :: subscribable.read(r) == StateAt(r)
    }

    function StateAt(r: R): S
    {
      keyPath(inputStore.state(r))
    }

    /** `state`: the parent's state at `keyPath`. */
    function State(): S
      reads inputStore.cell
    {
      StateAt(inputStore.cell.value)
    }

    /** `subscribe(on:triggerNow:_:)`: into `actionSubscribers`. */
    method Subscribe(triggerNow: bool, closure: CallbackId) returns (subscription: Subscription<R, S>)
      requires Valid()
      modifies subscribable
      ensures fresh(subscription) && subscription.subscribable == subscribable
      ensures subscribable.actionSubscribers == old(subscribable.actionSubscribers)[subscription := closure]
      ensures subscribable.upstreamSubscribers == old(subscribable.upstreamSubscribers)
      ensures subscribable.calls == old(subscribable.calls) +
        (if triggerNow then [Call(subscription, closure, State())] else [])
    {
      subscription := subscribable.Subscribe(triggerNow, ActionSubscribers, closure);
    }
  }
}
