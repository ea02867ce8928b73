/**
 * `OptionalReadStore<InputState, WrappedState>`: a read-only view, through a plain or an
 * optional key path, of a readable parent whose state is optional.
 */
module OptionalReadStores {
  import opened Optionals
  import opened Callbacks
  import opened Downstream
  import opened Subscriptions
  import opened AnyStores

  class OptionalReadStore<R(!new), I, W> {
    const inputStore: AnyReadStore<R, Option<I>>
    const keyPath: PossiblyOptionalKeyPath<I, W>
    const upstream: Option<Notifier>
    const subscribable: Subscribable<R, Option<W>>

    /** `init(_:keyPath:)`: captures the parent's `notifyUpstream`; the parent is not changed. */
    constructor (inputStore: AnyReadStore<R, Option<I>>, keyPath: PossiblyOptionalKeyPath<I, W>)
      ensures this.inputStore == inputStore && this.keyPath == keyPath
      ensures upstream == Some(inputStore.notifyUpstream)
      ensures fresh(subscribable)
      ensures subscribable.actionSubscribers == map[] && subscribable.upstreamSubscribers == map[]
      ensures subscribable.calls == []
      ensures Valid()
    {
      this.inputStore := inputStore;
      this.keyPath := keyPath;
      upstream := Some(inputStore.notifyUpstream);
      subscribable := new Subscribable(inputStore.cell, r => ReadThrough(keyPath, inputStore.state(r)));
    }

    /** The subscriber dictionaries read the store's own state. */
    ghost predicate Valid()
    {
      subscribable.root == inputStore.cell && forall r :: subscribable.read(r) == StateAt(r)
    }

    /** `_state`: the parent's `_state` read through the path. */
    function InternalState(): Option<W>
      reads inputStore.cell
    {
      ReadThrough(keyPath, inputStore.internalState(inputStore.cell.value))
    }

    function StateAt(r: R): Option<W>
    {
      ReadThrough(keyPath, inputStore.state(r))
    }

    /** `state`: the parent's `state` read through the path. */
    function State(): Option<W>
      reads inputStore.cell
    {
      StateAt(inputStore.cell.value)
    }

    method Subscribe(triggerNow: bool, closure: CallbackId) returns (subscription: Subscription<R, Option<W>>)
      requires Valid()
      modifies subscribable
      ensures fresh(subscription) && subscription.subscribable == subscribable
      ensures subscribable.actionSubscribers == old(subscribable.actionSubscribers)[subscription := closure]
      ensures subscribable.upstreamSubscribers == old(subscribable.upstreamSubscribers)
      ensures subscribable.calls == old(subscribable.calls) +
        (if triggerNow then [Call(subscription, closure, State())] else [])
    {
      subscription := subscribable.Subscribe(triggerNow, ActionSubscribers, closure);
    }

    method SubscribeToDownstreamStateChanges(triggerNow: bool, closure: CallbackId) returns (subscription: Subscription<R, Option<W>>)
      requires Valid()
      modifies subscribable
      ensures fresh(subscription) && subscription.subscribable == subscribable
      ensures subscribable.upstreamSubscribers == old(subscribable.upstreamSubscribers)[subscription := closure]
      ensures subscribable.actionSubscribers == old(subscribable.actionSubscribers)
      ensures subscribable.calls == old(subscribable.calls) +
        (if triggerNow then [Call(subscription, closure, State())] else [])
    {
      subscription := subscribable.Subscribe(triggerNow, UpstreamSubscribers, closure);
    }
  }

  /** The convenience `init(_:keyPath:)` with a plain key path. */
  method WithSimplePath<R(!new), I, W>(inputStore: AnyReadStore<R, Option<I>>, keyPath: I -> W) returns (store: OptionalReadStore<R, I, W>)
    ensures fresh(store) && store.inputStore == inputStore && store.keyPath == SimplePath(keyPath)
    ensures store.State() == MapOption(inputStore.State(), keyPath)
  {
    store := new OptionalReadStore(inputStore, SimplePath(keyPath));
  }

  /** The convenience `init(_:keyPath:)` with a key path to an optional. */
  method WithOptionalPath<R(!new), I, W>(inputStore: AnyReadStore<R, Option<I>>, keyPath: I -> Option<W>) returns (store: OptionalReadStore<R, I, W>)
    ensures fresh(store) && store.inputStore == inputStore && store.keyPath == OptionalPath(keyPath)
    ensures store.State() == Chain(inputStore.State(), keyPath)
  {
    store := new OptionalReadStore(inputStore, OptionalPath(keyPath));
  }
}
