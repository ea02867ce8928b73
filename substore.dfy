/**
 * `Substore<InputState, State>`: a store for a field of a parent, with the two
 * subscriber dictionaries of a subscribable store and the parent's `notifyUpstream`
 * captured as its `upstream`. It does not register in the parent's `downstream`.
 */
module Substores {
  import opened Optionals
  import opened KeyPaths
  import opened Atomics
  import opened Callbacks
  import opened Downstream
  import opened Subscriptions
  import opened AnyStores
  import opened KeyPathStores

  class Substore<R(!new), I(!new), S(!new)> {
    const inputStore: AnyStore<R, I, I>
    const keyPath: KeyPath<I, S>
    const upstream: Option<Notifier>
    const subscribable: Subscribable<R, S>

    /** `init(_:keyPath:)`: the parent is not changed. */
    constructor (inputStore: AnyStore<R, I, I>, keyPath: KeyPath<I, S>)
      ensures this.inputStore == inputStore && this.keyPath == keyPath
      ensures upstream == Some(inputStore.notifyUpstream)
      ensures fresh(subscribable)
      ensures subscribable.actionSubscribers == map[] && subscribable.upstreamSubscribers == map[]
      ensures subscribable.calls == []
      ensures Valid()
    {
      this.inputStore := inputStore;
      this.keyPath := keyPath;
      upstream := Some(inputStore.notifyUpstream);
      subscribable := new Subscribable(inputStore.cell, r => keyPath.get(inputStore.state(r)));
    }

    /** The subscriber dictionaries read the store's own state. */
    ghost predicate Valid()
    {
      subscribable.root == inputStore.cell && forall r :: subscribable.read(r) == StateAt(r)
    }

    function Queue(): QueueId
    {
      inputStore.Queue()
    }

    function StateAt(r: R): S
    {
      keyPath.get(inputStore.state(r))
    }

    /** `state`: the parent's `state` at `keyPath`. */
    function State(): S
      reads inputStore.cell
    {
      StateAt(inputStore.cell.value)
    }

    /** `_state`: the parent's `_state` at `keyPath`. */
    function InternalState(): S
      reads inputStore.cell
    {
      keyPath.get(inputStore.internalState(inputStore.cell.value))
    }

    function Writes(): Focus<R, S>
    {
      FieldWrites(inputStore, keyPath)
    }

    /** `perform(_:)`: as `KeyPathStore.perform`. */
    method Perform(closure: S -> S)
      modifies inputStore.cell
      ensures inputStore.cell.value == Apply(Writes(), old(inputStore.cell.value), closure)
      ensures Coherent(inputStore) && FocusLawful(inputStore.perform) && Lawful(keyPath) ==>
        State() == closure(old(State()))
    {
      ghost var r := inputStore.cell.value;
      inputStore.Perform(i => Modify(keyPath, i, closure));
      if Coherent(inputStore) && FocusLawful(inputStore.perform) && Lawful(keyPath) {
        FieldWritesReadBack(inputStore, keyPath, r, closure);
      }
    }

    /** `subscribe(on:triggerNow:_:)`: into `actionSubscribers`. */
    method Subscribe(triggerNow: bool, closure: CallbackId) returns (subscription: Subscription<R, S>)
      requires Valid()
      modifies subscribable
      ensures fresh(subscription) && subscription.subscribable == subscribable
      ensures subscribable.actionSubscribers == old(subscribable.actionSubscribers)[subscription := closure]
      ensures subscribable.upstreamSubscribers == old(subscribable.upstreamSubscribers)
      ensures subscribable.calls == old(subscribable.calls) +
        (if triggerNow then [Call(subscription, closure, State())] else [])
    {
      subscription := subscribable.Subscribe(triggerNow, ActionSubscribers, closure);
    }

    /** `subscribeToDownstreamStateChanges(on:triggerNow:_:)`: into `upstreamSubscribers`. */
    method SubscribeToDownstreamStateChanges(triggerNow: bool, closure: CallbackId) returns (subscription: Subscription<R, S>)
      requires Valid()
      modifies subscribable
      ensures fresh(subscription) && subscription.subscribable == subscribable
      ensures subscribable.upstreamSubscribers == old(subscribable.upstreamSubscribers)[subscription := closure]
      ensures subscribable.actionSubscribers == old(subscribable.actionSubscribers)
      ensures subscribable.calls == old(subscribable.calls) +
        (if triggerNow then [Call(subscription, closure, State())] else [])
    {
      subscription := subscribable.Subscribe(triggerNow, UpstreamSubscribers, closure);
    }
  }
}
