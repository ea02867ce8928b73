/**
 * `OptionalSubstore<InputState, WrappedState>`: a store for an optional field of a parent
 * whose state is optional. Its state flattens both optionals; it is mutated as the
 * optional field itself, and only while the parent's state is present.
 */
module OptionalSubstores {
  import opened Optionals
  import opened KeyPaths
  import opened Atomics
  import opened Callbacks
  import opened Downstream
  import opened Subscriptions
  import opened AnyStores
  import opened WrappedKeyPathStores

  class OptionalSubstore<R(!new), I(!new), W(!new)> {
    const inputStore: AnyOptionalStore<R, I>
    const keyPath: KeyPath<I, Option<W>>
    const upstream: Option<Notifier>
    const subscribable: Subscribable<R, Option<W>>

    /** `init(_:keyPath:)`: captures the parent's `notifyUpstream`; the parent is not changed. */
    constructor (inputStore: AnyOptionalStore<R, I>, keyPath: KeyPath<I, Option<W>>)
      ensures this.inputStore == inputStore && this.keyPath == keyPath
      ensures upstream == Some(inputStore.NotifyUpstream())
      ensures fresh(subscribable)
      ensures subscribable.actionSubscribers == map[] && subscribable.upstreamSubscribers == map[]
      ensures subscribable.calls == []
      ensures Valid()
    {
      this.inputStore := inputStore;
      this.keyPath := keyPath;
      upstream := Some(inputStore.NotifyUpstream());
      subscribable := new Subscribable(inputStore.Cell(), r => Chain(inputStore.StateAt(r), keyPath.get));
    }

    /** The subscriber dictionaries read the store's own state. */
    ghost predicate Valid()
    {
      subscribable.root == inputStore.Cell() && forall r :: subscribable.read(r) == StateAt(r)
    }

    function Queue(): QueueId
    {
      inputStore.Queue()
    }

    function StateAt(r: R): Option<W>
    {
      Chain(inputStore.StateAt(r), keyPath.get)
    }

    /** `state`: `inputStore.state?[keyPath: keyPath]`, nil if either optional is. */
    function State(): Option<W>
      reads inputStore.Cell()
    {
      StateAt(inputStore.Cell().value)
    }

    /** `_state`: the same through the parent's `_state`. */
    function InternalState(): Option<W>
      reads inputStore.Cell()
    {
      Chain(inputStore.InternalStateAt(inputStore.Cell().value), keyPath.get)
    }

    function Writes(): Focus<R, Option<W>>
    {
      OptionalParentWrites(inputStore, keyPath)
    }

    /**
     * `perform(_:)`: `closure` runs on the optional field, only while the parent's state is
     * present. Read back, a nil parent leaves the state nil, and otherwise the state is
     * `closure` of the old one.
     */
    method Perform(closure: Option<W> -> Option<W>)
      modifies inputStore.Cell()
      ensures Performed(inputStore, keyPath, old(inputStore.Cell().value), inputStore.Cell().value, closure)
      ensures OptionalParentCoherent(inputStore) && OptionalParentLawful(inputStore) && Lawful(keyPath) ==>
        && inputStore.Cell().value == Apply(Writes(), old(inputStore.Cell().value), closure)
        && (old(inputStore.StateAt(inputStore.Cell().value)).None? ==> State().None?)
        && (old(inputStore.StateAt(inputStore.Cell().value)).Some? ==> State() == closure(old(State())))
    {
      ghost var before := inputStore.Cell().value;
      match inputStore
      case Wrapped(s) => s.Perform(i => Modify(keyPath, i, closure));
      case Optional(s) => s.Perform(o => Reinserted(keyPath, o, closure));
      if OptionalParentCoherent(inputStore) && OptionalParentLawful(inputStore) && Lawful(keyPath) {
        PerformedReadBack(inputStore, keyPath, before, inputStore.Cell().value, closure);
      }
    }

    /** `subscribe(on:triggerNow:_:)`: into `actionSubscribers`. */
    method Subscribe(triggerNow: bool, closure: CallbackId) returns (subscription: Subscription<R, Option<W>>)
      requires Valid()
      modifies subscribable
      ensures fresh(subscription) && subscription.subscribable == subscribable
      ensures subscribable.actionSubscribers == old(subscribable.actionSubscribers)[subscription := closure]
      ensures subscribable.upstreamSubscribers == old(subscribable.upstreamSubscribers)
      ensures subscribable.calls == old(subscribable.calls) +
        (if triggerNow then [Call(subscription, closure, State())] else [])
    {
      subscription := subscribable.Subscribe(triggerNow, ActionSubscribers, closure);
    }

    /** `subscribeToDownstreamStateChanges(on:triggerNow:_:)`: into `upstreamSubscribers`. */
    method SubscribeToDownstreamStateChanges(triggerNow: bool, closure: CallbackId) returns (subscription: Subscription<R, Option<W>>)
      requires Valid()
      modifies subscribable
      ensures fresh(subscription) && subscription.subscribable == subscribable
      ensures subscribable.upstreamSubscribers == old(subscribable.upstreamSubscribers)[subscription := closure]
      ensures subscribable.actionSubscribers == old(subscribable.actionSubscribers)
      ensures subscribable.calls == old(subscribable.calls) +
        (if triggerNow then [Call(subscription, closure, State())] else [])
    {
      subscription := subscribable.Subscribe(triggerNow, UpstreamSubscribers, closure);
    }
  }

  /**
   * Where `perform` writes: while the parent's state is present, `closure` runs on the
   * optional field itself, nil or not, and the parent then holds the field set to what it
   * returned; while the parent is nil the root is left as it was.
   */
  lemma PerformRunsOnOptionalField<R(!new), I(!new), W(!new)>(store: OptionalSubstore<R, I, W>, r: R, closure: Option<W> -> Option<W>)
    requires OptionalParentCoherent(store.inputStore) && OptionalParentLawful(store.inputStore)
    ensures store.inputStore.StateAt(r).None? ==> Apply(store.Writes(), r, closure) == r
    ensures store.inputStore.StateAt(r).Some? ==>
      var i := store.inputStore.StateAt(r).value;
      store.inputStore.StateAt(Apply(store.Writes(), r, closure)) == Some(store.keyPath.put(i, closure(store.keyPath.get(i))))
  {
    var after := Apply(store.Writes(), r, closure);
    match store.inputStore
    case Wrapped(s) =>
      ApplyThen(s.perform, Field(store.keyPath), r, closure);
      ApplyLaws(s.perform, r, i => Apply(Field(store.keyPath), i, closure));
      assert s.perform.peek(r) == s.state(r);
      assert s.perform.peek(after) == s.state(after);
    case Optional(s) =>
      ApplyThen(s.perform, Then(Present(), Field(store.keyPath)), r, closure);
      ApplyLaws(s.perform, r, o => Apply(Then(Present(), Field(store.keyPath)), o, closure));
      assert s.perform.peek(r) == Some(s.state(r));
      assert s.perform.peek(after) == Some(s.state(after));
  }
}
