/**
 * `OptionalReadOnlyStore<InputState, WrappedState>`: a read-only view, through a plain or
 * an optional key path, of a writable parent with plain or optional state, notified
 * through the parent's `downstream`.
 */
module OptionalReadOnlyStores {
  import opened Optionals
  import opened Callbacks
  import opened Downstream
  import opened Subscribers
  import opened AnyStores
  import opened KeyPaths

  class OptionalReadOnlyStore<R, I, W> {
    const inputStore: AnyGenericStore<R, I>
    const keyPath: PossiblyOptionalKeyPath<I, W>
    const downstream: DownstreamList
    const subscribers: SubscriberTable<Option<W>>

    /** `init(_:keyPath:)`: empty lists, and this store appended to the parent's `downstream`. */
    constructor (inputStore: AnyGenericStore<R, I>, keyPath: PossiblyOptionalKeyPath<I, W>)
      modifies inputStore.Downstream()
      ensures this.inputStore == inputStore && this.keyPath == keyPath
      ensures fresh(downstream) && downstream.closures == []
      ensures fresh(subscribers) && subscribers.subscribers == map[] && subscribers.calls == []
      ensures inputStore.Downstream().closures == old(inputStore.Downstream().closures) + [NotifyDownstream(this)]
    {
      this.inputStore := inputStore;
      this.keyPath := keyPath;
      downstream := new DownstreamList([]);
      subscribers := new SubscriberTable();
      new;
      inputStore.AppendDownstream(NotifyDownstream(this));
    }

    function StateAt(r: R): Option<W>
    {
      ReadThrough(keyPath, inputStore.StateAt(r))
    }

    /** `state`: `inputStore.state?[keyPath: keyPath]` */
    function State(): Option<W>
      reads inputStore.Cell()
    {
      StateAt(inputStore.Cell().value)
    }

    method Subscribe(triggerNow: bool, closure: CallbackId) returns (disposable: SubscriberDisposable<Option<W>>)
      modifies subscribers
      ensures fresh(disposable) && disposable.subscribable == subscribers
      ensures subscribers.subscribers == old(subscribers.subscribers)[disposable := closure]
      ensures subscribers.calls == old(subscribers.calls) +
        (if triggerNow then [Call(disposable, closure, State())] else [])
    {
      disposable := subscribers.SubscribeTriggering(triggerNow, closure, State());
    }
  }

  /** Plain parent, plain path: the store of `WrappedState?` that is never nil. */
  method FromStoreWithSimplePath<R, I, W>(inputStore: AnyStore<R, I, I>, keyPath: I -> W) returns (store: OptionalReadOnlyStore<R, I, W>)
    modifies inputStore.downstream
    ensures fresh(store) && store.inputStore == Simple(inputStore) && store.keyPath == SimplePath(keyPath)
    ensures inputStore.downstream.closures == old(inputStore.downstream.closures) + [NotifyDownstream(store)]
  {
    store := new OptionalReadOnlyStore(Simple(inputStore), SimplePath(keyPath));
  }

  /** `.wrapped` parent, plain path. */
  method FromWrappedStoreWithSimplePath<R, I, W>(inputStore: AnyStore<R, Option<I>, I>, keyPath: I -> W) returns (store: OptionalReadOnlyStore<R, I, W>)
    modifies inputStore.downstream
    ensures fresh(store) && store.inputStore == OptionalParent(Wrapped(inputStore)) && store.keyPath == SimplePath(keyPath)
    ensures inputStore.downstream.closures == old(inputStore.downstream.closures) + [NotifyDownstream(store)]
  {
    store := new OptionalReadOnlyStore(OptionalParent(Wrapped(inputStore)), SimplePath(keyPath));
  }

  /** `.optional` parent, plain path. */
  method FromOptionalStoreWithSimplePath<R, I, W>(inputStore: AnyStore<R, Option<I>, Option<I>>, keyPath: I -> W) returns (store: OptionalReadOnlyStore<R, I, W>)
    modifies inputStore.downstream
    ensures fresh(store) && store.inputStore == OptionalParent(Optional(inputStore)) && store.keyPath == SimplePath(keyPath)
    ensures inputStore.downstream.closures == old(inputStore.downstream.closures) + [NotifyDownstream(store)]
  {
    store := new OptionalReadOnlyStore(OptionalParent(Optional(inputStore)), SimplePath(keyPath));
  }

  /** Plain parent, optional path. */
  method FromStoreWithOptionalPath<R, I, W>(inputStore: AnyStore<R, I, I>, keyPath: I -> Option<W>) returns (store: OptionalReadOnlyStore<R, I, W>)
    modifies inputStore.downstream
    ensures fresh(store) && store.inputStore == Simple(inputStore) && store.keyPath == OptionalPath(keyPath)
    ensures inputStore.downstream.closures == old(inputStore.downstream.closures) + [NotifyDownstream(store)]
  {
    store := new OptionalReadOnlyStore(Simple(inputStore), OptionalPath(keyPath));
  }

  /** `.wrapped` parent, optional path. */
  method FromWrappedStoreWithOptionalPath<R, I, W>(inputStore: AnyStore<R, Option<I>, I>, keyPath: I -> Option<W>) returns (store: OptionalReadOnlyStore<R, I, W>)
    modifies inputStore.downstream
    ensures fresh(store) && store.inputStore == OptionalParent(Wrapped(inputStore)) && store.keyPath == OptionalPath(keyPath)
    ensures inputStore.downstream.closures == old(inputStore.downstream.closures) + [NotifyDownstream(store)]
  {
    store := new OptionalReadOnlyStore(OptionalParent(Wrapped(inputStore)), OptionalPath(keyPath));
  }

  /** `.optional` parent, optional path. */
  method FromOptionalStoreWithOptionalPath<R, I, W>(inputStore: AnyStore<R, Option<I>, Option<I>>, keyPath: I -> Option<W>) returns (store: OptionalReadOnlyStore<R, I, W>)
    modifies inputStore.downstream
    ensures fresh(store) && store.inputStore == OptionalParent(Optional(inputStore)) && store.keyPath == OptionalPath(keyPath)
    ensures inputStore.downstream.closures == old(inputStore.downstream.closures) + [NotifyDownstream(store)]
  {
    store := new OptionalReadOnlyStore(OptionalParent(Optional(inputStore)), OptionalPath(keyPath));
  }

  /**
   * Below a plain parent that reads what it writes, the store reads, through its path,
   * the parent's state as the parent's `perform` left it.
   */
  lemma SeesPlainParentWrite<R(!new), I(!new), W>(store: OptionalReadOnlyStore<R, I, W>, r: R, f: I -> I)
    requires store.inputStore.Simple?
    requires Coherent(store.inputStore.simple) && FocusLawful(store.inputStore.simple.perform)
    ensures store.StateAt(Apply(store.inputStore.simple.perform, r, f)) ==
      ReadThrough(store.keyPath, Some(f(store.inputStore.simple.state(r))))
  {
    var s := store.inputStore.simple;
    ApplyLaws(s.perform, r, f);
    assert s.perform.peek(r) == Some(s.state(r));
    assert s.perform.peek(Apply(s.perform, r, f)) == Some(s.state(Apply(s.perform, r, f)));
  }

  /**
   * Below a `.wrapped` parent, a `perform` while the parent is nil leaves the store
   * reading nil; otherwise the store reads through the mutated wrapped state.
   */
  lemma SeesWrappedParentWrite<R(!new), I(!new), W>(store: OptionalReadOnlyStore<R, I, W>, r: R, f: I -> I)
    requires store.inputStore.OptionalParent? && store.inputStore.optional.Wrapped?
    requires WrappedCoherent(store.inputStore.optional.wrapped) && FocusLawful(store.inputStore.optional.wrapped.perform)
    ensures store.StateAt(Apply(store.inputStore.optional.wrapped.perform, r, f)) ==
      ReadThrough(store.keyPath, MapOption(store.inputStore.optional.wrapped.state(r), f))
  {
    var s := store.inputStore.optional.wrapped;
    ApplyLaws(s.perform, r, f);
    assert s.perform.peek(r) == s.state(r);
    assert s.perform.peek(Apply(s.perform, r, f)) == s.state(Apply(s.perform, r, f));
  }

  /** Below an `.optional` parent, the store reads through whatever the parent's `perform` made of its optional state. */
  lemma SeesOptionalParentWrite<R(!new), I(!new), W>(store: OptionalReadOnlyStore<R, I, W>, r: R, f: Option<I> -> Option<I>)
    requires store.inputStore.OptionalParent? && store.inputStore.optional.Optional?
    requires Coherent(store.inputStore.optional.optional) && FocusLawful(store.inputStore.optional.optional.perform)
    ensures store.StateAt(Apply(store.inputStore.optional.optional.perform, r, f)) ==
      ReadThrough(store.keyPath, f(store.inputStore.optional.optional.state(r)))
  {
    var s := store.inputStore.optional.optional;
    ApplyLaws(s.perform, r, f);
    assert s.perform.peek(r) == Some(s.state(r));
    assert s.perform.peek(Apply(s.perform, r, f)) == Some(s.state(Apply(s.perform, r, f)));
  }
}
