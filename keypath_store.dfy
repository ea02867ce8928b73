/**
 * `KeyPathStore<InputState, State>`: a store for the field at a writable key path of a
 * parent store's state. It reads through the parent, writes through the parent's
 * `perform`, and is notified through the parent's `downstream`.
 */
module KeyPathStores {
  import opened Optionals
  import opened KeyPaths
  import opened Atomics
  import opened Callbacks
  import opened Downstream
  import opened Subscribers
  import opened AnyStores

  /** The parent's slot, then the field at `keyPath` inside it. */
  function FieldWrites<R, I, S>(parent: AnyStore<R, I, I>, keyPath: KeyPath<I, S>): Focus<R, S>
  {
    Then(parent.perform, Field(keyPath))
  }

  /**
   * Through a coherent, lawful parent and a lawful key path, a mutation reads back as the
   * mutator applied to the field; the rest of the root is left as it was.
   */
  lemma FieldWritesReadBack<R(!new), I(!new), S(!new)>(parent: AnyStore<R, I, I>, keyPath: KeyPath<I, S>, r: R, f: S -> S)
    requires Coherent(parent) && FocusLawful(parent.perform) && Lawful(keyPath)
    ensures keyPath.get(parent.state(Apply(FieldWrites(parent, keyPath), r, f))) == f(keyPath.get(parent.state(r)))
    ensures forall s :: FieldWrites(parent, keyPath).poke(Apply(FieldWrites(parent, keyPath), r, f), s) ==
                        FieldWrites(parent, keyPath).poke(r, s)
  {
    var i := parent.state(r);
    assert parent.perform.peek(r) == Some(i);
    PlainParentPlainField(parent.perform, keyPath, r, f);
    var r' := parent.perform.poke(r, Modify(keyPath, i, f));
    assert parent.perform.peek(r') == Some(Modify(keyPath, i, f));
    assert parent.perform.peek(r') == Some(parent.state(r'));
    ModifyOnlyAtPath(keyPath, i, f);
    FieldLawful(keyPath);
    ThenLawful(parent.perform, Field(keyPath));
    ApplyLaws(FieldWrites(parent, keyPath), r, f);
  }

  class KeyPathStore<R(!new), I(!new), S(!new)> {
    const inputStore: AnyStore<R, I, I>
    const keyPath: KeyPath<I, S>
    const downstream: DownstreamList
    const subscribers: SubscriberTable<S>

    /**
     * `init(_:keyPath:)`: with empty `downstream` and `subscribers`, and a closure
     * notifying this store appended to the parent's `downstream`.
     */
    constructor (inputStore: AnyStore<R, I, I>, keyPath: KeyPath<I, S>)
      modifies inputStore.downstream
      ensures this.inputStore == inputStore && this.keyPath == keyPath
      ensures fresh(downstream) && downstream.closures == []
      ensures fresh(subscribers) && subscribers.subscribers == map[] && subscribers.calls == []
      ensures inputStore.downstream.closures == old(inputStore.downstream.closures) + [NotifyDownstream(this)]
    {
      this.inputStore := inputStore;
      this.keyPath := keyPath;
      downstream := new DownstreamList([]);
      subscribers := new SubscriberTable();
      new;
      inputStore.AppendDownstream(NotifyDownstream(this));
    }

    /** `queue`: the parent's. */
    function Queue(): QueueId
    {
      inputStore.Queue()
    }

    function StateAt(r: R): S
    {
      keyPath.get(inputStore.state(r))
    }

    /** `state`: the parent's state at `keyPath`. */
    function State(): S
      reads inputStore.cell
    {
      StateAt(inputStore.cell.value)
    }

    function Writes(): Focus<R, S>
    {
      FieldWrites(inputStore, keyPath)
    }

    /**
     * `perform(_:)`: the parent performs a mutator that runs `closure` on the field at
     * `keyPath`; read back, the state is `closure` of the old state.
     */
    method Perform(closure: S -> S)
      modifies inputStore.cell
      ensures inputStore.cell.value == Apply(Writes(), old(inputStore.cell.value), closure)
      ensures Coherent(inputStore) && FocusLawful(inputStore.perform) && Lawful(keyPath) ==>
        State() == closure(old(State()))
    {
      ghost var r := inputStore.cell.value;
      inputStore.Perform(i => Modify(keyPath, i, closure));
      if Coherent(inputStore) && FocusLawful(inputStore.perform) && Lawful(keyPath) {
        FieldWritesReadBack(inputStore, keyPath, r, closure);
      }
    }

    /** `subscribe(on:triggerNow:_:)` */
    method Subscribe(triggerNow: bool, closure: CallbackId) returns (disposable: SubscriberDisposable<S>)
      modifies subscribers
      ensures fresh(disposable) && disposable.subscribable == subscribers
      ensures subscribers.subscribers == old(subscribers.subscribers)[disposable := closure]
      ensures subscribers.calls == old(subscribers.calls) +
        (if triggerNow then [Call(disposable, closure, State())] else [])
    {
      disposable := subscribers.SubscribeTriggering(triggerNow, closure, State());
    }

    /** `AnyStore(self)`: this store as a parent of further stores. */
    function AsAnyStore(): AnyStore<R, S, S>
    {
      AnyStore(inputStore.cell, r => StateAt(r), r => StateAt(r), Writes(), downstream, NotifyUpstream(this))
    }
  }

  /** A key-path store over a coherent, lawful parent is itself a coherent, lawful parent. */
  lemma AsAnyStoreCoherent<R(!new), I(!new), S(!new)>(store: KeyPathStore<R, I, S>)
    requires Coherent(store.inputStore) && FocusLawful(store.inputStore.perform) && Lawful(store.keyPath)
    ensures Coherent(store.AsAnyStore()) && FocusLawful(store.AsAnyStore().perform)
  {
    var parent := store.inputStore;
    forall r ensures store.AsAnyStore().perform.peek(r) == Some(store.StateAt(r)) {
      assert parent.perform.peek(r) == Some(parent.state(r));
    }
    FieldLawful(store.keyPath);
    ThenLawful(parent.perform, Field(store.keyPath));
  }
}
