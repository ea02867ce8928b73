/**
 * `WrappedKeyPathStore<InputState, WrappedState>`: a store for a non-optional field of a
 * parent whose state is optional. Its state is nil while the parent's is; a mutation
 * runs only while the parent's state is present.
 */
module WrappedKeyPathStores {
  import opened Optionals
  import opened KeyPaths
  import opened Atomics
  import opened Callbacks
  import opened Downstream
  import opened Subscribers
  import opened AnyStores

  /**
   * What the `.optional` branch of `perform` leaves in the parent's optional state: nil
   * stays nil; a present state has `closure` run on its field at `keyPath`.
   */
  function Reinserted<I, W>(keyPath: KeyPath<I, W>, inputState: Option<I>, closure: W -> W): (o: Option<I>)
    ensures o.Some? <==> inputState.Some?
    ensures o.Some? ==> o.value == Modify(keyPath, inputState.value, closure)
  {
    MapOption(inputState, i => Modify(keyPath, i, closure))
  }

  /**
   * The `.optional` branch's closure, on the optional state it is handed: if nil it returns
   * at once; otherwise the state is set to nil while `closure` runs on the unwrapped copy's
   * field, then the copy is stored. The same closure appears in WrappedSubstore and
   * OptionalSubstore. `during` is the state while `closure` ran, if it ran.
   */
  method ClearAndReinsert<I, W>(inputState: Cell<Option<I>>, keyPath: KeyPath<I, W>, closure: W -> W)
    returns (ghost during: Option<Option<I>>)
    modifies inputState
    ensures inputState.value == Reinserted(keyPath, old(inputState.value), closure)
    ensures during.Some? <==> old(inputState.value).Some?
    ensures during.Some? ==> during.value == None
  {
    during := None;
    if inputState.value.None? {
      return;
    }
    var unwrappedInputState := inputState.value.value;
    inputState.value := None;
    during := Some(inputState.value);
    unwrappedInputState := keyPath.put(unwrappedInputState, closure(keyPath.get(unwrappedInputState)));
    inputState.value := Some(unwrappedInputState);
  }

  /**
   * Where a store below an optional parent writes: below a `.wrapped` parent, the field
   * inside the parent's slot; below an `.optional` one, the field inside the wrapped value
   * of the parent's slot.
   */
  function OptionalParentWrites<R, I, W>(parent: AnyOptionalStore<R, I>, keyPath: KeyPath<I, W>): (writes: Focus<R, W>)
  {
    match parent
    case Wrapped(s) => Then(s.perform, Field(keyPath))
    case Optional(s) => Then(s.perform, Then(Present(), Field(keyPath)))
  }

  /** The `.optional` branch of `perform` writes through `OptionalParentWrites` when the parent's slot is lawful. */
  lemma ReinsertedWrites<R(!new), I(!new), W(!new)>(parent: Focus<R, Option<I>>, keyPath: KeyPath<I, W>, r: R, f: W -> W)
    requires FocusLawful(parent)
    ensures Apply(parent, r, o => Reinserted(keyPath, o, f)) == Apply(Then(parent, Then(Present(), Field(keyPath))), r, f)
  {
    ApplyThen(parent, Then(Present(), Field(keyPath)), r, f);
    match parent.peek(r)
    case None =>
    case Some(o) =>
      assert Reinserted(keyPath, o, f) == Apply(Then(Present(), Field(keyPath)), o, f);
  }

  /** What `perform` does to the parent's root, for either kind of parent. */
  ghost predicate Performed<R, I, W>(parent: AnyOptionalStore<R, I>, keyPath: KeyPath<I, W>, before: R, after: R, closure: W -> W)
  {
    match parent
    case Wrapped(s) => after == Apply(s.perform, before, i => Modify(keyPath, i, closure))
    case Optional(s) => after == Apply(s.perform, before, o => Reinserted(keyPath, o, closure))
  }

  /** `perform` on either kind of parent, read back: nil stays nil, and a present state has `closure` applied. */
  lemma PerformedReadBack<R(!new), I(!new), W(!new)>(parent: AnyOptionalStore<R, I>, keyPath: KeyPath<I, W>, before: R, after: R, closure: W -> W)
    requires Performed(parent, keyPath, before, after, closure)
    requires OptionalParentCoherent(parent) && OptionalParentLawful(parent) && Lawful(keyPath)
    ensures after == Apply(OptionalParentWrites(parent, keyPath), before, closure)
    ensures MapOption(parent.StateAt(after), keyPath.get) == MapOption(MapOption(parent.StateAt(before), keyPath.get), closure)
  {
    match parent
    case Wrapped(s) =>
      PlainParentPlainField(s.perform, keyPath, before, closure);
      assert s.perform.peek(before) == s.state(before);
      if s.state(before).Some? {
        var i := s.state(before).value;
        assert s.perform.peek(after) == Some(Modify(keyPath, i, closure));
        assert s.perform.peek(after) == s.state(after);
        ModifyOnlyAtPath(keyPath, i, closure);
      }
    case Optional(s) =>
      ReinsertedWrites(s.perform, keyPath, before, closure);
      OptionalParentPlainField(s.perform, keyPath, before, closure);
      assert s.perform.peek(before) == Some(s.state(before));
      if s.state(before).Some? {
        var i := s.state(before).value;
        assert s.perform.peek(after) == Some(Some(Modify(keyPath, i, closure)));
        assert s.perform.peek(after) == Some(s.state(after));
        ModifyOnlyAtPath(keyPath, i, closure);
      }
  }

  class WrappedKeyPathStore<R(!new), I(!new), W(!new)> {
    const inputStore: AnyOptionalStore<R, I>
    const keyPath: KeyPath<I, W>
    const downstream: DownstreamList
    const subscribers: SubscriberTable<Option<W>>

    /** `init(_:keyPath:)`: as for `KeyPathStore`, through whichever parent case it is. */
    constructor (inputStore: AnyOptionalStore<R, I>, keyPath: KeyPath<I, W>)
      modifies inputStore.Downstream()
      ensures this.inputStore == inputStore && this.keyPath == keyPath
      ensures fresh(downstream) && downstream.closures == []
      ensures fresh(subscribers) && subscribers.subscribers == map[] && subscribers.calls == []
      ensures inputStore.Downstream().closures == old(inputStore.Downstream().closures) + [NotifyDownstream(this)]
    {
      this.inputStore := inputStore;
      this.keyPath := keyPath;
      downstream := new DownstreamList([]);
      subscribers := new SubscriberTable();
      new;
      inputStore.AppendDownstream(NotifyDownstream(this));
    }

    function Queue(): QueueId
    {
      inputStore.Queue()
    }

    function StateAt(r: R): Option<W>
    {
      MapOption(inputStore.StateAt(r), keyPath.get)
    }

    /** `state`: `inputStore.state?[keyPath: keyPath]` */
    function State(): Option<W>
      reads inputStore.Cell()
    {
      StateAt(inputStore.Cell().value)
    }

    function Writes(): Focus<R, W>
    {
      OptionalParentWrites(inputStore, keyPath)
    }

    /**
     * `perform(_:)`: below a `.wrapped` parent the parent runs `closure` on the field;
     * below an `.optional` one it runs the clear-and-reinsert closure. Read back, nil stays
     * nil and a present state has `closure` applied.
     */
    method Perform(closure: W -> W)
      modifies inputStore.Cell()
      ensures Performed(inputStore, keyPath, old(inputStore.Cell().value), inputStore.Cell().value, closure)
      ensures inputStore.Wrapped? ==> inputStore.Cell().value == Apply(Writes(), old(inputStore.Cell().value), closure)
      ensures OptionalParentCoherent(inputStore) && OptionalParentLawful(inputStore) && Lawful(keyPath) ==>
        inputStore.Cell().value == Apply(Writes(), old(inputStore.Cell().value), closure) &&
        State() == MapOption(old(State()), closure)
    {
      ghost var before := inputStore.Cell().value;
      match inputStore
      case Wrapped(s) => s.Perform(i => Modify(keyPath, i, closure));
      case Optional(s) => s.Perform(o => Reinserted(keyPath, o, closure));
      if OptionalParentCoherent(inputStore) && OptionalParentLawful(inputStore) && Lawful(keyPath) {
        PerformedReadBack(inputStore, keyPath, before, inputStore.Cell().value, closure);
      }
    }

    method Subscribe(triggerNow: bool, closure: CallbackId) returns (disposable: SubscriberDisposable<Option<W>>)
      modifies subscribers
      ensures fresh(disposable) && disposable.subscribable == subscribers
      ensures subscribers.subscribers == old(subscribers.subscribers)[disposable := closure]
      ensures subscribers.calls == old(subscribers.calls) +
        (if triggerNow then [Call(disposable, closure, State())] else [])
    {
      disposable := subscribers.SubscribeTriggering(triggerNow, closure, State());
    }

    /** `AnyStore(self)`: a parent with optional state, mutated through its wrapped value. */
    function AsAnyStore(): AnyStore<R, Option<W>, W>
    {
      AnyStore(inputStore.Cell(), r => StateAt(r), r => StateAt(r), Writes(), downstream, NotifyUpstream(this))
    }
  }

  /** A wrapped key-path store over a coherent, lawful parent is a coherent, lawful `.wrapped` parent. */
  lemma AsAnyStoreCoherent<R(!new), I(!new), W(!new)>(store: WrappedKeyPathStore<R, I, W>)
    requires OptionalParentCoherent(store.inputStore) && OptionalParentLawful(store.inputStore) && Lawful(store.keyPath)
    ensures WrappedCoherent(store.AsAnyStore()) && FocusLawful(store.AsAnyStore().perform)
  {
    FieldLawful(store.keyPath);
    match store.inputStore
    case Wrapped(s) =>
      forall r ensures store.AsAnyStore().perform.peek(r) == store.StateAt(r) {
        assert s.perform.peek(r) == s.state(r);
      }
      ThenLawful(s.perform, Field(store.keyPath));
    case Optional(s) =>
      forall r ensures store.AsAnyStore().perform.peek(r) == store.StateAt(r) {
        assert s.perform.peek(r) == Some(s.state(r));
      }
      PresentLawful<I>();
      ThenLawful(Present(), Field(store.keyPath));
      ThenLawful(s.perform, Then(Present(), Field(store.keyPath)));
  }
}
