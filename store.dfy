/**
 * `Store<State>` and `OptionalStore<State>`: stores that read and write one root cell
 * through an `AnyAtomic`, notify their subscribers on every dispatch, and then run their
 * `downstream` closures, which notify the stores mapped from them.
 */
module Stores {
  import opened Optionals
  import opened KeyPaths
  import opened Atomics
  import opened Callbacks
  import opened Downstream
  import opened Subscribers

  /** `DispatchMode`. Both modes run the mutation at once here: the queue is not modelled. */
  datatype DispatchMode = Sync | Async

  /** The `ActionProtocol` values a store can be dispatched. */
  datatype Action<!S> =
    | SetAction(state: S)
    | MutateAction(closure: S -> S)
    | CustomAction(mutate: S -> S)

  /** `action.mutate(&state)` */
  function Mutate<S>(action: Action<S>, s: S): (r: S)
    ensures action.SetAction? ==> r == action.state
    ensures action.MutateAction? ==> r == action.closure(s)
  {
    match action
    case SetAction(state) => state
    case MutateAction(closure) => closure(s)
    case CustomAction(mutate) => mutate(s)
  }

  /**
   * `AnyAtomic<GetState, MutateState>` over the root cell: `read` is what `value` returns,
   * `focus` is the slot `access` runs its closure on.
   */
  datatype AnyAtomic<!R, G, !M> = AnyAtomic(read: R -> G, focus: Focus<R, M>)

  /** A store reads exactly what it writes, and its slot is always present. */
  ghost predicate AtomicCoherent<R(!new), S(!new)>(a: AnyAtomic<R, S, S>)
  {
    forall r :: a.focus.peek(r) == Some(a.read(r))
  }

  /** An optional store reads `nil` exactly when its slot is absent, and otherwise the slot. */
  ghost predicate OptionalAtomicCoherent<R(!new), S(!new)>(a: AnyAtomic<R, Option<S>, S>)
  {
    forall r :: a.focus.peek(r) == a.read(r)
  }

  /** `AtomicMap(_state, transform:, traverse:)`: the traverse runs below the parent's slot. */
  function AtomicMap<R, S, O>(a: AnyAtomic<R, S, S>, transform: S -> O, traverse: Focus<S, O>): AnyAtomic<R, O, O>
  {
    AnyAtomic(r => transform(a.read(r)), Then(a.focus, traverse))
  }

  /** `OptionalAtomicMap(_state, transform:, traverse:)` */
  function OptionalAtomicMap<R, S, O>(a: AnyAtomic<R, S, S>, transform: S -> Option<O>, traverse: Focus<S, O>): AnyAtomic<R, Option<O>, O>
  {
    AnyAtomic(r => transform(a.read(r)), Then(a.focus, traverse))
  }

  /** A map whose traverse writes the slot its transform reads keeps the store coherent. */
  lemma AtomicMapCoherent<R(!new), S(!new), O(!new)>(a: AnyAtomic<R, S, S>, transform: S -> O, traverse: Focus<S, O>)
    requires AtomicCoherent(a)
    requires forall s :: traverse.peek(s) == Some(transform(s))
    ensures AtomicCoherent(AtomicMap(a, transform, traverse))
  {
    forall r ensures AtomicMap(a, transform, traverse).focus.peek(r) == Some(transform(a.read(r))) {
      assert a.focus.peek(r) == Some(a.read(r));
    }
  }

  lemma OptionalAtomicMapCoherent<R(!new), S(!new), O(!new)>(a: AnyAtomic<R, S, S>, transform: S -> Option<O>, traverse: Focus<S, O>)
    requires AtomicCoherent(a)
    requires forall s :: traverse.peek(s) == transform(s)
    ensures OptionalAtomicCoherent(OptionalAtomicMap(a, transform, traverse))
  {
    forall r ensures OptionalAtomicMap(a, transform, traverse).focus.peek(r) == transform(a.read(r)) {
      assert a.focus.peek(r) == Some(a.read(r));
    }
  }

  /**
   * What a dispatch does to a coherent store over a lawful slot: the state read back
   * afterwards is the action applied to the state before.
   */
  lemma DispatchReadsBack<R(!new), S(!new)>(a: AnyAtomic<R, S, S>, r: R, action: Action<S>)
    requires AtomicCoherent(a) && FocusLawful(a.focus)
    ensures a.read(Apply(a.focus, r, s => Mutate(action, s))) == Mutate(action, a.read(r))
  {
    ApplyLaws(a.focus, r, s => Mutate(action, s));
    assert a.focus.peek(r) == Some(a.read(r));
    assert a.focus.peek(Apply(a.focus, r, s => Mutate(action, s))) ==
      Some(a.read(Apply(a.focus, r, s => Mutate(action, s))));
  }

  /** On an optional store, a dispatch while the state is nil leaves it nil and changes nothing. */
  lemma OptionalDispatchReadsBack<R(!new), S(!new)>(a: AnyAtomic<R, Option<S>, S>, r: R, action: Action<S>)
    requires OptionalAtomicCoherent(a) && FocusLawful(a.focus)
    ensures a.read(r).None? ==> Apply(a.focus, r, s => Mutate(action, s)) == r
    ensures a.read(r).Some? ==>
      a.read(Apply(a.focus, r, s => Mutate(action, s))) == Some(Mutate(action, a.read(r).value))
  {
    ApplyLaws(a.focus, r, s => Mutate(action, s));
    assert a.focus.peek(r) == a.read(r);
    assert a.focus.peek(Apply(a.focus, r, s => Mutate(action, s))) == a.read(Apply(a.focus, r, s => Mutate(action, s)));
  }

  /** What a store did, in order: a notification of its subscribers, or a downstream closure run. */
  datatype Event<V> = Notified(value: V) | Ran(closure: Notifier)

  function RanEach<V>(closures: seq<Notifier>): (events: seq<Event<V>>)
    ensures |events| == |closures|
    ensures forall i :: 0 <= i < |closures| ==> events[i] == Ran(closures[i])
  {
    seq(|closures|, i requires 0 <= i < |closures| => Ran(closures[i]))
  }

  class Store<R(!new), S(!new)> {
    /** The root cell every store of the tree shares. */
    const cell: Cell<R>
    const atomic: AnyAtomic<R, S, S>
    const downstream: DownstreamList
    const subscribers: SubscriberTable<S>
    ghost var events: seq<Event<S>>

    /** `init(_ atomic:downstream:)` */
    constructor FromAtomic(cell: Cell<R>, atomic: AnyAtomic<R, S, S>, downstream: seq<Notifier>)
      ensures this.cell == cell && this.atomic == atomic
      ensures fresh(this.downstream) && this.downstream.closures == downstream
      ensures fresh(subscribers) && subscribers.subscribers == map[] && subscribers.calls == []
      ensures events == []
    {
      this.cell := cell;
      this.atomic := atomic;
      this.downstream := new DownstreamList(downstream);
      this.subscribers := new SubscriberTable();
      events := [];
    }

    /** `state`, and `subscriptionValue` */
    function State(): S
      reads cell
    {
      atomic.read(cell.value)
    }

    /**
     * What one dispatch of `action` did: the mutation ran through the store's slot; if the
     * slot was present the subscribers were each called once with the new state, then the
     * downstream closures ran in order; if it was absent nothing else happened.
     */
    twostate predicate Dispatched(action: Action<S>)
      reads this, cell, downstream, subscribers
    {
      && cell.value == Apply(atomic.focus, old(cell.value), s => Mutate(action, s))
      && downstream.closures == old(downstream.closures)
      && subscribers.subscribers == old(subscribers.subscribers)
      && match atomic.focus.peek(old(cell.value))
         case None =>
           events == old(events) && subscribers.calls == old(subscribers.calls)
         case Some(m) =>
           && events == old(events) + [Notified(Mutate(action, m))] + RanEach(downstream.closures)
           && Extends(old(subscribers.calls), subscribers.calls)
           && IsBroadcast(subscribers.subscribers, Mutate(action, m), subscribers.calls[|old(subscribers.calls)|..])
    }

    /** `downstream.forEach { $0() }` */
    method RunDownstream()
      modifies this
      ensures events == old(events) + RanEach(downstream.closures)
    {
      var i := 0;
      while i < |downstream.closures|
        invariant 0 <= i <= |downstream.closures|
        invariant events == old(events) + RanEach(downstream.closures[..i])
      {
        assert RanEach<S>(downstream.closures[..i + 1]) == RanEach(downstream.closures[..i]) + [Ran(downstream.closures[i])];
        events := events + [Ran(downstream.closures[i])];
        i := i + 1;
      }
      assert downstream.closures[..i] == downstream.closures;
    }

    /** `notifyDownstream()`: the subscribers with the current state, then the downstream closures. */
    method NotifyDownstream()
      modifies this, subscribers
      ensures subscribers.subscribers == old(subscribers.subscribers)
      ensures Extends(old(subscribers.calls), subscribers.calls)
      ensures IsBroadcast(subscribers.subscribers, State(), subscribers.calls[|old(subscribers.calls)|..])
      ensures events == old(events) + [Notified(State())] + RanEach(downstream.closures)
    {
      subscribers.NotifySubscribers(State());
      events := events + [Notified(State())];
      RunDownstream();
    }

    /**
     * `_dispatch(_:dispatchMode:)`: inside `access`, the action mutates the slot, the
     * subscribers are notified with the mutated state, and the downstream closures run;
     * the mutated slot is written back when the closure returns.
     */
    method Dispatch(action: Action<S>, mode: DispatchMode)
      modifies this, cell, subscribers
      ensures Dispatched(action)
    {
      var r := cell.value;
      match atomic.focus.peek(r)
      case None =>
      case Some(m) =>
        var next := Mutate(action, m);
        subscribers.NotifySubscribers(next);
        events := events + [Notified(next)];
        RunDownstream();
        cell.value := atomic.focus.poke(r, next);
    }

    /** `dispatch(_ state:dispatchMode:)`, through `SetAction`: a coherent store then reads `state`. */
    method DispatchState(state: S, mode: DispatchMode)
      modifies this, cell, subscribers
      ensures Dispatched(SetAction(state))
      ensures AtomicCoherent(atomic) && FocusLawful(atomic.focus) ==> State() == state
    {
      ghost var before := cell.value;
      Dispatch(SetAction(state), mode);
      if AtomicCoherent(atomic) && FocusLawful(atomic.focus) {
        DispatchReadsBack(atomic, before, SetAction(state));
      }
    }

    /** `dispatch(dispatchMode:_:)`, through `MutateAction`: a coherent store then reads `closure` of its old state. */
    method DispatchClosure(mode: DispatchMode, closure: S -> S)
      modifies this, cell, subscribers
      ensures Dispatched(MutateAction(closure))
      ensures AtomicCoherent(atomic) && FocusLawful(atomic.focus) ==> State() == closure(old(State()))
    {
      ghost var before := cell.value;
      Dispatch(MutateAction(closure), mode);
      if AtomicCoherent(atomic) && FocusLawful(atomic.focus) {
        DispatchReadsBack(atomic, before, MutateAction(closure));
      }
    }

    /** `subscribe(on:triggerNow:_:)` */
    method Subscribe(triggerNow: bool, closure: CallbackId) returns (disposable: SubscriberDisposable<S>)
      modifies subscribers
      ensures fresh(disposable) && disposable.subscribable == subscribers
      ensures subscribers.subscribers == old(subscribers.subscribers)[disposable := closure]
      ensures subscribers.calls == old(subscribers.calls) +
        (if triggerNow then [Call(disposable, closure, State())] else [])
    {
      disposable := subscribers.SubscribeTriggering(triggerNow, closure, State());
    }

    /**
     * `map(transform:traverse:)`: a store over the same root whose slot is `traverse`
     * inside this one's, with no downstream of its own; this store gains one downstream
     * closure, which notifies the new one.
     */
    method MapWith<O(!new)>(transform: S -> O, traverse: Focus<S, O>) returns (store: Store<R, O>)
      modifies downstream
      ensures fresh(store) && fresh(store.downstream) && fresh(store.subscribers)
      ensures store.cell == cell && store.atomic == AtomicMap(atomic, transform, traverse)
      ensures store.downstream.closures == [] && store.subscribers.subscribers == map[]
      ensures downstream.closures == old(downstream.closures) + [Notifier.NotifyDownstream(store)]
    {
      store := new Store.FromAtomic(cell, AtomicMap(atomic, transform, traverse), []);
      downstream.Append(Notifier.NotifyDownstream(store));
    }

    /** `map(_ keyPath:)`: the child reads and writes the field at `keyPath`. */
    method Map<O(!new)>(keyPath: KeyPath<S, O>) returns (store: Store<R, O>)
      modifies downstream
      ensures fresh(store) && store.cell == cell
      ensures store.atomic == AtomicMap(atomic, keyPath.get, Field(keyPath))
      ensures store.State() == keyPath.get(State())
      ensures store.downstream.closures == [] && store.subscribers.subscribers == map[]
      ensures downstream.closures == old(downstream.closures) + [Notifier.NotifyDownstream(store)]
    {
      store := MapWith(keyPath.get, Field(keyPath));
    }

    /** `optionalMap(transform:traverse:)` */
    method OptionalMapWith<O(!new)>(transform: S -> Option<O>, traverse: Focus<S, O>) returns (store: OptionalStore<R, O>)
      modifies downstream
      ensures fresh(store) && fresh(store.downstream) && fresh(store.subscribers)
      ensures store.cell == cell && store.atomic == OptionalAtomicMap(atomic, transform, traverse)
      ensures store.downstream.closures == [] && store.subscribers.subscribers == map[]
      ensures downstream.closures == old(downstream.closures) + [Notifier.NotifyDownstream(store)]
    {
      store := new OptionalStore.FromAtomic(cell, OptionalAtomicMap(atomic, transform, traverse), []);
      downstream.Append(Notifier.NotifyDownstream(store));
    }

    /**
     * `optionalMap(_ keyPath:)`: the child reads the optional field and writes it only
     * while it is non-nil (the traverse is `OptionalMapTraverse`).
     */
    method OptionalMap<O(!new)>(keyPath: KeyPath<S, Option<O>>) returns (store: OptionalStore<R, O>)
      modifies downstream
      ensures fresh(store) && store.cell == cell
      ensures store.atomic == OptionalAtomicMap(atomic, keyPath.get, OptionalField(keyPath))
      ensures store.State() == keyPath.get(State())
      ensures store.downstream.closures == [] && store.subscribers.subscribers == map[]
      ensures downstream.closures == old(downstream.closures) + [Notifier.NotifyDownstream(store)]
    {
      store := OptionalMapWith(keyPath.get, OptionalField(keyPath));
    }
  }

  class OptionalStore<R(!new), S(!new)> {
    const cell: Cell<R>
    const atomic: AnyAtomic<R, Option<S>, S>
    const downstream: DownstreamList
    const subscribers: SubscriberTable<Option<S>>
    ghost var events: seq<Event<Option<S>>>

    /** `init(_ atomic:downstream:)` */
    constructor FromAtomic(cell: Cell<R>, atomic: AnyAtomic<R, Option<S>, S>, downstream: seq<Notifier>)
      ensures this.cell == cell && this.atomic == atomic
      ensures fresh(this.downstream) && this.downstream.closures == downstream
      ensures fresh(subscribers) && subscribers.subscribers == map[] && subscribers.calls == []
      ensures events == []
    {
      this.cell := cell;
      this.atomic := atomic;
      this.downstream := new DownstreamList(downstream);
      this.subscribers := new SubscriberTable();
      events := [];
    }

    function State(): Option<S>
      reads cell
    {
      atomic.read(cell.value)
    }

    /** As for `Store`, except that subscribers receive the mutated state wrapped as non-nil. */
    twostate predicate Dispatched(action: Action<S>)
      reads this, cell, downstream, subscribers
    {
      && cell.value == Apply(atomic.focus, old(cell.value), s => Mutate(action, s))
      && downstream.closures == old(downstream.closures)
      && subscribers.subscribers == old(subscribers.subscribers)
      && match atomic.focus.peek(old(cell.value))
         case None =>
           events == old(events) && subscribers.calls == old(subscribers.calls)
         case Some(m) =>
           && events == old(events) + [Notified(Some(Mutate(action, m)))] + RanEach(downstream.closures)
           && Extends(old(subscribers.calls), subscribers.calls)
           && IsBroadcast(subscribers.subscribers, Some(Mutate(action, m)), subscribers.calls[|old(subscribers.calls)|..])
    }

    method RunDownstream()
      modifies this
      ensures events == old(events) + RanEach(downstream.closures)
    {
      var i := 0;
      while i < |downstream.closures|
        invariant 0 <= i <= |downstream.closures|
        invariant events == old(events) + RanEach(downstream.closures[..i])
      {
        assert RanEach<Option<S>>(downstream.closures[..i + 1]) == RanEach(downstream.closures[..i]) + [Ran(downstream.closures[i])];
        events := events + [Ran(downstream.closures[i])];
        i := i + 1;
      }
      assert downstream.closures[..i] == downstream.closures;
    }

    method NotifyDownstream()
      modifies this, subscribers
      ensures subscribers.subscribers == old(subscribers.subscribers)
      ensures Extends(old(subscribers.calls), subscribers.calls)
      ensures IsBroadcast(subscribers.subscribers, State(), subscribers.calls[|old(subscribers.calls)|..])
      ensures events == old(events) + [Notified(State())] + RanEach(downstream.closures)
    {
      subscribers.NotifySubscribers(State());
      events := events + [Notified(State())];
      RunDownstream();
    }

    /** `_dispatch(_:dispatchMode:)`, with `notifyMutateState(state)` notifying `state` as non-nil. */
    method Dispatch(action: Action<S>, mode: DispatchMode)
      modifies this, cell, subscribers
      ensures Dispatched(action)
    {
      var r := cell.value;
      match atomic.focus.peek(r)
      case None =>
      case Some(m) =>
        var next := Mutate(action, m);
        subscribers.NotifySubscribers(Some(next));
        events := events + [Notified(Some(next))];
        RunDownstream();
        cell.value := atomic.focus.poke(r, next);
    }

    /** `dispatch(_ state:dispatchMode:)`: a coherent store then reads `state` if it was non-nil, and is untouched if nil. */
    method DispatchState(state: S, mode: DispatchMode)
      modifies this, cell, subscribers
      ensures Dispatched(SetAction(state))
      ensures OptionalAtomicCoherent(atomic) && FocusLawful(atomic.focus) ==>
        if old(State()).Some? then State() == Some(state) else cell.value == old(cell.value)
    {
      ghost var before := cell.value;
      Dispatch(SetAction(state), mode);
      if OptionalAtomicCoherent(atomic) && FocusLawful(atomic.focus) {
        OptionalDispatchReadsBack(atomic, before, SetAction(state));
      }
    }

    /** `dispatch(dispatchMode:_:)`: a coherent store then reads `closure` of its old state if it was non-nil, and is untouched if nil. */
    method DispatchClosure(mode: DispatchMode, closure: S -> S)
      modifies this, cell, subscribers
      ensures Dispatched(MutateAction(closure))
      ensures OptionalAtomicCoherent(atomic) && FocusLawful(atomic.focus) ==>
        if old(State()).Some? then State() == Some(closure(old(State()).value)) else cell.value == old(cell.value)
    {
      ghost var before := cell.value;
      Dispatch(MutateAction(closure), mode);
      if OptionalAtomicCoherent(atomic) && FocusLawful(atomic.focus) {
        OptionalDispatchReadsBack(atomic, before, MutateAction(closure));
      }
    }

    method Subscribe(triggerNow: bool, closure: CallbackId) returns (disposable: SubscriberDisposable<Option<S>>)
      modifies subscribers
      ensures fresh(disposable) && disposable.subscribable == subscribers
      ensures subscribers.subscribers == old(subscribers.subscribers)[disposable := closure]
      ensures subscribers.calls == old(subscribers.calls) +
        (if triggerNow then [Call(disposable, closure, State())] else [])
    {
      disposable := subscribers.SubscribeTriggering(triggerNow, closure, State());
    }
  }

  /** `Store.init(_ state:)`: a fresh root cell holding `state`; the store's slot is all of it. */
  method NewStore<S(!new)>(state: S, queue: QueueId) returns (store: Store<S, S>)
    ensures fresh(store) && fresh(store.cell) && store.cell.value == state && store.cell.queue == queue
    ensures store.atomic == AnyAtomic(s => s, Whole())
    ensures store.State() == state
    ensures store.downstream.closures == [] && store.subscribers.subscribers == map[]
  {
    var cell := new Cell(state, queue);
    store := new Store.FromAtomic(cell, AnyAtomic(s => s, Whole()), []);
  }

  /** `OptionalStore.init(_ state: = nil)`: a root cell holding an optional; the slot is its wrapped value. */
  method NewOptionalStore<S(!new)>(state: Option<S>, queue: QueueId) returns (store: OptionalStore<Option<S>, S>)
    ensures fresh(store) && fresh(store.cell) && store.cell.value == state && store.cell.queue == queue
    ensures store.atomic == AnyAtomic(o => o, Present())
    ensures store.State() == state
    ensures store.downstream.closures == [] && store.subscribers.subscribers == map[]
  {
    var cell := new Cell(state, queue);
    store := new OptionalStore.FromAtomic(cell, AnyAtomic(o => o, Present()), []);
  }

  /** Root stores are coherent and their slots lawful. */
  lemma RootAtomicsCoherent<S(!new)>()
    ensures AtomicCoherent(AnyAtomic((s: S) => s, Whole())) && FocusLawful(Whole<S>())
    ensures OptionalAtomicCoherent(AnyAtomic((o: Option<S>) => o, Present())) && FocusLawful(Present<S>())
  {
    WholeLawful<S>();
    PresentLawful<S>();
  }

  /** Stores mapped through a lawful key path are coherent and lawful when their parent is. */
  lemma MappedAtomicsCoherent<R(!new), S(!new), O(!new)>(a: AnyAtomic<R, S, S>, keyPath: KeyPath<S, O>, optionalPath: KeyPath<S, Option<O>>)
    requires AtomicCoherent(a) && FocusLawful(a.focus) && Lawful(keyPath) && Lawful(optionalPath)
    ensures AtomicCoherent(AtomicMap(a, keyPath.get, Field(keyPath)))
    ensures FocusLawful(AtomicMap(a, keyPath.get, Field(keyPath)).focus)
    ensures OptionalAtomicCoherent(OptionalAtomicMap(a, optionalPath.get, OptionalField(optionalPath)))
    ensures FocusLawful(OptionalAtomicMap(a, optionalPath.get, OptionalField(optionalPath)).focus)
  {
    AtomicMapCoherent(a, keyPath.get, Field(keyPath));
    FieldLawful(keyPath);
    ThenLawful(a.focus, Field(keyPath));
    OptionalAtomicMapCoherent(a, optionalPath.get, OptionalField(optionalPath));
    OptionalFieldLawful(optionalPath);
    ThenLawful(a.focus, OptionalField(optionalPath));
  }

  /**
   * The traverse `optionalMap(_ keyPath:)` builds, run on the state it is handed: if the
   * field is nil it returns at once; otherwise the field is set to nil while the mutator
   * runs on its own copy, then set to the mutated value.
   */
  method OptionalMapTraverse<S(!new), O(!new)>(state: Cell<S>, keyPath: KeyPath<S, Option<O>>, mutator: O -> O)
    returns (ghost during: Option<S>)
    requires Lawful(keyPath)
    modifies state
    ensures state.value == Apply(OptionalField(keyPath), old(state.value), mutator)
    ensures during.Some? <==> keyPath.get(old(state.value)).Some?
    ensures during.Some? ==> keyPath.get(during.value) == None
  {
    during := None;
    var field := keyPath.get(state.value);
    if field.None? {
      return;
    }
    var otherState := field.value;
    state.value := keyPath.put(state.value, None);
    during := Some(state.value);
    otherState := mutator(otherState);
    state.value := keyPath.put(state.value, Some(otherState));
  }

  /**
   * `merge(_:_:transform:traverse:)`: a store over the parents' shared root that reads
   * `transform` of their states and has one downstream closure notifying both parents.
   * The parents are not changed. `writes` is the slot `AtomicMerge2` runs mutations on.
   */
  method Merge2<R(!new), S0(!new), S1(!new), C(!new)>(s0: Store<R, S0>, s1: Store<R, S1>, transform: (S0, S1) -> C, writes: Focus<R, C>)
    returns (store: Store<R, C>)
    requires s0.cell == s1.cell
    ensures fresh(store) && store.cell == s0.cell && store.atomic.focus == writes
    ensures forall r :: store.atomic.read(r) == transform(s0.atomic.read(r), s1.atomic.read(r))
    ensures store.State() == transform(s0.State(), s1.State())
    ensures store.downstream.closures == [NotifyEachDownstream([s0 as object, s1 as object])]
    ensures store.subscribers.subscribers == map[]
  {
    var read := r => transform(s0.atomic.read(r), s1.atomic.read(r));
    store := new Store.FromAtomic(s0.cell, AnyAtomic(read, writes), [NotifyEachDownstream([s0 as object, s1 as object])]);
  }

  /** `merge(_:_:_:transform:traverse:)` */
  method Merge3<R(!new), S0(!new), S1(!new), S2(!new), C(!new)>(s0: Store<R, S0>, s1: Store<R, S1>, s2: Store<R, S2>, transform: (S0, S1, S2) -> C, writes: Focus<R, C>)
    returns (store: Store<R, C>)
    requires s0.cell == s1.cell == s2.cell
    ensures fresh(store) && store.cell == s0.cell && store.atomic.focus == writes
    ensures forall r :: store.atomic.read(r) == transform(s0.atomic.read(r), s1.atomic.read(r), s2.atomic.read(r))
    ensures store.State() == transform(s0.State(), s1.State(), s2.State())
    ensures store.downstream.closures == [NotifyEachDownstream([s0 as object, s1 as object, s2 as object])]
    ensures store.subscribers.subscribers == map[]
  {
    var read := r => transform(s0.atomic.read(r), s1.atomic.read(r), s2.atomic.read(r));
    store := new Store.FromAtomic(s0.cell, AnyAtomic(read, writes), [NotifyEachDownstream([s0 as object, s1 as object, s2 as object])]);
  }

  /** `merge(_:_:_:_:transform:traverse:)` */
  method Merge4<R(!new), S0(!new), S1(!new), S2(!new), S3(!new), C(!new)>(s0: Store<R, S0>, s1: Store<R, S1>, s2: Store<R, S2>, s3: Store<R, S3>, transform: (S0, S1, S2, S3) -> C, writes: Focus<R, C>)
    returns (store: Store<R, C>)
    requires s0.cell == s1.cell == s2.cell == s3.cell
    ensures fresh(store) && store.cell == s0.cell && store.atomic.focus == writes
    ensures forall r :: store.atomic.read(r) == transform(s0.atomic.read(r), s1.atomic.read(r), s2.atomic.read(r), s3.atomic.read(r))
    ensures store.State() == transform(s0.State(), s1.State(), s2.State(), s3.State())
    ensures store.downstream.closures == [NotifyEachDownstream([s0 as object, s1 as object, s2 as object, s3 as object])]
    ensures store.subscribers.subscribers == map[]
  {
    var read := r => transform(s0.atomic.read(r), s1.atomic.read(r), s2.atomic.read(r), s3.atomic.read(r));
    store := new Store.FromAtomic(s0.cell, AnyAtomic(read, writes), [NotifyEachDownstream([s0 as object, s1 as object, s2 as object, s3 as object])]);
  }
}
