/**
 * The type-erased parents the key-path stores hold: `AnyStore`, `AnyReadStore`, and the
 * enums over them that let one store class sit below plain and optional parents alike.
 * A parent is a record of what it reads and where it writes, both over the root cell.
 */
module AnyStores {
  import opened Optionals
  import opened KeyPaths
  import opened Atomics
  import opened Downstream

  /**
   * `AnyStore<State, MutatingState>` of some store over root `R`: its `state` and `_state`
   * as functions of the root, the slot its `perform` runs mutators on, its `downstream`
   * array, and its `notifyUpstream` closure.
   */
  datatype AnyStore<!R, S, !M> = AnyStore(
    cell: Cell<R>,
    state: R -> S,
    internalState: R -> S,
    perform: Focus<R, M>,
    downstream: DownstreamList,
    notifyUpstream: Notifier)
  {
    /** `queue`: every store of a tree serialises on the root cell's queue. */
    function Queue(): QueueId
    {
      cell.queue
    }

    function State(): S
      reads cell
    {
      state(cell.value)
    }

    /** `perform(_:)`: the mutator runs on the slot, inside the root cell's `access`. */
    method Perform(closure: M -> M)
      modifies cell
      ensures cell.value == Apply(perform, old(cell.value), closure)
    {
      cell.Access(r => Apply(perform, r, closure));
    }

    /** `appendDownstream(_:)` */
    method AppendDownstream(closure: Notifier)
      modifies downstream
      ensures downstream.closures == old(downstream.closures) + [closure]
    {
      downstream.Append(closure);
    }
  }

  /** `AnyReadStore<State>`: a parent that can only be read. */
  datatype AnyReadStore<!R, S> = AnyReadStore(
    cell: Cell<R>,
    state: R -> S,
    internalState: R -> S,
    notifyUpstream: Notifier)
  {
    function State(): S
      reads cell
    {
      state(cell.value)
    }
  }

  /**
   * `AnyOptionalStore<State>`, declared identically in WrappedKeyPathStore.swift and
   * WrappedSubstore.swift: a parent whose state is optional, mutated either through its
   * wrapped value or as the optional itself.
   */
  datatype AnyOptionalStore<!R, !I> =
    | Wrapped(wrapped: AnyStore<R, Option<I>, I>)
    | Optional(optional: AnyStore<R, Option<I>, Option<I>>)
  {
    function Cell(): Cell<R>
    {
      match this
      case Wrapped(s) => s.cell
      case Optional(s) => s.cell
    }

    function Queue(): QueueId
    {
      Cell().queue
    }

    function StateAt(r: R): Option<I>
    {
      match this
      case Wrapped(s) => s.state(r)
      case Optional(s) => s.state(r)
    }

    function InternalStateAt(r: R): Option<I>
    {
      match this
      case Wrapped(s) => s.internalState(r)
      case Optional(s) => s.internalState(r)
    }

    function NotifyUpstream(): Notifier
    {
      match this
      case Wrapped(s) => s.notifyUpstream
      case Optional(s) => s.notifyUpstream
    }

    function Downstream(): DownstreamList
    {
      match this
      case Wrapped(s) => s.downstream
      case Optional(s) => s.downstream
    }

    method AppendDownstream(closure: Notifier)
      modifies Downstream()
      ensures Downstream().closures == old(Downstream().closures) + [closure]
    {
      match this
      case Wrapped(s) => s.AppendDownstream(closure);
      case Optional(s) => s.AppendDownstream(closure);
    }
  }

  /** `AnyGenericStore<State>`: a parent with a plain or an optional state. */
  datatype AnyGenericStore<!R, !I> =
    | Simple(simple: AnyStore<R, I, I>)
    | OptionalParent(optional: AnyOptionalStore<R, I>)
  {
    function Cell(): Cell<R>
    {
      match this
      case Simple(s) => s.cell
      case OptionalParent(s) => s.Cell()
    }

    /** `state`: a plain parent's state is lifted to a non-nil optional. */
    function StateAt(r: R): (o: Option<I>)
      ensures Simple? ==> o == Some(simple.state(r))
      ensures OptionalParent? ==> o == optional.StateAt(r)
    {
      match this
      case Simple(s) => Some(s.state(r))
      case OptionalParent(s) => s.StateAt(r)
    }

    function Downstream(): DownstreamList
    {
      match this
      case Simple(s) => s.downstream
      case OptionalParent(s) => s.Downstream()
    }

    method AppendDownstream(closure: Notifier)
      modifies Downstream()
      ensures Downstream().closures == old(Downstream().closures) + [closure]
    {
      match this
      case Simple(s) => s.AppendDownstream(closure);
      case OptionalParent(s) => s.AppendDownstream(closure);
    }
  }

  /**
   * `PossiblyOptionalKeyPath<Root, Value>`, declared identically in OptionalReadStore.swift
   * and OptionalReadOnlyStore.swift: a read-only key path to a value or to an optional.
   */
  datatype PossiblyOptionalKeyPath<!I, V> =
    | SimplePath(get: I -> V)
    | OptionalPath(getOptional: I -> Option<V>)

  /**
   * `input?[keyPath: keyPath]` for either kind of path: nil input reads nil; a simple
   * path reads a present value; an optional path reads whatever the field holds.
   */
  function ReadThrough<I, V>(keyPath: PossiblyOptionalKeyPath<I, V>, input: Option<I>): (o: Option<V>)
    ensures input.None? ==> o.None?
    ensures input.Some? && keyPath.SimplePath? ==> o == Some(keyPath.get(input.value))
    ensures input.Some? && keyPath.OptionalPath? ==> o == keyPath.getOptional(input.value)
  {
    match keyPath
    case SimplePath(get) => MapOption(input, get)
    case OptionalPath(getOptional) => Chain(input, getOptional)
  }

  /** A parent reads exactly the slot its `perform` writes, and that slot is always present. */
  ghost predicate Coherent<R(!new), S(!new)>(s: AnyStore<R, S, S>)
  {
    forall r :: s.perform.peek(r) == Some(s.state(r))
  }

  /** A parent with optional state mutated through its wrapped value reads nil exactly when the slot is absent. */
  ghost predicate WrappedCoherent<R(!new), I(!new)>(s: AnyStore<R, Option<I>, I>)
  {
    forall r :: s.perform.peek(r) == s.state(r)
  }

  ghost predicate OptionalParentCoherent<R(!new), I(!new)>(p: AnyOptionalStore<R, I>)
  {
    match p
    case Wrapped(s) => WrappedCoherent(s)
    case Optional(s) => Coherent(s)
  }

  ghost predicate OptionalParentLawful<R(!new), I(!new)>(p: AnyOptionalStore<R, I>)
  {
    match p
    case Wrapped(s) => FocusLawful(s.perform)
    case Optional(s) => FocusLawful(s.perform)
  }
}
