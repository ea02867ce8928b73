/**
 * The subscripts of `Store`, `KeyPathStore` and `WrappedKeyPathStore`: which store a key
 * path of each kind produces, and over which parent. Read-only paths give read-only
 * stores; writable paths give key-path stores; a writable path on a key-path store is
 * re-rooted at that store's own parent.
 */
module StoreSubscripts {
  import opened Optionals
  import opened KeyPaths
  import opened Downstream
  import opened AnyStores
  import opened ReadOnlyStores
  import opened OptionalReadOnlyStores
  import opened WrappedKeyPathStores

  /** `subscript(_ keyPath: KeyPath<State, OutputState>)`, of `Store` and of `KeyPathStore`. */
  method ReadOnlySubscript<R, S, O>(parent: AnyStore<R, S, S>, keyPath: S -> O) returns (child: ReadOnlyStore<R, S, O>)
    modifies parent.downstream
    ensures fresh(child) && child.inputStore == parent && child.keyPath == keyPath
    ensures child.State() == keyPath(parent.State())
    ensures parent.downstream.closures == old(parent.downstream.closures) + [NotifyDownstream(child)]
  {
    child := new ReadOnlyStore(parent, keyPath);
  }

  /**
   * `subscript(_ keyPath: KeyPath<State, OutputState?>)`, with or without an optional
   * `State`: the parent is taken as plain, so the child is nil exactly when the field is.
   */
  method OptionalPathSubscript<R, S, O>(parent: AnyStore<R, S, S>, keyPath: S -> Option<O>) returns (child: OptionalReadOnlyStore<R, S, O>)
    modifies parent.downstream
    ensures fresh(child) && child.inputStore == Simple(parent) && child.keyPath == OptionalPath(keyPath)
    ensures child.State() == keyPath(parent.State())
    ensures parent.downstream.closures == old(parent.downstream.closures) + [NotifyDownstream(child)]
  {
    child := new OptionalReadOnlyStore(Simple(parent), OptionalPath(keyPath));
  }

  /**
   * `subscript(_ keyPath: KeyPath<State, OutputState>) where State == WrappedInputState?`:
   * the path starts at the optional `State` itself, so the parent is taken as plain and
   * the child's optional state is never nil.
   */
  method PlainPathOnOptionalSubscript<R, W, O>(parent: AnyStore<R, Option<W>, Option<W>>, keyPath: Option<W> -> O)
    returns (child: OptionalReadOnlyStore<R, Option<W>, O>)
    modifies parent.downstream
    ensures fresh(child) && child.inputStore == Simple(parent) && child.keyPath == SimplePath(keyPath)
    ensures child.State() == Some(keyPath(parent.State()))
    ensures parent.downstream.closures == old(parent.downstream.closures) + [NotifyDownstream(child)]
  {
    child := new OptionalReadOnlyStore(Simple(parent), SimplePath(keyPath));
  }

  /**
   * `subscript(_ keyPath: WritableKeyPath<WrappedState, OutputState>) where State ==
   * WrappedState?`, of `Store` and of `KeyPathStore`: a wrapped key-path store over the
   * parent as an `.optional` parent.
   */
  method WrappedSubscript<R(!new), W(!new), O(!new)>(parent: AnyStore<R, Option<W>, Option<W>>, keyPath: KeyPath<W, O>)
    returns (child: WrappedKeyPathStore<R, W, O>)
    modifies parent.downstream
    ensures fresh(child) && child.inputStore == Optional(parent) && child.keyPath == keyPath
    ensures child.State() == MapOption(parent.State(), keyPath.get)
    ensures parent.downstream.closures == old(parent.downstream.closures) + [NotifyDownstream(child)]
  {
    child := new WrappedKeyPathStore(Optional(parent), keyPath);
  }

  /** `WrappedKeyPathStore.subscript(_ keyPath: KeyPath<WrappedState, OutputState>)` */
  method WrappedReadOnlySubscript<R(!new), I(!new), W(!new), O>(store: WrappedKeyPathStore<R, I, W>, keyPath: W -> O)
    returns (child: OptionalReadOnlyStore<R, W, O>)
    modifies store.downstream
    ensures fresh(child) && child.inputStore == OptionalParent(Wrapped(store.AsAnyStore()))
    ensures child.keyPath == SimplePath(keyPath)
    ensures child.State() == MapOption(store.State(), keyPath)
    ensures store.downstream.closures == old(store.downstream.closures) + [NotifyDownstream(child)]
  {
    child := new OptionalReadOnlyStore(OptionalParent(Wrapped(store.AsAnyStore())), SimplePath(keyPath));
  }

  /** `WrappedKeyPathStore.subscript(_ keyPath: KeyPath<WrappedState, OutputState?>)` */
  method WrappedOptionalPathSubscript<R(!new), I(!new), W(!new), O>(store: WrappedKeyPathStore<R, I, W>, keyPath: W -> Option<O>)
    returns (child: OptionalReadOnlyStore<R, W, O>)
    modifies store.downstream
    ensures fresh(child) && child.inputStore == OptionalParent(Wrapped(store.AsAnyStore()))
    ensures child.keyPath == OptionalPath(keyPath)
    ensures child.State() == Chain(store.State(), keyPath)
    ensures store.downstream.closures == old(store.downstream.closures) + [NotifyDownstream(child)]
  {
    child := new OptionalReadOnlyStore(OptionalParent(Wrapped(store.AsAnyStore())), OptionalPath(keyPath));
  }

  /**
   * `WrappedKeyPathStore.subscript(_ keyPath: WritableKeyPath<WrappedState, OutputState>)`:
   * re-rooted at the wrapped store's own parent with the appended key path.
   */
  method WrappedReRoot<R(!new), I(!new), W(!new), O(!new)>(store: WrappedKeyPathStore<R, I, W>, keyPath: KeyPath<W, O>)
    returns (child: WrappedKeyPathStore<R, I, O>)
    modifies store.inputStore.Downstream()
    ensures fresh(child) && child.inputStore == store.inputStore
    ensures child.keyPath == Appending(store.keyPath, keyPath)
    ensures child.State() == MapOption(store.State(), keyPath.get)
    ensures store.inputStore.Downstream().closures == old(store.inputStore.Downstream().closures) + [NotifyDownstream(child)]
  {
    child := new WrappedKeyPathStore(store.inputStore, Appending(store.keyPath, keyPath));
    assert child.State() == MapOption(MapOption(store.inputStore.StateAt(store.inputStore.Cell().value), store.keyPath.get), keyPath.get);
  }

  /**
   * Re-rooting a wrapped store is equivalent to nesting: the store on the appended path
   * writes exactly where a key-path store on `inner` below the outer wrapped store would.
   */
  lemma WrappedReRootEquivalent<R(!new), I(!new), W(!new), O(!new)>(parent: AnyOptionalStore<R, I>, outer: KeyPath<I, W>, inner: KeyPath<W, O>, r: R, f: O -> O)
    ensures MapOption(parent.StateAt(r), Appending(outer, inner).get) == MapOption(MapOption(parent.StateAt(r), outer.get), inner.get)
    ensures Apply(OptionalParentWrites(parent, Appending(outer, inner)), r, f) ==
            Apply(Then(OptionalParentWrites(parent, outer), Field(inner)), r, f)
  {
    match parent {
      case Wrapped(s) =>
        if s.perform.peek(r).Some? {
          AppendingModifies(outer, inner, s.perform.peek(r).value, f);
        }
      case Optional(s) =>
        if s.perform.peek(r).Some? && s.perform.peek(r).value.Some? {
          AppendingModifies(outer, inner, s.perform.peek(r).value.value, f);
        }
    }
  }
}
