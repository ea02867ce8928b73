/**
 * The `subscript(keyPath:)` extensions: a key-path store for a field of a `Store`, and
 * for a field of a key-path store's field, re-rooted at the key-path store's own parent.
 */
module StoreMaps {
  import opened Optionals
  import opened KeyPaths
  import opened Downstream
  import opened AnyStores
  import opened Stores
  import opened KeyPathStores

  /** `AnyStore(store)` for a `Store`. */
  function AsAnyStore<R(!new), S(!new)>(store: Store<R, S>): (parent: AnyStore<R, S, S>)
    ensures parent.cell == store.cell && parent.perform == store.atomic.focus
    ensures forall r :: parent.state(r) == store.atomic.read(r)
  {
    AnyStore(store.cell, store.atomic.read, store.atomic.read, store.atomic.focus, store.downstream, NotifyUpstream(store))
  }

  /** A coherent `Store` erases to a coherent parent. */
  lemma AsAnyStoreCoherent<R(!new), S(!new)>(store: Store<R, S>)
    requires AtomicCoherent(store.atomic)
    ensures Coherent(AsAnyStore(store))
  {
    forall r ensures AsAnyStore(store).perform.peek(r) == Some(AsAnyStore(store).state(r)) {
      assert store.atomic.focus.peek(r) == Some(store.atomic.read(r));
    }
  }

  /**
   * `Store.subscript(keyPath:)`: a key-path store over this store, registered in its
   * `downstream`, reading the field at `keyPath` of this store's state.
   */
  method KeyPathSubscript<R(!new), S(!new), O(!new)>(store: Store<R, S>, keyPath: KeyPath<S, O>) returns (child: KeyPathStore<R, S, O>)
    modifies store.downstream
    ensures fresh(child) && child.inputStore == AsAnyStore(store) && child.keyPath == keyPath
    ensures child.State() == keyPath.get(store.State())
    ensures store.downstream.closures == old(store.downstream.closures) + [NotifyDownstream(child)]
  {
    child := new KeyPathStore(AsAnyStore(store), keyPath);
  }

  /**
   * `KeyPathStore.subscript(keyPath:)`: the child is built on the key-path store's own
   * parent with the appended key path, and registers in that parent's `downstream`.
   */
  method ReRoot<R(!new), I(!new), S(!new), O(!new)>(store: KeyPathStore<R, I, S>, keyPath: KeyPath<S, O>) returns (child: KeyPathStore<R, I, O>)
    modifies store.inputStore.downstream
    ensures fresh(child) && child.inputStore == store.inputStore
    ensures child.keyPath == Appending(store.keyPath, keyPath)
    ensures child.State() == keyPath.get(store.State())
    ensures store.inputStore.downstream.closures == old(store.inputStore.downstream.closures) + [NotifyDownstream(child)]
  {
    child := new KeyPathStore(store.inputStore, Appending(store.keyPath, keyPath));
  }

  /**
   * Re-rooting is equivalent to nesting: a store on the appended path reads and writes
   * exactly what a key-path store on `keyPath` below the outer key-path store would.
   */
  lemma ReRootEquivalent<R(!new), I(!new), S(!new), O(!new)>(parent: AnyStore<R, I, I>, outer: KeyPath<I, S>, inner: KeyPath<S, O>, r: R, f: O -> O)
    ensures Appending(outer, inner).get(parent.state(r)) == inner.get(outer.get(parent.state(r)))
    ensures Apply(FieldWrites(parent, Appending(outer, inner)), r, f) ==
            Apply(Then(FieldWrites(parent, outer), Field(inner)), r, f)
    ensures Apply(FieldWrites(parent, Appending(outer, inner)), r, f) ==
            Apply(FieldWrites(parent, outer), r, s => Modify(inner, s, f))
  {
    match parent.perform.peek(r)
    case None =>
    case Some(i) =>
      AppendingModifies(outer, inner, i, f);
      assert Then(FieldWrites(parent, outer), Field(inner)).peek(r) == Some(inner.get(outer.get(i)));
  }

  /** A re-rooted store over a coherent, lawful parent with lawful key paths is a coherent, lawful parent. */
  lemma ReRootCoherent<R(!new), I(!new), S(!new), O(!new)>(store: KeyPathStore<R, I, S>, keyPath: KeyPath<S, O>, child: KeyPathStore<R, I, O>)
    requires child.inputStore == store.inputStore && child.keyPath == Appending(store.keyPath, keyPath)
    requires Coherent(store.inputStore) && FocusLawful(store.inputStore.perform)
    requires Lawful(store.keyPath) && Lawful(keyPath)
    ensures Coherent(child.AsAnyStore()) && FocusLawful(child.AsAnyStore().perform)
  {
    AppendingLawful(store.keyPath, keyPath);
    KeyPathStores.AsAnyStoreCoherent(child);
  }
}
