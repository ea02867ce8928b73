/**
 * Swift key paths as explicit lenses, and the "focus" a store writes through.
 *
 * A `WritableKeyPath<Root, Value>` is a getter and a setter. A store's mutator reaches
 * its slot in the root state through a chain of such hops, some of which may find the
 * slot absent (an optional parent, an optional field, a missing dictionary key); a
 * `Focus` is that chain: `peek` extracts the slot when every hop is present, `poke`
 * puts a new value back into it.
 */
module KeyPaths {
  import opened Optionals

  /** `WritableKeyPath<R, V>`: `root[keyPath: kp]` reads, `root[keyPath: kp] = v` writes. */
  datatype KeyPath<!R, !V> = KeyPath(get: R -> V, put: (R, V) -> R)

  /** The laws every Swift writable key path obeys (get-set, set-get, set-set). */
  ghost predicate Lawful<R(!new), V(!new)>(kp: KeyPath<R, V>)
  {
    && (forall r :: kp.put(r, kp.get(r)) == r)
    && (forall r, v :: kp.get(kp.put(r, v)) == v)
    && (forall r, v, w :: kp.put(kp.put(r, v), w) == kp.put(r, w))
  }

  /** `closure(&root[keyPath: kp])`: an in-place mutation through a key path. */
  function Modify<R, V>(kp: KeyPath<R, V>, r: R, f: V -> V): (modified: R)
  {
    kp.put(r, f(kp.get(r)))
  }

  /** A mutation through `kp` shows up at `kp` and nowhere else. */
  lemma ModifyOnlyAtPath<R(!new), V(!new)>(kp: KeyPath<R, V>, r: R, f: V -> V)
    requires Lawful(kp)
    ensures kp.get(Modify(kp, r, f)) == f(kp.get(r))
    ensures forall v :: kp.put(Modify(kp, r, f), v) == kp.put(r, v)
  {
  }

  /** `outer.appending(path: inner)`. */
  function Appending<A, B, C>(outer: KeyPath<A, B>, inner: KeyPath<B, C>): KeyPath<A, C>
  {
    KeyPath(a => inner.get(outer.get(a)), (a, c) => outer.put(a, inner.put(outer.get(a), c)))
  }

  /** Appending two lawful key paths gives a lawful key path. */
  lemma AppendingLawful<A(!new), B(!new), C(!new)>(outer: KeyPath<A, B>, inner: KeyPath<B, C>)
    requires Lawful(outer) && Lawful(inner)
    ensures Lawful(Appending(outer, inner))
  {
    var k := Appending(outer, inner);
    forall a ensures k.put(a, k.get(a)) == a {
      assert inner.put(outer.get(a), inner.get(outer.get(a))) == outer.get(a);
    }
    forall a, c ensures k.get(k.put(a, c)) == c {
      assert outer.get(outer.put(a, inner.put(outer.get(a), c))) == inner.put(outer.get(a), c);
    }
    forall a, c, d ensures k.put(k.put(a, c), d) == k.put(a, d) {
      var b := outer.get(a);
      var a1 := outer.put(a, inner.put(b, c));
      assert outer.get(a1) == inner.put(b, c);
      assert inner.put(inner.put(b, c), d) == inner.put(b, d);
      assert outer.put(a1, inner.put(b, d)) == outer.put(a, inner.put(b, d));
    }
  }

  /** Reading through an appended path reads the outer field, then the inner one. */
  lemma AppendingReads<A(!new), B(!new), C(!new)>(outer: KeyPath<A, B>, inner: KeyPath<B, C>, a: A)
    ensures Appending(outer, inner).get(a) == inner.get(outer.get(a))
  {
  }

  /** Mutating through an appended path mutates the inner field inside the outer one. */
  lemma AppendingModifies<A(!new), B(!new), C(!new)>(outer: KeyPath<A, B>, inner: KeyPath<B, C>, a: A, f: C -> C)
    ensures Modify(Appending(outer, inner), a, f) == Modify(outer, a, b => Modify(inner, b, f))
  {
  }

  /** Where a mutator lands in a root state: extract the slot if present, then reinsert. */
  datatype Focus<!R, !M> = Focus(peek: R -> Option<M>, poke: (R, M) -> R)

  /**
   * The laws of a focus: reinserting a value makes it readable again, reinserting what
   * was read changes nothing, the last reinsertion wins, and reinsertion into an absent
   * slot is a no-op.
   */
  ghost predicate FocusLawful<R(!new), M(!new)>(F: Focus<R, M>)
  {
    && (forall r, m :: F.peek(r).Some? ==> F.peek(F.poke(r, m)) == Some(m))
    && (forall r :: F.peek(r).Some? ==> F.poke(r, F.peek(r).value) == r)
    && (forall r, m, n :: F.poke(F.poke(r, m), n) == F.poke(r, n))
    && (forall r, m :: F.peek(r).None? ==> F.poke(r, m) == r)
  }

  /** Run mutator `f` through `F`: it runs only if the slot is present. */
  function Apply<R, M>(F: Focus<R, M>, r: R, f: M -> M): (applied: R)
  {
    match F.peek(r)
    case None => r
    case Some(m) => F.poke(r, f(m))
  }

  /**
   * What one mutation through a lawful focus does: if the slot is absent the root is
   * unchanged; otherwise the slot afterwards holds `f` of what it held, and the root
   * differs from the old one at that slot only.
   */
  lemma ApplyLaws<R(!new), M(!new)>(F: Focus<R, M>, r: R, f: M -> M)
    requires FocusLawful(F)
    ensures F.peek(r).None? ==> Apply(F, r, f) == r
    ensures F.peek(r).Some? ==> F.peek(Apply(F, r, f)) == Some(f(F.peek(r).value))
    ensures forall m :: F.poke(Apply(F, r, f), m) == F.poke(r, m)
  {
  }

  /** The composition of two hops: the inner slot is reached through the outer one. */
  function Then<A, B, C>(outer: Focus<A, B>, inner: Focus<B, C>): (composed: Focus<A, C>)
  {
    Focus(
      a => Chain(outer.peek(a), inner.peek),
      (a, c) => match outer.peek(a)
                case None => a
                case Some(b) => outer.poke(a, inner.poke(b, c)))
  }

  /** Composing lawful foci gives a lawful focus. */
  lemma ThenLawful<A(!new), B(!new), C(!new)>(outer: Focus<A, B>, inner: Focus<B, C>)
    requires FocusLawful(outer) && FocusLawful(inner)
    ensures FocusLawful(Then(outer, inner))
  {
    var F := Then(outer, inner);
    forall a, c | F.peek(a).Some? ensures F.peek(F.poke(a, c)) == Some(c) {
      var b := outer.peek(a).value;
      assert inner.peek(b).Some?;
      assert outer.peek(outer.poke(a, inner.poke(b, c))) == Some(inner.poke(b, c));
    }
    forall a | F.peek(a).Some? ensures F.poke(a, F.peek(a).value) == a {
      var b := outer.peek(a).value;
      assert inner.poke(b, inner.peek(b).value) == b;
    }
    forall a, c, d ensures F.poke(F.poke(a, c), d) == F.poke(a, d) {
      match outer.peek(a)
      case None =>
      case Some(b) =>
        var a1 := outer.poke(a, inner.poke(b, c));
        assert outer.peek(a1) == Some(inner.poke(b, c));
        assert inner.poke(inner.poke(b, c), d) == inner.poke(b, d);
        assert outer.poke(a1, inner.poke(b, d)) == outer.poke(a, inner.poke(b, d));
    }
    forall a, c | F.peek(a).None? ensures F.poke(a, c) == a {
      match outer.peek(a)
      case None =>
      case Some(b) =>
        assert inner.peek(b).None?;
        assert inner.poke(b, c) == b;
    }
  }

  /**
   * Mutating through a composition is the outer hop's mutation with the inner hop's
   * mutation as its mutator: a hop that finds its slot absent skips everything below it.
   */
  lemma ApplyThen<A(!new), B(!new), C(!new)>(outer: Focus<A, B>, inner: Focus<B, C>, a: A, f: C -> C)
    requires FocusLawful(outer)
    ensures Apply(Then(outer, inner), a, f) == Apply(outer, a, b => Apply(inner, b, f))
  {
    match outer.peek(a)
    case None =>
    case Some(b) =>
      match inner.peek(b)
      case None =>
        assert outer.poke(a, b) == a;
      case Some(c) =>
  }

  /** The whole state: a root store's own slot. */
  function Whole<R>(): Focus<R, R>
  {
    Focus(r => Some(r), (r, m) => m)
  }

  /** A non-optional field reached through a key path; always present. */
  function Field<R, V>(kp: KeyPath<R, V>): Focus<R, V>
  {
    Focus(r => Some(kp.get(r)), kp.put)
  }

  /** The wrapped value of an optional; absent when it is nil. */
  function Present<W>(): Focus<Option<W>, W>
  {
    Focus(o => o, (o: Option<W>, w) => if o.Some? then Some(w) else o)
  }

  /** An optional field: absent when nil, reinserted as non-nil. */
  function OptionalField<R, V>(kp: KeyPath<R, Option<V>>): Focus<R, V>
  {
    Focus(kp.get, (r, v) => if kp.get(r).Some? then kp.put(r, Some(v)) else r)
  }

  /** A dictionary entry: absent when the key is missing. */
  function Entry<K, V>(key: K): Focus<map<K, V>, V>
  {
    Focus(d => if key in d then Some(d[key]) else None,
          (d: map<K, V>, v) => if key in d then d[key := v] else d)
  }

  lemma WholeLawful<R(!new)>()
    ensures FocusLawful(Whole<R>())
  {
  }

  lemma FieldLawful<R(!new), V(!new)>(kp: KeyPath<R, V>)
    requires Lawful(kp)
    ensures FocusLawful(Field(kp))
  {
  }

  lemma PresentLawful<W(!new)>()
    ensures FocusLawful(Present<W>())
  {
  }

  lemma OptionalFieldLawful<R(!new), V(!new)>(kp: KeyPath<R, Option<V>>)
    requires Lawful(kp)
    ensures FocusLawful(OptionalField(kp))
  {
    var F := OptionalField(kp);
    forall r, m, n ensures F.poke(F.poke(r, m), n) == F.poke(r, n) {
      if kp.get(r).Some? {
        assert kp.get(kp.put(r, Some(m))) == Some(m);
        assert kp.put(kp.put(r, Some(m)), Some(n)) == kp.put(r, Some(n));
      }
    }
  }

  /** A dictionary entry is lawful; reinsertion never adds or removes a key. */
  lemma EntryLawful<K(!new), V(!new)>(key: K)
    ensures FocusLawful(Entry<K, V>(key))
  {
    var F := Entry<K, V>(key);
    forall d: map<K, V>, m: V | F.peek(d).Some? ensures F.peek(F.poke(d, m)) == Some(m) {
    }
    forall d: map<K, V> | F.peek(d).Some? ensures F.poke(d, F.peek(d).value) == d {
      assert d[key := d[key]] == d;
    }
    forall d: map<K, V>, m: V, n: V ensures F.poke(F.poke(d, m), n) == F.poke(d, n) {
      if key in d {
        assert d[key := m][key := n] == d[key := n];
      }
    }
    forall d: map<K, V>, m: V | F.peek(d).None? ensures F.poke(d, m) == d {
    }
  }

  /**
   * Shape 1, non-optional parent and non-optional field: the mutator runs iff the
   * parent's slot is present, and then changes only `kp` inside it.
   */
  lemma PlainParentPlainField<R(!new), I(!new), V(!new)>(parent: Focus<R, I>, kp: KeyPath<I, V>, r: R, f: V -> V)
    requires FocusLawful(parent)
    ensures parent.peek(r).None? ==> Apply(Then(parent, Field(kp)), r, f) == r
    ensures parent.peek(r).Some? ==>
      Apply(Then(parent, Field(kp)), r, f) == parent.poke(r, Modify(kp, parent.peek(r).value, f))
  {
    ApplyThen(parent, Field(kp), r, f);
  }

  /**
   * Shape 2, non-optional parent and optional field: if the field is nil the mutator
   * does not run and nothing changes; otherwise the field is set to the mutated value.
   */
  lemma PlainParentOptionalField<R(!new), I(!new), V(!new)>(parent: Focus<R, I>, kp: KeyPath<I, Option<V>>, r: R, f: V -> V)
    requires FocusLawful(parent)
    ensures parent.peek(r).None? || kp.get(parent.peek(r).value).None? ==>
      Apply(Then(parent, OptionalField(kp)), r, f) == r
    ensures parent.peek(r).Some? && kp.get(parent.peek(r).value).Some? ==>
      var i := parent.peek(r).value;
      Apply(Then(parent, OptionalField(kp)), r, f) == parent.poke(r, kp.put(i, Some(f(kp.get(i).value))))
  {
    ApplyThen(parent, OptionalField(kp), r, f);
    if parent.peek(r).Some? && kp.get(parent.peek(r).value).None? {
      assert parent.poke(r, parent.peek(r).value) == r;
    }
  }

  /**
   * Shape 3, optional parent and non-optional field: a nil parent means no mutation;
   * a present one is reinserted, still present, with only `kp` changed.
   */
  lemma OptionalParentPlainField<R(!new), I(!new), V(!new)>(parent: Focus<R, Option<I>>, kp: KeyPath<I, V>, r: R, f: V -> V)
    requires FocusLawful(parent)
    ensures parent.peek(r).None? || parent.peek(r).value.None? ==>
      Apply(Then(parent, Then(Present(), Field(kp))), r, f) == r
    ensures parent.peek(r).Some? && parent.peek(r).value.Some? ==>
      var i := parent.peek(r).value.value;
      Apply(Then(parent, Then(Present(), Field(kp))), r, f) == parent.poke(r, Some(Modify(kp, i, f)))
  {
    ApplyThen(parent, Then(Present(), Field(kp)), r, f);
    if parent.peek(r).Some? && parent.peek(r).value.None? {
      assert parent.poke(r, parent.peek(r).value) == r;
    }
  }
}
