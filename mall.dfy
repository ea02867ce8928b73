/**
 * `Mall`: one `OptionalStore` per key of a dictionary store, created on first use and
 * cached. Each of them reads the dictionary's entry and writes it back in place.
 */
module Malls {
  import opened Optionals
  import opened KeyPaths
  import opened Atomics
  import opened Stores

  /** The mall's `transform`: the entry under `key`, nil when absent. */
  function Lookup<K, V>(key: K): (lookup: map<K, V> -> Option<V>)
  {
    d => if key in d then Some(d[key]) else None
  }

  /** The atomic of the store the mall hands out for `key`. */
  function EntryAtomic<R, K, V>(dictionary: AnyAtomic<R, map<K, V>, map<K, V>>, key: K): (entry: AnyAtomic<R, Option<V>, V>)
  {
    OptionalAtomicMap(dictionary, Lookup(key), Entry(key))
  }

  /** A store for one key of a coherent, lawful dictionary store is itself coherent and lawful. */
  lemma EntryAtomicCoherent<R(!new), K(!new), V(!new)>(dictionary: AnyAtomic<R, map<K, V>, map<K, V>>, key: K)
    requires AtomicCoherent(dictionary) && FocusLawful(dictionary.focus)
    ensures OptionalAtomicCoherent(EntryAtomic(dictionary, key))
    ensures FocusLawful(EntryAtomic(dictionary, key).focus)
  {
    OptionalAtomicMapCoherent(dictionary, Lookup(key), Entry(key));
    EntryLawful<K, V>(key);
    ThenLawful(dictionary.focus, Entry<K, V>(key));
  }

  /**
   * The mall's `traverse` run on the dictionary it is handed: an absent entry is left
   * alone; a present one is removed while the mutator runs on its own copy, then stored
   * again. Only that entry changes, and the dictionary keeps its keys.
   */
  method MallTraverse<K, V>(dictionary: Cell<map<K, V>>, key: K, mutator: V -> V)
    returns (ghost during: Option<map<K, V>>)
    modifies dictionary
    ensures dictionary.value == Apply(Entry(key), old(dictionary.value), mutator)
    ensures dictionary.value.Keys == old(dictionary.value).Keys
    ensures forall k :: k in old(dictionary.value) && k != key ==> dictionary.value[k] == old(dictionary.value)[k]
    ensures key in old(dictionary.value) ==> dictionary.value[key] == mutator(old(dictionary.value)[key])
    ensures during.Some? <==> key in old(dictionary.value)
    ensures during.Some? ==> during.value == old(dictionary.value) - {key}
  {
    during := None;
    if key !in dictionary.value {
      return;
    }
    var value := dictionary.value[key];
    dictionary.value := dictionary.value - {key};
    during := Some(dictionary.value);
    value := mutator(value);
    dictionary.value := dictionary.value[key := value];
    assert dictionary.value == old(dictionary.value)[key := value];
  }

  class Mall<R(!new), K(==,!new), V(!new)> {
    const dictionaryStore: Store<R, map<K, V>>
    var stores: map<K, OptionalStore<R, V>>

    /** Every cached store reads and writes its own entry of the dictionary store's root. */
    ghost predicate Valid()
      reads this
    {
      forall k :: k in stores ==>
        stores[k].cell == dictionaryStore.cell && stores[k].atomic == EntryAtomic(dictionaryStore.atomic, k)
    }

    constructor (dictionaryStore: Store<R, map<K, V>>)
      ensures this.dictionaryStore == dictionaryStore && stores == map[]
      ensures Valid()
    {
      this.dictionaryStore := dictionaryStore;
      stores := map[];
    }

    /**
     * `subscript(_ key:)`: the cached store for `key`, or else a new one over the entry,
     * with no downstream closures, which is cached. The dictionary store is not told.
     */
    method Get(key: K) returns (store: OptionalStore<R, V>)
      requires Valid()
      modifies this
      ensures Valid()
      ensures key in stores && store == stores[key]
      ensures store.cell == dictionaryStore.cell && store.atomic == EntryAtomic(dictionaryStore.atomic, key)
      ensures store.State() == Lookup(key)(dictionaryStore.State())
      ensures key in old(stores) ==> store == old(stores)[key] && stores == old(stores)
      ensures key !in old(stores) ==>
        && fresh(store) && stores == old(stores)[key := store]
        && store.downstream.closures == [] && store.subscribers.subscribers == map[]
    {
      if key in stores {
        store := stores[key];
        return;
      }
      store := new OptionalStore.FromAtomic(dictionaryStore.cell, EntryAtomic(dictionaryStore.atomic, key), []);
      stores := stores[key := store];
    }
  }

  /** Asking twice for the same key yields the same store. */
  method GetTwice<R(!new), K(!new), V(!new)>(mall: Mall<R, K, V>, key: K) returns (first: OptionalStore<R, V>, second: OptionalStore<R, V>)
    requires mall.Valid()
    modifies mall
    ensures first == second && mall.Valid()
  {
    first := mall.Get(key);
    second := mall.Get(key);
  }
}
