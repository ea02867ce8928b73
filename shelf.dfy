/** `Shelf`: one box per key, created on first use; an item goes into the box of its value's key. */
module Shelves {
  import opened Optionals
  import opened Callbacks
  import opened Boxes

  class Shelf<K(==), V> {
    /** `Shelved.key` */
    const keyOf: V -> K
    var dictionary: map<K, Box<V>>

    /** Different keys never share a box, nor a box's subscribers. */
    ghost predicate Valid()
      reads this, dictionary.Values
    {
      forall k, l :: k in dictionary && l in dictionary && k != l ==>
        dictionary[k] != dictionary[l] && dictionary[k].subscribers != dictionary[l].subscribers
    }

    constructor (keyOf: V -> K)
      ensures this.keyOf == keyOf && dictionary == map[] && Valid()
    {
      this.keyOf := keyOf;
      dictionary := map[];
    }

    /** `subscript(_ key:)`: the box stored under `key`, or else a new empty box, which is stored. */
    method Get(key: K) returns (box: Box<V>)
      requires Valid()
      modifies this
      ensures Valid()
      ensures key in dictionary && box == dictionary[key]
      ensures key in old(dictionary) ==> box == old(dictionary)[key] && dictionary == old(dictionary)
      ensures key !in old(dictionary) ==>
        && fresh(box) && fresh(box.subscribers) && dictionary == old(dictionary)[key := box]
        && box.item == null && box.subscribers.subscribers == map[] && box.subscribers.calls == []
    {
      if key in dictionary {
        box := dictionary[key];
        return;
      }
      box := new Box();
      dictionary := dictionary[key := box];
    }

    /**
     * `item(_ value:)`: the value's key selects (or creates) the box, which takes a new
     * item holding `value`; its subscribers are told, and no other box changes.
     */
    method PutItem(value: V) returns (item: Item<V>)
      requires Valid()
      modifies this
      modifies if keyOf(value) in dictionary then {dictionary[keyOf(value)], dictionary[keyOf(value)].subscribers} else {}
      modifies if keyOf(value) in dictionary then {dictionary[keyOf(value)].item} else {}
      ensures Valid()
      ensures keyOf(value) in dictionary && dictionary[keyOf(value)].item == item
      ensures fresh(item) && item.value == value && item.box == dictionary[keyOf(value)]
      ensures dictionary.Keys == old(dictionary).Keys + {keyOf(value)}
      ensures forall k :: k in old(dictionary) ==> dictionary[k] == old(dictionary)[k]
      ensures forall k :: k in old(dictionary) ==>
        dictionary[k].subscribers.subscribers == old(dictionary[k].subscribers.subscribers)
      ensures forall k :: k in old(dictionary) && k != keyOf(value) ==>
        && dictionary[k].item == old(dictionary[k].item)
        && dictionary[k].subscribers.calls == old(dictionary[k].subscribers.calls)
        && (dictionary[k].item != null ==> dictionary[k].item.value == old(dictionary[k].item.value))
      ensures keyOf(value) in old(dictionary) ==>
        && (old(dictionary[keyOf(value)].item) != null ==> old(dictionary[keyOf(value)].item).box == null)
        && Extends(old(dictionary[keyOf(value)].subscribers.calls), dictionary[keyOf(value)].subscribers.calls)
        && IsBroadcast(old(dictionary[keyOf(value)].subscribers.subscribers), Some(value),
             dictionary[keyOf(value)].subscribers.calls[|old(dictionary[keyOf(value)].subscribers.calls)|..])
      ensures keyOf(value) !in old(dictionary) ==>
        dictionary[keyOf(value)].subscribers.subscribers == map[] && dictionary[keyOf(value)].subscribers.calls == []
    {
      var box := Get(keyOf(value));
      item := PutInto(box, value);
    }

    /** The second half of `item(_ value:)`: the box under the value's key takes the item. */
    method PutInto(box: Box<V>, value: V) returns (item: Item<V>)
      requires Valid() && keyOf(value) in dictionary && dictionary[keyOf(value)] == box
      modifies box, box.item, box.subscribers
      ensures Valid()
      ensures box.item == item && fresh(item) && item.value == value && item.box == box
      ensures old(box.item) != null ==> old(box.item).box == null
      ensures box.subscribers.subscribers == old(box.subscribers.subscribers)
      ensures Extends(old(box.subscribers.calls), box.subscribers.calls)
      ensures IsBroadcast(box.subscribers.subscribers, Some(value), box.subscribers.calls[|old(box.subscribers.calls)|..])
      ensures box.subscribers.subscribers == map[] ==> box.subscribers.calls == old(box.subscribers.calls)
      ensures forall k :: k in dictionary && k != keyOf(value) ==>
        && dictionary[k].item == old(dictionary[k].item)
        && dictionary[k].subscribers.subscribers == old(dictionary[k].subscribers.subscribers)
        && dictionary[k].subscribers.calls == old(dictionary[k].subscribers.calls)
        && (dictionary[k].item != null ==> dictionary[k].item.value == old(dictionary[k].item.value))
    {
      assert forall k :: k in dictionary && k != keyOf(value) ==> dictionary[k] != box && dictionary[k].subscribers != box.subscribers;
      item := box.PutItem(value);
      BroadcastCallsEachOnce(box.subscribers.subscribers, Some(value), box.subscribers.calls[|old(box.subscribers.calls)|..]);
    }
  }
}
