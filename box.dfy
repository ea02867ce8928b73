/**
 * `Box` and `Item`: a box holds at most one item through a weak reference, and tells its
 * subscribers whenever the item is replaced. It is meant to tell them nil when the item
 * goes away too, but the weak reference is zeroed before the item's `deinit` asks, so as
 * written it never does. The item holds the value and a weak reference back to its box. `Shelf.swift` declares the same two classes; the only
 * difference is that its box's `subscribe` takes no `triggerNow`.
 */
module Boxes {
  import opened Optionals
  import opened Callbacks
  import opened Subscribers

  /** What a box holding `item` shows its subscribers: the item's value, nil when empty. */
  function ValueOf<V>(item: Item?<V>): (value: Option<V>)
    reads item
  {
    if item == null then None else Some(item.value)
  }

  class Box<V> {
    /** `weak var item` */
    var item: Item?<V>
    const subscribers: SubscriberTable<Option<V>>

    constructor ()
      ensures item == null
      ensures fresh(subscribers) && subscribers.subscribers == map[] && subscribers.calls == []
    {
      item := null;
      subscribers := new SubscriberTable();
    }

    /** `value`, and `subscriptionValue` */
    function Value(): Option<V>
      reads this, item
    {
      ValueOf(item)
    }

    /**
     * Assigning `item`, with its `didSet`: the item held before loses its back reference
     * (even when it is the one assigned again), and the subscribers are told the new value.
     */
    method SetItem(newItem: Item?<V>)
      modifies this, item, subscribers
      ensures item == newItem
      ensures old(item) != null ==> old(item).box == null && old(item).value == old(item.value)
      ensures subscribers.subscribers == old(subscribers.subscribers)
      ensures Extends(old(subscribers.calls), subscribers.calls)
      ensures IsBroadcast(subscribers.subscribers, ValueOf(newItem), subscribers.calls[|old(subscribers.calls)|..])
    {
      var oldValue := item;
      item := newItem;
      if oldValue != null {
        oldValue.box := null;
      }
      Changed(ValueOf(item));
    }

    /**
     * `item(_ value:)`: a new item holding `value` and pointing back at this box replaces
     * the one held before, and the subscribers are told `value`.
     */
    method PutItem(value: V) returns (newItem: Item<V>)
      modifies this, item, subscribers
      ensures fresh(newItem) && item == newItem
      ensures newItem.value == value && newItem.box == this
      ensures Value() == Some(value)
      ensures old(item) != null ==> old(item).box == null && old(item).value == old(item.value)
      ensures subscribers.subscribers == old(subscribers.subscribers)
      ensures Extends(old(subscribers.calls), subscribers.calls)
      ensures IsBroadcast(subscribers.subscribers, Some(value), subscribers.calls[|old(subscribers.calls)|..])
    {
      newItem := new Item(value, this);
      SetItem(newItem);
    }

    /**
     * `itemWillDeinit(_:)`: only the item the box still holds counts; its going away is
     * told to the subscribers as nil. The reference itself is zeroed by the runtime.
     */
    method ItemWillDeinit(dying: object)
      modifies subscribers
      ensures subscribers.subscribers == old(subscribers.subscribers)
      ensures dying != item ==> subscribers.calls == old(subscribers.calls)
      ensures dying == item ==>
        && Extends(old(subscribers.calls), subscribers.calls)
        && IsBroadcast(subscribers.subscribers, None, subscribers.calls[|old(subscribers.calls)|..])
    {
      if dying != item {
        return;
      }
      Changed(None);
    }

    /** `changed(_:)` */
    method Changed(value: Option<V>)
      modifies subscribers
      ensures subscribers.subscribers == old(subscribers.subscribers)
      ensures Extends(old(subscribers.calls), subscribers.calls)
      ensures IsBroadcast(subscribers.subscribers, value, subscribers.calls[|old(subscribers.calls)|..])
    {
      subscribers.NotifySubscribers(value);
    }

    /** The weak `item` reference is zeroed when the item is deallocated; `didSet` does not run. */
    method ItemReleased()
      modifies this
      ensures item == null
    {
      item := null;
    }

    /** `subscribe(on:closure:)` as `Shelf.swift` declares it: the closure is stored, not called. */
    method Subscribe(closure: CallbackId) returns (disposable: SubscriberDisposable<Option<V>>)
      modifies subscribers
      ensures fresh(disposable) && disposable.subscribable == subscribers
      ensures disposable !in old(subscribers.subscribers)
      ensures subscribers.subscribers == old(subscribers.subscribers)[disposable := closure]
      ensures subscribers.calls == old(subscribers.calls)
    {
      disposable := subscribers.Subscribe(closure);
    }

    /** `subscribe(on:triggerNow:closure:)`: with `triggerNow` the closure first receives the value. */
    method SubscribeTriggering(triggerNow: bool, closure: CallbackId) returns (disposable: SubscriberDisposable<Option<V>>)
      modifies subscribers
      ensures fresh(disposable) && disposable.subscribable == subscribers
      ensures disposable !in old(subscribers.subscribers)
      ensures subscribers.subscribers == old(subscribers.subscribers)[disposable := closure]
      ensures subscribers.calls == old(subscribers.calls) + (if triggerNow then [Call(disposable, closure, Value())] else [])
    {
      disposable := subscribers.SubscribeTriggering(triggerNow, closure, Value());
    }
  }

  class Item<V> {
    /** `weak var box` */
    var box: Box?<V>
    /** The value behind the item's `Atomic` */
    var value: V

    constructor (value: V, box: Box<V>)
      ensures this.value == value && this.box == box
    {
      this.value := value;
      this.box := box;
    }

    /** `access(_:)`: the closure mutates the value; nobody is told. */
    method Access(closure: V -> V)
      modifies this
      ensures value == closure(old(value)) && box == old(box)
    {
      value := closure(value);
    }

    /**
     * `deinit` as Swift runs it: the runtime zeroes every weak reference to this item
     * before `deinit` starts, and zeroing runs no `didSet`. So a box that held this item
     * already holds nil when `itemWillDeinit` compares, and nobody is told.
     */
    method DeinitAsWritten()
      modifies if box != null then {box, box.subscribers} else {}
      ensures box == old(box)
      ensures box != null ==>
        && box.subscribers.subscribers == old(box.subscribers.subscribers)
        && box.subscribers.calls == old(box.subscribers.calls)
        && box.item == (if old(box.item) == this then null else old(box.item))
    {
      if box == null {
        return;
      }
      if box.item == this {
        box.ItemReleased();
      }
      box.ItemWillDeinit(this);
    }

    /**
     * `deinit` as `itemWillDeinit` evidently means it: a box that still holds this item
     * tells its subscribers nil.
     */
    method Deinit()
      modifies if box != null then {box.subscribers} else {}
      ensures box != null ==>
        && box.subscribers.subscribers == old(box.subscribers.subscribers)
        && (box.item != this ==> box.subscribers.calls == old(box.subscribers.calls))
        && (box.item == this ==>
              && Extends(old(box.subscribers.calls), box.subscribers.calls)
              && IsBroadcast(box.subscribers.subscribers, None, box.subscribers.calls[|old(box.subscribers.calls)|..]))
    {
      if box == null {
        return;
      }
      box.ItemWillDeinit(this);
    }
  }

  /**
   * A box outlives its items: after a second item is put in, the first one's going away
   * is not told to anybody, and the box still shows the second item's value.
   */
  method ReplacedItemDeinit<V>(box: Box<V>, first: V, second: V)
    modifies box, box.item, box.subscribers
    ensures box.Value() == Some(second)
  {
    var a := box.PutItem(first);
    var b := box.PutItem(second);
    ghost var before := box.subscribers.calls;
    a.Deinit();
    assert box.subscribers.calls == before;
  }

  /**
   * As written, a subscriber of a box whose item goes away is never told nil: every call
   * it receives carries the item's value.
   */
  method HeldItemDeinitAsWritten<V>(value: V, closure: CallbackId) returns (box: Box<V>, disposable: SubscriberDisposable<Option<V>>)
    ensures box.subscribers.subscribers == map[disposable := closure]
    ensures box.item == null
    ensures |box.subscribers.calls| == 1
    ensures forall i :: 0 <= i < |box.subscribers.calls| ==> box.subscribers.calls[i].value == Some(value)
  {
    box := new Box();
    disposable := box.Subscribe(closure);
    var item := box.PutItem(value);
    BroadcastCallsEachOnce(box.subscribers.subscribers, Some(value), box.subscribers.calls[0..]);
    assert box.subscribers.calls[0..] == box.subscribers.calls;
    item.DeinitAsWritten();
  }

  /** As intended, the same steps tell the subscriber nil once the item goes away. */
  method HeldItemDeinit<V>(value: V, closure: CallbackId) returns (box: Box<V>, disposable: SubscriberDisposable<Option<V>>)
    ensures box.subscribers.subscribers == map[disposable := closure]
    ensures Call(disposable, closure, None) in box.subscribers.calls
  {
    box := new Box();
    disposable := box.Subscribe(closure);
    var item := box.PutItem(value);
    ghost var before := box.subscribers.calls;
    item.Deinit();
    ghost var round := box.subscribers.calls[|before|..];
    assert disposable in Tokens(round);
    ghost var i :| 0 <= i < |round| && round[i].token == disposable;
    assert round[i] == box.subscribers.calls[|before| + i];
  }
}
