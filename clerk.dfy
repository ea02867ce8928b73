/**
 * `Clerk`, `SealedBox` and the stamped `Item`: a clerk is active while it holds a stamp,
 * and only an active clerk may put an item in a sealed box or change an item. Each change
 * tells the item's boxes at once and leaves the clerk a callback per box to run later.
 * The `Box` an item can point to is the one of `Box.swift`.
 */
module Clerks {
  import opened Optionals
  import opened Callbacks
  import opened Subscribers
  import opened Boxes

  /** `ClerkStamp`: nothing but an identity. */
  class ClerkStamp {
    constructor ()
    {
    }
  }

  class Item<V> {
    /** `weak var box` */
    var box: Box?<V>
    /** `weak var sealedBox` */
    var sealedBox: SealedBox?<V>
    /** The value behind the item's `Atomic` */
    var value: V
    /** `weak var stamp` */
    var stamp: ClerkStamp?

    /** `init(_:box:sealedBox:)` with both back references stored. */
    constructor (value: V, box: Box?<V>, sealedBox: SealedBox?<V>)
      ensures this.value == value && this.box == box && this.sealedBox == sealedBox && stamp == null
    {
      this.value := value;
      this.box := box;
      this.sealedBox := sealedBox;
      stamp := null;
    }

    /** `init(_:box:sealedBox:)` as written: the `sealedBox` argument is never stored. */
    constructor AsWritten(value: V, box: Box?<V>, sealedBox: SealedBox?<V>)
      ensures this.value == value && this.box == box && this.sealedBox == null && stamp == null
    {
      this.value := value;
      this.box := box;
      this.sealedBox := null;
      stamp := null;
    }

    /** The box and the sealed box, when both are there, keep separate subscriber tables. */
    predicate Separate()
      reads this
    {
      box == null || sealedBox == null || box.subscribers as object != sealedBox.subscribers as object
    }

    /**
     * `deinit`: the box, if still alive, is told that this item goes away. No box holds a
     * stamped item (the stamped `Box.item(_:stamp:)` is missing), so the box ignores it.
     */
    method Deinit()
      modifies if box != null then {box.subscribers} else {}
      ensures box != null ==> box.subscribers.subscribers == old(box.subscribers.subscribers) && box.subscribers.calls == old(box.subscribers.calls)
    {
      if box == null {
        return;
      }
      box.ItemWillDeinit(this);
    }

    /**
     * `access(stamp:_:)`, with the stamp recorded: an item already changed under a stamp
     * is not changed again while that stamp lives. The closure mutates the value; the box
     * and then the sealed box are told the new value.
     */
    method AccessStamped(theStamp: ClerkStamp, closure: V -> V)
      requires stamp == null
      modifies this, if box != null then {box.subscribers} else {}, if sealedBox != null then {sealedBox.subscribers} else {}
      ensures value == closure(old(value)) && stamp == theStamp
      ensures box == old(box) && sealedBox == old(sealedBox)
      ensures box != null ==> box.subscribers.subscribers == old(box.subscribers.subscribers)
      ensures box != null && Separate() ==>
        && Extends(old(box.subscribers.calls), box.subscribers.calls)
        && IsBroadcast(box.subscribers.subscribers, Some(value), box.subscribers.calls[|old(box.subscribers.calls)|..])
      ensures sealedBox != null ==> sealedBox.subscribers.subscribers == old(sealedBox.subscribers.subscribers)
      ensures sealedBox != null && Separate() ==>
        && Extends(old(sealedBox.subscribers.calls), sealedBox.subscribers.calls)
        && IsBroadcast(sealedBox.subscribers.subscribers, value, sealedBox.subscribers.calls[|old(sealedBox.subscribers.calls)|..])
    {
      value := closure(value);
      stamp := theStamp;
      Notify();
    }

    /** `access(stamp:_:)` as written: the guard reads `stamp`, which nothing ever sets. */
    method AccessStampedAsWritten(theStamp: ClerkStamp, closure: V -> V)
      requires stamp == null
      modifies this, if box != null then {box.subscribers} else {}, if sealedBox != null then {sealedBox.subscribers} else {}
      ensures value == closure(old(value)) && stamp == null
      ensures box == old(box) && sealedBox == old(sealedBox)
      ensures box != null ==> box.subscribers.subscribers == old(box.subscribers.subscribers)
      ensures sealedBox != null ==> sealedBox.subscribers.subscribers == old(sealedBox.subscribers.subscribers)
      ensures sealedBox != null && Separate() ==>
        && Extends(old(sealedBox.subscribers.calls), sealedBox.subscribers.calls)
        && IsBroadcast(sealedBox.subscribers.subscribers, value, sealedBox.subscribers.calls[|old(sealedBox.subscribers.calls)|..])
      ensures box != null && Separate() ==>
        && Extends(old(box.subscribers.calls), box.subscribers.calls)
        && IsBroadcast(box.subscribers.subscribers, Some(value), box.subscribers.calls[|old(box.subscribers.calls)|..])
    {
      value := closure(value);
      Notify();
    }

    /** The box and then the sealed box are told the item's value. */
    method Notify()
      modifies if box != null then {box.subscribers} else {}, if sealedBox != null then {sealedBox.subscribers} else {}
      ensures box != null ==> box.subscribers.subscribers == old(box.subscribers.subscribers)
      ensures box != null && Separate() ==>
        && Extends(old(box.subscribers.calls), box.subscribers.calls)
        && IsBroadcast(box.subscribers.subscribers, Some(value), box.subscribers.calls[|old(box.subscribers.calls)|..])
      ensures sealedBox != null ==> sealedBox.subscribers.subscribers == old(sealedBox.subscribers.subscribers)
      ensures sealedBox != null && Separate() ==>
        && Extends(old(sealedBox.subscribers.calls), sealedBox.subscribers.calls)
        && IsBroadcast(sealedBox.subscribers.subscribers, value, sealedBox.subscribers.calls[|old(sealedBox.subscribers.calls)|..])
    {
      if box != null {
        box.Changed(Some(value));
      }
      if sealedBox != null {
        sealedBox.Changed(value);
      }
    }

    /** The weak `stamp` reference is zeroed when the clerk's stamp is deallocated. */
    method StampReleased()
      modifies this
      ensures stamp == null && value == old(value) && box == old(box) && sealedBox == old(sealedBox)
    {
      stamp := null;
    }
  }

  class SealedBox<V> {
    var item: Item<V>
    const subscribers: SubscriberTable<V>
    /** `weak var stamp` */
    var stamp: ClerkStamp?

    /** `init(_ value:)`: the first item is created unlinked, then pointed back at the box. */
    constructor (value: V)
      ensures fresh(item) && item.value == value && item.box == null && item.sealedBox == this && item.stamp == null
      ensures stamp == null
      ensures fresh(subscribers) && subscribers.subscribers == map[] && subscribers.calls == []
    {
      item := new Item(value, null, null);
      subscribers := new SubscriberTable();
      stamp := null;
      new;
      item.sealedBox := this;
    }

    /** `subscriptionValue`: always defined, since a sealed box always holds an item. */
    function SubscriptionValue(): V
      reads this, item
    {
      item.value
    }

    /**
     * `item(_:stamp:)`, with the new item linked back: one clerk at a time holds the box,
     * and the new item replaces the one held before.
     */
    method PutItemStamped(value: V, theStamp: ClerkStamp) returns (newItem: Item<V>)
      requires stamp == null || stamp == theStamp
      modifies this
      ensures stamp == theStamp && item == newItem
      ensures fresh(newItem) && newItem.value == value && newItem.box == null && newItem.sealedBox == this && newItem.stamp == null
      ensures SubscriptionValue() == value
    {
      stamp := theStamp;
      newItem := new Item(value, null, this);
      item := newItem;
    }

    /** `item(_:stamp:)` as written: the new item is built by an initialiser that drops its `sealedBox`. */
    method PutItemStampedAsWritten(value: V, theStamp: ClerkStamp) returns (newItem: Item<V>)
      requires stamp == null || stamp == theStamp
      modifies this
      ensures stamp == theStamp && item == newItem
      ensures fresh(newItem) && newItem.value == value && newItem.box == null && newItem.sealedBox == null && newItem.stamp == null
    {
      stamp := theStamp;
      newItem := new Item.AsWritten(value, null, this);
      item := newItem;
    }

    /** `changed(_:)`, which the sealed box gets from `BoxProtocol`: the subscribers are told. */
    method Changed(value: V)
      modifies subscribers
      ensures subscribers.subscribers == old(subscribers.subscribers)
      ensures Extends(old(subscribers.calls), subscribers.calls)
      ensures IsBroadcast(subscribers.subscribers, value, subscribers.calls[|old(subscribers.calls)|..])
    {
      subscribers.NotifySubscribers(value);
    }

    /** `subscribe(on:triggerNow:closure:)`: with `triggerNow` the closure first receives the value. */
    method Subscribe(triggerNow: bool, closure: CallbackId) returns (disposable: SubscriberDisposable<V>)
      modifies subscribers
      ensures fresh(disposable) && disposable.subscribable == subscribers
      ensures disposable !in old(subscribers.subscribers)
      ensures subscribers.subscribers == old(subscribers.subscribers)[disposable := closure]
      ensures subscribers.calls == old(subscribers.calls) + (if triggerNow then [Call(disposable, closure, SubscriptionValue())] else [])
    {
      disposable := subscribers.SubscribeTriggering(triggerNow, closure, SubscriptionValue());
    }

    /** The weak `stamp` reference is zeroed when the clerk's stamp is deallocated. */
    method StampReleased()
      modifies this
      ensures stamp == null && item == old(item)
    {
      stamp := null;
    }
  }

  /** The closures a clerk keeps, keyed by the box they notify. */
  datatype ClerkCallback = NotifyBoxSubscribers(box: object) | NotifySealedBoxSubscribers(sealedBox: object)

  class Clerk {
    /** `weak var stamp`: the clerk is active while it is set */
    var stamp: ClerkStamp?
    var callbacks: map<object, ClerkCallback>

    constructor ()
      ensures stamp == null && callbacks == map[]
    {
      stamp := null;
      callbacks := map[];
    }

    /** `shouldNotify(_ box:)`: a live box gets (or keeps) one callback under its identity. */
    method ShouldNotifyBox<V>(box: Box?<V>)
      modifies this
      ensures stamp == old(stamp)
      ensures callbacks == if box == null then old(callbacks) else old(callbacks)[box := NotifyBoxSubscribers(box)]
    {
      if box == null {
        return;
      }
      callbacks := callbacks[box := NotifyBoxSubscribers(box)];
    }

    /** `shouldNotify(_ sealedBox:)` */
    method ShouldNotifySealedBox<V>(sealedBox: SealedBox?<V>)
      modifies this
      ensures stamp == old(stamp)
      ensures callbacks == if sealedBox == null then old(callbacks) else old(callbacks)[sealedBox := NotifySealedBoxSubscribers(sealedBox)]
    {
      if sealedBox == null {
        return;
      }
      callbacks := callbacks[sealedBox := NotifySealedBoxSubscribers(sealedBox)];
    }

    /**
     * `item(_:in sealedBox:)` as written: only an active clerk may put an item in a sealed
     * box, and the new item, built by `init(_:box:sealedBox:)` as written, does not point
     * back at the sealed box.
     */
    method ItemInSealedBox<V>(value: V, sealedBox: SealedBox<V>) returns (item: Item<V>)
      requires stamp != null
      requires sealedBox.stamp == null || sealedBox.stamp == stamp
      modifies sealedBox
      ensures sealedBox.stamp == stamp && sealedBox.item == item
      ensures fresh(item) && item.value == value && item.sealedBox == null && item.box == null
    {
      item := sealedBox.PutItemStampedAsWritten(value, stamp);
    }

    /**
     * `item(_:in sealedBox:)` with the corrected initialiser: the new item points back at
     * the sealed box, so later changes to it reach the sealed box's subscribers.
     */
    method ItemInSealedBoxCorrected<V>(value: V, sealedBox: SealedBox<V>) returns (item: Item<V>)
      requires stamp != null
      requires sealedBox.stamp == null || sealedBox.stamp == stamp
      modifies sealedBox
      ensures sealedBox.stamp == stamp && sealedBox.item == item
      ensures fresh(item) && item.value == value && item.sealedBox == sealedBox && item.box == null
    {
      item := sealedBox.PutItemStamped(value, stamp);
    }

    /**
     * `access(_:closure:)` as written: only an active clerk may change an item. The item is
     * changed through `access(stamp:_:)` as written, which leaves it unstamped, and each box
     * it points to gets a callback.
     */
    method AccessAsWritten<V>(item: Item<V>, closure: V -> V)
      requires stamp != null
      requires item.stamp == null
      modifies this, item, if item.box != null then {item.box.subscribers} else {}, if item.sealedBox != null then {item.sealedBox.subscribers} else {}
      ensures stamp == old(stamp)
      ensures item.value == closure(old(item.value)) && item.stamp == null
      ensures item.box == old(item.box) && item.sealedBox == old(item.sealedBox)
      ensures callbacks == ClerkCallbacksAfter(old(callbacks), item.box, item.sealedBox)
      ensures item.box != null && item.Separate() ==>
        && Extends(old(item.box.subscribers.calls), item.box.subscribers.calls)
        && IsBroadcast(item.box.subscribers.subscribers, Some(item.value), item.box.subscribers.calls[|old(item.box.subscribers.calls)|..])
      ensures item.sealedBox != null && item.Separate() ==>
        && Extends(old(item.sealedBox.subscribers.calls), item.sealedBox.subscribers.calls)
        && IsBroadcast(item.sealedBox.subscribers.subscribers, item.value, item.sealedBox.subscribers.calls[|old(item.sealedBox.subscribers.calls)|..])
    {
      item.AccessStampedAsWritten(stamp, closure);
      ShouldNotifyBox(item.box);
      ShouldNotifySealedBox(item.sealedBox);
    }

    /**
     * `access(_:closure:)` with the corrected `access(stamp:_:)`: the item is changed under
     * the clerk's stamp, which it then carries, and each box it points to gets a callback.
     */
    method Access<V>(item: Item<V>, closure: V -> V)
      requires stamp != null
      requires item.stamp == null
      modifies this, item, if item.box != null then {item.box.subscribers} else {}, if item.sealedBox != null then {item.sealedBox.subscribers} else {}
      ensures stamp == old(stamp)
      ensures item.value == closure(old(item.value)) && item.stamp == stamp
      ensures item.box == old(item.box) && item.sealedBox == old(item.sealedBox)
      ensures callbacks == ClerkCallbacksAfter(old(callbacks), item.box, item.sealedBox)
      ensures item.box != null && item.Separate() ==>
        && Extends(old(item.box.subscribers.calls), item.box.subscribers.calls)
        && IsBroadcast(item.box.subscribers.subscribers, Some(item.value), item.box.subscribers.calls[|old(item.box.subscribers.calls)|..])
      ensures item.sealedBox != null && item.Separate() ==>
        && Extends(old(item.sealedBox.subscribers.calls), item.sealedBox.subscribers.calls)
        && IsBroadcast(item.sealedBox.subscribers.subscribers, item.value, item.sealedBox.subscribers.calls[|old(item.sealedBox.subscribers.calls)|..])
    {
      item.AccessStamped(stamp, closure);
      ShouldNotifyBox(item.box);
      ShouldNotifySealedBox(item.sealedBox);
    }
  }

  /** The callbacks a clerk holds after changing an item that points to `box` and `sealedBox`. */
  function ClerkCallbacksAfter<V>(callbacks: map<object, ClerkCallback>, box: Box?<V>, sealedBox: SealedBox?<V>): (after: map<object, ClerkCallback>)
    ensures callbacks.Keys <= after.Keys
    ensures box != null ==> box in after && after[box] == NotifyBoxSubscribers(box)
    ensures sealedBox != null ==> sealedBox in after && after[sealedBox] == NotifySealedBoxSubscribers(sealedBox)
    ensures forall k :: k in after && k != box && k != sealedBox ==> k in callbacks && after[k] == callbacks[k]
  {
    var withBox := if box == null then callbacks else callbacks[box := NotifyBoxSubscribers(box)];
    if sealedBox == null then withBox else withBox[sealedBox := NotifySealedBoxSubscribers(sealedBox)]
  }

  /**
   * As written, an item a clerk puts in a sealed box is not linked back to it, so changing
   * that item leaves the box's subscribers untold although the box now shows a new value.
   */
  method ReissuedAccessAsWritten<V>(sealedBox: SealedBox<V>, stamp: ClerkStamp, value: V, closure: V -> V)
    requires sealedBox.stamp == null || sealedBox.stamp == stamp
    modifies sealedBox
    ensures sealedBox.SubscriptionValue() == closure(value)
    ensures sealedBox.subscribers.calls == old(sealedBox.subscribers.calls)
  {
    var item := sealedBox.PutItemStampedAsWritten(value, stamp);
    item.AccessStampedAsWritten(stamp, closure);
  }

  /** With the link stored, the subscribers are told the changed value. */
  method ReissuedAccess<V>(sealedBox: SealedBox<V>, stamp: ClerkStamp, value: V, closure: V -> V)
    requires sealedBox.stamp == null || sealedBox.stamp == stamp
    modifies sealedBox, sealedBox.subscribers
    ensures sealedBox.SubscriptionValue() == closure(value)
    ensures sealedBox.subscribers.subscribers == old(sealedBox.subscribers.subscribers)
    ensures Extends(old(sealedBox.subscribers.calls), sealedBox.subscribers.calls)
    ensures IsBroadcast(sealedBox.subscribers.subscribers, closure(value), sealedBox.subscribers.calls[|old(sealedBox.subscribers.calls)|..])
  {
    var item := sealedBox.PutItemStamped(value, stamp);
    item.AccessStamped(stamp, closure);
  }

  /**
   * As written, the once-per-action guard never fires: the same item is changed twice
   * under one stamp, and both changes go through.
   */
  method AccessTwiceAsWritten<V>(item: Item<V>, stamp: ClerkStamp, first: V -> V, second: V -> V)
    requires item.stamp == null
    modifies item, if item.box != null then {item.box.subscribers} else {}, if item.sealedBox != null then {item.sealedBox.subscribers} else {}
    ensures item.value == second(first(old(item.value))) && item.stamp == null
  {
    item.AccessStampedAsWritten(stamp, first);
    item.AccessStampedAsWritten(stamp, second);
  }
}
