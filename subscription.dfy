/**
 * `_SubscribableProtocol` and `_Subscription`: the read stores keep two dictionaries of
 * closures, one called on actions and one called on upstream changes, both keyed by the
 * identity of the `_Subscription` handed back to the subscriber.
 */
module Subscriptions {
  import opened Atomics
  import opened Callbacks

  /** Which of the two dictionaries a `subscribers:` key path names. */
  datatype Selector = ActionSubscribers | UpstreamSubscribers

  /**
   * The subscriber dictionaries of a store whose `state` is `read` of the root cell the
   * store's tree shares.
   */
  class Subscribable<R, V> {
    const root: Cell<R>
    const read: R -> V
    var actionSubscribers: map<object, CallbackId>
    var upstreamSubscribers: map<object, CallbackId>
    ghost var calls: seq<Call<V>>

    /** Both dictionaries start as `Atomic([:])`. */
    constructor (root: Cell<R>, read: R -> V)
      ensures this.root == root && this.read == read
      ensures actionSubscribers == map[] && upstreamSubscribers == map[] && calls == []
    {
      this.root := root;
      this.read := read;
      actionSubscribers := map[];
      upstreamSubscribers := map[];
      calls := [];
    }

    /** The store's `state` */
    function State(): V
      reads root
    {
      read(root.value)
    }

    function Selected(which: Selector): map<object, CallbackId>
      reads this
    {
      match which
      case ActionSubscribers => actionSubscribers
      case UpstreamSubscribers => upstreamSubscribers
    }

    /**
     * `_subscribe(on:triggerNow:subscribers:_:)`: with `triggerNow` the closure is called
     * with the current state before it is stored, and it is stored in the selected
     * dictionary only.
     */
    method Subscribe(triggerNow: bool, which: Selector, closure: CallbackId)
      returns (subscription: Subscription<R, V>)
      modifies this
      ensures fresh(subscription) && subscription.subscribable == this
      ensures subscription !in old(actionSubscribers) && subscription !in old(upstreamSubscribers)
      ensures which == ActionSubscribers ==>
        actionSubscribers == old(actionSubscribers)[subscription := closure] &&
        upstreamSubscribers == old(upstreamSubscribers)
      ensures which == UpstreamSubscribers ==>
        upstreamSubscribers == old(upstreamSubscribers)[subscription := closure] &&
        actionSubscribers == old(actionSubscribers)
      ensures calls == old(calls) + (if triggerNow then [Call(subscription, closure, State())] else [])
    {
      subscription := new Subscription(this);
      if triggerNow {
        calls := calls + [Call(subscription, closure, State())];
      }
      match which
      case ActionSubscribers => actionSubscribers := actionSubscribers[subscription := closure];
      case UpstreamSubscribers => upstreamSubscribers := upstreamSubscribers[subscription := closure];
    }

    /** `notify(_:subscribers:)`: every closure of the selected dictionary is called once. */
    method Notify(value: V, which: Selector)
      modifies this
      ensures actionSubscribers == old(actionSubscribers) && upstreamSubscribers == old(upstreamSubscribers)
      ensures Extends(old(calls), calls)
      ensures IsBroadcast(Selected(which), value, calls[|old(calls)|..])
    {
      var round := Broadcast(Selected(which), value);
      calls := calls + round;
      assert calls[|old(calls)|..] == round;
    }
  }

  /** The calls `trigger()` makes: this subscription's closure in each dictionary that holds one. */
  function TriggerCalls<V>(token: object, action: map<object, CallbackId>, upstream: map<object, CallbackId>, current: V): (calls: seq<Call<V>>)
    ensures |calls| == (if token in action then 1 else 0) + (if token in upstream then 1 else 0)
    ensures forall c :: c in calls ==> c.token == token && c.value == current
    ensures token in action ==> calls[0].callback == action[token]
    ensures token in upstream ==> calls[|calls| - 1].callback == upstream[token]
  {
    (if token in action then [Call(token, action[token], current)] else []) +
    (if token in upstream then [Call(token, upstream[token], current)] else [])
  }

  class Subscription<R, V> {
    /** `weak var subscribable` */
    var subscribable: Subscribable?<R, V>

    constructor (subscribable: Subscribable<R, V>)
      ensures this.subscribable == subscribable
    {
      this.subscribable := subscribable;
    }

    /** The weak reference is zeroed when the store is deallocated. */
    method SubscribableReleased()
      modifies this
      ensures subscribable == null
    {
      subscribable := null;
    }

    /** `end()`: this subscription's closure leaves both dictionaries. */
    method End()
      modifies subscribable
      ensures subscribable != null ==>
        subscribable.actionSubscribers == old(subscribable.actionSubscribers) - {this} &&
        subscribable.upstreamSubscribers == old(subscribable.upstreamSubscribers) - {this} &&
        subscribable.calls == old(subscribable.calls)
    {
      if subscribable != null {
        subscribable.actionSubscribers := subscribable.actionSubscribers - {this};
        subscribable.upstreamSubscribers := subscribable.upstreamSubscribers - {this};
      }
    }

    /** `trigger()`: this subscription's closures are called with the store's state, action first. */
    method Trigger()
      modifies subscribable
      ensures subscribable != null ==>
        subscribable.actionSubscribers == old(subscribable.actionSubscribers) &&
        subscribable.upstreamSubscribers == old(subscribable.upstreamSubscribers) &&
        subscribable.calls == old(subscribable.calls) +
          TriggerCalls(this, subscribable.actionSubscribers, subscribable.upstreamSubscribers, subscribable.State())
    {
      if subscribable != null {
        subscribable.calls := subscribable.calls +
          TriggerCalls(this, subscribable.actionSubscribers, subscribable.upstreamSubscribers, subscribable.State());
      }
    }

    /** `deinit { end() }` */
    method Deinit()
      modifies subscribable
      ensures subscribable != null ==>
        this !in subscribable.actionSubscribers && this !in subscribable.upstreamSubscribers &&
        subscribable.calls == old(subscribable.calls)
    {
      End();
    }
  }

  /** Ending a subscription twice leaves the dictionaries as ending it once does. */
  method EndTwice<R, V>(subscription: Subscription<R, V>)
    modifies subscription.subscribable
    ensures subscription.subscribable != null ==>
      subscription.subscribable.actionSubscribers == old(subscription.subscribable.actionSubscribers) - {subscription} &&
      subscription.subscribable.upstreamSubscribers == old(subscription.subscribable.upstreamSubscribers) - {subscription}
  {
    subscription.End();
    subscription.End();
  }

  /** After `end()`, `trigger()` calls nothing. */
  method TriggerAfterEnd<R, V>(subscription: Subscription<R, V>)
    modifies subscription.subscribable
    ensures subscription.subscribable != null ==>
      subscription.subscribable.calls == old(subscription.subscribable.calls)
  {
    subscription.End();
    subscription.Trigger();
  }
}
