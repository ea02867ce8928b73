/**
 * `SubscribableProtocolBase` and `SubscriberDisposable`: a dictionary of closures keyed by
 * the identity of the disposable handed back to the subscriber.
 */
module Subscribers {
  import opened Callbacks

  /** The `subscribers` dictionary of a store, with the log of the calls made through it. */
  class SubscriberTable<V> {
    var subscribers: map<object, CallbackId>
    ghost var calls: seq<Call<V>>

    /** `Atomic([:])` */
    constructor ()
      ensures subscribers == map[] && calls == []
    {
      subscribers := map[];
      calls := [];
    }

    /** `_subscribe(_:)`: the closure is stored under the new disposable, and nothing is called. */
    method Subscribe(closure: CallbackId) returns (disposable: SubscriberDisposable<V>)
      modifies this
      ensures fresh(disposable) && disposable.subscribable == this
      ensures disposable !in old(subscribers)
      ensures subscribers == old(subscribers)[disposable := closure]
      ensures calls == old(calls)
    {
      disposable := new SubscriberDisposable(this);
      subscribers := subscribers[disposable := closure];
    }

    /**
     * `_subscribe(on:triggerNow:_:)`, the overload the stores call: with `triggerNow` the
     * closure is first called with the current subscription value.
     */
    method SubscribeTriggering(triggerNow: bool, closure: CallbackId, current: V)
      returns (disposable: SubscriberDisposable<V>)
      modifies this
      ensures fresh(disposable) && disposable.subscribable == this
      ensures disposable !in old(subscribers)
      ensures subscribers == old(subscribers)[disposable := closure]
      ensures calls == old(calls) + (if triggerNow then [Call(disposable, closure, current)] else [])
    {
      disposable := new SubscriberDisposable(this);
      if triggerNow {
        calls := calls + [Call(disposable, closure, current)];
      }
      subscribers := subscribers[disposable := closure];
    }

    /** `notifySubscribers(_:)`: every stored closure is called once with `value`. */
    method NotifySubscribers(value: V)
      modifies this
      ensures subscribers == old(subscribers)
      ensures Extends(old(calls), calls)
      ensures IsBroadcast(subscribers, value, calls[|old(calls)|..])
    {
      var round := Broadcast(subscribers, value);
      calls := calls + round;
      assert calls[|old(calls)|..] == round;
    }
  }

  class SubscriberDisposable<V> {
    /** `weak var subscribable` */
    var subscribable: SubscriberTable?<V>

    constructor (subscribable: SubscriberTable<V>)
      ensures this.subscribable == subscribable
    {
      this.subscribable := subscribable;
    }

    /** The weak reference is zeroed when the table's owner is deallocated. */
    method SubscribableReleased()
      modifies this
      ensures subscribable == null
    {
      subscribable := null;
    }

    /** `deinit`: the closure stored under this disposable is removed, if the table is alive. */
    method Deinit()
      modifies subscribable
      ensures subscribable != null ==>
        subscribable.subscribers == old(subscribable.subscribers) - {this} &&
        subscribable.calls == old(subscribable.calls)
    {
      if subscribable != null {
        subscribable.subscribers := subscribable.subscribers - {this};
      }
    }
  }
}
