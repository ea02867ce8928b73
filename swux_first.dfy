/**
 * The first revision of the library, a single file: a store holding one state and an
 * array of type-erased subscribers, each a weak reference to the object that subscribed.
 * Setting the state tells every live subscriber the new state, in array order.
 */
module FirstSwux {

  /** `AnySubscriber`: its closures all read one weak reference to the subscribing object. */
  class AnySubscriber {
    /** The `[weak subscriber]` the closures capture */
    var target: object?

    constructor (target: object)
      ensures this.target == target
    {
      this.target := target;
    }

    /** `released()` */
    predicate Released()
      reads this
    {
      target == null
    }

    /** `compare(_:)`: identity with the captured subscriber. */
    predicate Compare(other: object)
      reads this
    {
      target == other
    }

    /** The weak reference is zeroed when the subscribing object is deallocated. */
    method TargetReleased()
      modifies this
      ensures target == null
    {
      target := null;
    }
  }

  /** One `stateChanged(to:)` call: which object was told which state. */
  datatype Delivery<S> = Delivery(subscriber: object, state: S)

  /** The calls one assignment of `state` makes: one per live subscriber, in array order. */
  function Deliveries<S>(subscribers: seq<AnySubscriber>, state: S): (deliveries: seq<Delivery<S>>)
    reads subscribers
  {
    if |subscribers| == 0 then []
    else
      var last := subscribers[|subscribers| - 1];
      Deliveries(subscribers[..|subscribers| - 1], state) + (if last.target != null then [Delivery(last.target, state)] else [])
  }

  /** Filtering one more subscriber onto the end filters the earlier ones the same way. */
  lemma {:induction false} LiveAppend(subscribers: seq<AnySubscriber>, last: AnySubscriber)
    ensures Live(subscribers + [last]) == Live(subscribers) + (if last.Released() then [] else [last])
    decreases |subscribers|
  {
    if |subscribers| == 0 {
      assert [last][1..] == [];
      assert subscribers + [last] == [last];
    } else {
      assert (subscribers + [last])[1..] == subscribers[1..] + [last];
      LiveAppend(subscribers[1..], last);
    }
  }

  /**
   * One assignment tells the live subscribers the state, one call each, in array order:
   * the j-th call goes to the j-th live subscriber.
   */
  lemma {:induction false} DeliveriesFollowLive<S>(subscribers: seq<AnySubscriber>, state: S)
    ensures |Deliveries(subscribers, state)| == |Live(subscribers)|
    ensures forall j :: 0 <= j < |Deliveries(subscribers, state)| ==>
      Deliveries(subscribers, state)[j] == Delivery(Live(subscribers)[j].target, state)
    decreases |subscribers|
  {
    if |subscribers| == 0 {
      return;
    }
    var init := subscribers[..|subscribers| - 1];
    var last := subscribers[|subscribers| - 1];
    DeliveriesFollowLive(init, state);
    assert subscribers == init + [last];
    LiveAppend(init, last);
  }

  /**
   * Every live subscriber is told the state, nobody else is, and nobody is told more
   * than there are subscribers.
   */
  lemma {:induction false} DeliveriesReachLiveSubscribers<S>(subscribers: seq<AnySubscriber>, state: S)
    ensures |Deliveries(subscribers, state)| <= |subscribers|
    ensures forall i :: 0 <= i < |subscribers| && subscribers[i].target != null ==>
      Delivery(subscribers[i].target, state) in Deliveries(subscribers, state)
    ensures forall d :: d in Deliveries(subscribers, state) ==>
      d.state == state && exists i :: 0 <= i < |subscribers| && subscribers[i].target == d.subscriber
  {
    if |subscribers| == 0 {
      return;
    }
    var init := subscribers[..|subscribers| - 1];
    DeliveriesReachLiveSubscribers(init, state);
    forall d | d in Deliveries(subscribers, state)
      ensures d.state == state && exists i :: 0 <= i < |subscribers| && subscribers[i].target == d.subscriber
    {
      if d in Deliveries(init, state) {
        var i :| 0 <= i < |init| && init[i].target == d.subscriber;
        assert subscribers[i] == init[i];
      } else {
        assert subscribers[|subscribers| - 1].target == d.subscriber;
      }
    }
    forall i | 0 <= i < |subscribers| && subscribers[i].target != null
      ensures Delivery(subscribers[i].target, state) in Deliveries(subscribers, state)
    {
      if i < |init| {
        assert init[i] == subscribers[i];
      }
    }
  }

  /** `filter { !$0.released() }`: the live subscribers, in order. */
  function Live(subscribers: seq<AnySubscriber>): (live: seq<AnySubscriber>)
    reads subscribers
    ensures |live| <= |subscribers|
    ensures forall i :: 0 <= i < |live| ==> live[i] in subscribers && !live[i].Released()
    ensures forall i :: 0 <= i < |subscribers| && !subscribers[i].Released() ==> subscribers[i] in live
  {
    if |subscribers| == 0 then []
    else if subscribers[0].Released() then Live(subscribers[1..])
    else [subscribers[0]] + Live(subscribers[1..])
  }

  /** `filter { !$0.released() && $0.compare(subscriber) }`, as `unsubscribe` writes it. */
  function KeptAsWritten(subscribers: seq<AnySubscriber>, subscriber: object): (kept: seq<AnySubscriber>)
    reads subscribers
    ensures forall i :: 0 <= i < |kept| ==> kept[i] in subscribers && !kept[i].Released() && kept[i].Compare(subscriber)
    ensures forall i :: 0 <= i < |subscribers| && !subscribers[i].Released() && subscribers[i].Compare(subscriber) ==> subscribers[i] in kept
  {
    if |subscribers| == 0 then []
    else if !subscribers[0].Released() && subscribers[0].Compare(subscriber) then [subscribers[0]] + KeptAsWritten(subscribers[1..], subscriber)
    else KeptAsWritten(subscribers[1..], subscriber)
  }

  /** The filter `unsubscribe` evidently means: the live subscribers other than `subscriber`. */
  function Without(subscribers: seq<AnySubscriber>, subscriber: object): (kept: seq<AnySubscriber>)
    reads subscribers
    ensures forall i :: 0 <= i < |kept| ==> kept[i] in subscribers && !kept[i].Released() && !kept[i].Compare(subscriber)
    ensures forall i :: 0 <= i < |subscribers| && !subscribers[i].Released() && !subscribers[i].Compare(subscriber) ==> subscribers[i] in kept
  {
    if |subscribers| == 0 then []
    else if !subscribers[0].Released() && !subscribers[0].Compare(subscriber) then [subscribers[0]] + Without(subscribers[1..], subscriber)
    else Without(subscribers[1..], subscriber)
  }

  class Store<S> {
    var subscribers: seq<AnySubscriber>
    /** The value behind `_state` */
    var state: S
    ghost var deliveries: seq<Delivery<S>>

    /** `init(_ state:)` */
    constructor (state: S)
      ensures this.state == state && subscribers == [] && deliveries == []
    {
      this.state := state;
      subscribers := [];
      deliveries := [];
    }

    /** The `state` setter: the value is stored, then each subscriber is told it in turn. */
    method SetState(newValue: S)
      modifies this
      ensures state == newValue && subscribers == old(subscribers)
      ensures deliveries == old(deliveries) + Deliveries(subscribers, newValue)
    {
      state := newValue;
      for i := 0 to |subscribers|
        invariant state == newValue && subscribers == old(subscribers)
        invariant deliveries == old(deliveries) + Deliveries(subscribers[..i], newValue)
      {
        assert subscribers[..i + 1][..i] == subscribers[..i];
        if subscribers[i].target != null {
          deliveries := deliveries + [Delivery(subscribers[i].target, newValue)];
        }
      }
      assert subscribers[..|subscribers|] == subscribers;
    }

    /** `subscribe(_:)`: released subscribers are dropped and the new one goes last. */
    method Subscribe(subscriber: object) returns (added: AnySubscriber)
      modifies this
      ensures fresh(added) && added.target == subscriber
      ensures subscribers == Live(old(subscribers)) + [added]
      ensures state == old(state) && deliveries == old(deliveries)
    {
      added := new AnySubscriber(subscriber);
      subscribers := Live(subscribers) + [added];
    }

    /** `unsubscribe(_:)` as written: only the subscriber being removed is kept. */
    method UnsubscribeAsWritten(subscriber: object)
      modifies this
      ensures subscribers == KeptAsWritten(old(subscribers), subscriber)
      ensures state == old(state) && deliveries == old(deliveries)
    {
      subscribers := KeptAsWritten(subscribers, subscriber);
    }

    /** `unsubscribe(_:)` as intended: every live subscriber but `subscriber` stays. */
    method Unsubscribe(subscriber: object)
      modifies this
      ensures subscribers == Without(old(subscribers), subscriber)
      ensures forall i :: 0 <= i < |subscribers| ==> !subscribers[i].Compare(subscriber)
      ensures forall i :: 0 <= i < |old(subscribers)| && !old(subscribers)[i].Released() && !old(subscribers)[i].Compare(subscriber) ==>
        old(subscribers)[i] in subscribers
      ensures state == old(state) && deliveries == old(deliveries)
    {
      subscribers := Without(subscribers, subscriber);
    }

    /** `dispatch(_:)`: `mutate(&self.state)` reads the state, mutates it and assigns it back once. */
    method Dispatch(mutate: S -> S)
      modifies this
      ensures state == mutate(old(state)) && subscribers == old(subscribers)
      ensures deliveries == old(deliveries) + Deliveries(subscribers, mutate(old(state)))
    {
      var value := state;
      value := mutate(value);
      SetState(value);
    }
  }

  /** An object that subscribes to a store: only its identity matters here. */
  class Observer {
    constructor ()
    {
    }
  }

  /**
   * As written, unsubscribing one of two subscribers keeps exactly that one: it is
   * still told the next state, and the other subscriber no longer is.
   */
  method UnsubscribeCounterexample() returns (first: Observer, second: Observer, store: Store<int>)
    ensures first != second
    ensures |store.subscribers| == 1 && store.subscribers[0].target == first
    ensures store.deliveries == [Delivery(first, 1)]
  {
    first := new Observer();
    second := new Observer();
    store := new Store(0);
    var a := store.Subscribe(first);
    var b := store.Subscribe(second);
    assert store.subscribers == [a, b];
    assert a.target == first && b.target == second;
    assert [a, b][1..] == [b] && [b][1..] == [];
    assert KeptAsWritten([b], first) == [];
    store.UnsubscribeAsWritten(first);
    assert store.subscribers == [a];
    store.SetState(1);
    assert Deliveries([a], 1) == Deliveries([], 1) + [Delivery(first as object, 1)];
  }

  /** As intended, the same steps leave only the other subscriber, which alone is told. */
  method UnsubscribeExample() returns (first: Observer, second: Observer, store: Store<int>)
    ensures first != second
    ensures |store.subscribers| == 1 && store.subscribers[0].target == second
    ensures store.deliveries == [Delivery(second, 1)]
  {
    first := new Observer();
    second := new Observer();
    store := new Store(0);
    var a := store.Subscribe(first);
    var b := store.Subscribe(second);
    assert store.subscribers == [a, b];
    assert a.Compare(first) && !b.Compare(first);
    assert [a, b][1..] == [b] && [b][1..] == [];
    assert Without([b], first) == [b];
    assert Without([a, b], first) == [b];
    store.Unsubscribe(first);
    assert store.subscribers == [b];
    store.SetState(1);
    assert Deliveries([b], 1) == Deliveries([], 1) + [Delivery(second as object, 1)];
  }

  /** `AppState`: one counter, mutated by the two example actions. */
  function IncrementCounter(counter: int): int { counter + 1 }
  function DecrementCounter(counter: int): int { counter - 1 }

  /** The example: a store at zero, incremented then decremented, is back at zero. */
  method CounterExample() returns (store: Store<int>)
    ensures store.state == 0 && store.subscribers == [] && store.deliveries == []
  {
    store := new Store(0);
    store.Dispatch(IncrementCounter);
    store.Dispatch(DecrementCounter);
  }
}
