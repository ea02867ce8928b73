/**
 * Closures as identities, and the record of their invocations. A registered closure is a
 * `CallbackId`; calling it with a value is a `Call` appended to a ghost log.
 */
module Callbacks {

  type CallbackId = nat

  /** One invocation of the closure stored under `token` (an `ObjectIdentifier`) with `value`. */
  datatype Call<V> = Call(token: object, callback: CallbackId, value: V)

  function Tokens<V>(calls: seq<Call<V>>): set<object>
  {
    set i | 0 <= i < |calls| :: calls[i].token
  }

  ghost predicate DistinctTokens<V>(calls: seq<Call<V>>)
  {
    forall i, j :: 0 <= i < j < |calls| ==> calls[i].token != calls[j].token
  }

  /** `b` is `a` followed by more entries. */
  ghost predicate Extends<T>(a: seq<T>, b: seq<T>)
  {
    |a| <= |b| && b[..|a|] == a
  }

  /**
   * `calls` is one pass of `for callback in subscribers.values { callback(value) }`:
   * each registered closure is called with `value`, under its own key, once.
   */
  ghost predicate IsBroadcast<V>(subscribers: map<object, CallbackId>, value: V, calls: seq<Call<V>>)
  {
    && Tokens(calls) == subscribers.Keys
    && DistinctTokens(calls)
    && forall i :: 0 <= i < |calls| ==>
         calls[i].token in subscribers && calls[i].callback == subscribers[calls[i].token] && calls[i].value == value
  }

  /** The loop over a dictionary's values; the order is the dictionary's, so not fixed. */
  method Broadcast<V>(subscribers: map<object, CallbackId>, value: V) returns (calls: seq<Call<V>>)
    ensures IsBroadcast(subscribers, value, calls)
  {
    calls := [];
    var pending := subscribers.Keys;
    while pending != {}
      invariant pending <= subscribers.Keys
      invariant Tokens(calls) == subscribers.Keys - pending
      invariant DistinctTokens(calls)
      invariant forall i :: 0 <= i < |calls| ==>
        calls[i].token in subscribers && calls[i].callback == subscribers[calls[i].token] && calls[i].value == value
      decreases pending
    {
      var t :| t in pending;
      TokensAppend(calls, Call(t, subscribers[t], value));
      calls := calls + [Call(t, subscribers[t], value)];
      pending := pending - {t};
    }
  }

  lemma TokensAppend<V>(calls: seq<Call<V>>, c: Call<V>)
    ensures Tokens(calls + [c]) == Tokens(calls) + {c.token}
  {
    var ext := calls + [c];
    forall t | t in Tokens(ext) ensures t in Tokens(calls) + {c.token} {
      var i :| 0 <= i < |ext| && ext[i].token == t;
      if i < |calls| { assert calls[i].token == t; }
    }
    forall t | t in Tokens(calls) ensures t in Tokens(ext) {
      var i :| 0 <= i < |calls| && calls[i].token == t;
      assert ext[i].token == t;
    }
    assert ext[|calls|].token == c.token;
  }

  lemma {:induction false} DistinctTokensCount<V>(calls: seq<Call<V>>)
    requires DistinctTokens(calls)
    ensures |Tokens(calls)| == |calls|
  {
    if calls != [] {
      var init := calls[..|calls| - 1];
      assert DistinctTokens(init);
      DistinctTokensCount(init);
      assert calls == init + [calls[|calls| - 1]];
      TokensAppend(init, calls[|calls| - 1]);
      assert calls[|calls| - 1].token !in Tokens(init);
    }
  }

  /**
   * A broadcast calls every registered closure exactly once: there are as many calls as
   * subscribers, and each key has exactly one call, carrying its closure.
   */
  lemma BroadcastCallsEachOnce<V>(subscribers: map<object, CallbackId>, value: V, calls: seq<Call<V>>)
    requires IsBroadcast(subscribers, value, calls)
    ensures |calls| == |subscribers|
    ensures forall t :: t in subscribers ==>
      exists i :: 0 <= i < |calls| && calls[i] == Call(t, subscribers[t], value)
    ensures forall i, j :: 0 <= i < |calls| && 0 <= j < |calls| && calls[i].token == calls[j].token ==> i == j
  {
    DistinctTokensCount(calls);
    assert |subscribers.Keys| == |subscribers|;
    forall t | t in subscribers
      ensures exists i :: 0 <= i < |calls| && calls[i] == Call(t, subscribers[t], value)
    {
      assert t in Tokens(calls);
      var i :| 0 <= i < |calls| && calls[i].token == t;
      assert calls[i] == Call(t, subscribers[t], value);
    }
  }
}
