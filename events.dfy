/** The in-process event bus: a map from topic to the set of subscribed
    callbacks. A JavaScript `Set` iterates in insertion order and ignores a
    second `add` of the same member, so each topic's set is a sequence
    without duplicates. Callbacks are identified by a number; which of them
    throw when invoked is a parameter of `Emit`. */
module Events {
  import opened Base

  type Callback = nat

  // The purchase-order topics.
  const PoCreated := "po:created"
  const PoUpdated := "po:updated"
  const PoStatusChanged := "po:status_changed"

  /** One invocation made by `Emit`: which callback, with what data, and
      whether the callback threw (the exception is caught and logged). */
  datatype Delivery<D> = Delivery(callback: Callback, data: D, threw: bool)

  /** The unsubscribe function `subscribe` returns, as the pair it closes over. */
  datatype Subscription = Subscription(event: string, callback: Callback)

  /** `set.add(cb)`. */
  function Add(s: seq<Callback>, cb: Callback): (r: seq<Callback>)
    ensures forall x :: x in r <==> x in s || x == cb
    ensures cb in s ==> r == s
    ensures cb !in s ==> r == s + [cb]
    ensures NoDuplicates(s) ==> NoDuplicates(r)
  {
    if cb in s then s else s + [cb]
  }

  /** `set.delete(cb)`: the other members keep their order. */
  function Delete(s: seq<Callback>, cb: Callback): (r: seq<Callback>)
    ensures forall x :: x in r <==> x in s && x != cb
    ensures |r| <= |s|
    ensures NoDuplicates(s) ==> NoDuplicates(r)
  {
    if s == [] then []
    else if s[0] == cb then Delete(s[1..], cb)
    else
      var rest := Delete(s[1..], cb);
      assert NoDuplicates(s) ==> s[0] !in s[1..];
      [s[0]] + rest
  }

  /** Deleting a member that is not there changes nothing. */
  lemma {:induction false} DeleteAbsent(s: seq<Callback>, cb: Callback)
    requires cb !in s
    ensures Delete(s, cb) == s
  {
    if s != [] {
      DeleteAbsent(s[1..], cb);
      assert [s[0]] + s[1..] == s;
    }
  }

  /** Unsubscribing twice is the same as unsubscribing once. */
  lemma DeleteIdempotent(s: seq<Callback>, cb: Callback)
    ensures Delete(Delete(s, cb), cb) == Delete(s, cb)
  {
    DeleteAbsent(Delete(s, cb), cb);
  }

  /** Subscribing twice is the same as subscribing once. */
  lemma AddIdempotent(s: seq<Callback>, cb: Callback)
    ensures Add(Add(s, cb), cb) == Add(s, cb)
  {
  }

  /** Deleting removes the one occurrence a duplicate-free set holds. */
  lemma {:induction false} DeleteAdd(s: seq<Callback>, cb: Callback)
    requires cb !in s
    ensures Delete(Add(s, cb), cb) == s
  {
    if s == [] {
    } else {
      assert Add(s, cb)[1..] == Add(s[1..], cb);
      DeleteAdd(s[1..], cb);
      assert [s[0]] + s[1..] == s;
    }
  }

  class EventBus<D> {
    var listeners: map<string, seq<Callback>>

    ghost predicate Valid()
      reads this
    {
      forall e :: e in listeners ==> NoDuplicates(listeners[e])
    }

    /** The callbacks registered under `event`, in the order they run. */
    function Listeners(event: string): seq<Callback>
      reads this
    {
      if event in listeners then listeners[event] else []
    }

    constructor ()
      ensures Valid() && listeners == map[]
    {
      listeners := map[];
    }

    /** `subscribe(event, callback)`: creates the topic's set when it is
        missing, adds the callback, and returns the matching unsubscribe. */
    method Subscribe(event: string, callback: Callback) returns (unsubscribe: Subscription)
      requires Valid()
      modifies this
      ensures Valid()
      ensures listeners == old(listeners)[event := Add(old(Listeners(event)), callback)]
      ensures unsubscribe == Subscription(event, callback)
    {
      if event !in listeners {
        listeners := listeners[event := []];
      }
      listeners := listeners[event := Add(listeners[event], callback)];
      unsubscribe := Subscription(event, callback);
    }

    /** Calling the function `subscribe` returned:
        `listeners.get(event)?.delete(callback)`. */
    method Unsubscribe(s: Subscription)
      requires Valid()
      modifies this
      ensures Valid()
      ensures s.event in old(listeners) ==>
                listeners == old(listeners)[s.event := Delete(old(listeners)[s.event], s.callback)]
      ensures s.event !in old(listeners) ==> listeners == old(listeners)
    {
      if s.event in listeners {
        listeners := listeners[s.event := Delete(listeners[s.event], s.callback)];
      }
    }

    /** `emit(event, data)`: runs every callback of the topic once, in
        order, with `data`; a callback that throws is caught and the loop
        goes on. A topic with no set runs nothing. */
    method Emit(event: string, data: D, failing: set<Callback>) returns (deliveries: seq<Delivery<D>>)
      ensures |deliveries| == |Listeners(event)|
      ensures forall i :: 0 <= i < |deliveries| ==>
                deliveries[i] == Delivery(Listeners(event)[i], data, Listeners(event)[i] in failing)
      ensures event !in listeners ==> deliveries == []
    {
      deliveries := [];
      if event in listeners {
        var callbacks := listeners[event];
        for i := 0 to |callbacks|
          invariant |deliveries| == i
          invariant forall k :: 0 <= k < i ==>
                      deliveries[k] == Delivery(callbacks[k], data, callbacks[k] in failing)
        {
          var threw := callbacks[i] in failing;
          deliveries := deliveries + [Delivery(callbacks[i], data, threw)];
        }
      }
    }
  }

  /** Under a valid bus every callback of the topic is invoked exactly once. */
  lemma EmitOnce<D>(callbacks: seq<Callback>, deliveries: seq<Delivery<D>>, cb: Callback)
    requires NoDuplicates(callbacks) && |deliveries| == |callbacks|
    requires forall i :: 0 <= i < |deliveries| ==> deliveries[i].callback == callbacks[i]
    requires cb in callbacks
    ensures exists i :: 0 <= i < |deliveries| && deliveries[i].callback == cb
    ensures forall i, j :: 0 <= i < j < |deliveries| ==> deliveries[i].callback != deliveries[j].callback
  {
    var i :| 0 <= i < |callbacks| && callbacks[i] == cb;
    assert deliveries[i].callback == cb;
  }
}
