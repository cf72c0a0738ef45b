/**
  The reactive store of the theme: a `MangoStore` owns one `ReactiveValue`
  and an append-only, ordered registry of (callback, subscriber) records.
  Setting the value publishes it, which calls every registered callback,
  in registration order, bound to its subscriber.

  Callbacks and subscriber elements are foreign code and are modelled as
  opaque handles. What a callback does when it runs is not modelled; that it
  ran, bound to which receiver and with which argument, is recorded in a
  ghost log of notifications kept by each store.
 */
module Store {
  import opened Wrappers

  /** Opaque handle for a subscriber's callback function. */
  datatype Callback = Callback(id: nat)

  /** Opaque handle for the element (`HTMLElement` or `LitElement`) a callback is bound to. */
  datatype Element = Element(id: nat)

  /** One registration: the callback and the receiver it is called on. */
  datatype Subscriber = Subscriber(callback: Callback, subscriber: Element)

  /** One callback invocation: which callback ran, with which receiver as `this`, on which argument. */
  datatype Notification<T> = Notification(callback: Callback, receiver: Element, value: T)

  /** The invocation `record.callback.call(record.subscriber, v)`. */
  function Invoke<T>(record: Subscriber, v: T): Notification<T>
  {
    Notification(record.callback, record.subscriber, v)
  }

  /**
    The invocations that one publish of `v` performs over the registrations
    `subs`: one per registration, in registration order, each bound to its
    own subscriber and each receiving `v`.
   */
  function FanOut<T>(subs: seq<Subscriber>, v: T): (calls: seq<Notification<T>>)
    ensures |calls| == |subs|
    ensures forall i :: 0 <= i < |subs| ==> calls[i] == Invoke(subs[i], v)
  {
    if subs == [] then [] else [Invoke(subs[0], v)] + FanOut(subs[1..], v)
  }

  /** A registration added last is invoked after all the earlier ones. */
  lemma {:induction false} FanOutAppend<T>(subs: seq<Subscriber>, record: Subscriber, v: T)
    ensures FanOut(subs + [record], v) == FanOut(subs, v) + [Invoke(record, v)]
  {
    var lhs, rhs := FanOut(subs + [record], v), FanOut(subs, v) + [Invoke(record, v)];
    assert |lhs| == |rhs|;
    forall i | 0 <= i < |lhs| ensures lhs[i] == rhs[i] {
      if i < |subs| {
        assert (subs + [record])[i] == subs[i];
      }
    }
  }

  /**
    Exactly-once delivery, with duplicates kept: a publish invokes a given
    (callback, subscriber) pair exactly as many times as that pair was
    registered.
   */
  lemma {:induction false} FanOutCount<T>(subs: seq<Subscriber>, record: Subscriber, v: T)
    ensures multiset(FanOut(subs, v))[Invoke(record, v)] == multiset(subs)[record]
  {
    if subs != [] {
      var first, rest := subs[0], subs[1..];
      FanOutCount(rest, record, v);
      assert subs == [first] + rest;
      assert multiset(subs) == multiset{first} + multiset(rest);
      assert multiset(FanOut(subs, v)) == multiset{Invoke(first, v)} + multiset(FanOut(rest, v));
      assert Invoke(first, v) == Invoke(record, v) <==> first == record;
    }
  }

  /**
    A store: a value it owns and the registry of subscriptions.
    `Notifications` records, in order, every callback invocation the store
    has performed.
   */
  class MangoStore<T> {
    /** The store's value; created with the store and never replaced. */
    var value: ReactiveValue?<T>
    /** The registrations, in registration order; only ever appended to. */
    var subscribers: seq<Subscriber>
    /** Every callback invocation performed by this store's publishes, in order. */
    ghost var Notifications: seq<Notification<T>>

    /** The store owns its value, and the value's back-reference points here. */
    ghost predicate Valid()
      reads this`value, value
    {
      value != null && value.store == this && value.Valid()
    }

    /** A new store holds `init` and has no subscribers. */
    constructor (init: T)
      ensures Valid() && fresh(value)
      ensures value.History == [init] && value.Get() == Some(init)
      ensures subscribers == [] && Notifications == []
    {
      value := null;
      subscribers := [];
      Notifications := [];
      new;
      value := new ReactiveValue(init, this);
    }

    /** Appends one registration at the end; no de-duplication, no handle returned. */
    method Subscribe(callback: Callback, subscriber: Element)
      modifies this`subscribers
      ensures subscribers == old(subscribers) + [Subscriber(callback, subscriber)]
    {
      subscribers := subscribers + [Subscriber(callback, subscriber)];
    }

    /**
      Calls every callback registered at entry, in registration order, bound
      to its subscriber and with `v` as argument. Neither the value nor the
      registry changes.
     */
    method Publish(v: T)
      modifies this`Notifications
      ensures Notifications == old(Notifications) + FanOut(subscribers, v)
    {
      // Like `Array.prototype.forEach`, the range is fixed before the first call.
      var n := |subscribers|;
      var i := 0;
      while i < n
        invariant 0 <= i <= n == |subscribers|
        invariant Notifications == old(Notifications) + FanOut(subscribers[..i], v)
      {
        var record := subscribers[i];
        FanOutAppend(subscribers[..i], record, v);
        assert subscribers[..i + 1] == subscribers[..i] + [record];
        Notifications := Notifications + [Invoke(record, v)];
        i := i + 1;
      }
      assert subscribers[..n] == subscribers;
    }
  }

  /**
    The value slot of a store. `History` is the initial value followed by
    every value set, in order; the slot holds its last element whenever no
    `Set` is running.
   */
  class ReactiveValue<T> {
    /** The slot; `None` (deleted) only transiently inside `Set`. */
    var value: Option<T>
    /** The store this value publishes to. */
    const store: MangoStore<T>
    /** The initial value followed by every value set. */
    ghost var History: seq<T>

    /** The slot holds the last value written, and the store owns this value. */
    ghost predicate Valid()
      reads this, store`value
    {
      |History| > 0 && value == Some(History[|History| - 1]) && store.value == this
    }

    constructor (init: T, store: MangoStore<T>)
      ensures this.store == store && value == Some(init) && History == [init]
    {
      this.store := store;
      value := Some(init);
      History := [init];
    }

    /** Reads the slot without changing anything: the last value written. */
    function Get(): (r: Option<T>)
      reads this
      ensures Valid() ==> r == Some(History[|History| - 1])
    {
      value
    }

    /**
      Clears the slot, stores `v`, publishes `v` through the owning store and
      returns `v`. The store's subscribers each receive `v` exactly once, in
      registration order, before `Set` returns.
     */
    method Set(v: T) returns (r: T)
      requires Valid()
      modifies this, store`Notifications
      ensures Valid() && History == old(History) + [v]
      ensures r == v && Get() == Some(v)
      ensures store.Notifications == old(store.Notifications) + FanOut(store.subscribers, v)
    {
      value := None;
      value := Some(v);
      History := History + [v];
      store.Publish(value.value);
      r := v;
    }
  }

  /**
    Setting one store's value notifies only that store's subscribers: another
    store's registry, log and value are untouched.
   */
  method SetNotifiesOnlyItsStore<T>(a: MangoStore<T>, b: MangoStore<T>, v: T)
    requires a != b && a.Valid() && b.Valid()
    modifies a.value, a`Notifications
    ensures a.Valid() && b.Valid()
    ensures a.Notifications == old(a.Notifications) + FanOut(a.subscribers, v)
    ensures b.Notifications == old(b.Notifications) && b.subscribers == old(b.subscribers)
    ensures b.value.Get() == old(b.value.Get())
  {
    var _ := a.value.Set(v);
  }

  /**
    Two callbacks C1, C2 subscribed with receivers S1, S2 on a store holding
    0; setting 5 calls C1 on S1 and then C2 on S2, both with 5, and the value
    reads 5 afterwards.
   */
  method TwoSubscribersScenario() returns (got: Option<int>, ghost log: seq<Notification<int>>)
    ensures got == Some(5)
    ensures log == [Notification(Callback(1), Element(1), 5), Notification(Callback(2), Element(2), 5)]
  {
    var store := new MangoStore<int>(0);
    store.Subscribe(Callback(1), Element(1));
    store.Subscribe(Callback(2), Element(2));
    var _ := store.value.Set(5);
    got := store.value.Get();
    log := store.Notifications;
  }

  /** With no subscribers, setting a value notifies nobody and the value reads back. */
  method NoSubscribersScenario() returns (got: Option<string>, ghost log: seq<Notification<string>>)
    ensures got == Some("b") && log == []
  {
    var store := new MangoStore<string>("a");
    var _ := store.value.Set("b");
    got := store.value.Get();
    log := store.Notifications;
  }
}
