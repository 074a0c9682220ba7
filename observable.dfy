/**
 * A value that tells its subscribers when it changes. Callbacks are modelled
 * by what they do to the observable: whether they try to unsubscribe
 * themselves while being called, and whether they ask to stay subscribed.
 * The number of times each subscription's callback has been called is kept
 * alongside, as the callbacks' observable effect.
 */
module Observables {
  datatype Observer = StaySubscribed | CancelSubscription

  datatype Callback = Callback(unsubscribesItself: bool, reply: Observer)

  /** The process-wide counter subscription ids are drawn from. */
  class SubscriptionIds {
    var next: nat

    constructor()
      ensures next == 0
    {
      next := 0;
    }
  }

  function CallCount(calls: map<nat, nat>, id: nat): nat {
    if id in calls then calls[id] else 0
  }

  class Observable<T> {
    var value: T
    var subscriptions: map<nat, Callback>
    var calls: map<nat, nat>

    constructor(value: T)
      ensures this.value == value && subscriptions == map[] && calls == map[]
    {
      this.value := value;
      subscriptions := map[];
      calls := map[];
    }

    /** `Observable::subscribe`: register the callback under the next id of the process. */
    method Subscribe(ids: SubscriptionIds, callback: Callback) returns (id: nat)
      modifies this, ids
      ensures id == old(ids.next) && ids.next == old(ids.next) + 1
      ensures subscriptions == old(subscriptions)[id := callback]
      ensures calls == old(calls) && value == old(value)
    {
      id := ids.next;
      ids.next := ids.next + 1;
      subscriptions := subscriptions[id := callback];
    }

    /** `Observable::unsubscribe`: forget that id; an id this observable never issued changes nothing. */
    method Unsubscribe(id: nat)
      modifies this
      ensures subscriptions == old(subscriptions) - {id}
      ensures id !in old(subscriptions) ==> subscriptions == old(subscriptions)
      ensures calls == old(calls) && value == old(value)
    {
      subscriptions := subscriptions - {id};
    }

    /**
     * `Observable::notify`: every subscription present when the call starts
     * is called exactly once; its entry is taken out for the call (so a
     * callback unsubscribing itself removes nothing) and put back unless the
     * callback answers CancelSubscription.
     */
    method Notify()
      modifies this
      ensures forall id :: id in subscriptions <==> id in old(subscriptions) && old(subscriptions)[id].reply == StaySubscribed
      ensures forall id :: id in subscriptions ==> subscriptions[id] == old(subscriptions)[id]
      ensures forall id :: CallCount(calls, id) == CallCount(old(calls), id) + (if id in old(subscriptions) then 1 else 0)
      ensures value == old(value)
    {
      var before := subscriptions;
      var current := subscriptions;
      var counts: map<nat, nat> := calls;
      var pending := subscriptions.Keys;
      while pending != {}
        invariant pending <= before.Keys
        invariant forall id :: id in current <==> id in pending || (id in before && id !in pending && before[id].reply == StaySubscribed)
        invariant forall id :: id in current ==> current[id] == before[id]
        invariant forall id :: CallCount(counts, id) == CallCount(calls, id) + (if id in before && id !in pending then 1 else 0)
        decreases |pending|
      {
        var id :| id in pending;
        var callback := current[id];
        current := current - {id};
        counts := counts[id := CallCount(counts, id) + 1];
        if callback.unsubscribesItself {
          current := current - {id};
        }
        if callback.reply == StaySubscribed {
          current := current[id := callback];
        }
        pending := pending - {id};
      }
      subscriptions := current;
      calls := counts;
    }

    /** `Observable::mutate`: change the value, then notify once. */
    method Mutate(mutation: T -> T)
      modifies this
      ensures value == mutation(old(value))
      ensures forall id :: id in subscriptions <==> id in old(subscriptions) && old(subscriptions)[id].reply == StaySubscribed
      ensures forall id :: CallCount(calls, id) == CallCount(old(calls), id) + (if id in old(subscriptions) then 1 else 0)
    {
      value := mutation(value);
      Notify();
    }
  }

  // ----- The scenarios of the unit tests -----

  /** Three notifications reach a subscriber that stays subscribed three times. */
  method NotifyThreeTimes() returns (count: nat)
    ensures count == 3
  {
    var ids := new SubscriptionIds();
    var o := new Observable<int>(0);
    var s := o.Subscribe(ids, Callback(false, StaySubscribed));
    o.Notify();
    o.Notify();
    o.Notify();
    count := CallCount(o.calls, s);
  }

  /** After unsubscribing, neither a mutation nor a notification reaches the callback. */
  method NoCallsAfterUnsubscribe() returns (count: nat)
    ensures count == 0
  {
    var ids := new SubscriptionIds();
    var o := new Observable<int>(0);
    var s := o.Subscribe(ids, Callback(false, StaySubscribed));
    o.Unsubscribe(s);
    o.Mutate(_ => 42);
    o.Notify();
    count := CallCount(o.calls, s);
  }

  /** A subscription of another observable cannot unsubscribe anything here. */
  method ForeignUnsubscribeIgnored() returns (count: nat)
    ensures count == 1
  {
    var ids := new SubscriptionIds();
    var o1 := new Observable<int>(0);
    var o2 := new Observable<int>(0);
    var s1 := o1.Subscribe(ids, Callback(false, StaySubscribed));
    var s2 := o2.Subscribe(ids, Callback(false, StaySubscribed));
    o1.Unsubscribe(s2);
    o1.Notify();
    count := CallCount(o1.calls, s1);
  }

  /** A callback that unsubscribes itself while being called stays subscribed. */
  method UnsubscribeWithinCallback() returns (count: nat)
    ensures count == 2
  {
    var ids := new SubscriptionIds();
    var o := new Observable<int>(0);
    var s := o.Subscribe(ids, Callback(true, StaySubscribed));
    o.Notify();
    o.Notify();
    count := CallCount(o.calls, s);
  }

  /** A callback answering CancelSubscription is called once and then no more. */
  method CancelByReturnValue() returns (count: nat)
    ensures count == 1
  {
    var ids := new SubscriptionIds();
    var o := new Observable<int>(0);
    var s := o.Subscribe(ids, Callback(false, CancelSubscription));
    o.Mutate(_ => 42);
    o.Notify();
    count := CallCount(o.calls, s);
  }
}
