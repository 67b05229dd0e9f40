/** The topic-filtered publisher (src/t_base_publisher.ts): on each publish
    it walks its registry in order and calls `next` on every observer that
    is interested in the message's topic. */
module Publishers {
  import opened Subscribers
  import opened PubSubTypes
  import opened Observable

  /** The per-observer interest test of `publish`: an observer without a
      topic list takes every message; a subscriber takes a message exactly
      when its topic occurs in the subscriber's list. */
  function Interested<K(==)>(l: Listener<K>, topic: K): (r: bool)
    ensures l.Plain? ==> r
    ensures l.Filtered? ==>
              (r <==> exists i :: 0 <= i < |l.subscriber.topics| && l.subscriber.topics[i] == topic)
  {
    match l
    case Plain(_) => true
    case Filtered(s) => topic in s.topics
  }

  /** The `next` calls one observer receives from one publish. */
  function Notify<K(==), V>(l: Listener<K>, m: Message<K, V>): seq<Delivery<K, V>>
  {
    if Interested(l, m.topic) then [Delivery(l, m)] else []
  }

  /** The `next` calls one publish of `m` makes, in the order it makes them:
      the registry filtered by interest in `m.topic`. */
  function Dispatch<K(==), V>(obs: seq<Entry<K>>, m: Message<K, V>): (d: seq<Delivery<K, V>>)
    ensures |d| <= |obs|
    ensures forall k :: 0 <= k < |d| ==> d[k].message == m && Interested(d[k].target, m.topic)
  {
    if obs == [] then []
    else Notify(obs[0].listener, m) + Dispatch(obs[1..], m)
  }

  /** Registry order is delivery order: everything delivered to the earlier
      part of the registry comes before everything delivered to the later. */
  lemma {:induction false} DispatchFollowsRegistryOrder<K, V>(a: seq<Entry<K>>, b: seq<Entry<K>>, m: Message<K, V>)
    ensures Dispatch(a + b, m) == Dispatch(a, m) + Dispatch(b, m)
  {
    if a == [] {
      assert a + b == b;
    } else {
      assert (a + b)[1..] == a[1..] + b;
      DispatchFollowsRegistryOrder(a[1..], b, m);
    }
  }

  /** Each registration of an interested observer yields exactly one `next`
      call, however often the topic occurs in its list; an uninterested or
      unregistered observer gets none. */
  lemma {:induction false} DeliveryCount<K, V>(obs: seq<Entry<K>>, m: Message<K, V>, l: Listener<K>)
    ensures DeliveriesTo(Dispatch(obs, m), l) ==
            if Interested(l, m.topic) then Registrations(obs, l) else 0
  {
    if obs != [] {
      DeliveryCount(obs[1..], m, l);
      DeliveriesToAppend(Notify(obs[0].listener, m), Dispatch(obs[1..], m), l);
      assert DeliveriesTo(Notify(obs[0].listener, m), l) ==
             if obs[0].listener == l && Interested(l, m.topic) then 1 else 0;
    }
  }

  /** A plain observer receives every message, whatever its topic, once per
      registration. */
  lemma PlainReceivesEveryMessage<K, V>(obs: seq<Entry<K>>, m: Message<K, V>, o: Observer)
    ensures CallsOn(Dispatch(obs, m), o) == Registrations(obs, Plain(o))
  {
    DeliveryCount(obs, m, Plain(o));
    CallsOnObserver(Dispatch(obs, m), o);
  }

  /** A registered subscriber receives a message if and only if the message's
      topic is in its list; when it is registered once, it receives exactly
      one copy, even if the topic is listed several times. */
  lemma FilteredReceivesIffListed<K, V>(obs: seq<Entry<K>>, m: Message<K, V>, s: Subscriber<K>)
    requires Registrations(obs, Filtered(s)) > 0
    ensures CallsOn(Dispatch(obs, m), s) > 0 <==> m.topic in s.topics
    ensures Registrations(obs, Filtered(s)) == 1 && m.topic in s.topics ==>
              CallsOn(Dispatch(obs, m), s) == 1
  {
    DeliveryCount(obs, m, Filtered(s));
    CallsOnSubscriber(Dispatch(obs, m), s);
  }

  /** A subscriber with an empty topic list (the default) is still treated as
      topic-filtered, since a subscriber object can only be registered as
      `Filtered`, so no publish calls it. */
  lemma EmptySubscriberReceivesNothing<K, V>(obs: seq<Entry<K>>, m: Message<K, V>, s: Subscriber<K>)
    requires s.topics == []
    ensures CallsOn(Dispatch(obs, m), s) == 0
  {
    DeliveryCount(obs, m, Filtered(s));
    CallsOnSubscriber(Dispatch(obs, m), s);
  }

  /** A subscriber whose list names every topic of the map receives every
      message published on one of those topics. */
  lemma FullSubscriberReceivesEveryMessage<K, V>(obs: seq<Entry<K>>, m: Message<K, V>, s: Subscriber<K>, allTopics: set<K>)
    requires forall t :: t in allTopics ==> t in s.topics
    requires m.topic in allTopics
    ensures CallsOn(Dispatch(obs, m), s) == Registrations(obs, Filtered(s))
  {
    DeliveryCount(obs, m, Filtered(s));
    CallsOnSubscriber(Dispatch(obs, m), s);
  }

  /** Publishing a topic that no registered observer is interested in makes
      no `next` call at all. */
  lemma {:induction false} UninterestingTopicNotifiesNoOne<K, V>(obs: seq<Entry<K>>, m: Message<K, V>)
    requires forall i :: 0 <= i < |obs| ==> !Interested(obs[i].listener, m.topic)
    ensures Dispatch(obs, m) == []
  {
    if obs != [] {
      assert !Interested(obs[0].listener, m.topic);
      UninterestingTopicNotifiesNoOne(obs[1..], m);
    }
  }

  /** After the only handle under which `l` was registered is disposed, no
      later publish, on any topic, calls `l`. */
  lemma DisposedNeverNotified<K, V>(obs: seq<Entry<K>>, h: nat, l: Listener<K>, m: Message<K, V>)
    requires forall i :: 0 <= i < |obs| && obs[i].listener == l ==> obs[i].handle == h
    ensures DeliveriesTo(Dispatch(Remove(obs, h), m), l) == 0
  {
    RemoveUnregisters(obs, h, l);
    DeliveryCount(Remove(obs, h), m, l);
  }

  /** The publisher: its registry (inherited from the observable base), the
      next disposal handle to issue, and the log of `next` calls made so far,
      which stands for the observers' side effects. */
  class Publisher<K(==), V> {
    var observers: seq<Entry<K>>
    var nextHandle: nat
    var delivered: seq<Delivery<K, V>>

    ghost predicate Valid()
      reads this
    {
      WellFormed(observers, nextHandle)
    }

    constructor ()
      ensures Valid()
      ensures observers == [] && nextHandle == 0 && delivered == []
    {
      observers := [];
      nextHandle := 0;
      delivered := [];
    }

    /** Registers `l` at the end of the registry and returns its handle. */
    method Subscribe(l: Listener<K>) returns (h: nat)
      requires Valid()
      modifies this`observers, this`nextHandle
      ensures Valid()
      ensures h == old(nextHandle) && nextHandle == h + 1
      ensures forall i :: 0 <= i < |old(observers)| ==> old(observers)[i].handle != h
      ensures observers == old(observers) + [Entry(h, l)]
    {
      h := nextHandle;
      observers := observers + [Entry(h, l)];
      nextHandle := nextHandle + 1;
    }

    /** Disposes handle `h`: its registration leaves the registry. */
    method Dispose(h: nat)
      requires Valid()
      modifies this`observers
      ensures Valid()
      ensures observers == Remove(old(observers), h)
    {
      observers := Remove(observers, h);
    }

    /** Publishes `m`: visits the registry in order and calls `next(m)` on
        each observer interested in `m.topic`. The registry is left as it
        was. */
    method Publish(m: Message<K, V>)
      modifies this`delivered
      ensures observers == old(observers)
      ensures delivered == old(delivered) + Dispatch(observers, m)
    {
      var topic := m.topic;
      var i := 0;
      while i < |observers|
        invariant 0 <= i <= |observers|
        invariant delivered == old(delivered) + Dispatch(observers[..i], m)
      {
        var observer := observers[i].listener;
        match observer {
          case Plain(_) =>
            delivered := delivered + [Delivery(observer, m)];
          case Filtered(s) =>
            if topic in s.topics {
              delivered := delivered + [Delivery(observer, m)];
            }
        }
        DispatchFollowsRegistryOrder(observers[..i], [observers[i]], m);
        assert observers[..i + 1] == observers[..i] + [observers[i]];
        i := i + 1;
      }
      assert observers[..i] == observers;
    }
  }
}
