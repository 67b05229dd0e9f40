/** The value types shared by the publisher and its registry
    (src/types/type_aliases.ts, src/types/interfaces.ts). */
module PubSubTypes {
  import opened Subscribers

  /** A published message: the pair `[topic, payload]`. The topic map that
      ties each topic to its payload type is a compile-time device of the
      source; here topics and payloads are type parameters. */
  datatype Message<K, V> = Message(topic: K, payload: V)

  /** An observer of the observable base class that is not a subscriber:
      it has `next` and `error` handlers but no `topics` property. Its
      handlers belong to the base package and are not modelled. */
  class Observer {
    constructor () {}
  }

  /** What the publisher sees of a registered observer. The source tells the
      two kinds apart at run time by asking whether the observer has a
      `topics` property. The tag follows the object's class: a `Subscriber`
      can only be wrapped as `Filtered`, an `Observer` only as `Plain`. */
  datatype Listener<K> =
    | Plain(observer: Observer)             // a bare observer, no topic list
    | Filtered(subscriber: Subscriber<K>)   // a subscriber with its topic list
  {
    /** The object whose `next` is called. */
    function Target(): object
    {
      match this
      case Plain(o) => o
      case Filtered(s) => s
    }
  }

  /** One call `target.next(message)`. */
  datatype Delivery<K, V> = Delivery(target: Listener<K>, message: Message<K, V>)

  /** The number of `next` calls in `log` made on the object `x`. */
  function CallsOn<K, V>(log: seq<Delivery<K, V>>, x: object): nat
  {
    if log == [] then 0
    else (if log[0].target.Target() == x then 1 else 0) + CallsOn(log[1..], x)
  }

  /** The listener a subscriber object can appear under is `Filtered` of that
      very object, so the calls on the object are exactly the deliveries to
      `Filtered(s)`: a subscriber is never reached through the plain branch. */
  lemma {:induction false} CallsOnSubscriber<K, V>(log: seq<Delivery<K, V>>, s: Subscriber<K>)
    ensures CallsOn(log, s) == DeliveriesTo(log, Filtered(s))
  {
    if log != [] {
      CallsOnSubscriber(log[1..], s);
      match log[0].target
      case Plain(o) =>
        assert o as object != s as object;
      case Filtered(s') =>
    }
  }

  /** Likewise, the calls on a plain observer object are the deliveries to
      `Plain(o)`. */
  lemma {:induction false} CallsOnObserver<K, V>(log: seq<Delivery<K, V>>, o: Observer)
    ensures CallsOn(log, o) == DeliveriesTo(log, Plain(o))
  {
    if log != [] {
      CallsOnObserver(log[1..], o);
      match log[0].target
      case Plain(o') =>
      case Filtered(s) =>
        assert s as object != o as object;
    }
  }

  /** The number of `next` calls in `log` made on `l`. */
  function DeliveriesTo<K, V>(log: seq<Delivery<K, V>>, l: Listener<K>): nat
  {
    if log == [] then 0
    else (if log[0].target == l then 1 else 0) + DeliveriesTo(log[1..], l)
  }

  lemma {:induction false} DeliveriesToAppend<K, V>(a: seq<Delivery<K, V>>, b: seq<Delivery<K, V>>, l: Listener<K>)
    ensures DeliveriesTo(a + b, l) == DeliveriesTo(a, l) + DeliveriesTo(b, l)
  {
    if a != [] {
      assert (a + b)[1..] == a[1..] + b;
      DeliveriesToAppend(a[1..], b, l);
    } else {
      assert a + b == b;
    }
  }
}
