/** The module's own test scenario (src/module.test.ts), written as a client
    of the publisher: three subscribers to every topic, one to a single
    topic, one plain observer; three messages; then every registration
    disposed and the same three messages again. */
module ModuleTests {
  import opened Subscribers
  import opened PubSubTypes
  import opened Observable
  import opened Publishers

  /** The payloads of the test's topic map, one variant per topic. */
  datatype Payload =
    | Greeting(text: string)                                         // TopicA
    | Reading(value: int)                                            // TopicB
    | Report(facility: string, severity: int, message: string)       // TopicC

  /** The `next` calls each of the five observers receives while the three
      messages are published, once with all of them registered (`first`) and
      once after every registration is disposed (`second`). */
  method ModuleTest() returns (first: seq<nat>, second: seq<nat>)
    ensures first == [3, 3, 3, 1, 3]
    ensures second == [0, 0, 0, 0, 0]
  {
    var publisher := new Publisher<string, Payload>();
    var sub1 := new Subscriber(["TopicA", "TopicB", "TopicC"]);
    var sub2 := new Subscriber(["TopicA", "TopicB", "TopicC"]);
    var sub3 := new Subscriber(["TopicA", "TopicB", "TopicC"]);
    var sub4 := new Subscriber(["TopicA"]);
    var observer := new Observer();
    var listeners := [Filtered(sub1), Filtered(sub2), Filtered(sub3), Filtered(sub4), Plain(observer)];
    var handles := SubscribeAll(publisher, listeners);

    var messageA := Message("TopicA", Greeting("Hello, world!"));
    var messageB := Message("TopicB", Reading(42));
    var messageC := Message("TopicC", Report("syslog", 1, "Hello, world!"));

    first := PublishThree(publisher, messageA, messageB, messageC, listeners);
    FirstTestCounts(sub1, sub2, sub3, sub4, observer, messageA, messageB, messageC);

    DisposeAll(publisher, handles);
    second := PublishThree(publisher, messageA, messageB, messageC, listeners);
  }

  /** Subscribes the five observers in order to a fresh publisher. */
  method SubscribeAll<K(==), V>(publisher: Publisher<K, V>, ls: seq<Listener<K>>) returns (handles: seq<nat>)
    requires publisher.Valid() && publisher.observers == [] && publisher.nextHandle == 0
    requires |ls| == 5
    modifies publisher`observers, publisher`nextHandle
    ensures publisher.Valid()
    ensures handles == [0, 1, 2, 3, 4]
    ensures publisher.observers == [Entry(0, ls[0]), Entry(1, ls[1]), Entry(2, ls[2]), Entry(3, ls[3]), Entry(4, ls[4])]
  {
    var h1 := publisher.Subscribe(ls[0]);
    var h2 := publisher.Subscribe(ls[1]);
    var h3 := publisher.Subscribe(ls[2]);
    var h4 := publisher.Subscribe(ls[3]);
    var h5 := publisher.Subscribe(ls[4]);
    handles := [h1, h2, h3, h4, h5];
  }

  /** Disposes the five registrations, oldest first. */
  method DisposeAll<K(==), V>(publisher: Publisher<K, V>, handles: seq<nat>)
    requires publisher.Valid() && handles == [0, 1, 2, 3, 4]
    requires |publisher.observers| == 5
    requires forall i :: 0 <= i < 5 ==> publisher.observers[i].handle == i
    modifies publisher`observers
    ensures publisher.Valid() && publisher.observers == []
  {
    ghost var registry := publisher.observers;
    DisposeInOrder(registry);
    publisher.Dispose(handles[0]);
    publisher.Dispose(handles[1]);
    publisher.Dispose(handles[2]);
    publisher.Dispose(handles[3]);
    publisher.Dispose(handles[4]);
  }

  /** Disposing handles 0 to 4 in that order empties a registry that holds
      exactly those five handles, oldest first. */
  lemma DisposeInOrder<K>(registry: seq<Entry<K>>)
    requires |registry| == 5
    requires forall i :: 0 <= i < 5 ==> registry[i].handle == i
    ensures Remove(Remove(Remove(Remove(Remove(registry, 0), 1), 2), 3), 4) == []
  {
    DisposeFirst(registry, 0);
    DisposeFirst(registry[1..], 1);
    assert registry[1..][1..] == registry[2..];
    DisposeFirst(registry[2..], 2);
    assert registry[2..][1..] == registry[3..];
    DisposeFirst(registry[3..], 3);
    assert registry[3..][1..] == registry[4..];
    DisposeFirst(registry[4..], 4);
  }

  /** Publishes `a`, `b` and `c` in turn and reports how many `next` calls
      each of `ls` received from them. */
  method PublishThree<K(==), V>(publisher: Publisher<K, V>, a: Message<K, V>, b: Message<K, V>, c: Message<K, V>,
                                ls: seq<Listener<K>>) returns (counts: seq<nat>)
    modifies publisher`delivered
    ensures publisher.observers == old(publisher.observers)
    ensures publisher.delivered ==
            old(publisher.delivered) + Dispatch(publisher.observers, a) + Dispatch(publisher.observers, b) +
            Dispatch(publisher.observers, c)
    ensures counts == Counts(Dispatch(publisher.observers, a) + Dispatch(publisher.observers, b) +
                             Dispatch(publisher.observers, c), ls)
  {
    var mark := |publisher.delivered|;
    publisher.Publish(a);
    publisher.Publish(b);
    publisher.Publish(c);
    var log := publisher.delivered[mark..];
    assert log == Dispatch(publisher.observers, a) + Dispatch(publisher.observers, b) + Dispatch(publisher.observers, c);
    counts := Counts(log, ls);
  }

  /** The number of `next` calls in `log` made on the object behind each of
      `ls`, which is what the test's spies count. */
  function Counts<K, V>(log: seq<Delivery<K, V>>, ls: seq<Listener<K>>): (r: seq<nat>)
    ensures |r| == |ls|
    ensures forall i :: 0 <= i < |ls| ==> r[i] == CallsOn(log, ls[i].Target())
  {
    if ls == [] then [] else [CallsOn(log, ls[0].Target())] + Counts(log, ls[1..])
  }

  /** The counts the first test asserts: with all five observers registered,
      the three messages reach each full subscriber and the plain observer
      three times and the single-topic subscriber once. */
  lemma FirstTestCounts<V>(s1: Subscriber<string>, s2: Subscriber<string>, s3: Subscriber<string>, s4: Subscriber<string>,
                           o: Observer, a: Message<string, V>, b: Message<string, V>, c: Message<string, V>)
    requires s1.topics == s2.topics == s3.topics == ["TopicA", "TopicB", "TopicC"]
    requires s4.topics == ["TopicA"]
    requires s1 != s2 && s1 != s3 && s1 != s4 && s2 != s3 && s2 != s4 && s3 != s4
    requires a.topic == "TopicA" && b.topic == "TopicB" && c.topic == "TopicC"
    ensures
      var ls := [Filtered(s1), Filtered(s2), Filtered(s3), Filtered(s4), Plain(o)];
      var registry := [Entry(0, ls[0]), Entry(1, ls[1]), Entry(2, ls[2]), Entry(3, ls[3]), Entry(4, ls[4])];
      Counts(Dispatch(registry, a) + Dispatch(registry, b) + Dispatch(registry, c), ls) == [3, 3, 3, 1, 3]
  {
    var ls := [Filtered(s1), Filtered(s2), Filtered(s3), Filtered(s4), Plain(o)];
    var registry := [Entry(0, ls[0]), Entry(1, ls[1]), Entry(2, ls[2]), Entry(3, ls[3]), Entry(4, ls[4])];
    forall i | 0 <= i < 5
      ensures Registrations(registry, ls[i]) == 1
    {
      RegisteredOnce(registry, i);
    }
    assert "TopicB" != "TopicA" && "TopicC" != "TopicA" by {
      assert "TopicB"[5] != "TopicA"[5] && "TopicC"[5] != "TopicA"[5];
    }
    var log := Dispatch(registry, a) + Dispatch(registry, b) + Dispatch(registry, c);
    forall i | 0 <= i < 5
      ensures CallsOn(log, ls[i].Target()) == [3, 3, 3, 1, 3][i]
    {
      ThreePublishesCount(registry, a, b, c, ls[i]);
      match ls[i]
      case Plain(o') => CallsOnObserver(log, o');
      case Filtered(s) => CallsOnSubscriber(log, s);
    }
  }

  /** Disposing the handle of the oldest registration, when no other
      registration carries it, drops exactly that registration. */
  lemma DisposeFirst<K>(obs: seq<Entry<K>>, h: nat)
    requires obs != [] && obs[0].handle == h
    requires forall i :: 1 <= i < |obs| ==> obs[i].handle != h
    ensures Remove(obs, h) == obs[1..]
  {
    RemoveAbsent(obs[1..], h);
  }

  /** The `next` calls `l` receives from three publishes in a row. */
  lemma ThreePublishesCount<K, V>(obs: seq<Entry<K>>, a: Message<K, V>, b: Message<K, V>, c: Message<K, V>, l: Listener<K>)
    ensures DeliveriesTo(Dispatch(obs, a) + Dispatch(obs, b) + Dispatch(obs, c), l) ==
            ((if Interested(l, a.topic) then 1 else 0) +
             (if Interested(l, b.topic) then 1 else 0) +
             (if Interested(l, c.topic) then 1 else 0)) * Registrations(obs, l)
  {
    DeliveriesToAppend(Dispatch(obs, a) + Dispatch(obs, b), Dispatch(obs, c), l);
    DeliveriesToAppend(Dispatch(obs, a), Dispatch(obs, b), l);
    DeliveryCount(obs, a, l);
    DeliveryCount(obs, b, l);
    DeliveryCount(obs, c, l);
  }
}
