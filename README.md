# Topic-filtered publish/subscribe, modelled in Dafny

This project models the core of `kz-io/pubsub`, a small in-process
publish/subscribe library written in TypeScript. A **publisher**
(`TBasePublisher`) extends an observable base class from the `@kz/observe`
package. On `publish([topic, payload])` it walks its registered observers in
registration order and calls `next(message)` on each one that is interested:

- An observer **without** a `topics` property (a plain observer) always gets the message.
- An observer **with** a `topics` property gets the message only when the list includes the topic.

A **subscriber** (`TAbstractSubscriber`) is an observer that carries a
`topics` list, set by its constructor in a `readonly` property. The list
defaults to the **empty** list.

## Files

- `subscriber.dfy` — module `Subscribers`. Class `Subscriber<K>` has a `const topics` field and two constructors: one takes a list, one takes no argument.
- `types.dfy` — module `PubSubTypes`. It defines:
  - `Message(topic, payload)`, the `[topic, payload]` pair;
  - class `Observer`, an observer with no `topics` property;
  - `Listener`, the tagged form of the run-time test `'topics' in observer`. It is `Plain(observer)` for an `Observer` or `Filtered(subscriber)` for a `Subscriber`, so the tag follows the object's class;
  - `Delivery(target, message)`, one `next` call;
  - `CallsOn`, a count of the calls made on one object, and `DeliveriesTo`, the same count for one listener.
- `observable.dfy` — module `Observable`. A minimal stand-in for the registry the publisher inherits. It is a sequence of `Entry(handle, listener)` values in registration order. Subscribing appends an entry under a fresh handle, and disposing a handle removes that handle's entries (`Remove`).
- `publisher.dfy` — module `Publishers`. It contains:
  - the interest test `Interested` and one observer's calls `Notify`;
  - `Dispatch`, the specification of one publish: the registry filtered by interest, in order;
  - the lemmas about `Dispatch`;
  - class `Publisher`, whose `Publish` loop is proved to append exactly `Dispatch(observers, m)` to its log of `next` calls.
- `module_test.dfy` — module `ModuleTests`. It replays the repository's own test scenario against the class and proves the call counts that the test asserts.

Topics and payloads are type parameters (`K`, `V`). Topic membership is
exact equality on `K`, as `Array.prototype.includes` is for the string keys
of a topic map. The observers' `next` side effects are recorded in the
publisher's `delivered` log. Each entry of that log is one `next(message)`
call on one observer.

The subscriber's two defaults differ. At the type level, the topic parameter
defaults to every key of the topic map: `K extends keyof T = keyof T`
(src/t_abstract_subscriber.ts:52). At run time, the constructor's argument
defaults to the empty list: `topics: K[] = []` (line 70). The publisher still
takes the filtered branch for such a subscriber, so it receives nothing. This model follows the code: see
`Subscribers.Subscriber.WithoutTopics` and
`Publishers.EmptySubscriberReceivesNothing`.

## Model

| member | source | states |
|---|---|---|
| Subscribers.Subscriber.constructor | src/t_abstract_subscriber.ts:70-74 | the subscriber's `topics` is exactly the list passed in: same order, duplicates kept, no validation; the list is taken as a value (see Left out) |
| Subscribers.Subscriber.WithoutTopics | src/t_abstract_subscriber.ts:70 | constructed without an argument, the subscriber's `topics` is the empty list, not the full topic set |
| Publishers.Interested | src/t_base_publisher.ts:46-52 | an observer without a topic list is always interested; a subscriber is interested exactly when some position of its list holds the topic |
| Publishers.Dispatch | src/t_base_publisher.ts:42-54 | one publish makes no more calls than there are registrations; every call carries the published message unchanged and goes to an observer interested in its topic (the exact count per observer is `DeliveryCount`) |
| Publishers.Publisher.Publish | src/t_base_publisher.ts:42-54 | the loop over the registry appends exactly `Dispatch(observers, m)` to the log of `next` calls and leaves the registry unchanged |
| Publishers.DispatchFollowsRegistryOrder | src/t_base_publisher.ts:45 | deliveries follow registry order: publishing to the registry `a + b` makes the calls for `a` first, then the calls for `b` |
| Publishers.DeliveryCount | src/t_base_publisher.ts:45-53 | an observer receives exactly one call per registration when it is interested in the topic, and none otherwise; duplicate topics in its list do not double the delivery |
| PubSubTypes.CallsOnSubscriber | src/t_abstract_subscriber.ts:58 | a subscriber object is only ever reached as `Filtered`: the calls on the object are exactly the deliveries through the filtered branch |
| PubSubTypes.CallsOnObserver | src/t_base_publisher.ts:46 | an observer without a topic list is only ever reached as `Plain`: the calls on the object are exactly the deliveries through the plain branch |
| Publishers.PlainReceivesEveryMessage | src/t_base_publisher.ts:46 | the `next` of an observer without a topic list is called for every message, whatever its topic, once per registration |
| Publishers.FilteredReceivesIffListed | src/t_base_publisher.ts:48-52 | the `next` of a registered subscriber object is called for a message if and only if the topic is in its list; registered once, it is called exactly once |
| Publishers.EmptySubscriberReceivesNothing | src/t_base_publisher.ts:50 | a subscriber object with the default empty list is still topic-filtered, never treated as plain, so no publish calls its `next` |
| Publishers.FullSubscriberReceivesEveryMessage | src/module.test.ts:64-66 | the `next` of a subscriber whose list names every topic of the map is called for every message on those topics, once per registration |
| Publishers.UninterestingTopicNotifiesNoOne | src/t_base_publisher.ts:42-54 | publishing a topic that no registered observer is interested in makes no call at all |
| Publishers.DisposedNeverNotified | src/module.test.ts:125-139 | once the only handle under which an observer was registered is disposed, no later publish, on any topic, calls it |
| Publishers.Publisher.constructor | src/t_base_publisher.ts:34-35 | a new publisher starts with an empty registry and no calls made |
| Publishers.Publisher.Subscribe | src/module.test.ts:70-74 | subscribing appends one registration at the end of the registry, under a handle no earlier registration carries |
| Publishers.Publisher.Dispose | src/module.test.ts:125-129 | disposing a handle removes its registration and keeps the others in order |
| Observable.Remove | src/module.test.ts:125-129 | after disposal, no registration carries the disposed handle and every other registration is still there |
| Observable.RemoveIdempotent | src/module.test.ts:125-129 | disposing the same handle twice has the same effect as disposing it once |
| Observable.RemoveAppend | src/module.test.ts:125-129 | disposal keeps the surviving registrations in their original order |
| Observable.DisposeUndoesSubscribe | src/module.test.ts:70-74 | disposing the handle that a subscription just returned gives back the registry as it was before |
| Observable.RemoveUnregisters | src/module.test.ts:125-129 | if every registration of an observer carried the disposed handle, the observer is left with no registration |
| Observable.RegisteredOnce | src/module.test.ts:70-74 | in a registry of pairwise distinct observers, each observer is registered exactly once |
| ModuleTests.ModuleTest | src/module.test.ts:61-146 | with three full subscribers, one `TopicA` subscriber and one plain observer registered, publishing A, B and C calls them 3, 3, 3, 1 and 3 times; after every handle is disposed, the same publishes call none of them |
| ModuleTests.FirstTestCounts | src/module.test.ts:94-116 | the calls on the five objects, 3, 3, 3, 1 and 3, follow from the dispatch rule alone, for any payloads |

## Left out

- Subscribers.Subscriber.constructor: the topic list is taken as an immutable value. The source stores the caller's array by reference, and `readonly` only stops the property from being reassigned. So a `push` on that array, by the caller or through `topics`, would change what later publishes deliver. This aliasing and in-place mutation is not modelled.

- The internals of `@kz/observe` are not part of this model. That covers the observable base's storage, how disposal tokens work, and the observer base class. The registry stands in for them: a sequence with append-on-subscribe, a fresh numeric handle per subscription, and remove-by-handle on dispose.
- A handler that disposes a registration while a publish is running is not modelled. Whether that observer is then skipped depends on how the base class iterates, and that code is not visible. `Publish` reads a registry that does not change during the loop.
- Exceptions thrown by a `next` handler are not modelled. Handlers are not modelled at all; each call is recorded in the `delivered` log.
- The `error` path is left out. The publisher never calls it, and it is not topic-filtered.
- The compile-time topic map (`PubSubTopics`, `PubSubTopicMessage`, `Pick<T, K>`) is not modelled. The model does not check that a topic is a key of the map or that a payload has that topic's shape. Topics and payloads are type parameters.
- `src/mod.ts` and `src/types/mod.ts` only re-export names and have no counterpart here.
- The test's logging handlers and spy harness are replaced by the `delivered` log and the `DeliveriesTo` count.
