/** A subscriber: an observer that carries a fixed list of topics it wants
    to receive (src/t_abstract_subscriber.ts). The concrete `next` and
    `error` handlers are left to subclasses in the source; here the
    subscriber is only its identity (the object) and its topic list. */
module Subscribers {

  class Subscriber<K> {
    /** The topics this subscriber is subscribed to. A `const` field: it is
        written once by a constructor and can never change afterwards. */
    const topics: seq<K>

    /** Construction with an explicit list: kept exactly as given, in the
        same order, duplicates included, without any validation. */
    constructor (topics: seq<K>)
      ensures this.topics == topics
    {
      this.topics := topics;
    }

    /** Construction without an argument: the default is the EMPTY list,
        not the full set of topics. */
    constructor WithoutTopics()
      ensures topics == []
    {
      topics := [];
    }
  }
}
