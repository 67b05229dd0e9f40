/** The registry that the publisher inherits from its observable base class.
    That base class lives in another package and its storage is not part of
    this model; what the publisher relies on is only this: registrations are
    kept in the order they were made, subscribing appends one and hands back
    a disposal handle, and disposing a handle removes its registration. */
module Observable {
  import opened PubSubTypes

  /** One registration: the handle that disposes it and the observer. */
  datatype Entry<K> = Entry(handle: nat, listener: Listener<K>)

  /** Every handle in use lies below `next`, the next handle to issue, so a
      freshly issued handle belongs to no earlier registration. */
  ghost predicate WellFormed<K>(obs: seq<Entry<K>>, next: nat)
  {
    forall i :: 0 <= i < |obs| ==> obs[i].handle < next
  }

  /** The number of registrations of `l`. */
  function Registrations<K>(obs: seq<Entry<K>>, l: Listener<K>): nat
  {
    if obs == [] then 0
    else (if obs[0].listener == l then 1 else 0) + Registrations(obs[1..], l)
  }

  /** The registry after disposing handle `h`: every registration made under
      `h` is gone, every other one is kept. */
  function Remove<K>(obs: seq<Entry<K>>, h: nat): (r: seq<Entry<K>>)
    ensures |r| <= |obs|
    ensures forall e :: e in r ==> e in obs && e.handle != h
    ensures forall e :: e in obs && e.handle != h ==> e in r
  {
    if obs == [] then []
    else (if obs[0].handle == h then [] else [obs[0]]) + Remove(obs[1..], h)
  }

  lemma {:induction false} RegistrationsAppend<K>(a: seq<Entry<K>>, b: seq<Entry<K>>, l: Listener<K>)
    ensures Registrations(a + b, l) == Registrations(a, l) + Registrations(b, l)
  {
    if a == [] {
      assert a + b == b;
    } else {
      assert (a + b)[1..] == a[1..] + b;
      RegistrationsAppend(a[1..], b, l);
    }
  }

  /** Disposal keeps the surviving registrations in their original order. */
  lemma {:induction false} RemoveAppend<K>(a: seq<Entry<K>>, b: seq<Entry<K>>, h: nat)
    ensures Remove(a + b, h) == Remove(a, h) + Remove(b, h)
  {
    if a == [] {
      assert a + b == b;
    } else {
      assert (a + b)[1..] == a[1..] + b;
      RemoveAppend(a[1..], b, h);
    }
  }

  /** Disposing a handle that no registration carries changes nothing. */
  lemma {:induction false} RemoveAbsent<K>(obs: seq<Entry<K>>, h: nat)
    requires forall i :: 0 <= i < |obs| ==> obs[i].handle != h
    ensures Remove(obs, h) == obs
  {
    if obs != [] {
      RemoveAbsent(obs[1..], h);
    }
  }

  /** Disposing twice has the same effect as disposing once. */
  lemma {:induction false} RemoveIdempotent<K>(obs: seq<Entry<K>>, h: nat)
    ensures Remove(Remove(obs, h), h) == Remove(obs, h)
  {
    var r := Remove(obs, h);
    forall i | 0 <= i < |r|
      ensures r[i].handle != h
    {
      assert r[i] in r;
    }
    RemoveAbsent(r, h);
  }

  /** Disposing the handle a subscription just returned undoes it. */
  lemma DisposeUndoesSubscribe<K>(obs: seq<Entry<K>>, h: nat, l: Listener<K>)
    requires forall i :: 0 <= i < |obs| ==> obs[i].handle != h
    ensures Remove(obs + [Entry(h, l)], h) == obs
  {
    RemoveAppend(obs, [Entry(h, l)], h);
    RemoveAbsent(obs, h);
    assert Remove([Entry(h, l)], h) == [];
  }

  /** Once every registration of `l` carried handle `h`, disposing `h` leaves
      `l` with no registration at all. */
  lemma {:induction false} RemoveUnregisters<K>(obs: seq<Entry<K>>, h: nat, l: Listener<K>)
    requires forall i :: 0 <= i < |obs| && obs[i].listener == l ==> obs[i].handle == h
    ensures Registrations(Remove(obs, h), l) == 0
  {
    if obs != [] {
      RemoveUnregisters(obs[1..], h, l);
      var head := if obs[0].handle == h then [] else [obs[0]];
      RegistrationsAppend(head, Remove(obs[1..], h), l);
    }
  }

  /** In a registry whose observers are pairwise distinct, each of them is
      registered exactly once. */
  lemma {:induction false} RegisteredOnce<K>(obs: seq<Entry<K>>, i: nat)
    requires forall j, k :: 0 <= j < k < |obs| ==> obs[j].listener != obs[k].listener
    requires i < |obs|
    ensures Registrations(obs, obs[i].listener) == 1
  {
    if i == 0 {
      NotRegistered(obs[1..], obs[0].listener);
    } else {
      assert obs[0].listener != obs[i].listener;
      RegisteredOnce(obs[1..], i - 1);
    }
  }

  lemma {:induction false} NotRegistered<K>(obs: seq<Entry<K>>, l: Listener<K>)
    requires forall j :: 0 <= j < |obs| ==> obs[j].listener != l
    ensures Registrations(obs, l) == 0
  {
    if obs != [] {
      NotRegistered(obs[1..], l);
    }
  }
}
