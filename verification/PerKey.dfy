// State kept separately under each key: every event reads and replaces the
// state of its own key only. The rate limiter and the webhook debounce are both
// of this shape, whatever one step does to the state.
module PerKey {

  datatype Event<K, A> = Event(key: K, arg: A)

  function Entry<K(==), S>(store: map<K, S>, key: K, init: S): S {
    if key in store then store[key] else init
  }

  // The store after the first n events.
  function StoreAfter<K(==), S, A>(log: seq<Event<K, A>>, n: nat, init: S, step: (S, A) -> S): map<K, S>
    requires n <= |log|
  {
    if n == 0 then map[]
    else
      var e, before := log[n - 1], StoreAfter(log, n - 1, init, step);
      before[e.key := step(Entry(before, e.key, init), e.arg)]
  }

  // One key on its own: the state after the first n of its arguments.
  function Fold<S, A>(args: seq<A>, n: nat, init: S, step: (S, A) -> S): S
    requires n <= |args|
  {
    if n == 0 then init else step(Fold(args, n - 1, init, step), args[n - 1])
  }

  // The arguments of one key among the first n events, in order.
  function OfKey<K(==), A>(log: seq<Event<K, A>>, n: nat, key: K): seq<A>
    requires n <= |log|
  {
    if n == 0 then []
    else if log[n - 1].key == key then OfKey(log, n - 1, key) + [log[n - 1].arg]
    else OfKey(log, n - 1, key)
  }

  lemma {:induction false} StorePrefix<K, S, A>(
    a: seq<Event<K, A>>, b: seq<Event<K, A>>, n: nat, init: S, step: (S, A) -> S)
    requires n <= |a| && n <= |b| && forall i :: 0 <= i < n ==> a[i] == b[i]
    ensures StoreAfter(a, n, init, step) == StoreAfter(b, n, init, step)
  {
    if n > 0 {
      StorePrefix(a, b, n - 1, init, step);
    }
  }

  // One event more.
  lemma {:induction false} StoreNext<K, S, A>(log: seq<Event<K, A>>, e: Event<K, A>, init: S, step: (S, A) -> S)
    ensures var before := StoreAfter(log, |log|, init, step);
            StoreAfter(log + [e], |log| + 1, init, step) == before[e.key := step(Entry(before, e.key, init), e.arg)]
  {
    StorePrefix(log + [e], log, |log|, init, step);
  }

  lemma {:induction false} FoldPrefix<S, A>(a: seq<A>, b: seq<A>, n: nat, init: S, step: (S, A) -> S)
    requires n <= |a| && n <= |b| && forall i :: 0 <= i < n ==> a[i] == b[i]
    ensures Fold(a, n, init, step) == Fold(b, n, init, step)
  {
    if n > 0 {
      FoldPrefix(a, b, n - 1, init, step);
    }
  }

  lemma {:induction false} OfKeyPrefix<K, A>(a: seq<Event<K, A>>, b: seq<Event<K, A>>, n: nat, key: K)
    requires n <= |a| && n <= |b| && forall i :: 0 <= i < n ==> a[i] == b[i]
    ensures OfKey(a, n, key) == OfKey(b, n, key)
  {
    if n > 0 {
      OfKeyPrefix(a, b, n - 1, key);
    }
  }

  // Keys do not interfere: under any interleaving, the state of a key is the
  // state of the run that contains only the events of that key.
  lemma {:induction false} KeyProjection<K, S, A>(
    log: seq<Event<K, A>>, n: nat, key: K, init: S, step: (S, A) -> S)
    requires n <= |log|
    ensures var own := OfKey(log, n, key);
            Entry(StoreAfter(log, n, init, step), key, init) == Fold(own, |own|, init, step)
  {
    if n > 0 {
      KeyProjection(log, n - 1, key, init, step);
      if log[n - 1].key == key {
        var own := OfKey(log, n - 1, key);
        FoldPrefix(OfKey(log, n, key), own, |own|, init, step);
      }
    }
  }
}
