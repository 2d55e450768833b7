// app/api/iiko_webhook.py: one debounced sync per (organization, kind).
module IikoWebhook {
  import opened SlidingWindow
  import opened PerKey
  import opened Wrappers
  import Memory = MemoryRateLimiter

  datatype EventType = StoplistUpdated | MenuUpdated | AllUpdated | Unknown
  datatype Kind = Stoplist | Menu

  // rm:iiko_sync:<kind>:<org>
  datatype Key = Key(orgId: int, kind: Kind)

  // One pass through _debounce_check and the enqueue after it. `fault` is an
  // exception from Redis, `enqueued` whether the job queue took the job.
  datatype Check = Check(now: real, ttl: real, fault: bool, enqueued: bool)

  datatype Queued = Queued(orgId: int, kind: Kind, background: bool)

  datatype Visit = Visit(orgId: int, stoplist: Check, menu: Check)

  // SET key 1 EX ttl NX: the key holds until its deadline.
  predicate Holds(deadline: Option<real>, now: real) {
    deadline.Some? && now < deadline.value
  }

  predicate Debounced(deadline: Option<real>, c: Check) {
    !c.fault && Holds(deadline, c.now)
  }

  function Step(deadline: Option<real>, c: Check): Option<real> {
    if c.fault || Holds(deadline, c.now) then deadline else Some(c.now + c.ttl)
  }

  predicate Passed(log: seq<Event<Key, Check>>, n: nat)
    requires n < |log|
  {
    !Debounced(OwnDeadline(log, n, log[n].key), log[n].arg)
  }

  // The deadline of a key, from the checks on that key alone.
  function OwnDeadline(log: seq<Event<Key, Check>>, n: nat, key: Key): Option<real>
    requires n <= |log|
  {
    var own := OfKey(log, n, key);
    Fold(own, |own|, None, Step)
  }

  // What the checks m, ..., n - 1 put on the queue.
  function QueuedBy(log: seq<Event<Key, Check>>, m: nat, n: nat): seq<Queued>
    requires m <= n <= |log|
    decreases n
  {
    if n == m then []
    else
      var e := log[n - 1];
      if Passed(log, n - 1)
      then QueuedBy(log, m, n - 1) + [Queued(e.key.orgId, e.key.kind, !e.arg.enqueued)]
      else QueuedBy(log, m, n - 1)
  }

  // Without a Redis client nothing is debounced.
  function QueuedAlways(events: seq<Event<Key, Check>>): (queued: seq<Queued>)
    ensures |queued| == |events|
  {
    seq(|events|, i requires 0 <= i < |events| =>
      Queued(events[i].key.orgId, events[i].key.kind, !events[i].arg.enqueued))
  }

  predicate WantsStoplist(t: EventType) { t == StoplistUpdated || t == AllUpdated }
  predicate WantsMenu(t: EventType) { t == MenuUpdated || t == AllUpdated }

  function ChecksOf(v: Visit, t: EventType): seq<Event<Key, Check>> {
    (if WantsStoplist(t) then [Event(Key(v.orgId, Stoplist), v.stoplist)] else [])
    + (if WantsMenu(t) then [Event(Key(v.orgId, Menu), v.menu)] else [])
  }

  function Checks(orgs: seq<Visit>, n: nat, t: EventType): seq<Event<Key, Check>>
    requires n <= |orgs|
  {
    if n == 0 then [] else Checks(orgs, n - 1, t) + ChecksOf(orgs[n - 1], t)
  }

  // Which checks an event asks for: the stop list of each organization, its
  // menu, both with the stop list first, or none.
  lemma {:induction false} ChecksAre(orgs: seq<Visit>, n: nat)
    requires n <= |orgs|
    ensures Checks(orgs, n, Unknown) == []
    ensures Checks(orgs, n, StoplistUpdated) == seq(n, i requires 0 <= i < n => StoplistOf(orgs[i]))
    ensures Checks(orgs, n, MenuUpdated) == seq(n, i requires 0 <= i < n => MenuOf(orgs[i]))
    ensures |Checks(orgs, n, AllUpdated)| == 2 * n
    ensures forall i :: 0 <= i < n ==>
              && Checks(orgs, n, AllUpdated)[2 * i] == StoplistOf(orgs[i])
              && Checks(orgs, n, AllUpdated)[2 * i + 1] == MenuOf(orgs[i])
  {
    if n > 0 {
      ChecksAre(orgs, n - 1);
      var v := orgs[n - 1];
      assert ChecksOf(v, Unknown) == [] && ChecksOf(v, AllUpdated) == [StoplistOf(v), MenuOf(v)];
      assert ChecksOf(v, StoplistUpdated) == [StoplistOf(v)] && ChecksOf(v, MenuUpdated) == [MenuOf(v)];
    }
  }

  function StoplistOf(v: Visit): Event<Key, Check> { Event(Key(v.orgId, Stoplist), v.stoplist) }
  function MenuOf(v: Visit): Event<Key, Check> { Event(Key(v.orgId, Menu), v.menu) }

  class Endpoint {
    var deadlines: map<Key, Option<real>>
    ghost var log: seq<Event<Key, Check>>

    ghost predicate Valid() reads this {
      deadlines == StoreAfter(log, |log|, None, Step)
    }

    constructor ()
      ensures Valid() && log == []
    {
      deadlines := map[];
      log := [];
    }

    // True when the sync is already queued; otherwise the key is set.
    method DebounceCheck(key: Key, c: Check) returns (debounced: bool)
      requires Valid()
      modifies this
      ensures Valid() && log == old(log) + [Event(key, c)]
      ensures debounced == !Passed(log, |log| - 1)
    {
      KeyProjection(log, |log|, key, None, Step);
      StoreNext(log, Event(key, c), None, Step);
      log := log + [Event(key, c)];
      OfKeyPrefix(log, old(log), |old(log)|, key);
      var deadline := Entry(deadlines, key, None);
      debounced := Debounced(deadline, c);
      deadlines := deadlines[key := Step(deadline, c)];
    }

    // One organization and kind: the check is skipped when there is no client.
    method VisitOne(key: Key, c: Check, redis: bool) returns (queued: seq<Queued>)
      requires Valid()
      modifies this
      ensures Valid() && Outcome(old(log), log, [Event(key, c)], redis, queued)
    {
      var debounced := false;
      if redis {
        debounced := DebounceCheck(key, c);
        assert QueuedBy(log, |old(log)|, |old(log)|) == [];
      }
      queued := if debounced then [] else [Queued(key.orgId, key.kind, !c.enqueued)];
    }

    // One turn of the loop: the stop list first, then the menu.
    method VisitOrg(v: Visit, t: EventType, redis: bool) returns (queued: seq<Queued>)
      requires Valid()
      modifies this
      ensures Valid() && Outcome(old(log), log, ChecksOf(v, t), redis, queued)
    {
      queued := [];
      ghost var done := [];
      if WantsStoplist(t) {
        queued := VisitOne(Key(v.orgId, Stoplist), v.stoplist, redis);
        done := [Event(Key(v.orgId, Stoplist), v.stoplist)];
      }
      if WantsMenu(t) {
        ghost var before := log;
        var more := VisitOne(Key(v.orgId, Menu), v.menu, redis);
        OutcomeTrans(old(log), before, log, done, [Event(Key(v.orgId, Menu), v.menu)], redis, queued, more);
        queued := queued + more;
      }
    }

    // The loop over the organizations.
    method Handle(orgs: seq<Visit>, t: EventType, redis: bool) returns (queued: seq<Queued>)
      requires Valid()
      modifies this
      ensures Valid() && Outcome(old(log), log, Checks(orgs, |orgs|, t), redis, queued)
    {
      queued := [];
      for i := 0 to |orgs|
        invariant Valid() && Outcome(old(log), log, Checks(orgs, i, t), redis, queued)
      {
        ghost var before := log;
        var more := VisitOrg(orgs[i], t, redis);
        OutcomeTrans(old(log), before, log, Checks(orgs, i, t), ChecksOf(orgs[i], t), redis, queued, more);
        queued := queued + more;
      }
    }
  }

  // With a client the checks are logged, and exactly those that were not
  // debounced are queued; without one every check is queued.
  ghost predicate Outcome(
    before: seq<Event<Key, Check>>, after: seq<Event<Key, Check>>, checks: seq<Event<Key, Check>>, redis: bool,
    queued: seq<Queued>)
  {
    if redis then after == before + checks && queued == QueuedBy(after, |before|, |after|)
    else after == before && queued == QueuedAlways(checks)
  }

  lemma {:induction false} OutcomeTrans(
    a: seq<Event<Key, Check>>, b: seq<Event<Key, Check>>, c: seq<Event<Key, Check>>,
    ab: seq<Event<Key, Check>>, bc: seq<Event<Key, Check>>, redis: bool, first: seq<Queued>, second: seq<Queued>)
    requires Outcome(a, b, ab, redis, first) && Outcome(b, c, bc, redis, second)
    ensures Outcome(a, c, ab + bc, redis, first + second)
  {
    if redis {
      QueuedSplit(c, b, |a|, |c|);
    }
  }

  lemma {:induction false} QueuedPrefix(a: seq<Event<Key, Check>>, b: seq<Event<Key, Check>>, m: nat, n: nat)
    requires m <= n <= |b| <= |a| && forall i :: 0 <= i < n ==> a[i] == b[i]
    ensures QueuedBy(a, m, n) == QueuedBy(b, m, n)
  {
    if m < n {
      QueuedPrefix(a, b, m, n - 1);
      OfKeyPrefix(a, b, n - 1, a[n - 1].key);
    }
  }

  // The queue of a longer log continues the queue of the shorter one.
  lemma {:induction false} QueuedSplit(log: seq<Event<Key, Check>>, before: seq<Event<Key, Check>>, m: nat, n: nat)
    requires m <= |before| <= n <= |log| && forall i :: 0 <= i < |before| ==> log[i] == before[i]
    ensures QueuedBy(log, m, n) == QueuedBy(before, m, |before|) + QueuedBy(log, |before|, n)
    decreases n
  {
    if n == |before| {
      QueuedPrefix(log, before, m, n);
    } else {
      QueuedSplit(log, before, m, n - 1);
    }
  }

  // ---------------------------------------------------------------- one key over a whole run

  function DeadlineAfter(ts: seq<real>, n: nat, ttl: real): Option<real>
    requires n <= |ts|
  {
    if n == 0 then None else Step(DeadlineAfter(ts, n - 1, ttl), Check(ts[n - 1], ttl, false, true))
  }

  predicate Queues(ts: seq<real>, n: nat, ttl: real)
    requires n < |ts|
  {
    !Holds(DeadlineAfter(ts, n, ttl), ts[n])
  }

  ghost predicate AreQueued(ts: seq<real>, queued: seq<bool>, ttl: real) {
    && |queued| == |ts|
    && forall n {:trigger Queues(ts, n, ttl)} :: 0 <= n < |ts| ==> queued[n] == Queues(ts, n, ttl)
  }

  ghost predicate Faultless(cs: seq<Check>, ts: seq<real>, ttl: real) {
    |cs| == |ts| && forall i :: 0 <= i < |cs| ==> !cs[i].fault && cs[i].now == ts[i] && cs[i].ttl == ttl
  }

  // The checks of the endpoint on one key follow this recursion.
  lemma {:induction false} OneKey(cs: seq<Check>, ts: seq<real>, n: nat, ttl: real)
    requires Faultless(cs, ts, ttl) && n <= |cs|
    ensures Fold(cs, n, None, Step) == DeadlineAfter(ts, n, ttl)
  {
    if n > 0 {
      OneKey(cs, ts, n - 1, ttl);
    }
  }

  // An error from Redis is not debounced and leaves the key as it was.
  lemma {:induction false} FaultPasses(log: seq<Event<Key, Check>>, n: nat)
    requires n < |log| && log[n].arg.fault
    ensures Passed(log, n) && OwnDeadline(log, n + 1, log[n].key) == OwnDeadline(log, n, log[n].key)
  {
    var own := OfKey(log, n, log[n].key);
    FoldPrefix(own + [log[n].arg], own, |own|, None, Step);
  }

  // What is queued: one entry for each check that passed, for its organization
  // and kind, in the background exactly when the job queue did not take it.
  lemma {:induction false} QueuedAre(log: seq<Event<Key, Check>>, m: nat, n: nat)
    requires m <= n < |log|
    ensures var e := log[n];
            QueuedBy(log, m, n + 1) == QueuedBy(log, m, n) +
              (if Passed(log, n) then [Queued(e.key.orgId, e.key.kind, e.arg.enqueued == false)] else [])
    ensures QueuedBy(log, m, m) == []
  {
  }

  lemma {:induction false} OneKeyPassed(log: seq<Event<Key, Check>>, n: nat, ts: seq<real>, ttl: real)
    requires n < |log| && ts != [] && Faultless(OfKey(log, n, log[n].key) + [log[n].arg], ts, ttl)
    ensures Passed(log, n) == Queues(ts, |ts| - 1, ttl)
  {
    var own := OfKey(log, n, log[n].key);
    var cs := own + [log[n].arg];
    FoldPrefix(own, cs, |own|, None, Step);
    OneKey(cs, ts, |own|, ttl);
    assert cs[|own|] == log[n].arg;
  }

  // The deadline is ttl after the last queued check.
  lemma {:induction false} DeadlineIsLast(ts: seq<real>, queued: seq<bool>, n: nat, ttl: real)
    requires n <= |ts| && AreQueued(ts, queued, ttl)
    ensures match DeadlineAfter(ts, n, ttl)
            case None => forall i :: 0 <= i < n ==> !queued[i]
            case Some(d) => exists i :: 0 <= i < n && queued[i] && d == ts[i] + ttl
                                     && forall k :: i < k < n ==> !queued[k]
  {
    if n > 0 {
      DeadlineIsLast(ts, queued, n - 1, ttl);
      assert queued[n - 1] == Queues(ts, n - 1, ttl);
    }
  }

  // Debouncing is the sliding window with limit one.
  lemma {:induction false} DebounceIsGreedy(ts: seq<real>, queued: seq<bool>, ttl: real)
    requires Sorted(ts) && AreQueued(ts, queued, ttl)
    ensures Greedy(ts, queued, 1, ttl)
  {
    forall n | 0 <= n < |ts| ensures Obeys(ts, queued, n, 1, ttl) {
      DeadlineIsLast(ts, queued, n, ttl);
      NothingCounted(ts, queued, n, ts[n], ttl);
      assert queued[n] == Queues(ts, n, ttl);
    }
  }

  // So it decides as the in-memory rate limiter does at limit one ...
  lemma {:induction false} DebounceIsMemoryLimiter(ts: seq<real>, queued: seq<bool>, answers: seq<bool>, ttl: real)
    requires Sorted(ts) && AreQueued(ts, queued, ttl) && Memory.AreAnswers(ts, answers, 1, ttl)
    ensures queued == answers
  {
    DebounceIsGreedy(ts, queued, ttl);
    Memory.MemoryIsGreedy(ts, answers, 1, ttl);
    GreedyIsUnique(ts, queued, answers, 1, ttl, |ts|);
  }

  // ... two queued syncs are at least ttl apart, and every dropped event has a
  // queued one of the same key less than ttl before it.
  lemma {:induction false} DebounceSpacing(ts: seq<real>, queued: seq<bool>, ttl: real)
    requires Sorted(ts) && AreQueued(ts, queued, ttl)
    ensures forall i, j :: 0 <= i < j < |ts| && queued[i] && queued[j] ==> ttl <= ts[j] - ts[i]
    ensures forall j :: 0 <= j < |ts| && !queued[j] ==>
              exists i :: 0 <= i < j && queued[i] && ts[j] - ts[i] < ttl
  {
    DebounceIsGreedy(ts, queued, ttl);
    forall j | 0 <= j < |ts|
      ensures queued[j] ==> forall i :: 0 <= i < j && queued[i] ==> ttl <= ts[j] - ts[i]
      ensures !queued[j] ==> exists i :: 0 <= i < j && queued[i] && ts[j] - ts[i] < ttl
    {
      assert Obeys(ts, queued, j, 1, ttl);
      NothingCounted(ts, queued, j, ts[j], ttl);
    }
  }
}
