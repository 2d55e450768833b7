// app/core/rate_limiter.py: the in-memory pruned list.
module MemoryRateLimiter {
  import opened SlidingWindow
  import opened PerKey

  datatype Args = Args(now: real, limit: int, window: real)

  // The times later than the cutoff, in order: the list comprehension.
  function Prune(times: seq<real>, cutoff: real): seq<real> {
    PruneFirst(times, |times|, cutoff)
  }

  function PruneFirst(times: seq<real>, n: nat, cutoff: real): seq<real>
    requires n <= |times|
  {
    if n == 0 then [] else Keep(PruneFirst(times, n - 1, cutoff), times[n - 1], cutoff)
  }

  function Keep(kept: seq<real>, t: real, cutoff: real): seq<real> {
    if t > cutoff then kept + [t] else kept
  }

  predicate Admits(list: seq<real>, cutoff: real, limit: int) {
    |Prune(list, cutoff)| < limit
  }

  // What one call does to the list stored under its key.
  function StepList(list: seq<real>, now: real, cutoff: real, limit: int): seq<real> {
    if Admits(list, cutoff, limit) then Prune(list, cutoff) + [now] else Prune(list, cutoff)
  }

  function Step(list: seq<real>, a: Args): seq<real> {
    StepList(list, a.now, a.now - a.window, a.limit)
  }

  // The list a run leaves under one key, from the calls on that key alone.
  function OwnList(log: seq<Event<string, Args>>, key: string): seq<real> {
    var own := OfKey(log, |log|, key);
    Fold(own, |own|, [], Step)
  }

  // The store a log of calls leaves, and what one call more does to it.
  function StoreOf(log: seq<Event<string, Args>>): map<string, seq<real>> {
    StoreAfter(log, |log|, [], Step)
  }

  lemma {:induction false} OneCallMore(log: seq<Event<string, Args>>, key: string, a: Args)
    ensures Entry(StoreOf(log), key, []) == OwnList(log, key)
    ensures StoreOf(log + [Event(key, a)])
         == StoreOf(log)[key := StepList(OwnList(log, key), a.now, a.now - a.window, a.limit)]
  {
    KeyProjection(log, |log|, key, [], Step);
    StoreNext(log, Event(key, a), [], Step);
  }

  class Limiter {
    var memoryStore: map<string, seq<real>>  // a defaultdict(list)
    ghost var log: seq<Event<string, Args>>

    ghost predicate Valid() reads this {
      memoryStore == StoreOf(log)
    }

    constructor ()
      ensures Valid() && log == []
    {
      memoryStore := map[];
      log := [];
    }

    // The body runs under the lock without awaiting, so calls are atomic. The
    // answer depends on the earlier calls of the same key and on no others.
    method CheckWindow(key: string, now: real, limit: int, window: real) returns (allowed: bool)
      requires Valid()
      modifies this
      ensures Valid()
      ensures log == old(log) + [Event(key, Args(now, limit, window))]
      ensures allowed == Admits(OwnList(old(log), key), now - window, limit)
    {
      OneCallMore(log, key, Args(now, limit, window));
      log := log + [Event(key, Args(now, limit, window))];
      var timestamps := Entry(memoryStore, key, []);
      var cutoff := now - window;
      memoryStore := memoryStore[key := Prune(timestamps, cutoff)];
      if |memoryStore[key]| >= limit {
        return false;
      }
      memoryStore := memoryStore[key := memoryStore[key] + [now]];
      return true;
    }
  }

  // ---------------------------------------------------------------- pruning

  lemma {:induction false} PrunePrefix(a: seq<real>, b: seq<real>, n: nat, cutoff: real)
    requires n <= |a| && n <= |b| && forall i :: 0 <= i < n ==> a[i] == b[i]
    ensures PruneFirst(a, n, cutoff) == PruneFirst(b, n, cutoff)
  {
    if n > 0 {
      PrunePrefix(a, b, n - 1, cutoff);
    }
  }

  lemma {:induction false} PruneAppend(times: seq<real>, t: real, cutoff: real)
    ensures Prune(times + [t], cutoff) == Keep(Prune(times, cutoff), t, cutoff)
  {
    PrunePrefix(times + [t], times, |times|, cutoff);
  }

  lemma {:induction false} PruneTwice(times: seq<real>, n: nat, early: real, late: real)
    requires early <= late && n <= |times|
    ensures Prune(PruneFirst(times, n, early), late) == PruneFirst(times, n, late)
  {
    if n > 0 {
      PruneTwice(times, n - 1, early, late);
      if times[n - 1] > early {
        PruneAppend(PruneFirst(times, n - 1, early), times[n - 1], late);
      }
    }
  }

  lemma {:induction false} PruneBounds(times: seq<real>, n: nat, cutoff: real, bound: real)
    requires n <= |times| && Sorted(times) && forall i :: 0 <= i < n ==> times[i] <= bound
    ensures var kept := PruneFirst(times, n, cutoff);
            Sorted(kept) && forall i :: 0 <= i < |kept| ==> cutoff < kept[i] <= bound
  {
    if n > 0 {
      PruneBounds(times, n - 1, cutoff, times[n - 1]);
    }
  }

  // ---------------------------------------------------------------- one key, one limit

  // The list of one key under a fixed limit and window, after n calls.
  function ListAfter(ts: seq<real>, n: nat, limit: int, w: real): seq<real>
    requires n <= |ts|
  {
    if n == 0 then []
    else StepList(ListAfter(ts, n - 1, limit, w), ts[n - 1], ts[n - 1] - w, limit)
  }

  // The complete history of admitted times, never pruned: it adds the n-th
  // call when filtering the whole of it finds room.
  function History(ts: seq<real>, n: nat, limit: int, w: real): seq<real>
    requires n <= |ts|
  {
    if n == 0 then []
    else StepHistory(History(ts, n - 1, limit, w), ts[n - 1], ts[n - 1] - w, limit)
  }

  function StepHistory(history: seq<real>, now: real, cutoff: real, limit: int): seq<real> {
    if Admits(history, cutoff, limit) then history + [now] else history
  }

  // One call takes a list and a history that agree in its window to a list and
  // a history that agree in every later one.
  lemma {:induction false} StepAgrees(
    list: seq<real>, history: seq<real>, now: real, cutoff: real, limit: int, later: real)
    requires Prune(list, cutoff) == Prune(history, cutoff) && cutoff <= later
    ensures Prune(StepList(list, now, cutoff, limit), later)
         == Prune(StepHistory(history, now, cutoff, limit), later)
  {
    PruneTwice(list, |list|, cutoff, later);
    PruneTwice(history, |history|, cutoff, later);
    if Admits(history, cutoff, limit) {
      PruneAppend(history, now, later);
      PruneAppend(Prune(list, cutoff), now, later);
    }
  }

  // At every call the pruned list filters to the same times as the complete
  // history: what earlier prunings dropped can never matter again.
  lemma {:induction false} PruningLosesNothing(ts: seq<real>, n: nat, limit: int, w: real, cutoff: real)
    requires Sorted(ts) && n <= |ts| && (n > 0 ==> ts[n - 1] - w <= cutoff)
    ensures Prune(ListAfter(ts, n, limit, w), cutoff) == Prune(History(ts, n, limit, w), cutoff)
  {
    if n > 0 {
      var now := ts[n - 1];
      PruningLosesNothing(ts, n - 1, limit, w, now - w);
      StepAgrees(ListAfter(ts, n - 1, limit, w), History(ts, n - 1, limit, w), now, now - w, limit, cutoff);
    }
  }

  lemma {:induction false} StepListIsRecent(list: seq<real>, now: real, cutoff: real, limit: int)
    requires cutoff < now
    ensures Prune(StepList(list, now, cutoff, limit), cutoff) == StepList(list, now, cutoff, limit)
  {
    PruneTwice(list, |list|, cutoff, cutoff);
    if Admits(list, cutoff, limit) {
      PruneAppend(Prune(list, cutoff), now, cutoff);
    }
  }

  // The stored list is exactly the history filtered at the last call.
  lemma {:induction false} PruningRefinesHistory(ts: seq<real>, n: nat, limit: int, w: real)
    requires Sorted(ts) && w > 0.0 && 0 < n <= |ts|
    ensures ListAfter(ts, n, limit, w) == Prune(History(ts, n, limit, w), ts[n - 1] - w)
  {
    PruningLosesNothing(ts, n, limit, w, ts[n - 1] - w);
    StepListIsRecent(ListAfter(ts, n - 1, limit, w), ts[n - 1], ts[n - 1] - w, limit);
  }

  // ---------------------------------------------------------------- the answers of a run

  function Uniform(ts: seq<real>, limit: int, w: real): (args: seq<Args>)
    ensures |args| == |ts| && forall i :: 0 <= i < |ts| ==> args[i] == Args(ts[i], limit, w)
  {
    seq(|ts|, i requires 0 <= i < |ts| => Args(ts[i], limit, w))
  }

  lemma {:induction false} UniformFold(ts: seq<real>, n: nat, limit: int, w: real)
    requires n <= |ts|
    ensures Fold(Uniform(ts, limit, w), n, [], Step) == ListAfter(ts, n, limit, w)
  {
    if n > 0 {
      UniformFold(ts, n - 1, limit, w);
    }
  }

  predicate Answer(ts: seq<real>, n: nat, limit: int, w: real)
    requires n < |ts|
  {
    Admits(ListAfter(ts, n, limit, w), ts[n] - w, limit)
  }

  ghost predicate AreAnswers(ts: seq<real>, answers: seq<bool>, limit: int, w: real) {
    && |answers| == |ts|
    && forall n {:trigger Answer(ts, n, limit, w)} :: 0 <= n < |ts| ==> answers[n] == Answer(ts, n, limit, w)
  }

  // A key whose calls so far are the first n of a uniform run is answered
  // Answer(ts, n) at the next, whatever happened under other keys.
  lemma {:induction false} OwnAnswer(
    log: seq<Event<string, Args>>, key: string, ts: seq<real>, n: nat, limit: int, w: real)
    requires n < |ts| && OfKey(log, |log|, key) == Uniform(ts, limit, w)[..n]
    ensures Admits(OwnList(log, key), ts[n] - w, limit) == Answer(ts, n, limit, w)
  {
    FoldPrefix(OfKey(log, |log|, key), Uniform(ts, limit, w), n, [], Step);
    UniformFold(ts, n, limit, w);
  }

  // Each answer, given from the pruned list, is the one the full history gives.
  predicate HistoryAnswer(ts: seq<real>, n: nat, limit: int, w: real)
    requires n < |ts|
  {
    Admits(History(ts, n, limit, w), ts[n] - w, limit)
  }

  lemma {:induction false} AnswerFromHistory(ts: seq<real>, n: nat, limit: int, w: real)
    requires Sorted(ts) && n < |ts|
    ensures Answer(ts, n, limit, w) == HistoryAnswer(ts, n, limit, w)
  {
    PruningLosesNothing(ts, n, limit, w, ts[n] - w);
  }

  // Filtering the complete history counts the admitted calls of the window.
  lemma {:induction false} HistoryCounts(ts: seq<real>, answers: seq<bool>, n: nat, limit: int, w: real, s: real)
    requires Sorted(ts) && n <= |ts| && AreAnswers(ts, answers, limit, w)
    requires forall i :: 0 <= i < n ==> ts[i] <= s
    ensures |Prune(History(ts, n, limit, w), s - w)| == CountIn(ts, answers, n, s, w)
  {
    if n > 0 {
      HistoryCounts(ts, answers, n - 1, limit, w, s);
      AnswerFromHistory(ts, n - 1, limit, w);
      if answers[n - 1] {
        PruneAppend(History(ts, n - 1, limit, w), ts[n - 1], s - w);
      }
    }
  }

  // The answers of the limiter are the greedy ones.
  lemma {:induction false} MemoryIsGreedy(ts: seq<real>, answers: seq<bool>, limit: int, w: real)
    requires Sorted(ts) && AreAnswers(ts, answers, limit, w)
    ensures Greedy(ts, answers, limit, w)
  {
    forall n | 0 <= n < |ts| ensures Obeys(ts, answers, n, limit, w) {
      AnswerFromHistory(ts, n, limit, w);
      HistoryCounts(ts, answers, n, limit, w, ts[n]);
    }
  }

  // So they are safe in every window, no feasible choice of calls is ahead of
  // them on any prefix, and the j-th of them is never later than the choice's.
  lemma {:induction false} MemoryIsOptimal(
    ts: seq<real>, answers: seq<bool>, limit: nat, w: real, b: seq<bool>)
    requires Sorted(ts) && w > 0.0 && AreAnswers(ts, answers, limit, w)
    requires |b| == |ts| && Feasible(ts, b, limit, w)
    ensures Feasible(ts, answers, limit, w)
    ensures forall n :: 0 <= n <= |ts| ==> Total(b, n) <= Total(answers, n)
    ensures forall j :: 0 <= j < Total(b, |b|) ==>
              && j < Total(answers, |answers|)
              && ts[Nth(answers, |answers|, j)] <= ts[Nth(b, |b|, j)]
  {
    MemoryIsGreedy(ts, answers, limit, w);
    GreedyIsSafe(ts, answers, limit, w);
    forall n | 0 <= n <= |ts| ensures Total(b, n) <= Total(answers, n) {
      GreedyDominates(ts, answers, b, limit, w, n);
    }
    forall j | 0 <= j < Total(b, |b|)
      ensures j < Total(answers, |answers|) && ts[Nth(answers, |answers|, j)] <= ts[Nth(b, |b|, j)]
    {
      GreedyIsEarliest(ts, answers, b, limit, w, j);
    }
  }

  // The stored list is sorted, lies in the window of the last call, and never
  // outgrows the limit.
  lemma {:induction false} StoredListBounded(ts: seq<real>, n: nat, limit: nat, w: real)
    requires Sorted(ts) && w > 0.0 && 0 < n <= |ts|
    ensures var list, now := ListAfter(ts, n, limit, w), ts[n - 1];
            && Sorted(list) && |list| <= limit
            && forall i :: 0 <= i < |list| ==> now - w < list[i] <= now
  {
    var now := ts[n - 1];
    ListLength(ts, n, limit, w);
    PruningRefinesHistory(ts, n, limit, w);
    HistorySorted(ts, n, limit, w);
    var history := History(ts, n, limit, w);
    PruneBounds(history, |history|, now - w, now);
  }

  lemma {:induction false} ListLength(ts: seq<real>, n: nat, limit: nat, w: real)
    requires n <= |ts|
    ensures |ListAfter(ts, n, limit, w)| <= limit
  {
    if n > 0 {
      ListLength(ts, n - 1, limit, w);
      var list := ListAfter(ts, n - 1, limit, w);
      PruneShrinks(list, |list|, ts[n - 1] - w);
    }
  }

  lemma {:induction false} PruneShrinks(times: seq<real>, n: nat, cutoff: real)
    requires n <= |times|
    ensures |PruneFirst(times, n, cutoff)| <= n
  {
    if n > 0 {
      PruneShrinks(times, n - 1, cutoff);
    }
  }

  lemma {:induction false} HistorySorted(ts: seq<real>, n: nat, limit: int, w: real)
    requires Sorted(ts) && n <= |ts|
    ensures Sorted(History(ts, n, limit, w))
    ensures forall i :: 0 <= i < |History(ts, n, limit, w)| ==> n > 0 && History(ts, n, limit, w)[i] <= ts[n - 1]
  {
    if n > 0 {
      HistorySorted(ts, n - 1, limit, w);
    }
  }
}

// app/core/rate_limiter.py: the Redis sorted set.
module RedisRateLimiter {
  import opened SlidingWindow
  import Memory = MemoryRateLimiter

  // Members are str(now). A float and its printed form determine each other,
  // so a member is identified with its score and equal times collapse.
  datatype ZSet = ZSet(members: set<real>, expireAt: real)

  // Whether the pipeline ran, and whether its reply reached the client.
  datatype Transport = Ok | LostBefore | LostAfter

  function Live(zsets: map<string, ZSet>, key: string, now: real): set<real> {
    if key in zsets && now < zsets[key].expireAt then zsets[key].members else {}
  }

  function RemoveRangeByScore(members: set<real>, lo: real, hi: real): set<real> {
    set x | x in members && !(lo <= x <= hi)
  }

  class Limiter {
    var zsets: map<string, ZSet>

    constructor ()
      ensures zsets == map[]
    {
      zsets := map[];
    }

    // The four pipelined commands run as one transaction; the count is taken
    // between the removal and the insertion.
    method CheckWindow(key: string, now: real, limit: int, window: real, transport: Transport) returns (allowed: bool)
      modifies this
      ensures var kept := RemoveRangeByScore(old(Live(zsets, key, now)), 0.0, now - window);
              && (transport == LostBefore ==> zsets == old(zsets))
              && (transport != LostBefore ==>
                    zsets == old(zsets)[key := ZSet(kept + {now}, now + window + 5.0)])
              && (transport == Ok ==> (allowed <==> |kept| < limit))
              && (transport != Ok ==> allowed)
    {
      if transport == LostBefore {
        return true;
      }
      var members := Live(zsets, key, now);
      members := RemoveRangeByScore(members, 0.0, now - window);
      var currentCount := |members|;
      members := members + {now};
      zsets := zsets[key := ZSet(members, now + window + 5.0)];
      if transport == LostAfter {
        return true;
      }
      return currentCount < limit;
    }
  }

  // One key under a fixed window: the set after n calls, and the answers.
  function SetAfter(ts: seq<real>, n: nat, w: real): ZSet
    requires n <= |ts|
    decreases n, 0
  {
    if n == 0 then ZSet({}, 0.0)
    else ZSet(KeptAt(ts, n - 1, ts[n - 1], w) + {ts[n - 1]}, ts[n - 1] + w + 5.0)
  }

  function KeptAt(ts: seq<real>, n: nat, now: real, w: real): set<real>
    requires n <= |ts|
    decreases n, 1
  {
    var z := SetAfter(ts, n, w);
    RemoveRangeByScore(if now < z.expireAt then z.members else {}, 0.0, now - w)
  }

  predicate Answer(ts: seq<real>, n: nat, limit: int, w: real)
    requires n < |ts|
  {
    |KeptAt(ts, n, ts[n], w)| < limit
  }

  ghost predicate AreAnswers(ts: seq<real>, answers: seq<bool>, limit: int, w: real) {
    && |answers| == |ts|
    && forall n {:trigger Answer(ts, n, limit, w)} :: 0 <= n < |ts| ==> answers[n] == Answer(ts, n, limit, w)
  }

  // The class, run on one key with no transport fault, gives these answers.
  method Replay(ts: seq<real>, key: string, limit: int, w: real) returns (answers: seq<bool>)
    ensures AreAnswers(ts, answers, limit, w)
  {
    var limiter := new Limiter();
    answers := [];
    for i := 0 to |ts|
      invariant fresh(limiter) && |answers| == i
      invariant forall n {:trigger Answer(ts, n, limit, w)} :: 0 <= n < i ==> answers[n] == Answer(ts, n, limit, w)
      invariant i == 0 ==> key !in limiter.zsets
      invariant i > 0 ==> key in limiter.zsets && limiter.zsets[key] == SetAfter(ts, i, w)
    {
      ghost var z := SetAfter(ts, i, w);
      assert Live(limiter.zsets, key, ts[i]) == if ts[i] < z.expireAt then z.members else {};
      var allowed := limiter.CheckWindow(key, ts[i], limit, w, Ok);
      assert limiter.zsets[key] == SetAfter(ts, i + 1, w) && allowed == Answer(ts, i, limit, w);
      answers := answers + [allowed];
    }
  }

  // ---------------------------------------------------------------- what the set holds

  // The distinct times later than the cutoff among the first n calls.
  ghost function Recent(ts: seq<real>, n: nat, cutoff: real): set<real>
    requires n <= |ts|
  {
    set i | 0 <= i < n && ts[i] > cutoff :: ts[i]
  }

  // Neither the repeated removals nor the expiry of the key ever matters: at a
  // call the set holds exactly the distinct earlier times of its window.
  lemma {:induction false} KeptIsRecent(ts: seq<real>, n: nat, now: real, w: real)
    requires Sorted(ts) && w > 0.0 && n <= |ts|
    requires forall i :: 0 <= i < n ==> 0.0 <= ts[i] <= now
    ensures KeptAt(ts, n, now, w) == Recent(ts, n, now - w)
  {
    if n > 0 {
      KeptIsRecent(ts, n - 1, ts[n - 1], w);
      assert SetAfter(ts, n, w).members == Recent(ts, n, ts[n - 1] - w);
    }
  }

  // So a call is admitted exactly when fewer than `limit` distinct earlier call
  // times, admitted or refused, lie in its window.
  lemma {:induction false} RedisDecides(ts: seq<real>, n: nat, limit: int, w: real)
    requires Sorted(ts) && w > 0.0 && n < |ts|
    requires 0.0 <= ts[0]
    ensures Answer(ts, n, limit, w) <==> |Recent(ts, n, ts[n] - w)| < limit
  {
    KeptIsRecent(ts, n, ts[n], w);
  }

  // ---------------------------------------------------------------- when counting distinct times is enough

  function AllTrue(n: nat): (mask: seq<bool>)
    ensures |mask| == n && forall i :: 0 <= i < n ==> mask[i]
  {
    seq(n, _ => true)
  }

  lemma {:induction false} RecentCounts(ts: seq<real>, n: nat, s: real, w: real)
    requires Increasing(ts) && n <= |ts| && forall i :: 0 <= i < n ==> ts[i] <= s
    ensures |Recent(ts, n, s - w)| == CountIn(ts, AllTrue(|ts|), n, s, w)
  {
    if n > 0 {
      RecentCounts(ts, n - 1, s, w);
      var before, t := Recent(ts, n - 1, s - w), ts[n - 1];
      assert t !in before;
      assert Recent(ts, n, s - w) == if t > s - w then before + {t} else before;
    }
  }

  // Collapsed times do no harm when there are none, or when a single one refuses.
  ghost predicate Countable(ts: seq<real>, limit: int) {
    Sorted(ts) && (limit == 1 || Increasing(ts))
  }

  // Then the rule is: fewer than `limit` earlier calls in the window, whether or
  // not they were admitted.
  lemma {:induction false} RedisCountsEveryCall(ts: seq<real>, n: nat, limit: int, w: real)
    requires Countable(ts, limit) && w > 0.0 && n < |ts| && 0.0 <= ts[0]
    ensures Answer(ts, n, limit, w) <==> CountIn(ts, AllTrue(|ts|), n, ts[n], w) < limit
  {
    RedisDecides(ts, n, limit, w);
    if Increasing(ts) {
      RecentCounts(ts, n, ts[n], w);
    } else {
      NothingCounted(ts, AllTrue(|ts|), n, ts[n], w);
      assert forall i :: 0 <= i < n && ts[i] > ts[n] - w ==> ts[i] in Recent(ts, n, ts[n] - w);
    }
  }

  // The same rule in closed form: the call `limit` places earlier must have
  // left the window. A sender who never pauses that long is refused forever.
  lemma {:induction false} RedisAdmitsIff(ts: seq<real>, n: nat, limit: nat, w: real)
    requires Countable(ts, limit) && w > 0.0 && n < |ts| && limit >= 1 && 0.0 <= ts[0]
    ensures Answer(ts, n, limit, w) <==> n < limit || ts[n - limit] <= ts[n] - w
  {
    var m := Cut(ts, n, ts[n] - w);
    RedisCountsEveryCall(ts, n, limit, w);
    CountAfterCut(ts, AllTrue(|ts|), n, ts[n], w);
    CutSplits(ts, n, ts[n] - w);
    TotalOfTrue(|ts|, n);
    TotalOfTrue(|ts|, m);
  }

  lemma {:induction false} TotalOfTrue(size: nat, n: nat)
    requires n <= size
    ensures Total(AllTrue(size), n) == n
  {
    if n > 0 {
      TotalOfTrue(size, n - 1);
    }
  }

  // Everything the Redis form admits, the greedy in-memory form admits too, and
  // the two agree on every call up to and including the first refusal.
  lemma {:induction false} RedisWithinMemory(ts: seq<real>, memory: seq<bool>, n: nat, limit: int, w: real)
    requires Countable(ts, limit) && w > 0.0 && n < |ts| && 0.0 <= ts[0]
    requires Greedy(ts, memory, limit, w)
    ensures Answer(ts, n, limit, w) ==> memory[n]
    ensures (forall i :: 0 <= i < n ==> memory[i]) ==> Answer(ts, n, limit, w) == memory[n]
  {
    RedisCountsEveryCall(ts, n, limit, w);
    assert Obeys(ts, memory, n, limit, w);
    CountMonotone(ts, memory, AllTrue(|ts|), n, ts[n], w);
    if forall i :: 0 <= i < n ==> memory[i] {
      CountMonotone(ts, AllTrue(|ts|), memory, n, ts[n], w);
    }
  }

  // So on one key and the same times: the two classes compare, and the
  // Redis form is safe in every window as well.
  lemma {:induction false} RedisVersusMemory(
    ts: seq<real>, redis: seq<bool>, memory: seq<bool>, limit: nat, w: real)
    requires Countable(ts, limit) && w > 0.0 && (ts != [] ==> 0.0 <= ts[0])
    requires AreAnswers(ts, redis, limit, w) && Memory.AreAnswers(ts, memory, limit, w)
    ensures Feasible(ts, redis, limit, w)
    ensures forall n :: 0 <= n < |ts| ==> (redis[n] ==> memory[n])
    ensures forall n :: 0 <= n < |ts| && (forall i :: 0 <= i < n ==> memory[i]) ==> redis[n] == memory[n]
  {
    Memory.MemoryIsGreedy(ts, memory, limit, w);
    forall n | 0 <= n < |ts|
      ensures redis[n] ==> memory[n]
      ensures (forall i :: 0 <= i < n ==> memory[i]) ==> redis[n] == memory[n]
    {
      RedisWithinMemory(ts, memory, n, limit, w);
    }
    forall s: real ensures CountIn(ts, redis, |ts|, s, w) <= limit {
      CountMonotone(ts, redis, memory, |ts|, s, w);
      GreedyIsSafeAt(ts, memory, |ts|, limit, w, s);
    }
  }

  // ---------------------------------------------------------------- a burst

  // In a burst of calls at one instant all members collapse into one, so with a
  // limit of two or more every call is admitted.
  lemma {:induction false} BurstAtOneInstant(ts: seq<real>, n: nat, limit: int, w: real)
    requires n < |ts| && (forall i :: 0 <= i < |ts| ==> ts[i] == ts[0]) && 0.0 <= ts[0]
    requires w > 0.0 && limit >= 2
    ensures Answer(ts, n, limit, w)
  {
    RedisDecides(ts, n, limit, w);
    var seen := Recent(ts, n, ts[n] - w);
    if seen != {} {
      assert seen == {ts[0]};
    }
  }

  lemma {:induction false} BurstCounts(ts: seq<real>, mask: seq<bool>, n: nat, w: real)
    requires n <= |ts| == |mask| && w > 0.0
    requires forall i :: 0 <= i < |ts| ==> ts[i] == ts[0] && mask[i]
    ensures n > 0 ==> CountIn(ts, mask, n, ts[0], w) == n
  {
    if n > 1 {
      BurstCounts(ts, mask, n - 1, w);
    }
  }

  lemma {:induction false} CountAtMost(ts: seq<real>, mask: seq<bool>, n: nat, s: real, w: real)
    requires n <= |ts| == |mask|
    ensures CountIn(ts, mask, n, s, w) <= n
  {
    if n > 0 {
      CountAtMost(ts, mask, n - 1, s, w);
    }
  }

  // So a burst keeps every window within the limit exactly when the limit is
  // one or the burst is no longer than the limit.
  lemma {:induction false} BurstSafeIff(ts: seq<real>, answers: seq<bool>, limit: int, w: real)
    requires (forall i :: 0 <= i < |ts| ==> ts[i] == ts[0]) && (ts != [] ==> 0.0 <= ts[0])
    requires w > 0.0 && limit >= 1 && AreAnswers(ts, answers, limit, w)
    ensures Feasible(ts, answers, limit, w) <==> limit == 1 || |ts| <= limit
  {
    if |ts| <= limit {
      forall s: real ensures CountIn(ts, answers, |ts|, s, w) <= limit {
        CountAtMost(ts, answers, |ts|, s, w);
      }
    } else if limit == 1 {
      var memory := seq(|ts|, n requires 0 <= n < |ts| => Memory.Answer(ts, n, limit, w));
      RedisVersusMemory(ts, answers, memory, limit, w);
    } else {
      forall n | 0 <= n < |ts| ensures answers[n] {
        BurstAtOneInstant(ts, n, limit, w);
        assert answers[n] == Answer(ts, n, limit, w);
      }
      BurstCounts(ts, answers, |ts|, w);
      assert CountIn(ts, answers, |ts|, ts[0], w) > limit;
    }
  }

  // ---------------------------------------------------------------- any sorted run

  // Read off the times alone: fewer than `limit` distinct earlier times lie in
  // the window of the n-th call.
  ghost predicate HasRoom(ts: seq<real>, n: nat, limit: int, w: real)
    requires n < |ts|
  {
    |Recent(ts, n, ts[n] - w)| < limit
  }

  // How many of the first n calls have room and lie in the window that ends at s.
  ghost function CountRoom(ts: seq<real>, n: nat, limit: int, s: real, w: real): nat
    requires n <= |ts|
  {
    if n == 0 then 0
    else CountRoom(ts, n - 1, limit, s, w) + if HasRoom(ts, n - 1, limit, w) && s - w < ts[n - 1] <= s then 1 else 0
  }

  lemma {:induction false} AnswersCountRoom(ts: seq<real>, answers: seq<bool>, n: nat, limit: int, s: real, w: real)
    requires Sorted(ts) && w > 0.0 && n <= |ts| && (ts != [] ==> 0.0 <= ts[0]) && AreAnswers(ts, answers, limit, w)
    ensures CountIn(ts, answers, n, s, w) == CountRoom(ts, n, limit, s, w)
  {
    if n > 0 {
      AnswersCountRoom(ts, answers, n - 1, limit, s, w);
      RedisDecides(ts, n - 1, limit, w);
      assert answers[n - 1] == Answer(ts, n - 1, limit, w);
    }
  }

  ghost predicate CallFits(ts: seq<real>, n: nat, limit: int, w: real)
    requires n < |ts|
  {
    HasRoom(ts, n, limit, w) ==> CountRoom(ts, n, limit, ts[n], w) < limit
  }

  ghost predicate AllCallsFit(ts: seq<real>, limit: int, w: real) {
    forall n {:trigger CallFits(ts, n, limit, w)} :: 0 <= n < |ts| ==> CallFits(ts, n, limit, w)
  }

  // Whatever times repeat: the Redis form is safe on a run exactly when no call
  // with room for one more distinct time has already `limit` calls with room
  // before it in its window. Distinct times always fit; repeats may not, as each
  // of them takes a place without taking up room.
  lemma {:induction false} RedisSafeIff(ts: seq<real>, answers: seq<bool>, limit: nat, w: real)
    requires Sorted(ts) && w > 0.0 && (ts != [] ==> 0.0 <= ts[0]) && AreAnswers(ts, answers, limit, w)
    ensures Feasible(ts, answers, limit, w) <==> AllCallsFit(ts, limit, w)
  {
    SafeIff(ts, answers, limit, w);
    forall n | 0 <= n < |ts| ensures CallFits(ts, n, limit, w) <==> Fits(ts, answers, n, limit, w) {
      RedisDecides(ts, n, limit, w);
      assert answers[n] == Answer(ts, n, limit, w);
      AnswersCountRoom(ts, answers, n, limit, ts[n], w);
    }
  }
}
