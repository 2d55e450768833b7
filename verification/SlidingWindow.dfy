// The sliding-window contract shared by every limiter: one key, one limit,
// one window length, and a run of call times. Nothing here mentions how a
// limiter stores its state; a limiter is only the sequence of its answers.
module SlidingWindow {

  ghost predicate Sorted(ts: seq<real>) {
    forall i, j :: 0 <= i <= j < |ts| ==> ts[i] <= ts[j]
  }

  ghost predicate Increasing(ts: seq<real>) {
    forall i, j :: 0 <= i < j < |ts| ==> ts[i] < ts[j]
  }

  // How many of the first n calls are marked in `mask` and fall in the
  // half-open window (s - w, s].
  function CountIn(ts: seq<real>, mask: seq<bool>, n: nat, s: real, w: real): nat
    requires n <= |ts| && n <= |mask|
  {
    if n == 0 then 0
    else CountIn(ts, mask, n - 1, s, w) + if mask[n - 1] && s - w < ts[n - 1] <= s then 1 else 0
  }

  // How many of the first n calls are marked.
  function Total(mask: seq<bool>, n: nat): nat
    requires n <= |mask|
  {
    if n == 0 then 0 else Total(mask, n - 1) + if mask[n - 1] then 1 else 0
  }

  // Position of the j-th marked call among the first n, counting from zero.
  function Nth(mask: seq<bool>, n: nat, j: nat): (p: nat)
    requires n <= |mask| && j < Total(mask, n)
    ensures p < n && mask[p] && Total(mask, p) == j
  {
    if mask[n - 1] && j == Total(mask, n - 1) then n - 1 else Nth(mask, n - 1, j)
  }

  // A choice of calls that never puts more than `limit` of them in one window,
  // wherever on the real line the window ends.
  ghost predicate Feasible(ts: seq<real>, mask: seq<bool>, limit: int, w: real)
    requires |ts| == |mask|
  {
    forall s: real :: CountIn(ts, mask, |ts|, s, w) <= limit
  }

  // The greedy rule at one call: admit exactly when fewer than `limit` earlier
  // admitted calls lie in the window that ends at the call.
  predicate Obeys(ts: seq<real>, mask: seq<bool>, n: nat, limit: int, w: real)
    requires n < |ts| && n < |mask|
  {
    mask[n] <==> CountIn(ts, mask, n, ts[n], w) < limit
  }

  ghost predicate Greedy(ts: seq<real>, mask: seq<bool>, limit: int, w: real) {
    && |ts| == |mask|
    && forall n {:trigger Obeys(ts, mask, n, limit, w)} :: 0 <= n < |ts| ==> Obeys(ts, mask, n, limit, w)
  }

  // ---------------------------------------------------------------- counting

  // Of the first n calls, those at or before the cutoff; in a sorted run they
  // come first.
  function Cut(ts: seq<real>, n: nat, cutoff: real): (m: nat)
    requires n <= |ts|
    ensures m <= n
  {
    if n == 0 || ts[n - 1] <= cutoff then n else Cut(ts, n - 1, cutoff)
  }

  lemma {:induction false} CutSplits(ts: seq<real>, n: nat, cutoff: real)
    requires Sorted(ts) && n <= |ts|
    ensures forall i :: 0 <= i < n ==> (i < Cut(ts, n, cutoff) <==> ts[i] <= cutoff)
  {
    if n > 0 && ts[n - 1] > cutoff {
      CutSplits(ts, n - 1, cutoff);
    }
  }

  lemma {:induction false} CountAfterCut(ts: seq<real>, mask: seq<bool>, n: nat, s: real, w: real)
    requires n <= |ts| == |mask| && Sorted(ts) && forall i :: 0 <= i < n ==> ts[i] <= s
    ensures CountIn(ts, mask, n, s, w) == Total(mask, n) - Total(mask, Cut(ts, n, s - w))
  {
    if n > 0 {
      if ts[n - 1] <= s - w {
        NoneLater(ts, mask, n, s, w);
      } else {
        CountAfterCut(ts, mask, n - 1, s, w);
      }
    }
  }

  lemma {:induction false} NoneLater(ts: seq<real>, mask: seq<bool>, n: nat, s: real, w: real)
    requires n <= |ts| == |mask| && forall i :: 0 <= i < n ==> ts[i] <= s - w
    ensures CountIn(ts, mask, n, s, w) == 0
  {
    if n > 0 {
      NoneLater(ts, mask, n - 1, s, w);
    }
  }

  lemma {:induction false} CountMonotone(ts: seq<real>, a: seq<bool>, b: seq<bool>, n: nat, s: real, w: real)
    requires n <= |ts| && n <= |a| && n <= |b| && forall i :: 0 <= i < n ==> (a[i] ==> b[i])
    ensures CountIn(ts, a, n, s, w) <= CountIn(ts, b, n, s, w)
  {
    if n > 0 {
      CountMonotone(ts, a, b, n - 1, s, w);
    }
  }

  lemma {:induction false} CountPrefix(ts: seq<real>, mask: seq<bool>, m: nat, n: nat, s: real, w: real)
    requires m <= n <= |ts| == |mask|
    ensures CountIn(ts, mask, m, s, w) <= CountIn(ts, mask, n, s, w)
  {
    if m < n {
      CountPrefix(ts, mask, m, n - 1, s, w);
    }
  }

  lemma {:induction false} NothingCounted(ts: seq<real>, mask: seq<bool>, n: nat, s: real, w: real)
    requires n <= |ts| == |mask|
    ensures CountIn(ts, mask, n, s, w) == 0 <==> forall i :: 0 <= i < n && mask[i] ==> !(s - w < ts[i] <= s)
  {
    if n > 0 {
      NothingCounted(ts, mask, n - 1, s, w);
    }
  }

  lemma {:induction false} TotalMonotone(mask: seq<bool>, m: nat, n: nat)
    requires m <= n <= |mask|
    ensures Total(mask, m) <= Total(mask, n)
  {
    if m < n {
      TotalMonotone(mask, m, n - 1);
    }
  }

  // Moving the end of the window back to the newest call loses no call.
  lemma {:induction false} CountAtLaterEnd(ts: seq<real>, mask: seq<bool>, n: nat, t: real, s: real, w: real)
    requires n <= |ts| == |mask| && t <= s && forall i :: 0 <= i < n ==> ts[i] <= t
    ensures CountIn(ts, mask, n, s, w) <= CountIn(ts, mask, n, t, w)
  {
    if n > 0 {
      CountAtLaterEnd(ts, mask, n - 1, t, s, w);
    }
  }

  // ---------------------------------------------------------------- main results

  // Safety: every window (s - w, s], for every real s, holds at most `limit`
  // admitted calls.
  lemma {:induction false} GreedyIsSafe(ts: seq<real>, mask: seq<bool>, limit: int, w: real)
    requires Sorted(ts) && 0 <= limit && Greedy(ts, mask, limit, w)
    ensures Feasible(ts, mask, limit, w)
  {
    forall s: real ensures CountIn(ts, mask, |ts|, s, w) <= limit {
      GreedyIsSafeAt(ts, mask, |ts|, limit, w, s);
    }
  }

  lemma {:induction false} GreedyIsSafeAt(ts: seq<real>, mask: seq<bool>, n: nat, limit: int, w: real, s: real)
    requires Sorted(ts) && 0 <= limit && Greedy(ts, mask, limit, w) && n <= |ts|
    ensures CountIn(ts, mask, n, s, w) <= limit
  {
    forall i | 0 <= i < |ts| ensures Fits(ts, mask, i, limit, w) {
      assert Obeys(ts, mask, i, limit, w);
    }
    SafeAt(ts, mask, n, limit, w, s);
  }

  // The n-th call, if admitted, is not one too many in the window that ends at it.
  predicate Fits(ts: seq<real>, mask: seq<bool>, n: nat, limit: int, w: real)
    requires n < |ts| == |mask|
  {
    mask[n] ==> CountIn(ts, mask, n, ts[n], w) < limit
  }

  ghost predicate AllFit(ts: seq<real>, mask: seq<bool>, limit: int, w: real) {
    && |ts| == |mask|
    && forall n {:trigger Fits(ts, mask, n, limit, w)} :: 0 <= n < |ts| ==> Fits(ts, mask, n, limit, w)
  }

  // Any answers at all, greedy or not, are safe exactly when every call fits.
  lemma {:induction false} SafeIff(ts: seq<real>, mask: seq<bool>, limit: int, w: real)
    requires Sorted(ts) && |mask| == |ts| && 0 <= limit && w > 0.0
    ensures Feasible(ts, mask, limit, w) <==> AllFit(ts, mask, limit, w)
  {
    if Feasible(ts, mask, limit, w) {
      forall n | 0 <= n < |ts| ensures Fits(ts, mask, n, limit, w) {
        CountPrefix(ts, mask, n + 1, |ts|, ts[n], w);
      }
    }
    if AllFit(ts, mask, limit, w) {
      forall s: real ensures CountIn(ts, mask, |ts|, s, w) <= limit {
        SafeAt(ts, mask, |ts|, limit, w, s);
      }
    }
  }

  lemma {:induction false} SafeAt(ts: seq<real>, mask: seq<bool>, n: nat, limit: int, w: real, s: real)
    requires Sorted(ts) && 0 <= limit && AllFit(ts, mask, limit, w) && n <= |ts|
    ensures CountIn(ts, mask, n, s, w) <= limit
  {
    if n > 0 {
      SafeAt(ts, mask, n - 1, limit, w, s);
      assert Fits(ts, mask, n - 1, limit, w);
      if mask[n - 1] && s - w < ts[n - 1] <= s {
        CountAtLaterEnd(ts, mask, n - 1, ts[n - 1], s, w);
      }
    }
  }

  // The exchange step. A call refused at t saw `limit` admissions in its own
  // window; a feasible choice has at most that many there, call included. So
  // the choice cannot be ahead unless it was already ahead before the window.
  lemma {:induction false} RefusedCallIsCovered(
    ts: seq<real>, mask: seq<bool>, b: seq<bool>, limit: int, w: real, n: nat) returns (m: nat)
    requires Sorted(ts) && |b| == |ts| && w > 0.0 && n < |ts|
    requires Greedy(ts, mask, limit, w) && !mask[n]
    requires CountIn(ts, b, |ts|, ts[n], w) <= limit
    ensures m <= n
    ensures Total(b, n + 1) - Total(b, m) <= limit <= Total(mask, n) - Total(mask, m)
  {
    var t := ts[n];
    m := Cut(ts, n, t - w);
    assert Obeys(ts, mask, n, limit, w);
    CountAfterCut(ts, mask, n, t, w);
    CountAfterCut(ts, b, n + 1, t, w);
    CountPrefix(ts, b, n + 1, |ts|, t, w);
  }

  // Optimality: any choice of calls that respects the limit in every window is
  // matched by the greedy answers on every prefix of the run.
  lemma {:induction false} GreedyDominates(
    ts: seq<real>, mask: seq<bool>, b: seq<bool>, limit: int, w: real, n: nat)
    requires Sorted(ts) && |b| == |ts| && w > 0.0 && n <= |ts|
    requires Greedy(ts, mask, limit, w) && Feasible(ts, b, limit, w)
    ensures Total(b, n) <= Total(mask, n)
    decreases n
  {
    if n > 0 {
      GreedyDominates(ts, mask, b, limit, w, n - 1);
      if b[n - 1] && !mask[n - 1] {
        var m := RefusedCallIsCovered(ts, mask, b, limit, w, n - 1);
        GreedyDominates(ts, mask, b, limit, w, m);
      }
    }
  }

  lemma {:induction false} NthEarlier(a: seq<bool>, b: seq<bool>, j: nat)
    requires |a| == |b| && j < Total(b, |b|) && j < Total(a, |a|)
    requires Total(b, Nth(b, |b|, j) + 1) <= Total(a, Nth(b, |b|, j) + 1)
    ensures Nth(a, |a|, j) <= Nth(b, |b|, j)
  {
    var p, q := Nth(b, |b|, j), Nth(a, |a|, j);
    if q > p {
      TotalMonotone(a, p + 1, q);
    }
  }

  // The j-th greedy admission is never later than the j-th call of a feasible
  // choice.
  lemma {:induction false} GreedyIsEarliest(
    ts: seq<real>, mask: seq<bool>, b: seq<bool>, limit: int, w: real, j: nat)
    requires Sorted(ts) && |b| == |ts| && w > 0.0
    requires Greedy(ts, mask, limit, w) && Feasible(ts, b, limit, w) && j < Total(b, |b|)
    ensures j < Total(mask, |mask|)
    ensures ts[Nth(mask, |mask|, j)] <= ts[Nth(b, |b|, j)]
  {
    GreedyDominates(ts, mask, b, limit, w, |ts|);
    GreedyDominates(ts, mask, b, limit, w, Nth(b, |b|, j) + 1);
    NthEarlier(mask, b, j);
  }

  // The rule leaves no freedom: two greedy answer sequences are equal.
  lemma {:induction false} GreedyIsUnique(ts: seq<real>, a: seq<bool>, b: seq<bool>, limit: int, w: real, n: nat)
    requires Greedy(ts, a, limit, w) && Greedy(ts, b, limit, w) && n <= |ts|
    ensures forall i :: 0 <= i < n ==> a[i] == b[i]
  {
    if n > 0 {
      GreedyIsUnique(ts, a, b, limit, w, n - 1);
      assert Obeys(ts, a, n - 1, limit, w) && Obeys(ts, b, n - 1, limit, w);
      CountMonotone(ts, a, b, n - 1, ts[n - 1], w);
      CountMonotone(ts, b, a, n - 1, ts[n - 1], w);
    }
  }
}
