// app/core/pipeline_timing.py: PipelineStopwatch, with times in seconds and
// recorded durations in milliseconds rounded to two decimals.
module PipelineTiming {
  import opened OrderedDict

  function RoundHalfEven(x: real): (n: int)
    ensures -0.5 <= n as real - x <= 0.5
    ensures n as real - x == 0.5 || n as real - x == -0.5 ==> n % 2 == 0
  {
    var f := x.Floor;
    var d := x - f as real;
    if d < 0.5 || (d == 0.5 && f % 2 == 0) then f else f + 1
  }

  function Round2(x: real): real {
    RoundHalfEven(x * 100.0) as real / 100.0
  }

  lemma {:induction false} Round2Bound(x: real)
    ensures -0.005 <= Round2(x) - x <= 0.005
  {
    var n := RoundHalfEven(x * 100.0) as real;
    assert Round2(x) - x == (n - x * 100.0) / 100.0;
  }

  datatype Mark = Mark(stage: string, now: real)

  datatype Watch = Watch(last: real, stageMs: seq<Item<string, real>>)

  function Record(w: Watch, m: Mark): Watch {
    Watch(m.now, Put(w.stageMs, m.stage, Round2((m.now - w.last) * 1000.0)))
  }

  function After(start: real, marks: seq<Mark>, n: nat): Watch
    requires n <= |marks|
  {
    if n == 0 then Watch(start, []) else Record(After(start, marks, n - 1), marks[n - 1])
  }

  class PipelineStopwatch {
    var last: real
    var stageMs: seq<Item<string, real>>  // a dict

    constructor (t0: real)
      ensures last == t0 && stageMs == []
    {
      last, stageMs := t0, [];
    }

    method Split(stage: string, now: real)
      modifies this
      ensures Watch(last, stageMs) == Record(old(Watch(last, stageMs)), Mark(stage, now))
    {
      var dtMs := Round2((now - last) * 1000.0);
      stageMs := Put(stageMs, stage, dtMs);
      last := now;
    }
  }

  // ---------------------------------------------------------------- what the splits add up to

  function Sum(d: seq<Item<string, real>>, n: nat): real
    requires n <= |d|
  {
    if n == 0 then 0.0 else Sum(d, n - 1) + d[n - 1].value
  }

  lemma {:induction false} SumSame(a: seq<Item<string, real>>, b: seq<Item<string, real>>, n: nat)
    requires n <= |a| && n <= |b| && forall i :: 0 <= i < n ==> a[i] == b[i]
    ensures Sum(a, n) == Sum(b, n)
  {
    if n > 0 {
      SumSame(a, b, n - 1);
    }
  }

  lemma {:induction false} SumReplace(d: seq<Item<string, real>>, i: nat, x: Item<string, real>, n: nat)
    requires i < n <= |d|
    ensures Sum(d[i := x], n) == Sum(d, n) + x.value - d[i].value
  {
    if i == n - 1 {
      SumSame(d[i := x], d, n - 1);
    } else {
      SumReplace(d, i, x, n - 1);
    }
  }

  function Recorded(d: seq<Item<string, real>>): real {
    Sum(d, |d|)
  }

  lemma {:induction false} RecordedPut(d: seq<Item<string, real>>, stage: string, v: real)
    ensures var i := Find(d, |d|, stage);
            Recorded(Put(d, stage, v)) == Recorded(d) + v - if i < |d| then d[i].value else 0.0
    ensures |Put(d, stage, v)| == if Find(d, |d|, stage) < |d| then |d| else |d| + 1
  {
    var i := Find(d, |d|, stage);
    if i < |d| {
      SumReplace(d, i, Item(stage, v), |d|);
    } else {
      SumSame(Put(d, stage, v), d, |d|);
    }
  }

  function ElapsedMs(start: real, now: real): real {
    (now - start) * 1000.0
  }

  // The same dictionary with the true durations in place of the rounded ones.
  function True(start: real, marks: seq<Mark>, n: nat): seq<Item<string, real>>
    requires n <= |marks|
  {
    if n == 0 then []
    else Put(True(start, marks, n - 1), marks[n - 1].stage, Delta(start, marks, n - 1))
  }

  function Delta(start: real, marks: seq<Mark>, n: nat): real
    requires n < |marks|
  {
    ElapsedMs(if n == 0 then start else marks[n - 1].now, marks[n].now)
  }

  ghost predicate Rounds(recorded: seq<Item<string, real>>, exact: seq<Item<string, real>>) {
    && |recorded| == |exact|
    && forall i :: 0 <= i < |exact| ==> recorded[i] == Item(exact[i].key, Round2(exact[i].value))
  }

  lemma {:induction false} PutRounds(
    recorded: seq<Item<string, real>>, exact: seq<Item<string, real>>, stage: string, dt: real, dtMs: real)
    requires Rounds(recorded, exact) && dtMs == Round2(dt)
    ensures Rounds(Put(recorded, stage, dtMs), Put(exact, stage, dt))
  {
    FindSameKeys(recorded, exact, |exact|, stage);
  }

  lemma {:induction false} RecordsRoundTrue(start: real, marks: seq<Mark>, n: nat)
    requires n <= |marks|
    ensures Rounds(After(start, marks, n).stageMs, True(start, marks, n))
    ensures After(start, marks, n).last == if n == 0 then start else marks[n - 1].now
  {
    if n > 0 {
      RecordsRoundTrue(start, marks, n - 1);
      var dt := Delta(start, marks, n - 1);
      PutRounds(After(start, marks, n - 1).stageMs, True(start, marks, n - 1), marks[n - 1].stage, dt, Round2(dt));
    }
  }

  lemma {:induction false} SumsClose(recorded: seq<Item<string, real>>, exact: seq<Item<string, real>>, n: nat)
    requires Rounds(recorded, exact) && n <= |exact|
    ensures -0.005 * n as real <= Sum(recorded, n) - Sum(exact, n) <= 0.005 * n as real
  {
    if n > 0 {
      SumsClose(recorded, exact, n - 1);
      Round2Bound(exact[n - 1].value);
    }
  }

  // Under a clock that never goes back the stored true durations are
  // non-negative and never exceed the elapsed time: a repeated name only
  // forgets some of it.
  lemma {:induction false} TrueWithinElapsed(start: real, marks: seq<Mark>, n: nat)
    requires n <= |marks|
    requires forall i :: 0 <= i < |marks| ==> Delta(start, marks, i) >= 0.0
    ensures forall i :: 0 <= i < |True(start, marks, n)| ==> True(start, marks, n)[i].value >= 0.0
    ensures n > 0 ==> Recorded(True(start, marks, n)) <= ElapsedMs(start, marks[n - 1].now)
  {
    if n > 0 {
      TrueWithinElapsed(start, marks, n - 1);
      RecordedPut(True(start, marks, n - 1), marks[n - 1].stage, Delta(start, marks, n - 1));
    }
  }

  // With distinct names nothing is forgotten.
  lemma {:induction false} TrueIsElapsed(start: real, marks: seq<Mark>, n: nat)
    requires n <= |marks| && forall i, j :: 0 <= i < j < |marks| ==> marks[i].stage != marks[j].stage
    ensures |True(start, marks, n)| == n && forall i :: 0 <= i < n ==> True(start, marks, n)[i].key == marks[i].stage
    ensures n > 0 ==> Recorded(True(start, marks, n)) == ElapsedMs(start, marks[n - 1].now)
  {
    if n > 0 {
      TrueIsElapsed(start, marks, n - 1);
      RecordedPut(True(start, marks, n - 1), marks[n - 1].stage, Delta(start, marks, n - 1));
    }
  }

  // With distinct stage names the recorded durations add up to the elapsed
  // time within half a unit of rounding per split, whatever the clock does.
  lemma {:induction false} DistinctStages(start: real, marks: seq<Mark>, n: nat)
    requires n <= |marks| && forall i, j :: 0 <= i < j < |marks| ==> marks[i].stage != marks[j].stage
    ensures var w := After(start, marks, n);
            && |w.stageMs| == n
            && -0.005 * n as real <= Recorded(w.stageMs) - ElapsedMs(start, w.last) <= 0.005 * n as real
  {
    RecordsRoundTrue(start, marks, n);
    TrueIsElapsed(start, marks, n);
    SumsClose(After(start, marks, n).stageMs, True(start, marks, n), n);
  }

  // With repeated names and a clock that never goes back, the sum exceeds the
  // elapsed time by at most half a unit per stored stage.
  lemma {:induction false} RepeatedStages(start: real, marks: seq<Mark>, n: nat)
    requires n <= |marks|
    requires forall i :: 0 <= i < |marks| ==> Delta(start, marks, i) >= 0.0
    ensures var w := After(start, marks, n);
            Recorded(w.stageMs) - ElapsedMs(start, w.last) <= 0.005 * |w.stageMs| as real
  {
    RecordsRoundTrue(start, marks, n);
    TrueWithinElapsed(start, marks, n);
    SumsClose(After(start, marks, n).stageMs, True(start, marks, n), |True(start, marks, n)|);
  }
}
