// app/api/superadmin.py, superadmin_message_accounting: the per-organization
// rollup of message counts.
module MessageAccounting {
  import opened OrderedDict
  import opened Wrappers

  // The values the loop tells apart; every other string is the last case.
  datatype Direction = Inbound | Outbound | OtherDirection
  datatype Source = Ai | Operator | System | OtherSource

  datatype Row = Row(
    orgId: int, orgName: string, direction: Direction, source: Source, template: bool, total: Option<int>)

  datatype Counters = Counters(
    orgName: string, inbound: int, outboundAi: int, outboundOperator: int, outboundTemplate: int, outboundOther: int)
  {
    function OutboundTotal(): int {
      outboundAi + outboundOperator + outboundTemplate + outboundOther
    }
  }

  const ZERO := Counters("", 0, 0, 0, 0, 0)

  function Count(r: Row): int {
    if r.total.Some? then r.total.value else 0
  }

  function Add(c: Counters, r: Row): Counters {
    var e, n := c.(orgName := r.orgName), Count(r);
    if r.direction.Inbound? then e.(inbound := e.inbound + n)
    else if r.direction.Outbound? then
      if r.source.Ai? then e.(outboundAi := e.outboundAi + n)
      else if r.source.Operator? then e.(outboundOperator := e.outboundOperator + n)
      else if r.source.System? && r.template then e.(outboundTemplate := e.outboundTemplate + n)
      else if r.source.System? then e.(outboundTemplate := e.outboundTemplate + n)
      else e.(outboundOther := e.outboundOther + n)
    else e
  }

  type ByOrg = seq<Item<int, Counters>>

  function Step(d: ByOrg, r: Row): ByOrg {
    Put(d, r.orgId, Add(Get(d, r.orgId, ZERO), r))
  }

  function After(rows: seq<Row>, n: nat): ByOrg
    requires n <= |rows|
  {
    if n == 0 then [] else Step(After(rows, n - 1), rows[n - 1])
  }

  // The two totals, and the columns the outbound total is made of.
  datatype Side = In | Out | ByAi | ByOperator | ByTemplate | ByOther

  // What a row contributes to a side, read off its own columns.
  function Amount(r: Row, side: Side): int {
    if (match side
        case In => r.direction.Inbound?
        case Out => r.direction.Outbound?
        case ByAi => r.direction.Outbound? && r.source.Ai?
        case ByOperator => r.direction.Outbound? && r.source.Operator?
        case ByTemplate => r.direction.Outbound? && r.source.System?
        case ByOther => r.direction.Outbound? && r.source.OtherSource?)
    then (match r.total case Some(n) => n case None => 0) else 0
  }

  function Of(c: Counters, side: Side): int {
    match side
    case In => c.inbound
    case Out => c.OutboundTotal()
    case ByAi => c.outboundAi
    case ByOperator => c.outboundOperator
    case ByTemplate => c.outboundTemplate
    case ByOther => c.outboundOther
  }

  lemma {:induction false} AddAmount(c: Counters, r: Row, side: Side)
    ensures Of(Add(c, r), side) == Of(c, side) + Amount(r, side)
  {
  }

  // The sum over the first n rows of one organization, or of all of them.
  function SumRows(rows: seq<Row>, n: nat, side: Side, only: Option<int>): int
    requires n <= |rows|
  {
    if n == 0 then 0
    else SumRows(rows, n - 1, side, only) + Share(rows[n - 1], side, only)
  }

  function Share(r: Row, side: Side, only: Option<int>): int {
    if only == None || only == Some(r.orgId) then Amount(r, side) else 0
  }

  // An item that stands for an organization of the first n rows, under a name
  // they give it.
  ghost predicate FromRows(rows: seq<Row>, n: nat, x: Item<int, Counters>) {
    exists k :: 0 <= k < n && k < |rows| && rows[k].orgId == x.key && rows[k].orgName == x.value.orgName
  }

  // What a rollup of the rows is: the organizations of the rows, each once, with
  // the sums of its own rows; and nothing is lost in all.
  ghost predicate IsRollup(rows: seq<Row>, d: ByOrg) {
    && DistinctKeys(d)
    && (forall k :: 0 <= k < |rows| ==> Listed(d, rows[k].orgId))
    && (forall i :: 0 <= i < |d| ==> FromRows(rows, |rows|, d[i]))
    && (forall i, side :: 0 <= i < |d| ==> Of(d[i].value, side) == SumRows(rows, |rows|, side, Some(d[i].key)))
    && forall side :: SumItems(d, |d|, side, None) == SumRows(rows, |rows|, side, None)
  }

  // The aggregation loop.
  method Aggregate(rows: seq<Row>) returns (byOrg: ByOrg)
    ensures IsRollup(rows, byOrg)
  {
    byOrg := [];
    for i := 0 to |rows|
      invariant byOrg == After(rows, i)
    {
      var r := rows[i];
      var e := Get(byOrg, r.orgId, ZERO).(orgName := r.orgName);
      var n := Count(r);
      if r.direction.Inbound? {
        e := e.(inbound := e.inbound + n);
      } else if r.direction.Outbound? {
        if r.source.Ai? {
          e := e.(outboundAi := e.outboundAi + n);
        } else if r.source.Operator? {
          e := e.(outboundOperator := e.outboundOperator + n);
        } else if r.source.System? && r.template {
          e := e.(outboundTemplate := e.outboundTemplate + n);
        } else if r.source.System? {
          e := e.(outboundTemplate := e.outboundTemplate + n);
        } else {
          e := e.(outboundOther := e.outboundOther + n);
        }
      }
      byOrg := Put(byOrg, r.orgId, e);
    }
    Conserved(rows, |rows|, byOrg);
    forall k, side | 0 <= k < |byOrg|
      ensures Of(byOrg[k].value, side) == SumRows(rows, |rows|, side, Some(byOrg[k].key))
    {
      OneItem(byOrg, |byOrg|, k, side);
    }
    EveryOrgListed(rows, |rows|);
    NoOtherOrg(rows, |rows|);
  }

  ghost predicate Listed(d: ByOrg, orgId: int) {
    exists i :: 0 <= i < |d| && d[i].key == orgId
  }

  lemma {:induction false} ListedPut(d: ByOrg, orgId: int, c: Counters, other: int)
    requires Listed(d, other) || other == orgId
    ensures Listed(Put(d, orgId, c), other)
  {
    var i, e := Find(d, |d|, orgId), Put(d, orgId, c);
    assert e[i].key == orgId;
    if other != orgId {
      var j :| 0 <= j < |d| && d[j].key == other;
      assert e[j].key == other;
    }
  }

  lemma {:induction false} EveryOrgListed(rows: seq<Row>, n: nat)
    requires n <= |rows|
    ensures forall k :: 0 <= k < n ==> Listed(After(rows, n), rows[k].orgId)
  {
    if n > 0 {
      EveryOrgListed(rows, n - 1);
      var before, r := After(rows, n - 1), rows[n - 1];
      forall k | 0 <= k < n ensures Listed(After(rows, n), rows[k].orgId) {
        ListedPut(before, r.orgId, Add(Get(before, r.orgId, ZERO), r), rows[k].orgId);
      }
    }
  }

  lemma {:induction false} NoOtherOrg(rows: seq<Row>, n: nat)
    requires n <= |rows|
    ensures forall i :: 0 <= i < |After(rows, n)| ==> FromRows(rows, n, After(rows, n)[i])
  {
    if n > 0 {
      NoOtherOrg(rows, n - 1);
      var before, r, now := After(rows, n - 1), rows[n - 1], After(rows, n);
      forall i | 0 <= i < |now| ensures FromRows(rows, n, now[i]) {
        if now[i].key == r.orgId && now[i].value == Add(Get(before, r.orgId, ZERO), r) {
          assert rows[n - 1].orgName == now[i].value.orgName;
        } else {
          assert now[i] == before[i] && FromRows(rows, n - 1, before[i]);
        }
      }
    }
  }

  // ---------------------------------------------------------------- conservation

  // The sum over the first n items of one organization, or of all of them.
  function SumItems(d: ByOrg, n: nat, side: Side, only: Option<int>): int
    requires n <= |d|
  {
    if n == 0 then 0 else SumItems(d, n - 1, side, only) + Part(d[n - 1], side, only)
  }

  function Part(x: Item<int, Counters>, side: Side, only: Option<int>): int {
    if only == None || only == Some(x.key) then Of(x.value, side) else 0
  }

  lemma {:induction false} SumItemsSame(a: ByOrg, b: ByOrg, n: nat, side: Side, only: Option<int>)
    requires n <= |a| && n <= |b| && forall i :: 0 <= i < n ==> a[i] == b[i]
    ensures SumItems(a, n, side, only) == SumItems(b, n, side, only)
  {
    if n > 0 {
      SumItemsSame(a, b, n - 1, side, only);
    }
  }

  lemma {:induction false} SumItemsAppend(d: ByOrg, x: Item<int, Counters>, side: Side, only: Option<int>)
    ensures SumItems(d + [x], |d + [x]|, side, only) == SumItems(d, |d|, side, only) + Part(x, side, only)
  {
    SumItemsSame(d + [x], d, |d|, side, only);
  }

  lemma {:induction false} SumItemsReplace(
    d: ByOrg, i: nat, x: Item<int, Counters>, n: nat, side: Side, only: Option<int>)
    requires i < n <= |d|
    ensures SumItems(d[i := x], n, side, only)
         == SumItems(d, n, side, only) + Part(x, side, only) - Part(d[i], side, only)
  {
    if i == n - 1 {
      SumItemsSame(d[i := x], d, n - 1, side, only);
    } else {
      SumItemsReplace(d, i, x, n - 1, side, only);
    }
  }

  lemma {:induction false} PutTotals(d: ByOrg, orgId: int, c: Counters, side: Side, only: Option<int>)
    ensures var e := Put(d, orgId, c);
            SumItems(e, |e|, side, only) == SumItems(d, |d|, side, only)
              + (if only == None || only == Some(orgId) then Of(c, side) - Of(Get(d, orgId, ZERO), side) else 0)
  {
    var i := Find(d, |d|, orgId);
    if i < |d| {
      SumItemsReplace(d, i, Item(orgId, c), |d|, side, only);
    } else {
      SumItemsAppend(d, Item(orgId, c), side, only);
    }
  }

  // One row moves every sum by exactly its own share.
  lemma {:induction false} StepTotals(d: ByOrg, r: Row, side: Side, only: Option<int>)
    ensures var e := Step(d, r);
            SumItems(e, |e|, side, only) == SumItems(d, |d|, side, only) + Share(r, side, only)
  {
    var c := Get(d, r.orgId, ZERO);
    AddAmount(c, r, side);
    PutTotals(d, r.orgId, Add(c, r), side, only);
  }

  // Nothing is lost and nothing counted twice, for each organization and in all.
  lemma {:induction false} TotalsConserved(rows: seq<Row>, n: nat, side: Side, only: Option<int>)
    requires n <= |rows|
    ensures SumItems(After(rows, n), |After(rows, n)|, side, only) == SumRows(rows, n, side, only)
  {
    if n > 0 {
      TotalsConserved(rows, n - 1, side, only);
      StepTotals(After(rows, n - 1), rows[n - 1], side, only);
    }
  }

  lemma {:induction false} OrgsDistinct(rows: seq<Row>, n: nat)
    requires n <= |rows|
    ensures DistinctKeys(After(rows, n))
  {
    if n > 0 {
      OrgsDistinct(rows, n - 1);
      var before, r := After(rows, n - 1), rows[n - 1];
      PutDistinct(before, r.orgId, Add(Get(before, r.orgId, ZERO), r));
    }
  }

  // With distinct keys an organization's sum is its one item.
  lemma {:induction false} OneItem(d: ByOrg, n: nat, k: nat, side: Side)
    requires DistinctKeys(d) && n <= |d| && k < |d|
    ensures SumItems(d, n, side, Some(d[k].key)) == if k < n then Of(d[k].value, side) else 0
  {
    if n > 0 {
      OneItem(d, n - 1, k, side);
    }
  }

  lemma {:induction false} Conserved(rows: seq<Row>, n: nat, d: ByOrg)
    requires n <= |rows| && d == After(rows, n)
    ensures DistinctKeys(d)
    ensures forall side, only :: SumItems(d, |d|, side, only) == SumRows(rows, n, side, only)
  {
    OrgsDistinct(rows, n);
    forall side, only ensures SumItems(d, |d|, side, only) == SumRows(rows, n, side, only) {
      TotalsConserved(rows, n, side, only);
    }
  }

  // ---------------------------------------------------------------- row order

  lemma {:induction false} SumRowsSame(a: seq<Row>, b: seq<Row>, n: nat, side: Side, only: Option<int>)
    requires n <= |a| && n <= |b| && forall i :: 0 <= i < n ==> a[i] == b[i]
    ensures SumRows(a, n, side, only) == SumRows(b, n, side, only)
  {
    if n > 0 {
      SumRowsSame(a, b, n - 1, side, only);
    }
  }

  // Taking one row out of the middle takes out its share.
  lemma {:induction false} SumRowsRemove(b: seq<Row>, j: nat, n: nat, side: Side, only: Option<int>)
    requires j < n <= |b|
    ensures SumRows(b, n, side, only)
         == SumRows(b[..j] + b[j + 1..], n - 1, side, only) + Share(b[j], side, only)
  {
    if n == j + 1 {
      SumRowsSame(b[..j] + b[j + 1..], b, j, side, only);
    } else {
      SumRowsRemove(b, j, n - 1, side, only);
    }
  }

  lemma {:induction false} RemoveFromBoth(a: seq<Row>, b: seq<Row>, j: nat)
    requires multiset(a) == multiset(b) && a != [] && j < |b| && b[j] == a[|a| - 1]
    ensures multiset(a[..|a| - 1]) == multiset(b[..j] + b[j + 1..])
  {
    var x := b[j];
    assert a == a[..|a| - 1] + [x];
    assert b == b[..j] + [x] + b[j + 1..];
    assert multiset(a[..|a| - 1]) == multiset(a) - multiset{x};
    assert multiset(b[..j] + b[j + 1..]) == multiset(b) - multiset{x};
  }

  // The database may deliver the rows in any order: no sum changes.
  lemma {:induction false} SumRowsPermuted(a: seq<Row>, b: seq<Row>, side: Side, only: Option<int>)
    requires multiset(a) == multiset(b)
    ensures SumRows(a, |a|, side, only) == SumRows(b, |b|, side, only)
    decreases |a|
  {
    assert |a| == |multiset(a)| == |multiset(b)| == |b|;
    if a != [] {
      var front, last := a[..|a| - 1], |a| - 1;
      assert a[last] in multiset(b);
      var j :| 0 <= j < |b| && b[j] == a[last];
      RemoveFromBoth(a, b, j);
      SumRowsPermuted(front, b[..j] + b[j + 1..], side, only);
      SumRowsSame(a, front, last, side, only);
      SumRowsRemove(b, j, |b|, side, only);
    }
  }

  // So no total of the rollup depends on it either.
  lemma {:induction false} TotalsPermuted(a: seq<Row>, b: seq<Row>, side: Side, only: Option<int>)
    requires multiset(a) == multiset(b)
    ensures var x, y := After(a, |a|), After(b, |b|);
            SumItems(x, |x|, side, only) == SumItems(y, |y|, side, only)
  {
    TotalsConserved(a, |a|, side, only);
    TotalsConserved(b, |b|, side, only);
    SumRowsPermuted(a, b, side, only);
  }
}
