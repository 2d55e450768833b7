// app/db/session.py: InMemoryRedis and its pipeline.
module MemoryRedis {
  import opened Wrappers

  // ---------------------------------------------------------------- slices

  // Python's data[lo:hi]: negative bounds count from the end, then both are
  // clamped into the list.
  function Clamp(i: int, size: nat): (j: nat)
    ensures j <= size
  {
    if i < 0 then (if i + size < 0 then 0 else i + size) else if i > size then size else i
  }

  function Slice<T>(data: seq<T>, lo: int, hi: int): seq<T> {
    var a, b := Clamp(lo, |data|), Clamp(hi, |data|);
    if a < b then data[a..b] else []
  }

  // LRANGE and LTRIM as Redis documents them: both ends inclusive, negative
  // indices from the end, out-of-range ends tolerated.
  ghost predicate InRange(i: int, size: nat, start: int, stop: int) {
    var lo := if start < 0 then start + size else start;
    var hi := if stop < 0 then stop + size else stop;
    0 <= i < size && lo <= i <= hi
  }

  ghost predicate IsRangeFrom<T>(a: nat, r: seq<T>, data: seq<T>, start: int, stop: int) {
    && a + |r| <= |data| && r == data[a..a + |r|]
    && forall i :: 0 <= i < |data| ==> (a <= i < a + |r| <==> InRange(i, |data|, start, stop))
  }

  ghost predicate IsRange<T>(r: seq<T>, data: seq<T>, start: int, stop: int) {
    exists a: nat :: IsRangeFrom(a, r, data, start, stop)
  }

  function Range<T>(data: seq<T>, start: int, end: int): seq<T> {
    if end == -1 then Slice(data, start, |data|) else Slice(data, start, end + 1)
  }

  // The Python slices give the Redis range, for every pair of integers.
  lemma {:induction false} RangeIsRedisRange<T>(data: seq<T>, start: int, stop: int)
    ensures IsRange(Range(data, start, stop), data, start, stop)
  {
    var r := Range(data, start, stop);
    var a := Clamp(start, |data|);
    var b := Clamp(if stop == -1 then |data| else stop + 1, |data|);
    if a < b {
      assert r == data[a..a + |r|];
    } else {
      assert r == data[a..a];
    }
    assert IsRangeFrom(a, r, data, start, stop);
  }

  lemma {:induction false} RangeWithin<T>(
    a: nat, r: seq<T>, b: nat, r': seq<T>, data: seq<T>, start: int, stop: int)
    requires IsRangeFrom(a, r, data, start, stop) && IsRangeFrom(b, r', data, start, stop)
    ensures |r| > 0 ==> b <= a && a + |r| <= b + |r'|
  {
    if |r| > 0 {
      assert InRange(a, |data|, start, stop) && InRange(a + |r| - 1, |data|, start, stop);
    }
  }

  // A range is determined by its documentation.
  lemma {:induction false} RangeUnique<T>(r: seq<T>, r': seq<T>, data: seq<T>, start: int, stop: int)
    requires IsRange(r, data, start, stop) && IsRange(r', data, start, stop)
    ensures r == r'
  {
    var a: nat :| IsRangeFrom(a, r, data, start, stop);
    var b: nat :| IsRangeFrom(b, r', data, start, stop);
    RangeWithin(a, r, b, r', data, start, stop);
    RangeWithin(b, r', a, r, data, start, stop);
  }

  // ---------------------------------------------------------------- the store

  function ListAt(lists: map<string, seq<string>>, key: string): seq<string> {
    if key in lists then lists[key] else []
  }

  function SetAt(sets: map<string, set<string>>, key: string): set<string> {
    if key in sets then sets[key] else {}
  }

  function Elements(values: seq<string>): set<string> {
    set v | v in values
  }

  lemma {:induction false} ElementsNext(values: seq<string>, i: nat)
    requires i < |values|
    ensures Elements(values[..i + 1]) == Elements(values[..i]) + {values[i]}
  {
    assert values[..i + 1] == values[..i] + [values[i]];
  }

  lemma {:induction false} AddNext(start: set<string>, values: seq<string>, i: nat, bucket: set<string>)
    requires i < |values| && bucket == start + Elements(values[..i])
    ensures start + Elements(values[..i + 1]) == bucket + {values[i]}
    ensures |bucket| <= |bucket + {values[i]}|
  {
    ElementsNext(values, i);
    if values[i] in bucket {
      assert bucket + {values[i]} == bucket;
    }
  }

  lemma {:induction false} RemoveNext(start: set<string>, values: seq<string>, i: nat, bucket: set<string>)
    requires i < |values| && bucket == start - Elements(values[..i])
    ensures start - Elements(values[..i + 1]) == bucket - {values[i]}
    ensures values[i] !in bucket ==> bucket - {values[i]} == bucket
  {
    ElementsNext(values, i);
  }

  datatype Command =
    | RPush(key: string, value: string)
    | LTrim(key: string, start: int, end: int)
    | Expire(key: string, ttl: int)

  datatype Reply = Length(n: nat) | Done

  // What Redis does to its lists: a missing key is an empty list.
  function Apply(lists: map<string, seq<string>>, c: Command): map<string, seq<string>> {
    match c
    case RPush(key, value) => lists[key := ListAt(lists, key) + [value]]
    case LTrim(key, start, end) =>
      if key in lists then lists[key := Range(lists[key], start, end)] else lists
    case Expire(_, _) => lists
  }

  function ApplyFirst(lists: map<string, seq<string>>, cs: seq<Command>, n: nat): map<string, seq<string>>
    requires n <= |cs|
  {
    if n == 0 then lists else Apply(ApplyFirst(lists, cs, n - 1), cs[n - 1])
  }

  class InMemoryRedis {
    var lists: map<string, seq<string>>
    var kv: map<string, string>
    var sets: map<string, set<string>>

    constructor ()
      ensures lists == map[] && kv == map[] && sets == map[]
    {
      lists, kv, sets := map[], map[], map[];
    }

    method Get(key: string) returns (r: Option<string>)
      ensures r == if key in kv then Some(kv[key]) else None
    {
      r := if key in kv then Some(kv[key]) else None;
    }

    // The expiry argument is accepted and ignored.
    method Set(key: string, value: string, ex: Option<int>, nx: bool) returns (r: Option<bool>)
      modifies this`kv
      ensures r == if nx && key in old(kv) then None else Some(true)
      ensures kv == if nx && key in old(kv) then old(kv) else old(kv)[key := value]
    {
      if nx && key in kv {
        return None;
      }
      kv := kv[key := value];
      return Some(true);
    }

    method SAdd(key: string, values: seq<string>) returns (added: nat)
      modifies this`sets
      ensures sets == old(sets)[key := SetAt(old(sets), key) + Elements(values)]
      ensures |SetAt(sets, key)| == |SetAt(old(sets), key)| + added
    {
      var bucket := SetAt(sets, key);
      ghost var start := bucket;
      var before := |bucket|;
      for i := 0 to |values|
        invariant sets == old(sets)
        invariant bucket == start + Elements(values[..i]) && before <= |bucket|
      {
        AddNext(start, values, i, bucket);
        bucket := bucket + {values[i]};
      }
      assert values[..|values|] == values;
      sets := sets[key := bucket];
      added := |bucket| - before;
    }

    method SRem(key: string, values: seq<string>) returns (removed: nat)
      modifies this`sets
      ensures sets == if key in old(sets) then old(sets)[key := old(sets)[key] - Elements(values)] else old(sets)
      ensures |SetAt(sets, key)| + removed == |SetAt(old(sets), key)|
    {
      var bucket := SetAt(sets, key);
      ghost var start := bucket;
      removed := 0;
      for i := 0 to |values|
        invariant sets == old(sets)
        invariant bucket == start - Elements(values[..i]) && |bucket| + removed == |start|
      {
        RemoveNext(start, values, i, bucket);
        if values[i] in bucket {
          bucket := bucket - {values[i]};
          removed := removed + 1;
        }
      }
      assert values[..|values|] == values;
      // The bucket of a missing key is a temporary that is thrown away.
      if key in sets {
        sets := sets[key := bucket];
      }
    }

    method LRange(key: string, start: int, end: int) returns (r: seq<string>)
      ensures IsRange(r, ListAt(lists, key), start, end)
    {
      var data := ListAt(lists, key);
      r := Range(data, start, end);
      RangeIsRedisRange(data, start, end);
    }

    method LLen(key: string) returns (n: nat)
      ensures n == |ListAt(lists, key)|
    {
      n := |ListAt(lists, key)|;
    }

    method RPush(key: string, value: string) returns (n: nat)
      modifies this`lists
      ensures lists == Apply(old(lists), Command.RPush(key, value))
      ensures n == |ListAt(lists, key)|
    {
      if key !in lists {
        lists := lists[key := []];
      }
      lists := lists[key := lists[key] + [value]];
      n := |lists[key]|;
    }

    method LPop(key: string) returns (r: Option<string>)
      modifies this`lists
      ensures var data := ListAt(old(lists), key);
              && (data == [] ==> r == None && lists == old(lists))
              && (data != [] ==> r == Some(data[0]) && lists == old(lists)[key := data[1..]])
    {
      var items := ListAt(lists, key);
      if items == [] {
        return None;
      }
      lists := lists[key := items[1..]];
      return Some(items[0]);
    }

    method LTrim(key: string, start: int, end: int)
      modifies this`lists
      ensures lists == Apply(old(lists), Command.LTrim(key, start, end))
    {
      if key in lists {
        lists := lists[key := Range(lists[key], start, end)];
      }
    }

    // Lists and plain keys only: a set of the same name survives.
    method Delete(key: string)
      modifies this`lists, this`kv
      ensures lists == old(lists) - {key} && kv == old(kv) - {key}
    {
      lists, kv := lists - {key}, kv - {key};
    }
  }

  // A push answers the length of its list then; the others answer nothing.
  function ReplyTo(lists: map<string, seq<string>>, cs: seq<Command>, j: nat): Reply
    requires j < |cs|
  {
    match cs[j]
    case RPush(key, _) => Length(|ListAt(ApplyFirst(lists, cs, j), key)| + 1)
    case LTrim(_, _, _) => Done
    case Expire(_, _) => Done
  }

  ghost predicate AreReplies(lists: map<string, seq<string>>, cs: seq<Command>, replies: seq<Reply>) {
    |replies| == |cs| && forall j :: 0 <= j < |cs| ==> replies[j] == ReplyTo(lists, cs, j)
  }

  class InMemoryPipeline {
    const store: InMemoryRedis
    var commands: seq<Command>

    constructor (store: InMemoryRedis)
      ensures this.store == store && commands == []
    {
      this.store, commands := store, [];
    }

    method Push(c: Command)
      modifies this
      ensures commands == old(commands) + [c]
    {
      commands := commands + [c];
    }

    // Runs the commands in order and keeps them: a second execute would run
    // them all again.
    method Execute() returns (replies: seq<Reply>)
      modifies store`lists
      ensures store.lists == ApplyFirst(old(store.lists), commands, |commands|)
      ensures AreReplies(old(store.lists), commands, replies)
    {
      replies := [];
      for i := 0 to |commands|
        invariant store.lists == ApplyFirst(old(store.lists), commands, i)
        invariant |replies| == i && forall j :: 0 <= j < i ==> replies[j] == ReplyTo(old(store.lists), commands, j)
      {
        match commands[i]
        case RPush(key, value) =>
          var n := store.RPush(key, value);
          replies := replies + [Length(n)];
        case LTrim(key, start, end) =>
          store.LTrim(key, start, end);
          replies := replies + [Done];
        case Expire(_, _) =>
          replies := replies + [Done];
      }
    }
  }

  // ---------------------------------------------------------------- whole runs

  // The last k elements.
  function Last<T>(data: seq<T>, k: nat): seq<T> {
    if |data| <= k then data else data[|data| - k..]
  }

  // dialog_mgr.append_to_history: one pipeline that pushes, trims and expires.
  method AppendToHistory(redis: InMemoryRedis, key: string, message: string, k: int)
    requires k >= 1
    modifies redis
    ensures ListAt(redis.lists, key) == Last(ListAt(old(redis.lists), key) + [message], k)
    ensures forall other :: other != key ==> ListAt(redis.lists, other) == ListAt(old(redis.lists), other)
  {
    var pipe := new InMemoryPipeline(redis);
    pipe.Push(RPush(key, message));
    pipe.Push(LTrim(key, -k, -1));
    pipe.Push(Expire(key, 86400));
    ghost var lists, cs := redis.lists, pipe.commands;
    assert cs == [RPush(key, message), LTrim(key, -k, -1), Expire(key, 86400)];
    var _ := pipe.Execute();
    assert redis.lists == Apply(Apply(Apply(lists, cs[0]), cs[1]), cs[2]) by {
      assert ApplyFirst(lists, cs, 1) == Apply(lists, cs[0]);
      assert ApplyFirst(lists, cs, 2) == Apply(ApplyFirst(lists, cs, 1), cs[1]);
      assert ApplyFirst(lists, cs, 3) == Apply(ApplyFirst(lists, cs, 2), cs[2]);
    }
    TrimKeepsLast(ListAt(lists, key) + [message], k);
  }

  lemma {:induction false} TrimKeepsLast<T>(data: seq<T>, k: int)
    requires k >= 1
    ensures Range(data, -k, -1) == Last(data, k)
  {
    assert data[0..|data|] == data;
  }

  // Keeping the last k of each prefix keeps the last k of the whole: over any
  // run of appends the history is the last k messages ever appended.
  function Window<T>(data: seq<T>, n: nat, k: nat): seq<T>
    requires n <= |data|
  {
    if n == 0 then [] else Last(Window(data, n - 1, k) + [data[n - 1]], k)
  }

  lemma {:induction false} LastOfLast<T>(data: seq<T>, x: T, k: nat)
    ensures Last(Last(data, k) + [x], k) == Last(data + [x], k)
  {
    if |data| > k {
      assert Last(data, k) + [x] == (data + [x])[|data| - k..];
    }
  }

  lemma {:induction false} HistoryIsLastMessages<T>(data: seq<T>, n: nat, k: nat)
    requires n <= |data|
    ensures Window(data, n, k) == Last(data[..n], k)
  {
    if n > 0 {
      HistoryIsLastMessages(data, n - 1, k);
      assert data[..n] == data[..n - 1] + [data[n - 1]];
      LastOfLast(data[..n - 1], data[n - 1], k);
    }
  }

  method AppendAll(redis: InMemoryRedis, key: string, messages: seq<string>, k: int)
    requires k >= 1 && ListAt(redis.lists, key) == []
    modifies redis
    ensures ListAt(redis.lists, key) == Last(messages, k)
  {
    for i := 0 to |messages|
      invariant ListAt(redis.lists, key) == Window(messages, i, k)
    {
      AppendToHistory(redis, key, messages[i], k);
    }
    HistoryIsLastMessages(messages, |messages|, k);
    assert messages[..|messages|] == messages;
  }

  // Queue discipline: Some(v) pushes v, None pops.
  method RunQueue(redis: InMemoryRedis, key: string, ops: seq<Option<string>>)
    returns (pushed: seq<string>, popped: seq<string>)
    requires ListAt(redis.lists, key) == []
    modifies redis
    ensures popped + ListAt(redis.lists, key) == pushed
    ensures pushed == Pushes(ops, |ops|)
  {
    pushed, popped := [], [];
    for i := 0 to |ops|
      invariant popped + ListAt(redis.lists, key) == pushed
      invariant pushed == Pushes(ops, i)
    {
      match ops[i]
      case Some(v) =>
        var _ := redis.RPush(key, v);
        pushed := pushed + [v];
      case None =>
        var r := redis.LPop(key);
        if r.Some? {
          popped := popped + [r.value];
        }
    }
  }

  function Pushes(ops: seq<Option<string>>, n: nat): seq<string>
    requires n <= |ops|
  {
    if n == 0 then []
    else if ops[n - 1].Some? then Pushes(ops, n - 1) + [ops[n - 1].value]
    else Pushes(ops, n - 1)
  }

  // Membership counting: the replies of SADD minus the replies of SREM are the
  // size of the set.
  datatype SetOp = Add(values: seq<string>) | Rem(values: seq<string>)

  method RunSet(redis: InMemoryRedis, key: string, ops: seq<SetOp>) returns (added: nat, removed: nat)
    requires SetAt(redis.sets, key) == {}
    modifies redis
    ensures |SetAt(redis.sets, key)| + removed == added
    ensures SetAt(redis.sets, key) == Members(ops, |ops|)
  {
    added, removed := 0, 0;
    for i := 0 to |ops|
      invariant |SetAt(redis.sets, key)| + removed == added
      invariant SetAt(redis.sets, key) == Members(ops, i)
    {
      match ops[i]
      case Add(values) =>
        var n := redis.SAdd(key, values);
        added := added + n;
      case Rem(values) =>
        var n := redis.SRem(key, values);
        removed := removed + n;
    }
  }

  function Members(ops: seq<SetOp>, n: nat): set<string>
    requires n <= |ops|
  {
    if n == 0 then {}
    else match ops[n - 1]
      case Add(values) => Members(ops, n - 1) + Elements(values)
      case Rem(values) => Members(ops, n - 1) - Elements(values)
  }
}
