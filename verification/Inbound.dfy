// Accepting, queueing and retrying inbound messages: process_inbound_message and
// _save_inbound_chat_log in app/api/webhooks.py, app/services/whatsapp_idempotency.py
// and the per-chat queue of app/services/chat_serializer.py.
module Inbound {
  import opened Wrappers

  const MAX_RETRIES := 3
  const MAX_QUEUE_LEN := 20
  const STALE_AFTER := 900           // PROCESSING_STALE_AFTER, in seconds
  const DONE_KEY_TTL := STALE_AFTER  // WHATSAPP_INBOUND_REDIS_CACHE_TTL

  // ---------------------------------------------------------------- deduplication

  datatype Status = Processing | Done | Failed
  datatype Claim = Claim(status: Status, attempts: nat, claimedAt: int)

  predicate Claimable(rows: map<string, Claim>, id: string, now: int) {
    id !in rows || rows[id].status == Failed || rows[id].claimedAt < now - STALE_AFTER
  }

  // try_start_whatsapp_inbound_in_db.
  function TryStart(rows: map<string, Claim>, id: string, now: int): (map<string, Claim>, bool) {
    if id == "" then (rows, true)
    else if id !in rows then (rows[id := Claim(Processing, 1, now)], true)
    else if Claimable(rows, id, now) then (rows[id := Claim(Processing, rows[id].attempts + 1, now)], true)
    else (rows, false)
  }

  function Mark(rows: map<string, Claim>, id: string, status: Status): map<string, Claim> {
    if id != "" && id in rows then rows[id := rows[id].(status := status)] else rows
  }

  // The table, and in Redis the done keys with the time they expire.
  datatype Ledger = Ledger(rows: map<string, Claim>, keys: map<string, int>)

  // One event: a delivery asking to start, a committed verdict, after which the
  // done key is set as best it can, or Redis losing a key.
  datatype Event =
    | Start(id: string, now: int)
    | Finished(id: string, now: int, keySet: bool)
    | MarkFailed(id: string)
    | Evicted(id: string)

  function Next(l: Ledger, e: Event): Ledger {
    match e
    case Start(id, now) => l.(rows := TryStart(l.rows, id, now).0)
    case Finished(id, now, keySet) =>
      Ledger(Mark(l.rows, id, Done), if keySet then l.keys[id := now + DONE_KEY_TTL] else l.keys)
    case MarkFailed(id) => l.(rows := Mark(l.rows, id, Failed))
    case Evicted(id) => l.(keys := l.keys - {id})
  }

  function After(l: Ledger, events: seq<Event>, n: nat): Ledger
    requires n <= |events|
  {
    if n == 0 then l else Next(After(l, events, n - 1), events[n - 1])
  }

  predicate Accepted(l: Ledger, events: seq<Event>, k: nat)
    requires k < |events|
  {
    events[k].Start? && TryStart(After(l, events, k).rows, events[k].id, events[k].now).1
  }

  ghost predicate NoFailure(events: seq<Event>, id: string, i: nat, j: nat) {
    forall k :: i <= k < j && k < |events| ==> events[k] != MarkFailed(id)
  }

  ghost predicate NoStart(l: Ledger, events: seq<Event>, id: string, i: nat, j: nat) {
    forall k {:trigger Accepted(l, events, k)} ::
      i <= k < j && k < |events| && events[k].Start? && events[k].id == id ==> !Accepted(l, events, k)
  }

  // Between an accepted start and the next, with no failure in between, the
  // claim keeps its time and is not failed.
  lemma {:induction false} ClaimHeld(l: Ledger, events: seq<Event>, i: nat, n: nat)
    requires i < n <= |events| && events[i].Start? && events[i].id != "" && Accepted(l, events, i)
    requires NoFailure(events, events[i].id, i, n) && NoStart(l, events, events[i].id, i + 1, n)
    ensures var t := After(l, events, n).rows;
            events[i].id in t && t[events[i].id].claimedAt == events[i].now && t[events[i].id].status != Failed
  {
    if n > i + 1 {
      ClaimHeld(l, events, i, n - 1);
      if events[n - 1].Start? && events[n - 1].id == events[i].id {
        assert !Accepted(l, events, n - 1);
      }
    }
  }

  // Two consecutive accepted starts of one id, with no failure marked between
  // them, are more than fifteen minutes apart. That the first was marked done
  // makes no difference: "done" is not looked at.
  lemma {:induction false} StartsSpaced(l: Ledger, events: seq<Event>, i: nat, j: nat)
    requires i < j < |events| && events[i].Start? && events[j].Start?
    requires events[i].id == events[j].id != "" && Accepted(l, events, i) && Accepted(l, events, j)
    requires NoFailure(events, events[i].id, i, j) && NoStart(l, events, events[i].id, i + 1, j)
    ensures events[j].now > events[i].now + STALE_AFTER
  {
    ClaimHeld(l, events, i, j);
  }

  // The last verdict on an id from i on, before k, is a failure.
  ghost predicate FailedLast(events: seq<Event>, id: string, i: nat, k: nat) {
    exists j :: i <= j < k && j < |events| && events[j] == MarkFailed(id) && NoFinish(events, id, j, k)
  }

  ghost predicate NoFinish(events: seq<Event>, id: string, i: nat, j: nat) {
    forall k :: i <= k < j && k < |events| ==> !(events[k].Finished? && events[k].id == id)
  }

  // How many starts of an id were accepted.
  function Starts(l: Ledger, events: seq<Event>, n: nat, id: string): nat
    requires n <= |events|
  {
    if n == 0 then 0
    else Starts(l, events, n - 1, id)
         + if events[n - 1].id == id && Accepted(l, events, n - 1) then 1 else 0
  }

  lemma {:induction false} NeverClaimed(l: Ledger, events: seq<Event>, n: nat, id: string)
    requires n <= |events| && id != "" && id !in l.rows && NoStart(l, events, id, 0, n)
    ensures id !in After(l, events, n).rows && Starts(l, events, n, id) == 0
  {
    if n > 0 {
      NeverClaimed(l, events, n - 1, id);
      assert events[n - 1].Start? && events[n - 1].id == id ==> !Accepted(l, events, n - 1);
    }
  }

  // After an accepted start, until the next: the claim keeps its time, and its
  // status is the last verdict.
  lemma {:induction false} Claimed(l: Ledger, events: seq<Event>, i: nat, n: nat)
    requires i < n <= |events| && events[i].Start? && events[i].id != "" && Accepted(l, events, i)
    requires NoStart(l, events, events[i].id, i + 1, n)
    ensures var t, id := After(l, events, n).rows, events[i].id;
            && id in t && t[id].claimedAt == events[i].now
            && (t[id].status == Failed <==> FailedLast(events, id, i + 1, n))
            && (t[id].status == Processing || t[id].status == Done || t[id].status == Failed)
  {
    var id := events[i].id;
    if n > i + 1 {
      var e := events[n - 1];
      Claimed(l, events, i, n - 1);
      if e.Start? && e.id == id {
        assert !Accepted(l, events, n - 1);
      }
      if e == MarkFailed(id) {
        assert NoFinish(events, id, n - 1, n);
      } else if !(e.Finished? && e.id == id) {
        assert forall j :: NoFinish(events, id, j, n - 1) <==> NoFinish(events, id, j, n);
      }
    }
  }

  // Over every run that begins without a row for the id, which starts are
  // accepted, on the events alone: one without an id always; the first one; and
  // after an accepted one the next exactly when the last verdict since is a
  // failure or more than fifteen minutes have passed.
  lemma {:induction false} AcceptedIff(l: Ledger, events: seq<Event>, k: nat)
    requires k < |events| && events[k].Start? && events[k].id !in l.rows
    ensures events[k].id == "" ==> Accepted(l, events, k)
    ensures events[k].id != "" && NoStart(l, events, events[k].id, 0, k) ==> Accepted(l, events, k)
    ensures forall i {:trigger Accepted(l, events, i)} ::
              && 0 <= i < k && events[k].id != "" && events[i].Start? && events[i].id == events[k].id
              && Accepted(l, events, i) && NoStart(l, events, events[k].id, i + 1, k) ==>
                (Accepted(l, events, k) <==>
                   FailedLast(events, events[k].id, i + 1, k) || events[k].now > events[i].now + 900)
  {
    var id := events[k].id;
    if id != "" && NoStart(l, events, id, 0, k) {
      NeverClaimed(l, events, k, id);
    }
    forall i | 0 <= i < k && id != "" && events[i].Start? && events[i].id == id
               && Accepted(l, events, i) && NoStart(l, events, id, i + 1, k)
      ensures Accepted(l, events, k) <==> FailedLast(events, id, i + 1, k) || events[k].now > events[i].now + 900
    {
      Claimed(l, events, i, k);
    }
  }

  // A claim counts the starts that were accepted.
  lemma {:induction false} AttemptsCounted(l: Ledger, events: seq<Event>, n: nat, id: string)
    requires n <= |events| && id != "" && id !in l.rows
    ensures var t := After(l, events, n).rows;
            Starts(l, events, n, id) == if id in t then t[id].attempts else 0
    ensures id in After(l, events, n).rows ==> Starts(l, events, n, id) > 0
  {
    if n > 0 {
      AttemptsCounted(l, events, n - 1, id);
    }
  }

  ghost predicate SetsKey(l: Ledger, events: seq<Event>, k: nat, n: nat, id: string)
    requires n <= |events|
  {
    && k < n && events[k].Finished? && events[k].id == id && events[k].keySet
    && id in After(l, events, n).keys && After(l, events, n).keys[id] == events[k].now + DONE_KEY_TTL
    && (NoFailure(events, id, k + 1, n) && NoStart(l, events, id, k + 1, n) && id in After(l, events, n).rows ==>
          After(l, events, n).rows[id].status == Done)
  }

  // Over every run a done key stands for a verdict that was committed, expires
  // fifteen minutes after it, and the row, if there is one, says done unless it
  // was failed or claimed again since. A delivery whose claim failed to commit
  // goes on without a row.
  lemma {:induction false} KeyMeansDone(l: Ledger, events: seq<Event>, n: nat, id: string)
    requires n <= |events| && id != "" && id !in l.keys && id in After(l, events, n).keys
    ensures exists k: nat :: SetsKey(l, events, k, n, id)
  {
    if n > 0 {
      var e := events[n - 1];
      if e.Finished? && e.id == id && e.keySet {
        assert SetsKey(l, events, n - 1, n, id);
      } else {
        KeyMeansDone(l, events, n - 1, id);
        var k: nat :| SetsKey(l, events, k, n - 1, id);
        if e.Start? && e.id == id && NoStart(l, events, id, k + 1, n) {
          assert !Accepted(l, events, n - 1);
        }
        assert SetsKey(l, events, k, n, id);
      }
    }
  }

  // The webhook skips a delivery whose done key holds; the job then asks to start.
  predicate Admitted(l: Ledger, id: string, now: int) {
    !(id in l.keys && now < l.keys[id]) && TryStart(l.rows, id, now).1
  }

  lemma {:induction false} Untouched(l: Ledger, events: seq<Event>, k: nat, n: nat, id: string)
    requires k <= n <= |events| && forall i :: k <= i < n ==> events[i].id != id
    ensures var a, b := After(l, events, k), After(l, events, n);
            && (id in a.rows <==> id in b.rows) && (id in a.rows ==> a.rows[id] == b.rows[id])
            && (id in a.keys <==> id in b.keys) && (id in a.keys ==> a.keys[id] == b.keys[id])
  {
    if k < n {
      Untouched(l, events, k, n - 1, id);
    }
  }

  // So a redelivery of a finished message is let in again exactly when its
  // claim is more than fifteen minutes old and its done key, set by this finish
  // or an earlier one, has expired.
  lemma {:induction false} FinishedAgainIff(l: Ledger, events: seq<Event>, k: nat, n: nat, now: int)
    requires k < n <= |events| && events[k].Finished? && events[k].id != ""
    requires events[k].id in After(l, events, k).rows
    requires forall i :: k < i < n ==> events[i].id != events[k].id
    ensures var id, before, keys := events[k].id, After(l, events, k), After(l, events, k + 1).keys;
            && (Admitted(After(l, events, n), id, now) <==>
                  && before.rows[id].claimedAt < now - STALE_AFTER
                  && (id in keys ==> keys[id] <= now))
            && (if events[k].keySet then id in keys && keys[id] == events[k].now + DONE_KEY_TTL
                else keys == before.keys)
  {
    Untouched(l, events, k + 1, n, events[k].id);
  }

  // ---------------------------------------------------------------- the inbound log

  datatype LogRow = LogRow(orgId: int, userId: int, role: string, content: string, messageId: Option<string>)

  predicate SameMessage(r: LogRow, orgId: int, userId: int, id: string) {
    r.orgId == orgId && r.userId == userId && r.role == "user" && r.messageId == Some(id)
  }

  function CountOf(log: seq<LogRow>, n: nat, orgId: int, userId: int, id: string): nat
    requires n <= |log|
  {
    if n == 0 then 0
    else CountOf(log, n - 1, orgId, userId, id) + if SameMessage(log[n - 1], orgId, userId, id) then 1 else 0
  }

  lemma {:induction false} CountPrefix(a: seq<LogRow>, b: seq<LogRow>, n: nat, orgId: int, userId: int, id: string)
    requires n <= |a| && n <= |b| && forall i :: 0 <= i < n ==> a[i] == b[i]
    ensures CountOf(a, n, orgId, userId, id) == CountOf(b, n, orgId, userId, id)
  {
    if n > 0 {
      CountPrefix(a, b, n - 1, orgId, userId, id);
    }
  }

  lemma {:induction false} CountZero(log: seq<LogRow>, n: nat, orgId: int, userId: int, id: string)
    requires n <= |log|
    ensures CountOf(log, n, orgId, userId, id) == 0 <==>
              forall i :: 0 <= i < n ==> !SameMessage(log[i], orgId, userId, id)
  {
    if n > 0 {
      CountZero(log, n - 1, orgId, userId, id);
    }
  }

  // ---------------------------------------------------------------- one item, with retries

  class Store {
    var ledger: Ledger
    var failedTasks: seq<string>
    var log: seq<LogRow>

    // True when a row was added.
    method SaveInbound(orgId: int, userId: int, text: string, id: string) returns (created: bool)
      modifies this`log
      ensures created <==> id == "" || forall r :: r in old(log) ==>
                !(r.orgId == orgId && r.userId == userId && r.role == "user" && r.messageId == Some(id))
      ensures created ==> log == old(log) + [LogRow(orgId, userId, "user", text, if id == "" then None else Some(id))]
      ensures !created ==> log == old(log)
      ensures id != "" && CountOf(old(log), |old(log)|, orgId, userId, id) <= 1 ==>
                CountOf(log, |log|, orgId, userId, id) == 1
    {
      CountZero(log, |log|, orgId, userId, id);
      if id != "" {
        for i := 0 to |log|
          invariant forall k :: 0 <= k < i ==> !SameMessage(log[k], orgId, userId, id)
        {
          if SameMessage(log[i], orgId, userId, id) {
            return false;
          }
        }
      }
      var row := LogRow(orgId, userId, "user", text, if id == "" then None else Some(id));
      CountPrefix(log + [row], log, |log|, orgId, userId, id);
      log := log + [row];
      return true;
    }

    // One pass of process_message, seen from here: it may get as far as the
    // inbound log, and it returns or raises.
    method ProcessMessage(orgId: int, userId: int, text: string, id: string, logs: bool, ok: bool) returns (done: bool)
      modifies this`log
      ensures done == ok
      ensures id != "" && CountOf(old(log), |old(log)|, orgId, userId, id) <= 1 ==>
                CountOf(log, |log|, orgId, userId, id) <= 1
    {
      if logs {
        var _ := SaveInbound(orgId, userId, text, id);
      }
      return ok;
    }

    // _process_payload_item. `oks` and `logs` are the outcomes of the three
    // possible passes; the commits of the verdicts and of the failed task and
    // the setting of the done key may each fail and are then only logged.
    method ProcessItem(
      orgId: int, userId: int, text: string, id: string, oks: seq<bool>, logs: seq<bool>, now: int,
      doneCommits: bool, keySet: bool, taskSaved: bool, failureCommits: bool) returns (runs: nat, succeeded: bool)
      requires |oks| == |logs| == 3
      modifies this
      ensures 1 <= runs <= 3
      ensures succeeded <==> oks[runs - 1]
      ensures forall k :: 0 <= k < runs - 1 ==> !oks[k]
      ensures !succeeded ==> runs == 3
      ensures failedTasks == if !succeeded && taskSaved then old(failedTasks) + [text] else old(failedTasks)
      ensures ledger == if succeeded && id != "" && doneCommits then Next(old(ledger), Finished(id, now, keySet))
                        else if !succeeded && id != "" && failureCommits then Next(old(ledger), MarkFailed(id))
                        else old(ledger)
      ensures id != "" && CountOf(old(log), |old(log)|, orgId, userId, id) <= 1 ==>
                CountOf(log, |log|, orgId, userId, id) <= 1
    {
      var attempt := 0;
      while attempt < MAX_RETRIES
        invariant attempt <= MAX_RETRIES && forall k :: 0 <= k < attempt ==> !oks[k]
        invariant ledger == old(ledger) && failedTasks == old(failedTasks)
        invariant id != "" && CountOf(old(log), |old(log)|, orgId, userId, id) <= 1 ==>
                    CountOf(log, |log|, orgId, userId, id) <= 1
      {
        var ok := ProcessMessage(orgId, userId, text, id, logs[attempt], oks[attempt]);
        if ok {
          if id != "" {
            if doneCommits {
              ledger := ledger.(rows := Mark(ledger.rows, id, Done));
              if keySet {
                ledger := ledger.(keys := ledger.keys[id := now + DONE_KEY_TTL]);
              }
            }
          }
          return attempt + 1, true;
        }
        attempt := attempt + 1;
      }
      if taskSaved {
        failedTasks := failedTasks + [text];
      }
      if id != "" && failureCommits {
        ledger := ledger.(rows := Mark(ledger.rows, id, Failed));
      }
      return MAX_RETRIES, false;
    }
  }

  // ---------------------------------------------------------------- the per-chat queue

  datatype Payload = Payload(id: string, text: string)

  predicate Queued(q: seq<Payload>, id: string) {
    exists i :: 0 <= i < |q| && q[i].id == id
  }

  class ChatQueue {
    var items: seq<Payload>
    ghost var accepted: seq<Payload>  // everything that was appended
    ghost var left: seq<Payload>      // everything that went out, drained or trimmed

    // First in, first out, nothing lost but at the front, never over the limit,
    // and no message waiting twice.
    ghost predicate Valid() reads this {
      && left + items == accepted && |items| <= 20
      && forall i, j :: 0 <= i < j < |items| && items[i].id == items[j].id ==> items[i].id == ""
    }

    constructor ()
      ensures Valid() && items == [] && accepted == []
    {
      items, accepted, left := [], [], [];
    }

    method Enqueue(p: Payload) returns (length: nat)
      requires Valid()
      modifies this
      ensures Valid() && length == |items|
      ensures var waits := p.id != "" && exists i :: 0 <= i < |old(items)| && old(items)[i].id == p.id;
              if waits then items == old(items) && accepted == old(accepted)
              else
                && accepted == old(accepted) + [p]
                && items == old(items)[if |old(items)| < 20 then 0 else 1..] + [p]
    {
      if p.id != "" && Queued(items, p.id) {
        return |items|;
      }
      while |items| >= MAX_QUEUE_LEN
        invariant Valid() && accepted == old(accepted)
        invariant items == old(items) || (|old(items)| == MAX_QUEUE_LEN && items == old(items)[1..])
        decreases |items|
      {
        left := left + [items[0]];
        items := items[1..];
      }
      items := items + [p];
      accepted := accepted + [p];
      return |items|;
    }

    method DrainNext() returns (r: Option<Payload>)
      requires Valid()
      modifies this
      ensures Valid() && accepted == old(accepted)
      ensures old(items) == [] ==> r == None && items == []
      ensures old(items) != [] ==> r == Some(old(items)[0]) && items == old(items)[1..]
    {
      if items == [] {
        return None;
      }
      r := Some(items[0]);
      left := left + [items[0]];
      items := items[1..];
    }
  }
}
