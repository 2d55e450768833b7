// What the settings and the row policy come to: a reference in which a session
// has a scope and a private view, what it is shown, and what a commit publishes.
module TenantHistory {
  import opened Wrappers
  import opened Text
  import opened TenantRls
  import opened TenantIsolation

  // ---------------------------------------------------------------- the reference

  datatype Scope = Nothing | Tenant(org: int) | Everything

  predicate Shows(scope: Scope, row: Row) {
    match scope
    case Nothing => false
    case Tenant(org) => row.org == Some(org)
    case Everything => true
  }

  datatype Client = Client(
    org: Option<int>, bypass: bool, scope: Scope, pending: map<RowId, Option<Row>>, failed: bool)

  const NEWCOMER := Client(None, false, Nothing, map[], false)

  // The rows under a client's own changes.
  function View(committed: Table, pending: map<RowId, Option<Row>>): Table {
    (committed - pending.Keys) + map id | id in pending && pending[id].Some? :: pending[id].value
  }

  function Shown(view: Table, scope: Scope): Table {
    map id | id in view && Shows(scope, view[id]) :: view[id]
  }

  // A bypass wins until the transaction ends; otherwise the last tenant applied.
  function Applied(c: Client): Scope {
    if c.bypass || c.scope == Everything then Everything
    else if c.org.Some? then Tenant(c.org.value) else c.scope
  }

  datatype Reply = Reply(committed: Table, client: Client, out: Output)

  function Serve(committed: Table, c: Client, a: Action): Reply {
    var view := View(committed, c.pending);
    var ended := c.(scope := Nothing, pending := map[], failed := false);
    var broken := Reply(committed, c.(failed := true), Failed);
    match a
    case SetTenant(org) => Reply(committed, c.(org := org), Quiet)
    case SetBypassFlag(enabled) => Reply(committed, c.(bypass := enabled), Quiet)
    case Rollback => Reply(committed, ended, Quiet)
    case Commit => if c.failed then Reply(committed, ended, Failed) else Reply(view, ended, Quiet)
    case Apply => if c.failed then broken else Reply(committed, c.(scope := Applied(c)), Quiet)
    case Select => if c.failed then broken else Reply(committed, c, Rows(Shown(view, c.scope)))
    case Insert(id, row) =>
      if c.failed || id in view || !Shows(c.scope, row) then broken
      else Reply(committed, c.(pending := c.pending[id := Some(row)]), Affected(1))
    case Update(id, row) =>
      if c.failed then broken
      else if id !in Shown(view, c.scope) then Reply(committed, c, Affected(0))
      else if !Shows(c.scope, row) then broken
      else Reply(committed, c.(pending := c.pending[id := Some(row)]), Affected(1))
    case Delete(id) =>
      if c.failed then broken
      else if id !in Shown(view, c.scope) then Reply(committed, c, Affected(0))
      else Reply(committed, c.(pending := c.pending[id := None]), Affected(1))
  }

  datatype Reference = Reference(committed: Table, clients: map<int, Client>)

  function ClientOf(r: Reference, sid: int): Client {
    if sid in r.clients then r.clients[sid] else NEWCOMER
  }

  function RunReference(r: Reference, calls: seq<Call>, n: nat): Reference
    requires n <= |calls|
  {
    if n == 0 then r
    else
      var before, call := RunReference(r, calls, n - 1), calls[n - 1];
      var reply := Serve(before.committed, ClientOf(before, call.sid), call.action);
      Reference(reply.committed, before.clients[call.sid := reply.client])
  }

  // ---------------------------------------------------------------- refinement

  predicate Encodes(s: Settings, scope: Scope) {
    match scope
    case Nothing => Inert(s)
    case Tenant(o) => Int4(o) && s.org == Some(IntToString(o)) && (s.bypass == None || s.bypass == Some(""))
    case Everything => s.bypass == Some("true")
  }

  predicate Mirrors(s: Session, c: Client) {
    && s.context == Context(c.org, c.bypass) && s.writes == c.pending && s.failed == c.failed
    && Encodes(s.settings, c.scope)
    && (c.org.Some? ==> Int4(c.org.value))
  }

  lemma {:induction false} PassesIffShows(s: Settings, scope: Scope, row: Row)
    requires Encodes(s, scope)
    ensures Passes(s, row) <==> Shows(scope, row)
  {
    match scope
    case Nothing => InertPassesNothing(s, row);
    case Tenant(o) => BoundSeesOwn(s, o, row);
    case Everything =>
  }

  lemma {:induction false} ViewIsLookup(committed: Table, s: Session, id: RowId)
    ensures var view := View(committed, s.writes);
            && (id in view <==> Lookup(committed, s, id).Some?)
            && (id in view ==> Lookup(committed, s, id) == Some(view[id]))
  {
  }

  lemma {:induction false} SelectIsShown(committed: Table, s: Session, scope: Scope)
    requires Encodes(s.settings, scope)
    ensures SelectAll(committed, s) == Shown(View(committed, s.writes), scope)
    ensures forall id :: Sees(committed, s, id) <==> id in Shown(View(committed, s.writes), scope)
  {
    forall id ensures Sees(committed, s, id) <==> id in Shown(View(committed, s.writes), scope) {
      ViewIsLookup(committed, s, id);
      if Lookup(committed, s, id).Some? {
        PassesIffShows(s.settings, scope, Lookup(committed, s, id).value);
      }
    }
    forall id | id in SelectAll(committed, s)
      ensures SelectAll(committed, s)[id] == View(committed, s.writes)[id]
    {
      ViewIsLookup(committed, s, id);
    }
  }

  lemma {:induction false} OverlayIsView(committed: Table, writes: map<RowId, Option<Row>>)
    ensures Overlay(committed, writes) == View(committed, writes)
  {
  }

  predicate TenantFits(a: Action) {
    a.SetTenant? && a.org.Some? ==> Int4(a.org.value)
  }

  predicate Ends(a: Action) {
    a.Commit? || a.Rollback?
  }

  ghost predicate SameAnswer(committed: Table, s: Session, c: Client, a: Action) {
    var (next, out) := StepSession(committed, s, a);
    var reply := Serve(committed, c, a);
    Mirrors(next, reply.client) && out == reply.out && StepCommitted(committed, s, a) == reply.committed
  }

  lemma {:induction false} ContextMirrors(committed: Table, s: Session, c: Client, a: Action)
    requires Mirrors(s, c) && TenantFits(a) && (a.SetTenant? || a.SetBypassFlag? || a.Apply?)
    ensures SameAnswer(committed, s, c, a)
  {
  }

  lemma {:induction false} EndMirrors(committed: Table, s: Session, c: Client, a: Action)
    requires Mirrors(s, c) && Ends(a)
    ensures SameAnswer(committed, s, c, a)
  {
    OverlayIsView(committed, s.writes);
  }

  lemma {:induction false} InsertMirrors(committed: Table, s: Session, c: Client, id: RowId, row: Row)
    requires Mirrors(s, c)
    ensures SameAnswer(committed, s, c, Insert(id, row))
  {
    ViewIsLookup(committed, s, id);
    PassesIffShows(s.settings, c.scope, row);
  }

  lemma {:induction false} ReadMirrors(committed: Table, s: Session, c: Client, a: Action)
    requires Mirrors(s, c) && (a.Select? || a.Delete?)
    ensures SameAnswer(committed, s, c, a)
  {
    SelectIsShown(committed, s, c.scope);
  }

  lemma {:induction false} UpdateMirrors(committed: Table, s: Session, c: Client, id: RowId, row: Row)
    requires Mirrors(s, c)
    ensures SameAnswer(committed, s, c, Update(id, row))
  {
    SelectIsShown(committed, s, c.scope);
    PassesIffShows(s.settings, c.scope, row);
  }

  lemma {:induction false} StepMirrors(committed: Table, s: Session, c: Client, a: Action)
    requires Mirrors(s, c) && TenantFits(a)
    ensures SameAnswer(committed, s, c, a)
  {
    match a
    case SetTenant(_) | SetBypassFlag(_) | Apply => ContextMirrors(committed, s, c, a);
    case Commit | Rollback => EndMirrors(committed, s, c, a);
    case Insert(id, row) => InsertMirrors(committed, s, c, id, row);
    case Update(id, row) => UpdateMirrors(committed, s, c, id, row);
    case Select | Delete(_) => ReadMirrors(committed, s, c, a);
  }

  ghost predicate MirrorWorld(w: World, r: Reference) {
    w.committed == r.committed && forall sid :: Mirrors(SessionOf(w, sid), ClientOf(r, sid))
  }

  lemma {:induction false} NextMirrors(w: World, r: Reference, call: Call)
    requires MirrorWorld(w, r) && TenantFits(call.action)
    ensures var reply := Serve(r.committed, ClientOf(r, call.sid), call.action);
            && MirrorWorld(Next(w, call), Reference(reply.committed, r.clients[call.sid := reply.client]))
            && Result(w, call) == reply.out
  {
    StepMirrors(w.committed, SessionOf(w, call.sid), ClientOf(r, call.sid), call.action);
    var reply := Serve(r.committed, ClientOf(r, call.sid), call.action);
    var x, q := Next(w, call), Reference(reply.committed, r.clients[call.sid := reply.client]);
    forall sid ensures Mirrors(SessionOf(x, sid), ClientOf(q, sid)) {
      assert Mirrors(SessionOf(w, sid), ClientOf(r, sid));
    }
  }

  // In every run, of any sessions, bypassing or not, each statement answers as
  // the reference does, and the committed rows are the reference's.
  lemma {:induction false} RunMirrors(committed: Table, calls: seq<Call>, n: nat)
    requires n <= |calls| && forall i :: 0 <= i < |calls| ==> TenantFits(calls[i].action)
    ensures var w, r := Run(World(committed, map[]), calls, n), RunReference(Reference(committed, map[]), calls, n);
            && MirrorWorld(w, r)
            && (n < |calls| ==>
                  Result(w, calls[n]) == Serve(r.committed, ClientOf(r, calls[n].sid), calls[n].action).out)
  {
    var w, r := Run(World(committed, map[]), calls, n), RunReference(Reference(committed, map[]), calls, n);
    if n > 0 {
      RunMirrors(committed, calls, n - 1);
      NextMirrors(Run(World(committed, map[]), calls, n - 1),
                  RunReference(Reference(committed, map[]), calls, n - 1), calls[n - 1]);
    }
    if n < |calls| {
      NextMirrors(w, r, calls[n]);
    }
  }

  // ---------------------------------------------------------------- what a session is shown

  predicate BoundTo(s: Session, o: int) {
    Int4(o) && s.settings.org == Some(IntToString(o)) && (s.settings.bypass == None || s.settings.bypass == Some(""))
  }

  // Without changes of its own a session bound to a tenant is shown exactly the
  // rows of that tenant, and a bypassing one every row.
  lemma {:induction false} SelectsOwnRows(committed: Table, s: Session, o: int)
    requires !s.failed && s.writes == map[]
    ensures BoundTo(s, o) ==> StepSession(committed, s, Select).1 == Rows(OrgRows(committed, o))
    ensures s.settings.bypass == Some("true") ==> StepSession(committed, s, Select).1 == Rows(committed)
  {
    assert View(committed, map[]) == committed;
    if BoundTo(s, o) {
      SelectIsShown(committed, s, Tenant(o));
      assert Shown(committed, Tenant(o)) == OrgRows(committed, o);
    }
    if s.settings.bypass == Some("true") {
      SelectIsShown(committed, s, Everything);
      assert Shown(committed, Everything) == committed;
    }
  }

  // From the start: a session that binds a tenant and applies it is shown the
  // rows of that tenant, one that sets the bypass and applies it all rows.
  lemma {:induction false} FirstSelect(committed: Table, sid: int, o: int)
    requires Int4(o)
    ensures var w := World(committed, map[]);
            var bind := [Call(sid, SetTenant(Some(o))), Call(sid, Apply), Call(sid, Select)];
            var free := [Call(sid, SetBypassFlag(true)), Call(sid, Apply), Call(sid, Select)];
            && Result(Run(w, bind, 2), bind[2]) == Rows(OrgRows(committed, o))
            && Result(Run(w, free, 2), free[2]) == Rows(committed)
  {
    var w := World(committed, map[]);
    var bind := [Call(sid, SetTenant(Some(o))), Call(sid, Apply), Call(sid, Select)];
    var free := [Call(sid, SetBypassFlag(true)), Call(sid, Apply), Call(sid, Select)];
    assert Run(w, bind, 1) == Next(w, bind[0]) && Run(w, free, 1) == Next(w, free[0]);
    assert SessionOf(Run(w, bind, 1), sid) == FRESH.(context := Context(Some(o), false));
    assert SessionOf(Run(w, free, 1), sid) == FRESH.(context := Context(None, true));
    SelectsOwnRows(committed, SessionOf(Run(w, bind, 2), sid), o);
    SelectsOwnRows(committed, SessionOf(Run(w, free, 2), sid), o);
  }

  // ---------------------------------------------------------------- what a commit publishes

  function Committed(w: World, id: RowId): Option<Row> {
    if id in w.committed then Some(w.committed[id]) else None
  }

  // The row an accepted statement leaves under the id; None is a deleted one.
  ghost predicate Writes(a: Action, id: RowId, v: Option<Row>) {
    match a
    case Insert(i, row) => i == id && v == Some(row)
    case Update(i, row) => i == id && v == Some(row)
    case Delete(i) => i == id && v == None
    case _ => false
  }

  predicate Touches(a: Action, id: RowId) {
    (a.Insert? || a.Update? || a.Delete?) && a.id == id
  }

  // An accepted write at k, and neither the end of its transaction nor another
  // write of that id by its session since.
  ghost predicate Pending(w: World, calls: seq<Call>, k: nat, n: nat, id: RowId, v: Option<Row>)
    requires n <= |calls|
  {
    && k < n && Writes(calls[k].action, id, v) && Result(Run(w, calls, k), calls[k]) == Affected(1)
    && forall i :: k < i < n && calls[i].sid == calls[k].sid ==> !Ends(calls[i].action) && !Touches(calls[i].action, id)
  }

  lemma {:induction false} AcceptedIsWritten(committed: Table, s: Session, a: Action, id: RowId, v: Option<Row>)
    requires Writes(a, id, v) && StepSession(committed, s, a).1 == Affected(1)
    ensures var next := StepSession(committed, s, a).0;
            id in next.writes && next.writes[id] == v
  {
  }

  lemma {:induction false} WriteIsKept(committed: Table, s: Session, a: Action, id: RowId)
    requires id in s.writes && !Ends(a) && !Touches(a, id)
    ensures var next := StepSession(committed, s, a).0;
            id in next.writes && next.writes[id] == s.writes[id]
  {
  }

  lemma {:induction false} StaysPending(w: World, calls: seq<Call>, k: nat, n: nat, id: RowId, v: Option<Row>)
    requires n <= |calls| && Pending(w, calls, k, n, id, v)
    ensures var s := SessionOf(Run(w, calls, n), calls[k].sid);
            id in s.writes && s.writes[id] == v
  {
    var x := Run(w, calls, n - 1);
    var s := SessionOf(x, calls[k].sid);
    assert Run(w, calls, n) == Next(x, calls[n - 1]);
    if n == k + 1 {
      AcceptedIsWritten(x.committed, s, calls[k].action, id, v);
    } else {
      StaysPending(w, calls, k, n - 1, id, v);
      if calls[n - 1].sid == calls[k].sid {
        WriteIsKept(x.committed, s, calls[n - 1].action, id);
      }
    }
  }

  // No commit in between carries a change of the id.
  ghost predicate Untouched(w: World, calls: seq<Call>, m: nat, n: nat, id: RowId) {
    forall i {:trigger calls[i]} :: m <= i < n && i < |calls| && calls[i].action.Commit? ==>
      id !in SessionOf(Run(w, calls, i), calls[i].sid).writes
  }

  lemma {:induction false} CommittedStays(w: World, calls: seq<Call>, m: nat, n: nat, id: RowId)
    requires m <= n <= |calls| && Untouched(w, calls, m, n, id)
    ensures Committed(Run(w, calls, n), id) == Committed(Run(w, calls, m), id)
  {
    if m < n {
      CommittedStays(w, calls, m, n - 1, id);
    }
  }

  // What a session bound to o is shown of one id.
  ghost predicate ShowsRow(out: Output, o: int, id: RowId, v: Option<Row>) {
    && out.Rows?
    && (id in out.rows <==> v.Some? && v.value.org == Some(o))
    && (id in out.rows ==> v == Some(out.rows[id]))
  }

  lemma {:induction false} SelectShows(committed: Table, s: Session, o: int, id: RowId)
    requires BoundTo(s, o) && !s.failed
    ensures ShowsRow(StepSession(committed, s, Select).1, o, id, Lookup(committed, s, id))
  {
    SelectIsShown(committed, s, Tenant(o));
    ViewIsLookup(committed, s, id);
  }

  ghost predicate Asks(w: World, calls: seq<Call>, n: nat, o: int)
    requires n < |calls|
  {
    var s := SessionOf(Run(w, calls, n), calls[n].sid);
    calls[n].action == Select && BoundTo(s, o) && !s.failed
  }

  lemma {:induction false} PublishedAt(w: World, calls: seq<Call>, m: nat, id: RowId, v: Option<Row>)
    requires m < |calls| && calls[m].action == Commit && Result(Run(w, calls, m), calls[m]) == Quiet
    requires var s := SessionOf(Run(w, calls, m), calls[m].sid);
             id in s.writes && s.writes[id] == v
    ensures Committed(Run(w, calls, m + 1), id) == v
  {
    assert Run(w, calls, m + 1) == Next(Run(w, calls, m), calls[m]);
  }

  // A commit publishes: from then on, until another commit carries a change of
  // that id, every session bound to a tenant that has not changed the id itself
  // is shown what was written, if it is a row of its tenant.
  lemma {:induction false} CommitPublishes(
    w: World, calls: seq<Call>, k: nat, m: nat, n: nat, id: RowId, v: Option<Row>, o: int)
    requires m < n < |calls| && Pending(w, calls, k, m, id, v)
    requires calls[m] == Call(calls[k].sid, Commit) && Result(Run(w, calls, m), calls[m]) == Quiet
    requires Untouched(w, calls, m + 1, n, id)
    requires Asks(w, calls, n, o) && id !in SessionOf(Run(w, calls, n), calls[n].sid).writes
    ensures ShowsRow(Result(Run(w, calls, n), calls[n]), o, id, v)
  {
    StaysPending(w, calls, k, m, id, v);
    PublishedAt(w, calls, m, id, v);
    CommittedStays(w, calls, m + 1, n, id);
    SelectShows(Run(w, calls, n).committed, SessionOf(Run(w, calls, n), calls[n].sid), o, id);
  }

  // Before the commit the writer is shown it, and nobody else: the others are
  // shown what was committed when it was written.
  lemma {:induction false} PendingIsPrivate(
    w: World, calls: seq<Call>, k: nat, n: nat, id: RowId, v: Option<Row>, o: int)
    requires n < |calls| && Pending(w, calls, k, n, id, v) && Asks(w, calls, n, o)
    ensures calls[n].sid == calls[k].sid ==> ShowsRow(Result(Run(w, calls, n), calls[n]), o, id, v)
    ensures (calls[n].sid != calls[k].sid && Untouched(w, calls, k, n, id)
             && id !in SessionOf(Run(w, calls, n), calls[n].sid).writes) ==>
              ShowsRow(Result(Run(w, calls, n), calls[n]), o, id, Committed(Run(w, calls, k), id))
  {
    StaysPending(w, calls, k, n, id, v);
    SelectShows(Run(w, calls, n).committed, SessionOf(Run(w, calls, n), calls[n].sid), o, id);
    if Untouched(w, calls, k, n, id) {
      CommittedStays(w, calls, k, n, id);
    }
  }

  // After a rollback nobody is shown it, the writer included.
  lemma {:induction false} RollbackForgets(
    w: World, calls: seq<Call>, k: nat, m: nat, n: nat, id: RowId, v: Option<Row>, o: int)
    requires m < n < |calls| && Pending(w, calls, k, m, id, v) && calls[m] == Call(calls[k].sid, Rollback)
    requires Untouched(w, calls, k, n, id)
    requires Asks(w, calls, n, o) && id !in SessionOf(Run(w, calls, n), calls[n].sid).writes
    ensures ShowsRow(Result(Run(w, calls, n), calls[n]), o, id, Committed(Run(w, calls, k), id))
    ensures SessionOf(Run(w, calls, m + 1), calls[k].sid).writes == map[]
  {
    CommittedStays(w, calls, k, n, id);
    SelectShows(Run(w, calls, n).committed, SessionOf(Run(w, calls, n), calls[n].sid), o, id);
  }
}
