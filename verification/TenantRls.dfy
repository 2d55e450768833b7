// app/db/tenant_rls.py, the row policy of alembic/versions/20260609_tenant_rls.py,
// and the transaction bracket of app/db/session.py (get_db).
module TenantRls {
  import opened Wrappers
  import opened Text

  // ---------------------------------------------------------------- the policy

  datatype RowId = RowId(table: string, id: int)
  datatype Row = Row(org: Option<int>, data: string)  // organization_id may be NULL

  // current_setting(name, true) for the two settings; None is NULL.
  datatype Settings = Settings(org: Option<string>, bypass: Option<string>)

  datatype Truth = True | False | Null

  function Or3(a: Truth, b: Truth): Truth {
    if a.True? || b.True? then True else if a.Null? || b.Null? then Null else False
  }

  function Eq3<T(==)>(a: Option<T>, b: Option<T>): Truth {
    if a.None? || b.None? then Null else if a == b then True else False
  }

  function NullIf(s: Option<string>, t: string): Option<string> {
    if s == Some(t) then None else s
  }

  function Coalesce(s: Option<string>, t: string): string {
    if s.Some? then s.value else t
  }

  predicate Int4(i: int) {
    -0x8000_0000 <= i < 0x8000_0000
  }

  // ::integer; a text that is not one makes the statement fail, which here shows
  // no row. Settings written by apply_tenant_rls are printed integers.
  function CastInteger(s: Option<string>): Option<int> {
    if s.None? then None
    else
      match ParseInt(s.value)
      case None => None
      case Some(i) => if Int4(i) then Some(i) else None
  }

  // The text shared by USING and WITH CHECK.
  function Policy(s: Settings, row: Row): Truth {
    Or3(if Coalesce(s.bypass, "") == "true" then True else False,
        Eq3(row.org, CastInteger(NullIf(s.org, ""))))
  }

  predicate Passes(s: Settings, row: Row) {
    Policy(s, row) == True
  }

  // ---------------------------------------------------------------- context and settings

  // The two ContextVars of a task.
  datatype Context = Context(org: Option<int>, bypass: bool)

  function ApplySettings(c: Context, s: Settings): Settings {
    if c.bypass then s.(bypass := Some("true"))
    else if c.org.Some? then s.(org := Some(IntToString(c.org.value)))
    else s
  }

  // set_config(..., true) lasts until the transaction ends; a custom setting
  // that was given one reads as the empty string afterwards.
  function EndTransaction(s: Settings): Settings {
    Settings(if s.org.None? then None else Some(""), if s.bypass.None? then None else Some(""))
  }

  class Task {
    var org: Option<int>
    var bypass: bool

    constructor ()
      ensures org == None && !bypass
    {
      org, bypass := None, false;
    }

    method SetContext(value: Option<int>) returns (token: Option<int>)
      modifies this`org
      ensures org == value && token == old(org)
    {
      token := org;
      org := value;
    }

    method SetBypass(enabled: bool) returns (token: bool)
      modifies this`bypass
      ensures bypass == enabled && token == old(bypass)
    {
      token := bypass;
      bypass := enabled;
    }

    method ResetContext(token: Option<int>)
      modifies this`org
      ensures org == token
    {
      org := token;
    }

    method ResetBypass(token: bool)
      modifies this`bypass
      ensures bypass == token
    {
      bypass := token;
    }

    method Apply(session: DbSession)
      modifies session
      ensures session.settings == if session.postgres
              then ApplySettings(Context(org, bypass), old(session.settings)) else old(session.settings)
    {
      if !session.postgres {
        return;
      }
      if bypass {
        session.settings := session.settings.(bypass := Some("true"));
        return;
      }
      if org.Some? {
        session.settings := session.settings.(org := Some(IntToString(org.value)));
      }
    }

    // app/middleware/tenant_rls.py around any handler, which may set what it
    // likes, apply it, and raise after any of its operations. Whatever it did to
    // the variable the middleware set is undone; the other one is as it left it.
    // Without a usable organization in the session nothing is set at all.
    method Request(admin: bool, orgId: Option<int>, ops: seq<HandlerOp>, done: nat, session: DbSession)
      requires done <= |ops|
      modifies this, session
      ensures admin && orgId.None? ==>
                org == old(org) && bypass == old(bypass) && session.settings == old(session.settings)
      ensures !(admin && orgId.None?) ==>
                var entry := if admin then Context(orgId, old(bypass)) else Context(old(org), true);
                var (left, settings) := Handled(entry, old(session.settings), session.postgres, ops, done);
                && session.settings == settings
                && org == (if admin then old(org) else left.org)
                && bypass == (if admin then left.bypass else old(bypass))
    {
      if admin {
        if orgId.Some? {
          var token := SetContext(orgId);
          RunHandler(ops, done, session);
          ResetContext(token);
        }
      } else {
        var token := SetBypass(true);
        RunHandler(ops, done, session);
        ResetBypass(token);
      }
    }

    method RunHandler(ops: seq<HandlerOp>, done: nat, session: DbSession)
      requires done <= |ops|
      modifies this, session
      ensures (Context(org, bypass), session.settings)
           == Handled(old(Context(org, bypass)), old(session.settings), session.postgres, ops, done)
    {
      for i := 0 to done
        invariant (Context(org, bypass), session.settings)
               == Handled(old(Context(org, bypass)), old(session.settings), session.postgres, ops, i)
      {
        match ops[i]
        case SetsOrg(value) => var _ := SetContext(value);
        case SetsBypass(enabled) => var _ := SetBypass(enabled);
        case Applies => Apply(session);
      }
    }
  }

  // What a request handler may do to the context and to its session.
  datatype HandlerOp = SetsOrg(value: Option<int>) | SetsBypass(enabled: bool) | Applies

  function Handled(c: Context, s: Settings, postgres: bool, ops: seq<HandlerOp>, n: nat): (Context, Settings)
    requires n <= |ops|
  {
    if n == 0 then (c, s)
    else
      var (d, t) := Handled(c, s, postgres, ops, n - 1);
      match ops[n - 1]
      case SetsOrg(value) => (d.(org := value), t)
      case SetsBypass(enabled) => (d.(bypass := enabled), t)
      case Applies => (d, if postgres then ApplySettings(d, t) else t)
  }

  class DbSession {
    const postgres: bool
    var settings: Settings

    constructor (postgres: bool)
      ensures this.postgres == postgres && settings == Settings(None, None)
    {
      this.postgres, settings := postgres, Settings(None, None);
    }
  }

  // ---------------------------------------------------------------- transactions

  datatype Action =
    | SetTenant(org: Option<int>)
    | SetBypassFlag(enabled: bool)
    | Apply
    | Select
    | Insert(id: RowId, row: Row)
    | Update(id: RowId, row: Row)
    | Delete(id: RowId)
    | Commit
    | Rollback

  datatype Output = Quiet | Rows(rows: map<RowId, Row>) | Affected(n: nat) | Failed

  // `writes` holds the uncommitted changes; None is a deleted row.
  datatype Session = Session(context: Context, settings: Settings, writes: map<RowId, Option<Row>>, failed: bool)

  const FRESH := Session(Context(None, false), Settings(None, None), map[], false)

  type Table = map<RowId, Row>

  datatype World = World(committed: Table, sessions: map<int, Session>)

  function SessionOf(w: World, sid: int): Session {
    if sid in w.sessions then w.sessions[sid] else FRESH
  }

  // A statement sees the committed rows under its own uncommitted changes.
  function Lookup(committed: Table, s: Session, id: RowId): Option<Row> {
    if id in s.writes then s.writes[id]
    else if id in committed then Some(committed[id]) else None
  }

  predicate Sees(committed: Table, s: Session, id: RowId) {
    var r := Lookup(committed, s, id);
    r.Some? && Passes(s.settings, r.value)
  }

  function SelectAll(committed: Table, s: Session): Table {
    map id | id in committed.Keys + s.writes.Keys && Sees(committed, s, id) :: Lookup(committed, s, id).value
  }

  function Overlay(committed: Table, writes: map<RowId, Option<Row>>): Table {
    map id | id in committed.Keys + writes.Keys && (id in writes ==> writes[id].Some?)
      :: if id in writes then writes[id].value else committed[id]
  }

  // One statement of one session, against the committed rows.
  function Statement(committed: Table, s: Session, a: Action): (Session, Output) {
    if s.failed then (s, Failed)
    else match a
      case Select => (s, Rows(SelectAll(committed, s)))
      case Insert(id, row) =>
        if Lookup(committed, s, id).Some? || !Passes(s.settings, row) then (s.(failed := true), Failed)
        else (s.(writes := s.writes[id := Some(row)]), Affected(1))
      case Update(id, row) =>
        if !Sees(committed, s, id) then (s, Affected(0))
        else if !Passes(s.settings, row) then (s.(failed := true), Failed)
        else (s.(writes := s.writes[id := Some(row)]), Affected(1))
      case Delete(id) =>
        if !Sees(committed, s, id) then (s, Affected(0))
        else (s.(writes := s.writes[id := None]), Affected(1))
      case _ => (s, Quiet)
  }

  function Finish(s: Session): Session {
    s.(settings := EndTransaction(s.settings), writes := map[], failed := false)
  }

  function StepSession(committed: Table, s: Session, a: Action): (Session, Output) {
    match a
    case SetTenant(org) => (s.(context := s.context.(org := org)), Quiet)
    case SetBypassFlag(b) => (s.(context := s.context.(bypass := b)), Quiet)
    case Apply => if s.failed then (s, Failed) else (s.(settings := ApplySettings(s.context, s.settings)), Quiet)
    case Commit => (Finish(s), if s.failed then Failed else Quiet)
    case Rollback => (Finish(s), Quiet)
    case _ => Statement(committed, s, a)
  }

  function StepCommitted(committed: Table, s: Session, a: Action): Table {
    if a.Commit? && !s.failed then Overlay(committed, s.writes) else committed
  }

  datatype Call = Call(sid: int, action: Action)

  function Next(w: World, c: Call): World {
    var s := SessionOf(w, c.sid);
    World(StepCommitted(w.committed, s, c.action),
          w.sessions[c.sid := StepSession(w.committed, s, c.action).0])
  }

  function Result(w: World, c: Call): Output {
    StepSession(w.committed, SessionOf(w, c.sid), c.action).1
  }

  function Run(w: World, calls: seq<Call>, n: nat): World
    requires n <= |calls|
  {
    if n == 0 then w else Next(Run(w, calls, n - 1), calls[n - 1])
  }

  // ---------------------------------------------------------------- what the policy lets through

  // SQL's truth: a comparison with NULL is NULL, OR is true if either side is,
  // and NULL before it is false.
  lemma {:induction false} ThreeValued(a: Truth, x: int, y: int)
    ensures Or3(a, True) == Or3(True, a) == True && Or3(a, False) == Or3(False, a) == a && Or3(Null, Null) == Null
    ensures Eq3(None, Some(x)) == Eq3(Some(x), None) == Eq3<int>(None, None) == Null
    ensures Eq3(Some(x), Some(y)) == if x == y then True else False
  {
  }

  // A setting that is not an integer of four bytes shows no row at all.
  lemma {:induction false} BadSetting(s: Settings, row: Row, i: int)
    requires s.org.Some? && s.bypass != Some("true")
    ensures ParseInt(s.org.value) == None ==> !Passes(s, row)
    ensures ParseInt(s.org.value) == Some(i) && !(-2147483648 <= i <= 2147483647) ==> !Passes(s, row)
  {
  }

  lemma {:induction false} PrintedOrg(o: int)
    requires -2147483648 <= o <= 2147483647
    ensures CastInteger(NullIf(Some(IntToString(o)), "")) == Some(o)
  {
    var m := if o < 0 then -o else o;
    assert Pow10(10) == 10_000_000_000 by {
      assert Pow10(5) == 100_000;
    }
    DigitsLength(m, 10);
    DigitsAreDigits(m);
    IntRoundTrip(o);
  }

  // Bound to one organization and not bypassing, a transaction sees and may
  // write exactly the rows of that organization; rows without one are nobody's.
  lemma {:induction false} BoundSeesOwn(s: Settings, o: int, row: Row)
    requires Int4(o) && s.org == Some(IntToString(o)) && s.bypass != Some("true")
    ensures Passes(s, row) <==> row.org == Some(o)
  {
    PrintedOrg(o);
  }

  // Nothing applied, or everything applied has ended.
  predicate Inert(s: Settings) {
    (s.org == None || s.org == Some("")) && (s.bypass == None || s.bypass == Some(""))
  }

  // A setting nobody gave stays NULL; one that was given reads as the empty text.
  lemma {:induction false} EndedSettings(s: Settings)
    ensures EndTransaction(s).org == None <==> s.org == None
    ensures EndTransaction(s).bypass == None <==> s.bypass == None
    ensures Inert(EndTransaction(s))
  {
  }

  lemma {:induction false} InertPassesNothing(s: Settings, row: Row)
    requires Inert(s)
    ensures !Passes(s, row)
  {
  }

  predicate Blind(s: Session) {
    Inert(s.settings) && s.writes == map[]
  }

  predicate Empty(out: Output) {
    (out.Rows? ==> out.rows == map[]) && (out.Affected? ==> out.n == 0)
  }

  // The end of a transaction makes a session blind, and every step but applying
  // the settings keeps it so: it is shown nothing and changes nothing.
  lemma {:induction false} BlindStep(committed: Table, s: Session, a: Action)
    requires a.Commit? || a.Rollback? || (Blind(s) && a != Apply)
    ensures Blind(StepSession(committed, s, a).0)
    ensures Blind(s) ==> StepCommitted(committed, s, a) == committed && Empty(StepSession(committed, s, a).1)
  {
    if Blind(s) {
      forall row: Row ensures !Passes(s.settings, row) {
        InertPassesNothing(s.settings, row);
      }
      assert SelectAll(committed, s) == map[];
      assert Overlay(committed, map[]) == committed;
    }
  }

  ghost predicate NotApplied(calls: seq<Call>, sid: int, m: nat, n: nat) {
    forall i :: m <= i < n && i < |calls| ==> calls[i] != Call(sid, Apply)
  }

  lemma {:induction false} StaysBlind(w: World, calls: seq<Call>, m: nat, n: nat, sid: int)
    requires m <= n <= |calls| && NotApplied(calls, sid, m, n)
    requires sid !in Run(w, calls, m).sessions
          || (m > 0 && calls[m - 1] in {Call(sid, Commit), Call(sid, Rollback)})
    ensures Blind(SessionOf(Run(w, calls, n), sid))
  {
    if m < n {
      StaysBlind(w, calls, m, n - 1, sid);
      var x := Run(w, calls, n - 1);
      if calls[n - 1].sid == sid {
        BlindStep(x.committed, SessionOf(x, sid), calls[n - 1].action);
      }
    } else if sid in Run(w, calls, m).sessions {
      var x := Run(w, calls, m - 1);
      BlindStep(x.committed, SessionOf(x, sid), calls[m - 1].action);
    }
  }

  // So over every run, whatever other sessions do: from the start of a session,
  // or from the end of one of its transactions, until it applies the settings
  // again, it sees nothing and changes nothing.
  lemma {:induction false} UnboundIsBlind(w: World, calls: seq<Call>, m: nat, n: nat, sid: int)
    requires m <= n < |calls| && calls[n].sid == sid && NotApplied(calls, sid, m, n + 1)
    requires sid !in Run(w, calls, m).sessions
          || (m > 0 && calls[m - 1] in {Call(sid, Commit), Call(sid, Rollback)})
    ensures var x := Run(w, calls, n);
            && Run(w, calls, n + 1).committed == x.committed && Empty(Result(x, calls[n]))
  {
    StaysBlind(w, calls, m, n, sid);
    var x := Run(w, calls, n);
    BlindStep(x.committed, SessionOf(x, sid), calls[n].action);
  }

  // A bypass stays on until its transaction ends: switching the flag off and
  // applying a tenant in the same transaction still shows every row.
  lemma {:induction false} BypassLastsForTheTransaction(s: Settings, o: int, row: Row)
    requires Int4(o)
    ensures var bypassed := ApplySettings(Context(None, true), s);
            var narrowed := ApplySettings(Context(Some(o), false), bypassed);
            && Passes(narrowed, row)
            && (Passes(ApplySettings(Context(Some(o), false), EndTransaction(narrowed)), row) <==> row.org == Some(o))
  {
    var narrowed := ApplySettings(Context(Some(o), false), ApplySettings(Context(None, true), s));
    BoundSeesOwn(ApplySettings(Context(Some(o), false), EndTransaction(narrowed)), o, row);
  }
}
