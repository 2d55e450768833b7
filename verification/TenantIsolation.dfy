// Noninterference of the row policy: what one tenant's sessions read, and what
// becomes of that tenant's rows, does not depend on the other tenants' steps.
module TenantIsolation {
  import opened Wrappers
  import opened Text
  import opened TenantRls

  // Each session serves one tenant; each row id is handed out to one tenant.
  datatype Plan = Plan(bind: int -> int, owner: RowId -> int)

  // The steps of a session that keeps to its tenant: it binds that tenant or
  // nothing, never bypasses, and inserts under ids handed out to its tenant.
  predicate Keeps(p: Plan, c: Call) {
    match c.action
    case SetTenant(org) => org == None || org == Some(p.bind(c.sid))
    case SetBypassFlag(enabled) => !enabled
    case Insert(id, _) => p.owner(id) == p.bind(c.sid)
    case _ => true
  }

  predicate Bound(s: Settings, o: int) {
    && (s.org == None || s.org == Some("") || s.org == Some(IntToString(o)))
    && (s.bypass == None || s.bypass == Some(""))
  }

  ghost predicate TidySession(p: Plan, o: int, s: Session) {
    && (s.context.org == None || s.context.org == Some(o)) && !s.context.bypass
    && Bound(s.settings, o)
    && forall id :: id in s.writes ==>
         p.owner(id) == o && (s.writes[id].Some? ==> s.writes[id].value.org == Some(o))
  }

  ghost predicate TidyTable(p: Plan, t: Table) {
    forall id :: id in t && t[id].org.Some? ==> t[id].org.value == p.owner(id)
  }

  ghost predicate Tidy(p: Plan, w: World) {
    && (forall sid :: Int4(p.bind(sid)))
    && TidyTable(p, w.committed)
    && forall sid :: TidySession(p, p.bind(sid), SessionOf(w, sid))
  }

  // Two tables a tenant cannot tell apart, and two worlds.
  ghost predicate SameTable(p: Plan, o: int, t: Table, u: Table) {
    forall id :: p.owner(id) == o ==> (id in t <==> id in u) && (id in t ==> t[id] == u[id])
  }

  ghost predicate Same(p: Plan, o: int, w: World, v: World) {
    && SameTable(p, o, w.committed, v.committed)
    && forall sid :: p.bind(sid) == o ==> SessionOf(w, sid) == SessionOf(v, sid)
  }

  // ---------------------------------------------------------------- one step

  lemma {:induction false} PassesOwn(s: Settings, o: int, row: Row)
    requires Int4(o) && Bound(s, o) && Passes(s, row)
    ensures row.org == Some(o)
  {
    if s.org == Some(IntToString(o)) {
      BoundSeesOwn(s, o, row);
    } else {
      InertPassesNothing(s, row);
    }
  }

  // A session that keeps to its tenant sees only ids handed out to it.
  lemma {:induction false} SeesOwn(p: Plan, o: int, t: Table, s: Session, id: RowId)
    requires Int4(o) && TidyTable(p, t) && TidySession(p, o, s) && Sees(t, s, id)
    ensures p.owner(id) == o
  {
    PassesOwn(s.settings, o, Lookup(t, s, id).value);
  }

  lemma {:induction false} StepTidy(p: Plan, o: int, t: Table, s: Session, c: Call)
    requires Int4(o) && o == p.bind(c.sid) && Keeps(p, c) && TidyTable(p, t) && TidySession(p, o, s)
    ensures TidySession(p, o, StepSession(t, s, c.action).0)
    ensures TidyTable(p, StepCommitted(t, s, c.action))
  {
    match c.action
    case Insert(id, row) =>
      if Passes(s.settings, row) { PassesOwn(s.settings, o, row); }
    case Update(id, row) =>
      if Sees(t, s, id) { SeesOwn(p, o, t, s, id); }
      if Passes(s.settings, row) { PassesOwn(s.settings, o, row); }
    case Delete(id) =>
      if Sees(t, s, id) { SeesOwn(p, o, t, s, id); }
    case _ =>
  }

  // The same session step against tables the tenant cannot tell apart.
  lemma {:induction false} SameSees(p: Plan, o: int, t: Table, u: Table, s: Session, id: RowId)
    requires Int4(o) && SameTable(p, o, t, u) && TidyTable(p, t) && TidyTable(p, u) && TidySession(p, o, s)
    ensures Sees(t, s, id) == Sees(u, s, id)
    ensures Sees(t, s, id) ==> Lookup(t, s, id) == Lookup(u, s, id)
  {
    if Sees(t, s, id) {
      SeesOwn(p, o, t, s, id);
    }
    if Sees(u, s, id) {
      SeesOwn(p, o, u, s, id);
    }
  }

  lemma {:induction false} SameSelect(p: Plan, o: int, t: Table, u: Table, s: Session)
    requires Int4(o) && SameTable(p, o, t, u) && TidyTable(p, t) && TidyTable(p, u) && TidySession(p, o, s)
    ensures SelectAll(t, s) == SelectAll(u, s)
  {
    forall id
      ensures Sees(t, s, id) == Sees(u, s, id)
      ensures Sees(t, s, id) ==> Lookup(t, s, id) == Lookup(u, s, id)
    {
      SameSees(p, o, t, u, s, id);
    }
  }

  lemma {:induction false} OwnStep(p: Plan, o: int, t: Table, u: Table, s: Session, c: Call)
    requires Int4(o) && o == p.bind(c.sid) && Keeps(p, c)
    requires SameTable(p, o, t, u) && TidyTable(p, t) && TidyTable(p, u) && TidySession(p, o, s)
    ensures StepSession(t, s, c.action) == StepSession(u, s, c.action)
    ensures SameTable(p, o, StepCommitted(t, s, c.action), StepCommitted(u, s, c.action))
  {
    match c.action
    case Select => SameSelect(p, o, t, u, s);
    case Insert(id, row) => assert Lookup(t, s, id) == Lookup(u, s, id);
    case Update(id, row) => SameSees(p, o, t, u, s, id);
    case Delete(id) => SameSees(p, o, t, u, s, id);
    case _ =>
  }

  // Another tenant's step does not show.
  lemma {:induction false} OtherStep(p: Plan, o: int, q: int, t: Table, u: Table, s: Session, a: Action)
    requires q != o && TidySession(p, q, s) && SameTable(p, o, t, u)
    ensures SameTable(p, o, StepCommitted(t, s, a), u)
  {
  }

  lemma {:induction false} NextTidy(p: Plan, w: World, c: Call)
    requires Tidy(p, w) && Keeps(p, c)
    ensures Tidy(p, Next(w, c))
  {
    StepTidy(p, p.bind(c.sid), w.committed, SessionOf(w, c.sid), c);
    var v := Next(w, c);
    forall sid ensures TidySession(p, p.bind(sid), SessionOf(v, sid)) {
      assert TidySession(p, p.bind(sid), SessionOf(w, sid));
    }
  }

  lemma {:induction false} NextSame(p: Plan, o: int, w: World, v: World, c: Call)
    requires Tidy(p, w) && Tidy(p, v) && Keeps(p, c) && Same(p, o, w, v)
    ensures p.bind(c.sid) == o ==> Same(p, o, Next(w, c), Next(v, c)) && Result(w, c) == Result(v, c)
    ensures p.bind(c.sid) != o ==> Same(p, o, Next(w, c), v)
  {
    var s := SessionOf(w, c.sid);
    assert TidySession(p, p.bind(c.sid), s) && Int4(p.bind(c.sid));
    if p.bind(c.sid) == o {
      OwnStep(p, o, w.committed, v.committed, s, c);
    } else {
      OtherStep(p, o, p.bind(c.sid), w.committed, v.committed, s, c.action);
    }
  }

  // ---------------------------------------------------------------- whole runs

  // The run with every other tenant's step erased.
  function Erase(p: Plan, o: int, calls: seq<Call>, n: nat): seq<Call>
    requires n <= |calls|
  {
    if n == 0 then []
    else if p.bind(calls[n - 1].sid) == o then Erase(p, o, calls, n - 1) + [calls[n - 1]]
    else Erase(p, o, calls, n - 1)
  }

  // Everything the tenant's sessions are told, in order.
  function Observed(p: Plan, o: int, w: World, calls: seq<Call>, n: nat): seq<Output>
    requires n <= |calls|
  {
    if n == 0 then []
    else if p.bind(calls[n - 1].sid) == o
    then Observed(p, o, w, calls, n - 1) + [Result(Run(w, calls, n - 1), calls[n - 1])]
    else Observed(p, o, w, calls, n - 1)
  }

  function OrgRows(t: Table, o: int): Table {
    map id | id in t && t[id].org == Some(o) :: t[id]
  }

  lemma {:induction false} RunPrefix(p: Plan, o: int, w: World, a: seq<Call>, b: seq<Call>, n: nat)
    requires n <= |a| && n <= |b| && forall i :: 0 <= i < n ==> a[i] == b[i]
    ensures Run(w, a, n) == Run(w, b, n) && Observed(p, o, w, a, n) == Observed(p, o, w, b, n)
  {
    if n > 0 {
      RunPrefix(p, o, w, a, b, n - 1);
    }
  }

  ghost predicate AllKeep(p: Plan, calls: seq<Call>) {
    forall i :: 0 <= i < |calls| ==> Keeps(p, calls[i])
  }

  lemma {:induction false} RunTidy(p: Plan, w: World, calls: seq<Call>, n: nat)
    requires Tidy(p, w) && AllKeep(p, calls) && n <= |calls|
    ensures Tidy(p, Run(w, calls, n))
  {
    if n > 0 {
      RunTidy(p, w, calls, n - 1);
      NextTidy(p, Run(w, calls, n - 1), calls[n - 1]);
    }
  }

  lemma {:induction false} EraseKeeps(p: Plan, o: int, calls: seq<Call>, n: nat)
    requires AllKeep(p, calls) && n <= |calls|
    ensures AllKeep(p, Erase(p, o, calls, n))
  {
    if n > 0 {
      EraseKeeps(p, o, calls, n - 1);
    }
  }

  lemma {:induction false} Simulation(p: Plan, o: int, w: World, calls: seq<Call>, n: nat)
    requires Tidy(p, w) && AllKeep(p, calls) && n <= |calls|
    ensures var e := Erase(p, o, calls, n);
            && Same(p, o, Run(w, calls, n), Run(w, e, |e|))
            && Observed(p, o, w, calls, n) == Observed(p, o, w, e, |e|)
  {
    if n > 0 {
      var c, e := calls[n - 1], Erase(p, o, calls, n - 1);
      Simulation(p, o, w, calls, n - 1);
      RunTidy(p, w, calls, n - 1);
      EraseKeeps(p, o, calls, n - 1);
      RunTidy(p, w, e, |e|);
      NextSame(p, o, Run(w, calls, n - 1), Run(w, e, |e|), c);
      if p.bind(c.sid) == o {
        RunPrefix(p, o, w, e + [c], e, |e|);
      }
    }
  }

  // Noninterference. In every interleaving of sessions that keep to their
  // tenants, tenant o is told the same, and its committed rows end the same, as
  // in the run without the other tenants.
  lemma {:induction false} Noninterference(p: Plan, o: int, w: World, calls: seq<Call>)
    requires Tidy(p, w) && AllKeep(p, calls)
    ensures var e := Erase(p, o, calls, |calls|);
            && Observed(p, o, w, calls, |calls|) == Observed(p, o, w, e, |e|)
            && OrgRows(Run(w, calls, |calls|).committed, o) == OrgRows(Run(w, e, |e|).committed, o)
  {
    var e := Erase(p, o, calls, |calls|);
    Simulation(p, o, w, calls, |calls|);
    RunTidy(p, w, calls, |calls|);
    EraseKeeps(p, o, calls, |calls|);
    RunTidy(p, w, e, |e|);
    var t, u := Run(w, calls, |calls|).committed, Run(w, e, |e|).committed;
    forall id | id in t || id in u
      ensures (id in t && t[id].org == Some(o)) == (id in u && u[id].org == Some(o))
      ensures id in t && t[id].org == Some(o) ==> id in u && t[id] == u[id]
    {
      if p.owner(id) == o {
        assert (id in t <==> id in u) && (id in t ==> t[id] == u[id]);
      }
    }
    assert OrgRows(t, o) == OrgRows(u, o);
  }
}
