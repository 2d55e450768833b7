// What holds in every interleaving of messages, operators and other writers:
// the guarded write never loses to a race, the Redis copy follows the database
// except on three named paths, and which LLM answers are thrown away.
module DialogSafety {
  import opened Wrappers
  import opened Dialog
  import OrderConfirmation

  // ---------------------------------------------------------------- the invariant

  // Every session write is in the log and bumps the version by one.
  ghost predicate RowLogged(s: Shared, first: nat) {
    match s.row
    case None => s.log == []
    case Some(u) => s.log != [] && u.state == s.log[|s.log| - 1] && u.version == first + |s.log| - 1
  }

  predicate Early(pc: Pc) {
    pc.Entry? || pc.Preflight?
  }

  // In the LLM branch.
  predicate InChat(pc: Pc) {
    pc.Chat? || pc.Turn? || pc.Escalate? || pc.Reread? || pc.Cas? || pc.CacheStep? || (pc.Clear? && pc.next == ToTurn)
  }

  predicate WellPlaced(pc: Pc) {
    && (pc.Trans? ==> pc.next != ToTurn && (pc.next == ToChat ==> pc.to == Chatting))
    && (pc.Clear? ==> pc.next != ToChat)
  }

  ghost predicate MsgOk(s: Shared, first: nat, m: Msg) {
    && m.marks.startAt <= |s.log| && m.marks.readAt <= |s.log|
    && WellPlaced(m.pc)
    && (InChat(m.pc) ==> m.state == Chatting)
    && (Early(m.pc) ==> !m.marks.rewrote && m.version == None)
    && (m.version.Some? ==>
          && s.row.Some? && 1 <= m.marks.readAt && m.version.value == first + m.marks.readAt - 1
          && (m.marks.rewrote ==> m.marks.readAt < |s.log|))
  }

  ghost predicate Ok(w: World, first: nat) {
    && RowLogged(w.shared, first)
    && forall id :: id in w.msgs ==> w.msgs[id].id == id && MsgOk(w.shared, first, w.msgs[id])
  }

  ghost predicate Grows(s: Shared, t: Shared) {
    s.log <= t.log && (s.row.Some? ==> t.row.Some?)
  }

  lemma {:induction false} CommitOk(s: Shared, first: nat, p: Patch, state: Option<State>, version: Option<nat>)
    requires RowLogged(s, first)
    ensures var t := Commit(s, p, state, version).0;
            && RowLogged(t, first) && Grows(s, t)
            && (s.row.Some? && !Empty(p) && state == None && version == None ==> |s.log| < |t.log|)
  {
  }

  // The transitions that are refused; all others are allowed.
  lemma {:induction false} RefusedTransitions(from: State, to: State)
    ensures !Allowed(from, to) <==>
              || (from == AwaitingPayment && to == ConfirmingBooking)
              || (from == ConfirmingOrder && to == ConfirmingBooking)
              || (from == ConfirmingBooking && (to == AwaitingPayment || to == ConfirmingOrder))
              || (from == HumanMode && (to == AwaitingPayment || to == ConfirmingOrder || to == ConfirmingBooking))
  {
  }

  // The guarded session write, in full: it goes through exactly when the row is
  // as expected, then writes the patch and counts the version up by one; refused,
  // or with nothing to write, it changes nothing. A customer without a row is
  // expected to be chatting.
  lemma {:induction false} CompareAndSet(s: Shared, p: Patch, state: Option<State>, version: Option<nat>)
    ensures var (t, ok) := Commit(s, p, state, version);
            var nothing := p == Patch(None, Keep, Keep);
            match s.row
            case None =>
              t == s && (ok <==> version == None && (state == None || (state == Some(Chatting) && nothing)))
            case Some(u) =>
              && (ok <==> (state == None || state == Some(u.state)) && (version == None || version == Some(u.version)))
              && (!ok || nothing ==> t == s)
              && (ok && !nothing ==>
                    var x := if p.state.Some? then p.state.value else u.state;
                    var order := match p.order case Keep => u.order case Put(v) => v;
                    var booking := match p.booking case Keep => u.booking case Put(v) => v;
                    t == Shared(
                      Some(User(x, u.version + 1, order, booking, u.paused, u.snoozedUntil, u.humanUntil)),
                      s.cache, s.cachedOrder, s.now, s.log + [x], s.trace))
  {
  }

  ghost predicate Steady(s: Shared, first: nat, m: Msg) {
    RowLogged(s, first) && MsgOk(s, first, m) && (s.row.None? ==> first == 0)
  }

  ghost predicate Keeps(s: Shared, first: nat, x: (Shared, Msg)) {
    RowLogged(x.0, first) && MsgOk(x.0, first, x.1) && Grows(s, x.0)
  }

  lemma {:induction false} EntryKeeps(s: Shared, first: nat, m: Msg, c: Choice)
    requires Steady(s, first, m) && m.pc.Entry?
    ensures Keeps(s, first, EntryStep(s, m, c))
  {
  }

  lemma {:induction false} ReadingKeeps(s: Shared, first: nat, m: Msg, c: Choice)
    requires Steady(s, first, m) && (m.pc.Preflight? || m.pc.Resuming?)
    ensures Keeps(s, first, Step(s, m, c))
  {
  }

  lemma {:induction false} SortingKeeps(s: Shared, first: nat, m: Msg, c: Choice)
    requires Steady(s, first, m) && (m.pc.HumanSync? || m.pc.HintCheck? || m.pc.Inbound? || m.pc.Choose?)
    ensures Keeps(s, first, Step(s, m, c))
  {
  }

  // Where a handler goes from its pending order.
  lemma {:induction false} HandlerLeads(m: Msg, order: Option<nat>, c: Choice)
    requires m.pc.Handler?
    ensures var pc := OrderPc(m, order, c);
            && WellPlaced(pc) && !Early(pc) && !InChat(pc)
            && (pc.Clear? || pc.Trans? || pc == Reply || pc == Raised)
  {
  }

  lemma {:induction false} HandlerKeeps(s: Shared, first: nat, m: Msg, c: Choice)
    requires Steady(s, first, m) && m.pc.Handler?
    ensures Keeps(s, first, HandlerStep(s, m, c))
  {
    var n := HandlerStep(s, m, c).1;
    assert WellPlaced(n.pc) && !Early(n.pc) && !InChat(n.pc) by {
      HandlerLeads(m, s.cachedOrder, c);
      HandlerLeads(m, None, c);
      if m.pc.p.FillOrder? {
        HandlerLeads(m, Some(m.pc.p.order), c);
      }
    }
  }

  lemma {:induction false} TransKeeps(s: Shared, first: nat, m: Msg)
    requires Steady(s, first, m) && m.pc.Trans?
    ensures Keeps(s, first, TransStep(s, m))
  {
  }

  lemma {:induction false} ClearKeeps(s: Shared, first: nat, m: Msg)
    requires Steady(s, first, m) && m.pc.Clear?
    ensures Keeps(s, first, ClearStep(s, m))
  {
    if m.pc.c.Forget? {
      CommitOk(s, first, DROP_ORDER, None, None);
    }
  }

  lemma {:induction false} LlmKeeps(s: Shared, first: nat, m: Msg, c: Choice)
    requires Steady(s, first, m) && (m.pc.Chat? || m.pc.Turn? || m.pc.Reread? || m.pc.Cas?)
    ensures Keeps(s, first, Step(s, m, c))
  {
  }

  lemma {:induction false} StepKeeps(s: Shared, first: nat, m: Msg, c: Choice)
    requires Steady(s, first, m)
    ensures Keeps(s, first, Step(s, m, c))
  {
    match m.pc
    case Entry(_) => EntryKeeps(s, first, m, c);
    case Preflight | Resuming(_, _) => ReadingKeeps(s, first, m, c);
    case HumanSync | HintCheck | Inbound | Choose => SortingKeeps(s, first, m, c);
    case Handler(_, _) => HandlerKeeps(s, first, m, c);
    case Trans(_, _, _) => TransKeeps(s, first, m);
    case Clear(_, _) => ClearKeeps(s, first, m);
    case Chat | Turn | Reread | Cas => LlmKeeps(s, first, m, c);
    case _ =>
  }

  lemma {:induction false} StepSameId(s: Shared, m: Msg, c: Choice)
    ensures Step(s, m, c).1.id == m.id
  {
  }

  lemma {:induction false} MsgStable(s: Shared, t: Shared, first: nat, m: Msg)
    requires MsgOk(s, first, m) && Grows(s, t)
    ensures MsgOk(t, first, m)
  {
  }

  lemma {:induction false} NextOk(w: World, first: nat, v: Move)
    requires Ok(w, first) && (w.shared.row.None? ==> first == 0)
    ensures Ok(Next(w, v), first) && Grows(w.shared, Next(w, v).shared)
  {
    var x := Next(w, v);
    match v
    case Arrive(id, input) =>
    case Advance(id, choice) =>
      if id in w.msgs {
        StepKeeps(w.shared, first, w.msgs[id], choice);
        StepSameId(w.shared, w.msgs[id], choice);
        forall i | i in x.msgs ensures x.msgs[i].id == i && MsgOk(x.shared, first, x.msgs[i]) {
          if i != id {
            MsgStable(w.shared, x.shared, first, w.msgs[i]);
          }
        }
      }
    case Other(outside) =>
      if outside.Writes? {
        CommitOk(w.shared, first, outside.patch, None, None);
      }
      forall i | i in x.msgs ensures x.msgs[i].id == i && MsgOk(x.shared, first, x.msgs[i]) {
        MsgStable(w.shared, x.shared, first, w.msgs[i]);
      }
  }

  lemma {:induction false} RunOk(w: World, moves: seq<Move>, n: nat)
    requires Initial(w) && n <= |moves|
    ensures var x := Run(w, moves, n);
            Ok(x, FirstVersion(w)) && Grows(w.shared, x.shared) && (x.shared.row.None? ==> FirstVersion(w) == 0)
  {
    if n > 0 {
      RunOk(w, moves, n - 1);
      NextOk(Run(w, moves, n - 1), FirstVersion(w), moves[n - 1]);
    }
  }

  lemma {:induction false} RunGrows(w: World, moves: seq<Move>, k: nat, n: nat)
    requires Initial(w) && k <= n <= |moves|
    ensures Grows(Run(w, moves, k).shared, Run(w, moves, n).shared)
  {
    if k < n {
      RunGrows(w, moves, k, n - 1);
      RunOk(w, moves, n - 1);
      NextOk(Run(w, moves, n - 1), FirstVersion(w), moves[n - 1]);
    }
  }

  // A version that was written over is never current again: whatever happens in
  // between, every later write that expects it is refused and changes nothing.
  lemma {:induction false} SpentVersionFails(
    w: World, moves: seq<Move>, k: nat, n: nat, p: Patch, state: Option<State>, version: nat)
    requires Initial(w) && k <= n <= |moves|
    requires Run(w, moves, k).shared.row.Some? && version < Run(w, moves, k).shared.row.value.version
    ensures Commit(Run(w, moves, n).shared, p, state, Some(version)) == (Run(w, moves, n).shared, false)
  {
    RunOk(w, moves, k);
    RunOk(w, moves, n);
    RunGrows(w, moves, k, n);
    assert RowLogged(Run(w, moves, k).shared, FirstVersion(w)) && RowLogged(Run(w, moves, n).shared, FirstVersion(w));
  }

  // ---------------------------------------------------------------- takeover wins

  // A session write, by anyone, has committed since the message read its version.
  predicate Overtaken(s: Shared, m: Msg) {
    m.version.Some? && m.marks.readAt < |s.log|
  }

  // At the guarded write a message that was overtaken changes nothing: the
  // durable state stays what the other writer made it, and the following cache
  // step writes nothing either.
  lemma {:induction false} TakeoverWins(w: World, moves: seq<Move>, n: nat, id: int, c: Choice, d: Choice)
    requires Initial(w) && n <= |moves| && id in Run(w, moves, n).msgs
    requires var x := Run(w, moves, n); x.msgs[id].pc == Cas && Overtaken(x.shared, x.msgs[id])
    ensures var x := Run(w, moves, n);
            var (s, m) := Step(x.shared, x.msgs[id], c);
            s == x.shared && !m.applied && Step(s, m, d).0 == s
  {
    RunOk(w, moves, n);
    assert MsgOk(Run(w, moves, n).shared, FirstVersion(w), Run(w, moves, n).msgs[id]);
  }

  // Seen at the re-read, it is dropped: nothing is routed, cached or sent, and
  // the message is over.
  lemma {:induction false} TakeoverSeenIsDropped(w: World, moves: seq<Move>, n: nat, id: int, c: Choice)
    requires Initial(w) && n <= |moves| && id in Run(w, moves, n).msgs
    requires var x := Run(w, moves, n); x.msgs[id].pc == Reread && Overtaken(x.shared, x.msgs[id])
    ensures var x := Run(w, moves, n);
            Step(x.shared, x.msgs[id], c) == (Emit(x.shared, Dropped(id)), x.msgs[id].(pc := Done))
  {
    RunOk(w, moves, n);
    assert MsgOk(Run(w, moves, n).shared, FirstVersion(w), Run(w, moves, n).msgs[id]);
  }

  lemma {:induction false} DoneForever(w: World, moves: seq<Move>, k: nat, n: nat, id: int)
    requires k <= n <= |moves| && id in Run(w, moves, k).msgs && Run(w, moves, k).msgs[id].pc == Done
    ensures id in Run(w, moves, n).msgs && Run(w, moves, n).msgs[id] == Run(w, moves, k).msgs[id]
  {
    if k < n {
      DoneForever(w, moves, k, n - 1, id);
    }
  }

  // Known version or not, the guarded write only ever replaces CHATTING.
  lemma {:induction false} GuardedWriteNeedsChatting(w: World, moves: seq<Move>, n: nat, id: int, c: Choice)
    requires Initial(w) && n <= |moves| && id in Run(w, moves, n).msgs
    requires var x := Run(w, moves, n);
             x.msgs[id].pc == Cas && x.shared.row.Some? && x.shared.row.value.state != Chatting
    ensures var x := Run(w, moves, n);
            Step(x.shared, x.msgs[id], c).0 == x.shared
  {
    RunOk(w, moves, n);
    assert MsgOk(Run(w, moves, n).shared, FirstVersion(w), Run(w, moves, n).msgs[id]);
  }

  // The steps that may write another state into the row.
  predicate MayChange(s: Shared, m: Msg)
    requires s.row.Some?
  {
    || (m.pc.Resuming? && !m.pc.written && s.row.value.state != Chatting)
    || (m.pc.Trans? && m.pc.t == Write && s.row.value.state != m.pc.to)
    || (m.pc == Cas && s.row.value.state == Chatting && !Overtaken(s, m)
        && m.result.newState.Some? && m.result.newState.value != Chatting)
  }

  ghost predicate ChangesIff(s: Shared, m: Msg, t: Shared)
    requires s.row.Some?
  {
    t.row.Some? && (t.row.value.state != s.row.value.state <==> MayChange(s, m))
  }

  lemma {:induction false} WritersChange(s: Shared, first: nat, m: Msg, c: Choice)
    requires Steady(s, first, m) && s.row.Some? && (m.pc.Resuming? || m.pc.Trans? || m.pc.Cas?)
    ensures ChangesIff(s, m, Step(s, m, c).0)
  {
  }

  lemma {:induction false} OthersKeep(s: Shared, m: Msg, c: Choice)
    requires s.row.Some? && !m.pc.Resuming? && !m.pc.Trans? && !m.pc.Cas?
    ensures ChangesIff(s, m, Step(s, m, c).0)
  {
  }

  // Exactly when a step of a message changes the durable state: at a resume and
  // at the transition of the payment and confirmation handlers, whatever the
  // state is, and at the guarded write when nothing has overtaken it.
  lemma {:induction false} StateChangesIff(w: World, moves: seq<Move>, n: nat, id: int, c: Choice)
    requires Initial(w) && n <= |moves| && id in Run(w, moves, n).msgs && Run(w, moves, n).shared.row.Some?
    ensures var s := Run(w, moves, n).shared;
            var m := Run(w, moves, n).msgs[id];
            var t := Step(s, m, c).0;
            t.row.Some? && (t.row.value.state != s.row.value.state <==> MayChange(s, m))
  {
    RunOk(w, moves, n);
    var x := Run(w, moves, n);
    var m := x.msgs[id];
    assert MsgOk(x.shared, FirstVersion(w), m);
    if m.pc.Resuming? || m.pc.Trans? || m.pc.Cas? {
      WritersChange(x.shared, FirstVersion(w), m, c);
    } else {
      OthersKeep(x.shared, m, c);
    }
  }

  // ---------------------------------------------------------------- takeover lost

  predicate Advances(v: Move, id: int) {
    v.Advance? && v.id == id
  }

  // The message steps at n and next at k; anything may happen in between.
  ghost predicate StepsAt(w: World, moves: seq<Move>, n: nat, k: nat, id: int) {
    && n < k < |moves| && Advances(moves[n], id) && Advances(moves[k], id)
    && (forall i :: n < i < k ==> !Advances(moves[i], id))
    && id in Run(w, moves, n).msgs
  }

  lemma {:induction false} MessageWaits(w: World, moves: seq<Move>, n: nat, k: nat, id: int)
    requires n <= k <= |moves| && id in Run(w, moves, n).msgs
    requires forall i :: n <= i < k ==> !Advances(moves[i], id)
    ensures id in Run(w, moves, k).msgs && Run(w, moves, k).msgs[id] == Run(w, moves, n).msgs[id]
  {
    if n < k {
      MessageWaits(w, moves, n, k - 1, id);
    }
  }

  // What its next step does, then, is what its last one left for it to do.
  lemma {:induction false} StepsApart(w: World, moves: seq<Move>, n: nat, k: nat, id: int)
    requires StepsAt(w, moves, n, k, id)
    ensures var x, y := Run(w, moves, n), Run(w, moves, k);
            var m := Step(x.shared, x.msgs[id], moves[n].choice).1;
            Run(w, moves, k + 1).shared == Step(y.shared, m, moves[k].choice).0
  {
    var x := Run(w, moves, n);
    assert Run(w, moves, n + 1) == Next(x, moves[n]);
    MessageWaits(w, moves, n + 1, k, id);
    assert Run(w, moves, k + 1) == Next(Run(w, moves, k), moves[k]);
  }

  lemma {:induction false} CheckedTransition(s: Shared, m: Msg, c: Choice, t: Shared, d: Choice)
    requires m.pc.Trans? && m.pc.t.Check? && t.row.Some?
    ensures var found := Look(s, m.pc.t.l).1;
            var u := Step(t, Step(s, m, c).1, d).0;
            && u.row.Some?
            && u.row.value.state ==
                 (if found.Found? && Allowed(found.state, m.pc.to) then m.pc.to else t.row.value.state)
  {
    var n := TransStep(s, m).1;
    assert Step(s, m, c).1 == n && (n.pc.Trans? || n.pc == Raised);
  }

  // A transition is decided by the state its check finds, not by the one it
  // overwrites: whatever was written before the check or since, the write
  // replaces it exactly when the table allows the way from what was found. A
  // takeover that was complete before the check is found, and is overwritten
  // all the same when the way leads to CHATTING.
  lemma {:induction false} TransitionOverwritesIff(w: World, moves: seq<Move>, n: nat, k: nat, id: int)
    requires StepsAt(w, moves, n, k, id) && Run(w, moves, k).shared.row.Some?
    requires var m := Run(w, moves, n).msgs[id]; m.pc.Trans? && m.pc.t.Check?
    ensures var m := Run(w, moves, n).msgs[id];
            var found := Look(Run(w, moves, n).shared, m.pc.t.l).1;
            var before, after := Run(w, moves, k).shared.row.value, Run(w, moves, k + 1).shared.row;
            && after.Some?
            && after.value.state == (if found.Found? && Allowed(found.state, m.pc.to) then m.pc.to else before.state)
            && (before.state == HumanMode && m.pc.to != HumanMode && found == Found(HumanMode) ==>
                  (after.value.state != HumanMode <==> m.pc.to == Chatting))
  {
    var x, y := Run(w, moves, n), Run(w, moves, k);
    StepsApart(w, moves, n, k, id);
    CheckedTransition(x.shared, x.msgs[id], moves[n].choice, y.shared, moves[k].choice);
  }

  predicate Resumes(s: Shared, m: Msg) {
    if m.pc == Preflight then s.row.Some? && ModeExpired(s.row.value, s.now) else ResumesOnHint(m)
  }

  lemma {:induction false} DecidedResume(s: Shared, m: Msg, c: Choice, t: Shared, d: Choice)
    requires m.pc in {Preflight, HintCheck} && t.row.Some?
    ensures var u := Step(t, Step(s, m, c).1, d).0;
            u.row.Some? && u.row.value.state == if Resumes(s, m) then Chatting else t.row.value.state
  {
    var n := if m.pc == Preflight then ReadRow(s, m).1 else HintStep(s, m).1;
    assert Step(s, m, c).1 == n && (n.pc.Resuming? || n.pc == HumanSync || n.pc == Inbound);
  }

  // The two resumes are decided at the preflight and by the phrase, and then
  // overwrite whatever was written since. These are the two ways out of human
  // mode that are meant: past the deadline, and on a new-conversation phrase.
  lemma {:induction false} ResumeOverwritesIff(w: World, moves: seq<Move>, n: nat, k: nat, id: int)
    requires StepsAt(w, moves, n, k, id) && Run(w, moves, k).shared.row.Some?
    requires Run(w, moves, n).msgs[id].pc in {Preflight, HintCheck}
    ensures var s := Run(w, moves, n).shared;
            var m := Run(w, moves, n).msgs[id];
            var before, after := Run(w, moves, k).shared.row.value, Run(w, moves, k + 1).shared.row;
            after.Some? && after.value.state == (if Resumes(s, m) then Chatting else before.state)
  {
    var x, y := Run(w, moves, n), Run(w, moves, k);
    StepsApart(w, moves, n, k, id);
    DecidedResume(x.shared, x.msgs[id], moves[n].choice, y.shared, moves[k].choice);
  }

  // ---------------------------------------------------------------- answered or dropped

  // At the re-read the answer is routed exactly when the durable state is
  // CHATTING and, if the version is known, no session write has committed since
  // the preflight, this message's own writes included.
  lemma {:induction false} RoutedIff(w: World, moves: seq<Move>, n: nat, id: int, c: Choice)
    requires Initial(w) && n <= |moves| && id in Run(w, moves, n).msgs
    requires Run(w, moves, n).msgs[id].pc == Reread
    ensures var x := Run(w, moves, n);
            var m := x.msgs[id];
            Step(x.shared, m, c).1.pc == Cas <==>
              && (x.shared.row.Some? ==> x.shared.row.value.state == Chatting)
              && !Overtaken(x.shared, m)
  {
    RunOk(w, moves, n);
    assert MsgOk(Run(w, moves, n).shared, FirstVersion(w), Run(w, moves, n).msgs[id]);
  }

  // So a message that wrote the session itself on the way (an unrecognized
  // payment or confirmation answer, or a stale cart reset) has its LLM answer
  // dropped exactly when its version is known, that is, unless it came from a
  // new customer or resumed the bot, or when the state has moved on as well.
  lemma {:induction false} OwnWriteDropsAnswer(w: World, moves: seq<Move>, n: nat, id: int, c: Choice)
    requires Initial(w) && n <= |moves| && id in Run(w, moves, n).msgs
    requires var m := Run(w, moves, n).msgs[id]; m.pc == Reread && m.marks.rewrote
    ensures var x := Run(w, moves, n);
            var m := x.msgs[id];
            Step(x.shared, m, c) == (Emit(x.shared, Dropped(id)), m.(pc := Done)) <==>
              m.version.Some? || (x.shared.row.Some? && x.shared.row.value.state != Chatting)
  {
    RunOk(w, moves, n);
    assert MsgOk(Run(w, moves, n).shared, FirstVersion(w), Run(w, moves, n).msgs[id]);
    RoutedIff(w, moves, n, id, c);
  }

  // What the trace tells of a message: a reply ends it, an answer is routed on
  // the way to the guarded write, and a dropped one was neither routed nor sent.
  ghost predicate Fate(trace: seq<Event>, m: Msg) {
    && (Sent(m.id) in trace ==> m.pc == Done || m.pc == Escalate)
    && (Routed(m.id) in trace ==> m.pc == Cas || m.pc == CacheStep || m.pc == Reply || m.pc == Done)
    && (Dropped(m.id) in trace ==> m.pc == Done && Sent(m.id) !in trace && Routed(m.id) !in trace)
  }

  ghost predicate AddsOwn(old': seq<Event>, new': seq<Event>, id: int) {
    old' <= new' && forall i :: |old'| <= i < |new'| ==> new'[i].id == id
  }

  // One step's share of the trace: only the re-read routes or drops, a reply is
  // the end, and past the re-read there is no way back.
  ghost predicate Emits(old': seq<Event>, m: Msg, new': seq<Event>, n: Msg) {
    && n.id == m.id && AddsOwn(old', new', m.id)
    && (m.pc == Done || m.pc == Escalate ==> n.pc == Done && new' == old')
    && (m.pc == Cas ==> n.pc == CacheStep)
    && (m.pc == CacheStep ==> n.pc == Reply)
    && (m.pc == Reply ==> n.pc == Done)
    && forall i :: |old'| <= i < |new'| ==>
         && (new'[i].Sent? ==> (n.pc == Done || n.pc == Escalate) && m.pc != Reread)
         && (new'[i].Routed? ==> m.pc == Reread && n.pc == Cas)
         && (new'[i].Dropped? ==> m.pc == Reread && n.pc == Done && |new'| == |old'| + 1)
  }

  lemma {:induction false} FateFollows(old': seq<Event>, m: Msg, new': seq<Event>, n: Msg)
    requires Fate(old', m) && Emits(old', m, new', n)
    ensures Fate(new', n)
  {
    assert forall e :: e in new' ==> e in old' || exists i :: |old'| <= i < |new'| && new'[i] == e;
  }

  ghost predicate StepEmits(s: Shared, m: Msg, x: (Shared, Msg)) {
    Emits(s.trace, m, x.0.trace, x.1)
  }

  lemma {:induction false} HandlingEmits(s: Shared, m: Msg, c: Choice)
    requires m.pc.Handler?
    ensures StepEmits(s, m, HandlerStep(s, m, c))
  {
  }

  lemma {:induction false} WritingEmits(s: Shared, m: Msg, c: Choice)
    requires m.pc.Trans? || m.pc.Clear? || m.pc.Choose?
    ensures StepEmits(s, m, Step(s, m, c))
  {
  }

  lemma {:induction false} LlmEmits(s: Shared, m: Msg, c: Choice)
    requires m.pc.Chat? || m.pc.Turn? || m.pc.Escalate? || m.pc.Reread? || m.pc.Cas? || m.pc.CacheStep? || m.pc.Reply?
    ensures StepEmits(s, m, Step(s, m, c))
  {
  }

  lemma {:induction false} EveryStepEmits(s: Shared, m: Msg, c: Choice)
    ensures StepEmits(s, m, Step(s, m, c))
  {
    match m.pc
    case Handler(_, _) => HandlingEmits(s, m, c);
    case Trans(_, _, _) | Clear(_, _) | Choose => WritingEmits(s, m, c);
    case Chat | Turn | Escalate | Reread | Cas | CacheStep | Reply => LlmEmits(s, m, c);
    case _ =>
  }

  ghost predicate AllFates(w: World) {
    && (forall id :: id in w.msgs ==> w.msgs[id].id == id && Fate(w.shared.trace, w.msgs[id]))
    && forall i :: 0 <= i < |w.shared.trace| ==> w.shared.trace[i].id in w.msgs
  }

  lemma {:induction false} NextFates(w: World, v: Move)
    requires AllFates(w)
    ensures AllFates(Next(w, v))
  {
    if v.Advance? && v.id in w.msgs {
      var (s, m) := Step(w.shared, w.msgs[v.id], v.choice);
      EveryStepEmits(w.shared, w.msgs[v.id], v.choice);
      FateFollows(w.shared.trace, w.msgs[v.id], s.trace, m);
    }
  }

  lemma {:induction false} RunFates(w: World, moves: seq<Move>, n: nat)
    requires Initial(w) && n <= |moves|
    ensures AllFates(Run(w, moves, n))
  {
    if n > 0 {
      RunFates(w, moves, n - 1);
      NextFates(Run(w, moves, n - 1), moves[n - 1]);
    }
  }

  // Over whole runs: a message whose answer was dropped is never answered,
  // neither before nor afterwards.
  lemma {:induction false} DroppedIsNeverAnswered(w: World, moves: seq<Move>, n: nat, id: int)
    requires Initial(w) && n <= |moves|
    ensures var trace := Run(w, moves, n).shared.trace;
            Dropped(id) in trace ==> Sent(id) !in trace && Routed(id) !in trace
  {
    RunFates(w, moves, n);
  }

  // ---------------------------------------------------------------- the cache

  // The durable state was x at some moment since position `from` of the log.
  ghost predicate Held(log: seq<State>, from: nat, x: State) {
    exists i :: from <= i < |log| && log[i] == x
  }

  // What a lookup is about to copy into Redis.
  function Filling(pc: Pc): Option<State> {
    match pc
    case Entry(Find(Fill(x, _))) => Some(x)
    case Trans(Check(Fill(x, _)), _, _) => Some(x)
    case Clear(Current(Fill(x, _)), _) => Some(x)
    case _ => None
  }

  // What a message is about to copy into Redis it has read from, or committed
  // to, the database since it arrived.
  ghost predicate Owes(s: Shared, m: Msg) {
    var from := m.marks.startAt;
    && from < |s.log|
    && (Filling(m.pc).Some? ==> Held(s.log, from, Filling(m.pc).value))
    && (m.pc.Resuming? && m.pc.written ==> Held(s.log, from, Chatting))
    && (m.seen.human ==> Held(s.log, from, HumanMode))
    && (m.pc.Trans? && m.pc.t == Cache ==> Held(s.log, from, m.pc.to))
    && (m.pc.CacheStep? && m.applied && m.result.newState.Some? ==> Held(s.log, from, m.result.newState.value))
  }

  // A customer without a row: Redis says nothing, CHATTING or HUMAN_MODE, and
  // no message has anything of the database's to copy, nor a way to any.
  predicate PlainCache(cache: Option<State>) {
    cache in {None, Some(Chatting), Some(HumanMode)}
  }

  predicate Unborn(m: Msg) {
    && m.marks.startAt == 0 && m.state in {Chatting, HumanMode} && !m.seen.human
    && Filling(m.pc) == None && !m.pc.Resuming? && !m.pc.Trans? && !m.pc.Handler?
    && (m.pc.CacheStep? && m.applied ==> m.result.newState == None)
  }

  ghost predicate AllOwe(w: World) {
    if w.shared.row.Some? then forall id :: id in w.msgs ==> Owes(w.shared, w.msgs[id])
    else PlainCache(w.shared.cache) && forall id :: id in w.msgs ==> Unborn(w.msgs[id])
  }

  // Whoever else writes Redis for a customer without a row writes CHATTING or
  // HUMAN_MODE, as taking over and handing back do.
  predicate PlainMove(s: Shared, v: Move) {
    s.row.None? && v.Other? && v.outside.Caches? ==> PlainCache(v.outside.state)
  }

  predicate PlainAt(w: World, moves: seq<Move>, n: nat)
    requires n < |moves|
  {
    PlainMove(Run(w, moves, n).shared, moves[n])
  }

  ghost predicate AllPlain(w: World, moves: seq<Move>) {
    && (w.shared.row.None? ==> PlainCache(w.shared.cache))
    && forall n {:trigger PlainAt(w, moves, n)} :: 0 <= n < |moves| ==> PlainAt(w, moves, n)
  }

  lemma {:induction false} HeldNow(s: Shared, first: nat, from: nat)
    requires RowLogged(s, first) && s.row.Some? && from < |s.log|
    ensures Held(s.log, from, s.row.value.state)
  {
    assert s.log[|s.log| - 1] == s.row.value.state;
  }

  lemma {:induction false} HeldStable(log: seq<State>, log': seq<State>, from: nat, x: State)
    requires log <= log' && Held(log, from, x)
    ensures Held(log', from, x)
  {
    var i :| from <= i < |log| && log[i] == x;
    assert log'[i] == x;
  }

  lemma {:induction false} OwesStable(s: Shared, t: Shared, m: Msg)
    requires Owes(s, m) && s.log <= t.log
    ensures Owes(t, m)
  {
    forall x | Held(s.log, m.marks.startAt, x) ensures Held(t.log, m.marks.startAt, x) {
      HeldStable(s.log, t.log, m.marks.startAt, x);
    }
  }

  ghost predicate MayStep(s: Shared, first: nat, m: Msg) {
    Steady(s, first, m) && s.row.Some? && Owes(s, m)
  }

  // The steps that write the row: what was held still is, and so is the new state.
  lemma {:induction false} WriteOwes(s: Shared, first: nat, m: Msg, c: Choice)
    requires MayStep(s, first, m) && (m.pc.Resuming? || m.pc.Inbound? || m.pc.Cas?)
    ensures Owes(Step(s, m, c).0, Step(s, m, c).1)
  {
    var t := Step(s, m, c).0;
    StepKeeps(s, first, m, c);
    OwesStable(s, t, m);
    HeldNow(t, first, m.marks.startAt);
  }

  lemma {:induction false} TransOwes(s: Shared, first: nat, m: Msg)
    requires MayStep(s, first, m) && m.pc.Trans?
    ensures Owes(TransStep(s, m).0, TransStep(s, m).1)
  {
    var t := TransStep(s, m).0;
    TransKeeps(s, first, m);
    OwesStable(s, t, m);
    HeldNow(s, first, m.marks.startAt);
    HeldNow(t, first, m.marks.startAt);
  }

  lemma {:induction false} ClearOwes(s: Shared, first: nat, m: Msg)
    requires MayStep(s, first, m) && m.pc.Clear?
    ensures Owes(ClearStep(s, m).0, ClearStep(s, m).1)
  {
    var t := ClearStep(s, m).0;
    ClearKeeps(s, first, m);
    OwesStable(s, t, m);
    HeldNow(s, first, m.marks.startAt);
  }

  lemma {:induction false} ReadOwes(s: Shared, first: nat, m: Msg, c: Choice)
    requires MayStep(s, first, m)
    requires m.pc.Entry? || m.pc.Preflight? || m.pc.HumanSync? || m.pc.HintCheck? || m.pc.Choose?
    ensures Owes(Step(s, m, c).0, Step(s, m, c).1)
  {
    HeldNow(s, first, m.marks.startAt);
  }

  lemma {:induction false} HandlerOwes(s: Shared, first: nat, m: Msg, c: Choice)
    requires MayStep(s, first, m) && m.pc.Handler?
    ensures Owes(HandlerStep(s, m, c).0, HandlerStep(s, m, c).1)
  {
  }

  lemma {:induction false} LlmOwes(s: Shared, first: nat, m: Msg, c: Choice)
    requires MayStep(s, first, m)
    requires m.pc.Chat? || m.pc.Turn? || m.pc.Escalate? || m.pc.Reread? || m.pc.CacheStep? || m.pc.Reply?
    ensures Owes(Step(s, m, c).0, Step(s, m, c).1)
  {
  }

  lemma {:induction false} StepOwes(s: Shared, first: nat, m: Msg, c: Choice)
    requires MayStep(s, first, m)
    ensures Owes(Step(s, m, c).0, Step(s, m, c).1)
  {
    match m.pc
    case Resuming(_, _) | Inbound | Cas => WriteOwes(s, first, m, c);
    case Clear(_, _) => ClearOwes(s, first, m);
    case Trans(_, _, _) => TransOwes(s, first, m);
    case Entry(_) | Preflight | HumanSync | HintCheck | Choose => ReadOwes(s, first, m, c);
    case Handler(_, _) => HandlerOwes(s, first, m, c);
    case Chat | Turn | Escalate | Reread | CacheStep | Reply => LlmOwes(s, first, m, c);
    case Done | Raised =>
  }

  // The steps that write Redis without the database: clearing a pending order,
  // clearing a pending booking, and the quick reply that calls an operator.
  predicate RedisAlone(m: Msg, c: Choice) {
    (m.pc.Clear? && m.pc.c.Reset?) || (m.pc.Handler? && m.pc.h == Booking && c.bookingClears) || m.pc == Escalate
  }

  // A message of a customer without a row stays clear of the database's state
  // until the inbound log creates the row.
  ghost predicate StaysUnborn(s: Shared, m: Msg, c: Choice, x: (Shared, Msg)) {
    && (x.0.row.Some? ==> x.0.log == [Chatting] && Owes(x.0, x.1))
    && (x.0.row.None? ==> Unborn(x.1) && PlainCache(x.0.cache))
    && (x.0.cache != s.cache ==> RedisAlone(m, c))
  }

  lemma {:induction false} UnbornArrival(s: Shared, first: nat, m: Msg, c: Choice)
    requires Steady(s, first, m) && s.row.None? && Unborn(m) && PlainCache(s.cache)
    requires m.pc.Entry? || m.pc.Preflight? || m.pc.HumanSync? || m.pc.HintCheck? || m.pc.Inbound? || m.pc.Choose?
    ensures StaysUnborn(s, m, c, Step(s, m, c))
  {
  }

  lemma {:induction false} UnbornClear(s: Shared, first: nat, m: Msg, c: Choice)
    requires Steady(s, first, m) && s.row.None? && Unborn(m) && PlainCache(s.cache) && m.pc.Clear?
    ensures StaysUnborn(s, m, c, ClearStep(s, m))
  {
  }

  lemma {:induction false} UnbornStep(s: Shared, first: nat, m: Msg, c: Choice)
    requires Steady(s, first, m) && s.row.None? && Unborn(m) && PlainCache(s.cache)
    ensures StaysUnborn(s, m, c, Step(s, m, c))
  {
    match m.pc
    case Entry(_) | Preflight | HumanSync | HintCheck | Inbound | Choose => UnbornArrival(s, first, m, c);
    case Clear(_, _) => UnbornClear(s, first, m, c);
    case _ =>
  }

  lemma {:induction false} NextOwes(w: World, first: nat, v: Move)
    requires Ok(w, first) && AllOwe(w) && (w.shared.row.None? ==> first == 0) && PlainMove(w.shared, v)
    ensures AllOwe(Next(w, v))
  {
    var x := Next(w, v);
    NextOk(w, first, v);
    if w.shared.row.Some? {
      forall i | i in x.msgs ensures Owes(x.shared, x.msgs[i]) {
        if Advances(v, i) {
          StepOwes(w.shared, first, w.msgs[i], v.choice);
        } else if i in w.msgs {
          OwesStable(w.shared, x.shared, w.msgs[i]);
        }
      }
    } else if v.Advance? && v.id in w.msgs {
      UnbornStep(w.shared, first, w.msgs[v.id], v.choice);
    }
  }

  lemma {:induction false} RunOwes(w: World, moves: seq<Move>, n: nat)
    requires Initial(w) && AllPlain(w, moves) && n <= |moves|
    ensures AllOwe(Run(w, moves, n))
  {
    if n > 0 {
      RunOwes(w, moves, n - 1);
      RunOk(w, moves, n - 1);
      assert PlainAt(w, moves, n - 1);
      NextOwes(Run(w, moves, n - 1), FirstVersion(w), moves[n - 1]);
    }
  }

  lemma {:induction false} CacheFollows(s: Shared, first: nat, m: Msg, c: Choice)
    requires MayStep(s, first, m)
    requires Step(s, m, c).0.cache != s.cache && !RedisAlone(m, c)
    ensures Step(s, m, c).0.cache.Some? && Held(s.log, m.marks.startAt, Step(s, m, c).0.cache.value)
  {
    HeldNow(s, first, m.marks.startAt);
  }

  // The cache never leads elsewhere: a message, of a known or of a new
  // customer, changes the cached state only to a value the database held at
  // some moment since the message arrived.
  lemma {:induction false} CacheNeverLeads(w: World, moves: seq<Move>, n: nat, id: int, c: Choice)
    requires Initial(w) && AllPlain(w, moves) && n <= |moves| && id in Run(w, moves, n).msgs
    requires var x := Run(w, moves, n);
             Step(x.shared, x.msgs[id], c).0.cache != x.shared.cache && !RedisAlone(x.msgs[id], c)
    ensures var x := Run(w, moves, n);
            var t := Step(x.shared, x.msgs[id], c).0;
            t.cache.Some? && Held(x.shared.log, x.msgs[id].marks.startAt, t.cache.value)
  {
    RunOk(w, moves, n);
    RunOwes(w, moves, n);
    var x := Run(w, moves, n);
    if x.shared.row.Some? {
      CacheFollows(x.shared, FirstVersion(w), x.msgs[id], c);
    } else {
      UnbornStep(x.shared, FirstVersion(w), x.msgs[id], c);
    }
  }

  // On the three paths it does lead: the row and its history stay as they are,
  // and the copy agrees with the row afterwards only if the row already said
  // what was written, CHATTING, or HUMAN_MODE for the quick reply.
  lemma {:induction false} RedisAloneAgreesIff(s: Shared, m: Msg, c: Choice)
    requires RedisAlone(m, c) && s.row.Some?
    ensures var t := Step(s, m, c).0;
            var written := if m.pc == Escalate then HumanMode else Chatting;
            && t.row == s.row && t.log == s.log
            && (!(m.pc.Clear? && m.pc.c == Reset(HumanMode)) ==>
                  (t.cache == Some(t.row.value.state) <==> s.row.value.state == written))
  {
  }

  // A whole clearing of a pending order leaves the durable state what it was,
  // so afterwards the copy agrees with the row exactly when the row already
  // said what was put into Redis. And it may not clear Redis: when the state
  // key was missing, looking the state up brings the order key back from the
  // row, which is updated last.
  lemma {:induction false} ClearingLeads(s: Shared, m: Msg, c: Choice)
    requires m.pc.Clear? && m.pc.c == Drop && s.row.Some?
    ensures var found := if s.cache.Some? then s.cache.value else s.row.value.state;
            var t := Uninterrupted(s, m, c, if s.cache.Some? then 4 else 6).0;
            && t.row.Some? && t.row.value.state == s.row.value.state && t.row.value.order == None
            && (t.cache == Some(t.row.value.state) <==>
                  s.row.value.state == if found == HumanMode then HumanMode else Chatting)
            && (t.cachedOrder == None <==> s.cache.Some? || s.row.value.order == None)
  {
    var next := m.pc.next;
    var s1 := s.(cachedOrder := None);
    assert Uninterrupted(s, m, c, 1) == (s1, m.(pc := Clear(Current(Ask), next)));
    if s.cache.Some? {
      assert Uninterrupted(s, m, c, 2) == (s1, m.(pc := Clear(Reset(s.cache.value), next)));
      assert Uninterrupted(s, m, c, 3).1 == m.(pc := Clear(Forget, next));
    } else {
      var u := s.row.value;
      assert Uninterrupted(s, m, c, 2) == (s1, m.(pc := Clear(Current(Fetch), next)));
      assert Uninterrupted(s, m, c, 3) == (s1, m.(pc := Clear(Current(Fill(u.state, u.order)), next)));
      assert Uninterrupted(s, m, c, 4).1 == m.(pc := Clear(Reset(u.state), next));
      assert Uninterrupted(s, m, c, 5).1 == m.(pc := Clear(Forget, next));
    }
  }
}
