// The failures that the safety results leave room for do occur: for every
// customer of a simple kind, a run from the start that reaches each of them.
module DialogRuns {
  import opened Wrappers
  import opened Dialog
  import opened DialogSafety
  import OrderConfirmation

  // A customer nobody has taken over, whose state Redis and the row agree on.
  predicate Unattended(s: Shared, x: State) {
    && s.row.Some? && s.row.value.state == x && s.cache == Some(x) && x != HumanMode
    && !s.row.value.paused && s.row.value.snoozedUntil == None
  }

  // One who owes a payment answer.
  predicate Paying(s: Shared) {
    Unattended(s, AwaitingPayment) && s.cachedOrder.Some?
  }

  const ELSE := Input(false, SaysElse)

  function Choosing(turn: ChatTurn): Choice {
    Choice(false, false, OrderConfirmation.PaymentRaised, OrderConfirmation.ConfirmRaised, true, false, turn,
           Route(None, Keep, Keep))
  }

  const GO := Choosing(CallLlm)

  // The message steps n times.
  function Go(c: Choice, n: nat): seq<Move> {
    seq(n, _ => Advance(1, c))
  }

  // ---------------------------------------------------------------- chaining

  // The world holds this one message.
  ghost predicate AloneAt(w: World, moves: seq<Move>, n: nat, s: Shared, m: Msg)
    requires n <= |moves|
  {
    Run(w, moves, n) == World(s, map[1 := m])
  }

  lemma {:induction false} OneStep(w: World, moves: seq<Move>, n: nat, s: Shared, m: Msg, c: Choice)
    requires n < |moves| && AloneAt(w, moves, n, s, m) && moves[n] == Advance(1, c)
    ensures AloneAt(w, moves, n + 1, Step(s, m, c).0, Step(s, m, c).1)
  {
    var x := World(s, map[1 := m]);
    assert Run(w, moves, n + 1) == Next(x, Advance(1, c));
    assert x.msgs[1 := Step(s, m, c).1] == map[1 := Step(s, m, c).1];
  }

  ghost predicate Leads(s: Shared, m: Msg, c: Choice, n: nat, t: Shared, l: Msg) {
    Uninterrupted(s, m, c, n) == (t, l)
  }

  lemma {:induction false} AloneSteps(
    w: World, moves: seq<Move>, k: nat, n: nat, s: Shared, m: Msg, c: Choice, t: Shared, l: Msg)
    requires k + n <= |moves| && AloneAt(w, moves, k, s, m) && Leads(s, m, c, n, t, l)
    requires forall i :: k <= i < k + n ==> moves[i] == Advance(1, c)
    ensures AloneAt(w, moves, k + n, t, l)
  {
    if n > 0 {
      var (u, j) := Uninterrupted(s, m, c, n - 1);
      AloneSteps(w, moves, k, n - 1, s, m, c, u, j);
      assert moves[k + n - 1] == Advance(1, c);
      OneStep(w, moves, k + n - 1, u, j, c);
    }
  }

  // ---------------------------------------------------------------- up to the choice

  function Before(s: Shared, x: State, input: Input, pc: Pc): Msg {
    Arrived(s, 1, input).(state := x, pc := pc)
  }

  function Past(s: Shared, x: State, input: Input, pc: Pc): Msg
    requires s.row.Some?
  {
    var m := Before(s, x, input, pc);
    m.(version := Some(s.row.value.version), marks := m.marks.(readAt := |s.log|))
  }

  lemma {:induction false} ToPreflight(s: Shared, x: State, input: Input, c: Choice)
    requires Unattended(s, x) && !c.limited
    ensures Leads(s, Arrived(s, 1, input), c, 2, s, Before(s, x, input, Preflight))
  {
    assert Uninterrupted(s, Arrived(s, 1, input), c, 1) == (s, Before(s, x, input, Entry(RateLimit)));
  }

  lemma {:induction false} PastPreflight(s: Shared, x: State, input: Input, c: Choice)
    requires Unattended(s, x)
    ensures Leads(s, Before(s, x, input, Preflight), c, 1, s, Past(s, x, input, HumanSync))
  {
    var m := Before(s, x, input, Preflight);
    assert ReadRow(s, m) == (s, Past(s, x, input, HumanSync));
    assert Uninterrupted(s, m, c, 0) == (s, m);
  }

  lemma {:induction false} ToChoose(s: Shared, x: State, input: Input, c: Choice)
    requires Unattended(s, x)
    ensures Leads(s, Past(s, x, input, HumanSync), c, 3, s, Past(s, x, input, Choose))
  {
    var m := Past(s, x, input, HumanSync);
    assert Uninterrupted(s, m, c, 1) == (s, Past(s, x, input, HintCheck));
    assert Uninterrupted(s, m, c, 2) == (s, Past(s, x, input, Inbound));
  }

  // Six steps after its arrival the message of such a customer is at the choice.
  lemma {:induction false} RunToChoose(w: World, moves: seq<Move>, x: State, input: Input, c: Choice)
    requires Initial(w) && Unattended(w.shared, x) && !c.limited
    requires [Arrive(1, input)] + Go(c, 6) <= moves
    ensures AloneAt(w, moves, 7, w.shared, Past(w.shared, x, input, Choose))
  {
    var s := w.shared;
    assert moves[0] == ([Arrive(1, input)] + Go(c, 6))[0];
    assert Run(w, moves, 0) == w;
    assert AloneAt(w, moves, 1, s, Arrived(s, 1, input));
    forall i | 1 <= i < 7 ensures moves[i] == Advance(1, c) {
      assert moves[i] == ([Arrive(1, input)] + Go(c, 6))[i];
    }
    ToPreflight(s, x, input, c);
    AloneSteps(w, moves, 1, 2, s, Arrived(s, 1, input), c, s, Before(s, x, input, Preflight));
    PastPreflight(s, x, input, c);
    AloneSteps(w, moves, 3, 1, s, Before(s, x, input, Preflight), c, s, Past(s, x, input, HumanSync));
    ToChoose(s, x, input, c);
    AloneSteps(w, moves, 4, 3, s, Past(s, x, input, HumanSync), c, s, Past(s, x, input, Choose));
  }

  // ---------------------------------------------------------------- the payment handler

  function Written(m: Msg): Msg {
    m.(pc := Trans(Cache, Chatting, ToChat), marks := m.marks.(rewrote := true))
  }

  // An answer that is no payment: the order is found, the transition checked,
  // CHATTING written, whatever state the check finds.
  lemma {:induction false} HandlerWrites(s: Shared, m: Msg, c: Choice)
    requires s.row.Some? && s.cachedOrder.Some? && s.cache.Some?
    requires m.pc == Handler(Payment, AskOrder) && m.input.answer == SaysElse
    ensures var t := Commit(Emit(s, Handled(m.id)), ToState(Chatting), None, None).0;
            && t.row.Some? && t.row.value.state == Chatting && t.row.value.version == s.row.value.version + 1
            && Leads(s, m, c, 3, t, Written(m))
  {
    var e := Emit(s, Handled(m.id));
    assert Uninterrupted(s, m, c, 1) == (e, m.(pc := Trans(Check(Ask), Chatting, ToChat)));
    assert Uninterrupted(s, m, c, 2) == (e, m.(pc := Trans(Write, Chatting, ToChat)));
  }

  lemma {:induction false} ChoosesPayment(s: Shared, c: Choice)
    requires Paying(s)
    ensures Leads(s, Past(s, AwaitingPayment, ELSE, Choose), c, 1, s, Past(s, AwaitingPayment, ELSE, IN_HANDLER))
  {
    var m := Past(s, AwaitingPayment, ELSE, Choose);
    assert Uninterrupted(s, m, c, 0) == (s, m);
  }

  // The third way out of human mode, which is not meant. The message of a
  // customer who owes a payment answer has reached the handler when the operator
  // takes the dialog over, in the row and in Redis; then it looks up its order,
  // checks the transition, finds HUMAN_MODE, and writes CHATTING over it.
  function TakeoverMoves(): seq<Move> {
    [Arrive(1, ELSE)] + Go(GO, 7) + [Other(Writes(ToState(HumanMode))), Other(Caches(Some(HumanMode)))] + Go(GO, 3)
  }

  function TakenOver(s: Shared): Shared {
    OutsideStep(OutsideStep(s, Writes(ToState(HumanMode))), Caches(Some(HumanMode)))
  }

  const IN_HANDLER := Handler(Payment, AskOrder)

  lemma {:induction false} RunToHandler(w: World, moves: seq<Move>)
    requires Initial(w) && Paying(w.shared) && [Arrive(1, ELSE)] + Go(GO, 7) <= moves
    ensures AloneAt(w, moves, 8, w.shared, Past(w.shared, AwaitingPayment, ELSE, IN_HANDLER))
  {
    var s := w.shared;
    assert [Arrive(1, ELSE)] + Go(GO, 6) <= [Arrive(1, ELSE)] + Go(GO, 7);
    RunToChoose(w, moves, AwaitingPayment, ELSE, GO);
    ChoosesPayment(s, GO);
    assert moves[7] == ([Arrive(1, ELSE)] + Go(GO, 7))[7];
    var m := Past(s, AwaitingPayment, ELSE, Choose);
    AloneSteps(w, moves, 7, 1, s, m, GO, s, m.(pc := IN_HANDLER));
  }

  lemma {:induction false} TakenOverInHandler(w: World)
    requires Initial(w) && Paying(w.shared)
    ensures AloneAt(w, TakeoverMoves(), 10, TakenOver(w.shared), Past(w.shared, AwaitingPayment, ELSE, IN_HANDLER))
  {
    var v := TakeoverMoves();
    RunToHandler(w, v);
    assert Run(w, v, 9) == Next(Run(w, v, 8), v[8]);
    assert Run(w, v, 10) == Next(Run(w, v, 9), v[9]);
  }

  lemma {:induction false} TakeoverLostInPayment(w: World)
    requires Initial(w) && Paying(w.shared)
    ensures var taken := Run(w, TakeoverMoves(), 10);
            && taken.shared.row.Some? && taken.shared.row.value.state == HumanMode
            && taken.shared.cache == Some(HumanMode)
            && 1 in taken.msgs && taken.msgs[1].pc == IN_HANDLER
    ensures var lost := Run(w, TakeoverMoves(), |TakeoverMoves()|);
            lost.shared.row.Some? && lost.shared.row.value.state == Chatting
  {
    TakenOverInHandler(w);
    var s, m := TakenOver(w.shared), Past(w.shared, AwaitingPayment, ELSE, IN_HANDLER);
    HandlerWrites(s, m, GO);
    AloneSteps(w, TakeoverMoves(), 10, 3, s, m, GO,
               Commit(Emit(s, Handled(m.id)), ToState(Chatting), None, None).0, Written(m));
  }

  // ---------------------------------------------------------------- the dropped answer

  lemma {:induction false} ToReread(s: Shared, m: Msg)
    requires m.pc == Trans(Cache, Chatting, ToChat)
    ensures Leads(s, m, GO, 3, Emit(s.(cache := Some(Chatting)), CalledLlm(m.id)), m.(state := Chatting, pc := Reread))
  {
    var t := s.(cache := Some(Chatting));
    assert Uninterrupted(s, m, GO, 1) == (t, m.(state := Chatting, pc := Chat));
    assert Uninterrupted(s, m, GO, 2) == (t, m.(state := Chatting, pc := Turn));
  }

  lemma {:induction false} RereadDrops(s: Shared, m: Msg)
    requires m.pc == Reread && m.version.Some? && s.row.Some? && s.row.value.version != m.version.value
    ensures Leads(s, m, GO, 1, Emit(s, Dropped(m.id)), m.(pc := Done))
  {
    assert Uninterrupted(s, m, GO, 0) == (s, m);
  }

  // The same answer with nobody else about: the message's own transition bumps
  // the version it has read, so the LLM is called and its answer dropped.
  function AnswerMoves(): seq<Move> {
    [Arrive(1, ELSE)] + Go(GO, 14)
  }

  // The customer's row after that transition, and Redis brought up to it.
  function Rewritten(s: Shared): Shared {
    Commit(Emit(s, Handled(1)), ToState(Chatting), None, None).0
  }

  function AtReread(s: Shared): Shared {
    Emit(Rewritten(s).(cache := Some(Chatting)), CalledLlm(1))
  }

  function Rereading(s: Shared): Msg
    requires s.row.Some?
  {
    Written(Past(s, AwaitingPayment, ELSE, IN_HANDLER)).(state := Chatting, pc := Reread)
  }

  lemma {:induction false} AnswerReachesReread(w: World)
    requires Initial(w) && Paying(w.shared)
    ensures AloneAt(w, AnswerMoves(), 14, AtReread(w.shared), Rereading(w.shared))
  {
    var s, v := w.shared, AnswerMoves();
    var h := Past(s, AwaitingPayment, ELSE, IN_HANDLER);
    assert [Arrive(1, ELSE)] + Go(GO, 7) <= v;
    RunToHandler(w, v);
    HandlerWrites(s, h, GO);
    AloneSteps(w, v, 8, 3, s, h, GO, Rewritten(s), Written(h));
    ToReread(Rewritten(s), Written(h));
    AloneSteps(w, v, 11, 3, Rewritten(s), Written(h), GO, AtReread(s), Rereading(s));
  }

  lemma {:induction false} OwnWriteDropped(w: World)
    requires Initial(w) && Paying(w.shared)
    ensures var x := Run(w, AnswerMoves(), 14);
            && 1 in x.msgs && x.msgs[1].pc == Reread && x.msgs[1].marks.rewrote && x.msgs[1].version.Some?
            && x.shared.row.Some? && x.shared.row.value.state == Chatting
    ensures var x := Run(w, AnswerMoves(), |AnswerMoves()|);
            && 1 in x.msgs && x.msgs[1].pc == Done
            && x.shared.trace == [Handled(1), CalledLlm(1), Dropped(1)]
  {
    var s, m := AtReread(w.shared), Rereading(w.shared);
    AnswerReachesReread(w);
    RereadDrops(s, m);
    AloneSteps(w, AnswerMoves(), 14, 1, s, m, GO, Emit(s, Dropped(1)), m.(pc := Done));
  }

  // ---------------------------------------------------------------- Redis alone

  lemma {:induction false} QuickReplyEscalates(s: Shared)
    requires Unattended(s, Chatting)
    ensures Leads(s, Past(s, Chatting, ELSE, Choose), Choosing(QuickHuman), 4,
                  Emit(s, Sent(1)).(cache := Some(HumanMode)), Past(s, Chatting, ELSE, Done))
  {
    var m, c := Past(s, Chatting, ELSE, Choose), Choosing(QuickHuman);
    assert Uninterrupted(s, m, c, 1) == (s, Past(s, Chatting, ELSE, Chat));
    assert Uninterrupted(s, m, c, 2) == (s, Past(s, Chatting, ELSE, Turn));
    assert Uninterrupted(s, m, c, 3) == (Emit(s, Sent(1)), Past(s, Chatting, ELSE, Escalate));
  }

  // The quick reply that calls an operator leaves Redis at HUMAN_MODE and the
  // row at CHATTING.
  lemma {:induction false} EscalationLeads(w: World)
    requires Initial(w) && Unattended(w.shared, Chatting)
    ensures var x := Run(w, [Arrive(1, ELSE)] + Go(Choosing(QuickHuman), 10), 11);
            && 1 in x.msgs && x.msgs[1].pc == Done && x.shared.trace == [Sent(1)]
            && x.shared.row == w.shared.row && x.shared.cache == Some(HumanMode)
  {
    var s, c := w.shared, Choosing(QuickHuman);
    var v := [Arrive(1, ELSE)] + Go(c, 10);
    assert [Arrive(1, ELSE)] + Go(c, 6) <= v;
    RunToChoose(w, v, Chatting, ELSE, c);
    QuickReplyEscalates(s);
    AloneSteps(w, v, 7, 4, s, Past(s, Chatting, ELSE, Choose), c,
               Emit(s, Sent(1)).(cache := Some(HumanMode)), Past(s, Chatting, ELSE, Done));
  }

  lemma {:induction false} BookingClears(s: Shared)
    requires Unattended(s, ConfirmingBooking)
    ensures Leads(s, Past(s, ConfirmingBooking, ELSE, Choose), GO, 3,
                  Emit(Emit(s.(cache := Some(Chatting)), Handled(1)), Sent(1)), Past(s, ConfirmingBooking, ELSE, Done))
  {
    var m := Past(s, ConfirmingBooking, ELSE, Choose);
    assert Uninterrupted(s, m, GO, 1) == (s, Past(s, ConfirmingBooking, ELSE, Handler(Booking, AskOrder)));
    assert Uninterrupted(s, m, GO, 2)
        == (Emit(s.(cache := Some(Chatting)), Handled(1)), Past(s, ConfirmingBooking, ELSE, Reply));
  }

  // Clearing a pending booking leaves Redis at CHATTING and the row where it was.
  lemma {:induction false} BookingLeads(w: World)
    requires Initial(w) && Unattended(w.shared, ConfirmingBooking)
    ensures var x := Run(w, [Arrive(1, ELSE)] + Go(GO, 9), 10);
            && 1 in x.msgs && x.msgs[1].pc == Done && x.shared.trace == [Handled(1), Sent(1)]
            && x.shared.row == w.shared.row && x.shared.cache == Some(Chatting)
  {
    var s, v := w.shared, [Arrive(1, ELSE)] + Go(GO, 9);
    assert [Arrive(1, ELSE)] + Go(GO, 6) <= v;
    RunToChoose(w, v, ConfirmingBooking, ELSE, GO);
    BookingClears(s);
    AloneSteps(w, v, 7, 3, s, Past(s, ConfirmingBooking, ELSE, Choose), GO,
               Emit(Emit(s.(cache := Some(Chatting)), Handled(1)), Sent(1)), Past(s, ConfirmingBooking, ELSE, Done));
  }
}
