// What a message does when nobody interferes, from its arrival to its end: the
// row, the Redis copy and the trace it leaves, spelled out for every outcome.
module DialogEffects {
  import opened Wrappers
  import opened Dialog
  import opened DialogSafety
  import opened DialogRuns
  import OrderConfirmation

  // The message arrives and steps n times.
  function Alone(input: Input, c: Choice, n: nat): seq<Move> {
    [Arrive(1, input)] + Go(c, n)
  }

  // So it leaves the world: it is over, and the world is t.
  ghost predicate EndsIn(w: World, input: Input, c: Choice, n: nat, t: Shared, last: Pc) {
    var x := Run(w, Alone(input, c, n), n + 1);
    x.shared == t && x.msgs.Keys == {1} && x.msgs[1].pc == last
  }

  lemma {:induction false} FromChoose(
    w: World, x: State, input: Input, c: Choice, n: nat, t: Shared, l: Msg)
    requires Initial(w) && Unattended(w.shared, x) && !c.limited
    requires Leads(w.shared, Past(w.shared, x, input, Choose), c, n, t, l)
    ensures EndsIn(w, input, c, 6 + n, t, l.pc)
  {
    var v := Alone(input, c, 6 + n);
    assert [Arrive(1, input)] + Go(c, 6) <= v;
    RunToChoose(w, v, x, input, c);
    AloneSteps(w, v, 7, n, w.shared, Past(w.shared, x, input, Choose), c, t, l);
  }

  // A stretch of such a run.
  lemma {:induction false} Stretch(
    w: World, input: Input, c: Choice, size: nat, k: nat, n: nat, s: Shared, m: Msg, t: Shared, l: Msg)
    requires 1 <= k && k + n <= size + 1 && AloneAt(w, Alone(input, c, size), k, s, m) && Leads(s, m, c, n, t, l)
    ensures AloneAt(w, Alone(input, c, size), k + n, t, l)
  {
    AloneSteps(w, Alone(input, c, size), k, n, s, m, c, t, l);
  }

  lemma {:induction false} Arrives(w: World, input: Input, c: Choice, size: nat)
    requires Initial(w)
    ensures AloneAt(w, Alone(input, c, size), 1, w.shared, Arrived(w.shared, 1, input))
  {
    var v := Alone(input, c, size);
    assert Run(w, v, 0) == w && v[0] == Arrive(1, input);
    assert Run(w, v, 1) == Next(w, v[0]);
  }

  lemma {:induction false} Ended(w: World, input: Input, c: Choice, n: nat, t: Shared, l: Msg)
    requires AloneAt(w, Alone(input, c, n), n + 1, t, l)
    ensures EndsIn(w, input, c, n, t, l.pc)
  {
  }

  // ---------------------------------------------------------------- before the choice

  // Over the rate limit there is a reply and nothing else.
  lemma {:induction false} LimitedIsAnswered(w: World, x: State, input: Input, c: Choice)
    requires Initial(w) && Unattended(w.shared, x) && c.limited
    ensures EndsIn(w, input, c, 2, Emit(w.shared, Sent(1)), Done)
  {
    var s, v := w.shared, Alone(input, c, 2);
    Arrives(w, input, c, 2);
    assert Uninterrupted(s, Arrived(s, 1, input), c, 1) == (s, Before(s, x, input, Entry(RateLimit)));
    Stretch(w, input, c, 2, 1, 2, s, Arrived(s, 1, input), Emit(s, Sent(1)), Before(s, x, input, Done));
    Ended(w, input, c, 2, Emit(s, Sent(1)), Before(s, x, input, Done));
  }

  // A state that Redis does not have is fetched from the row, order included.
  lemma {:induction false} MissIsFilled(w: World, input: Input, c: Choice)
    requires Initial(w) && w.shared.row.Some? && w.shared.cache == None
    ensures var s := w.shared;
            EndsIn(w, input, c, 3,
                   s.(cache := Some(s.row.value.state),
                      cachedOrder := if s.row.value.order.Some? then s.row.value.order else s.cachedOrder),
                   Entry(RateLimit))
  {
    var s, v := w.shared, Alone(input, c, 3);
    var u, m := s.row.value, Arrived(s, 1, input);
    Arrives(w, input, c, 3);
    assert Uninterrupted(s, m, c, 1) == (s, m.(pc := Entry(Find(Fetch))));
    assert Uninterrupted(s, m, c, 2) == (s, m.(pc := Entry(Find(Fill(u.state, u.order)))));
    var (t, l) := Uninterrupted(s, m, c, 3);
    Stretch(w, input, c, 3, 1, 3, s, m, t, l);
    Ended(w, input, c, 3, t, l);
  }

  lemma {:induction false} UnknownToPreflight(s: Shared, m: Msg, c: Choice)
    requires s.row.None? && s.cache == None && !c.limited && m.pc == Entry(Find(Ask))
    ensures Leads(s, m, c, 3, s, m.(state := Chatting, pc := Preflight))
  {
    assert Uninterrupted(s, m, c, 1) == (s, m.(pc := Entry(Find(Fetch))));
    assert Uninterrupted(s, m, c, 2) == (s, m.(state := Chatting, pc := Entry(RateLimit)));
  }

  lemma {:induction false} UnknownPastPreflight(s: Shared, m: Msg, c: Choice)
    requires s.row.None? && s.log == [] && m.pc == Preflight && m.version == None && m.marks.readAt == 0
    ensures Leads(s, m, c, 1, s, m.(pc := HumanSync))
  {
    assert Uninterrupted(s, m, c, 0) == (s, m);
  }

  lemma {:induction false} UnknownIsCreated(s: Shared, m: Msg, c: Choice)
    requires s.row.None? && s.log == [] && m.pc == HumanSync && !m.seen.human && !c.inboundFails
    ensures Leads(s, m, c, 3, s.(row := Some(User(Chatting, 0, None, None, false, None, None)), log := [Chatting]),
                  m.(pc := Choose))
  {
    assert Uninterrupted(s, m, c, 1) == (s, m.(pc := HintCheck));
    assert Uninterrupted(s, m, c, 2) == (s, m.(pc := Inbound));
    assert s.log + [Chatting] == [Chatting];
  }

  // A new customer gets a row before anything is chosen.
  lemma {:induction false} NewCustomer(w: World, input: Input, c: Choice)
    requires Initial(w) && w.shared.row.None? && w.shared.cache == None && !c.limited && !c.inboundFails
    ensures EndsIn(w, input, c, 7,
                   w.shared.(row := Some(User(Chatting, 0, None, None, false, None, None)), log := [Chatting]), Choose)
  {
    var s, m := w.shared, Arrived(w.shared, 1, input);
    var t := s.(row := Some(User(Chatting, 0, None, None, false, None, None)), log := [Chatting]);
    Arrives(w, input, c, 7);
    UnknownToPreflight(s, m, c);
    Stretch(w, input, c, 7, 1, 3, s, m, s, m.(pc := Preflight));
    UnknownPastPreflight(s, m.(pc := Preflight), c);
    Stretch(w, input, c, 7, 4, 1, s, m.(pc := Preflight), s, m.(pc := HumanSync));
    UnknownIsCreated(s, m.(pc := HumanSync), c);
    Stretch(w, input, c, 7, 5, 3, s, m.(pc := HumanSync), t, m.(pc := Choose));
    Ended(w, input, c, 7, t, m.(pc := Choose));
  }

  // ---------------------------------------------------------------- the LLM branch

  // An answer that nobody overtakes is executed: the row takes its state and its
  // pending ids, Redis the same state and a new pending order, and it is sent.
  function Executed(s: Shared, r: Route): Shared
    requires s.row.Some?
  {
    var u := s.row.value;
    var state := if r.newState.Some? then r.newState.value else Chatting;
    var order := match r.order case Keep => u.order case Put(v) => v;
    var booking := match r.booking case Keep => u.booking case Put(v) => v;
    var nothing := r == Route(None, Keep, Keep);
    Shared(
      Some(User(state, if nothing then u.version else u.version + 1, order, booking,
                u.paused, u.snoozedUntil, u.humanUntil)),
      Some(state),
      if r.order.Put? && r.order.value.Some? then r.order.value else s.cachedOrder,
      s.now, if nothing then s.log else s.log + [state],
      s.trace + [CalledLlm(1), Routed(1), Sent(1)])
  }

  lemma {:induction false} TurnLeads(s: Shared, m: Msg, c: Choice)
    requires m.pc == Choose && m.state == Chatting && m.seen == Seen(false, false, false)
    requires c.turn == CallLlm && !c.stale
    ensures Leads(s, m, c, 3, Emit(s, CalledLlm(m.id)), m.(pc := Reread))
  {
    assert Uninterrupted(s, m, c, 1) == (s, m.(pc := Chat));
    assert Uninterrupted(s, m, c, 2) == (s, m.(pc := Turn));
  }

  lemma {:induction false} RouteLeads(s: Shared, m: Msg, c: Choice)
    requires m.pc == Reread && m.state == Chatting && s.row.Some? && s.row.value.state == Chatting
    requires m.version == Some(s.row.value.version) && s.cache == Some(Chatting) && m.id == 1
    ensures var t := Executed(s, c.route);
            Leads(s, m, c, 4, t.(trace := s.trace + [Routed(1), Sent(1)]),
                  m.(result := c.route, applied := true, pc := Done))
  {
    var e, k := Emit(s, Routed(1)), m.(result := c.route, pc := Cas);
    assert Uninterrupted(s, m, c, 1) == (e, k);
    assert Uninterrupted(s, m, c, 2) == (CasStep(e, k).0, k.(applied := true, pc := CacheStep));
    var t := CacheResult(CasStep(e, k).0, k.(applied := true, pc := CacheStep)).0;
    assert Uninterrupted(s, m, c, 3) == (t, k.(applied := true, pc := Reply));
    assert t == Executed(s, c.route).(trace := s.trace + [Routed(1)]);
    assert s.trace + [Routed(1)] + [Sent(1)] == s.trace + [Routed(1), Sent(1)];
  }

  lemma {:induction false} TurnIsExecuted(s: Shared, m: Msg, c: Choice)
    requires Unattended(s, Chatting) && m == Past(s, Chatting, ELSE, Reread).(input := m.input)
    ensures Leads(Emit(s, CalledLlm(1)), m, c, 4, Executed(s, c.route),
                  m.(result := c.route, applied := true, pc := Done))
  {
    var e, t := Emit(s, CalledLlm(1)), Executed(s, c.route);
    RouteLeads(e, m, c);
    assert e.trace + [Routed(1), Sent(1)] == t.trace;
    assert Executed(e, c.route).(trace := t.trace) == t;
  }

  lemma {:induction false} ReachesReread(w: World, moves: seq<Move>, input: Input, c: Choice)
    requires Initial(w) && Unattended(w.shared, Chatting) && !c.limited && c.turn == CallLlm && !c.stale
    requires [Arrive(1, input)] + Go(c, 9) <= moves
    ensures AloneAt(w, moves, 10, Emit(w.shared, CalledLlm(1)), Past(w.shared, Chatting, input, Reread))
  {
    var s := w.shared;
    var m := Past(s, Chatting, input, Choose);
    assert [Arrive(1, input)] + Go(c, 6) <= [Arrive(1, input)] + Go(c, 9);
    RunToChoose(w, moves, Chatting, input, c);
    TurnLeads(s, m, c);
    forall i | 7 <= i < 10 ensures moves[i] == Advance(1, c) {
      assert moves[i] == ([Arrive(1, input)] + Go(c, 9))[i];
    }
    AloneSteps(w, moves, 7, 3, s, m, c, Emit(s, CalledLlm(1)), m.(pc := Reread));
  }

  lemma {:induction false} AnswerIsExecuted(w: World, input: Input, c: Choice)
    requires Initial(w) && Unattended(w.shared, Chatting) && !c.limited && c.turn == CallLlm && !c.stale
    ensures EndsIn(w, input, c, 13, Executed(w.shared, c.route), Done)
  {
    var s, v := w.shared, Alone(input, c, 13);
    var k := Past(s, Chatting, input, Reread);
    assert [Arrive(1, input)] + Go(c, 9) <= v;
    ReachesReread(w, v, input, c);
    TurnIsExecuted(s, k, c);
    Stretch(w, input, c, 13, 10, 4, Emit(s, CalledLlm(1)), k,
            Executed(s, c.route), k.(result := c.route, applied := true, pc := Done));
    Ended(w, input, c, 13, Executed(s, c.route), k.(result := c.route, applied := true, pc := Done));
  }

  // A short cut before the LLM only replies.
  lemma {:induction false} ShortCutReplies(w: World, input: Input, c: Choice)
    requires Initial(w) && Unattended(w.shared, Chatting) && !c.limited && !c.stale
    requires c.turn == Acknowledge || c.turn == QuickText || c.turn == Faq
    ensures EndsIn(w, input, c, 9, Emit(w.shared, Sent(1)), Done)
  {
    var s := w.shared;
    var m := Past(s, Chatting, input, Choose);
    assert Uninterrupted(s, m, c, 1) == (s, m.(pc := Chat));
    assert Uninterrupted(s, m, c, 2) == (s, m.(pc := Turn));
    FromChoose(w, Chatting, input, c, 3, Emit(s, Sent(1)), m.(pc := Done));
  }

  // ---------------------------------------------------------------- clearing

  // The row and the copy after a clearing whose state key was there.
  function Cleared(s: Shared): Shared
    requires s.row.Some?
  {
    var u := s.row.value;
    s.(row := Some(User(u.state, u.version + 1, None, u.booking, u.paused, u.snoozedUntil, u.humanUntil)),
       cache := Some(Chatting), cachedOrder := None, log := s.log + [u.state])
  }

  lemma {:induction false} ClearLeads(s: Shared, m: Msg, c: Choice)
    requires m.pc == Clear(Drop, Finish) && s.row.Some? && s.cache.Some? && s.cache.value != HumanMode && m.id == 1
    ensures Leads(s, m, c, 4, Emit(Cleared(s), Sent(1)), m.(pc := Done, marks := m.marks.(rewrote := true)))
  {
    var s1 := s.(cachedOrder := None);
    assert Uninterrupted(s, m, c, 1) == (s1, m.(pc := Clear(Current(Ask), Finish)));
    assert Uninterrupted(s, m, c, 2) == (s1, m.(pc := Clear(Reset(s.cache.value), Finish)));
    assert Uninterrupted(s, m, c, 3) == (s1.(cache := Some(Chatting)), m.(pc := Clear(Forget, Finish)));
  }

  // Cancelling everything, in so many words or by a quick reply, clears.
  lemma {:induction false} CancelClears(w: World, input: Input, c: Choice)
    requires Initial(w) && Unattended(w.shared, Chatting) && !c.limited && !c.stale
    requires c.turn == CancelAll || c.turn == QuickCancel
    ensures EndsIn(w, input, c, 13, Emit(Cleared(w.shared), Sent(1)), Done)
  {
    var s, v := w.shared, Alone(input, c, 13);
    var m := Past(s, Chatting, input, Choose);
    assert [Arrive(1, input)] + Go(c, 6) <= v;
    RunToChoose(w, v, Chatting, input, c);
    assert Uninterrupted(s, m, c, 1) == (s, m.(pc := Chat));
    assert Uninterrupted(s, m, c, 2) == (s, m.(pc := Turn));
    var k := m.(pc := Clear(Drop, Finish));
    Stretch(w, input, c, 13, 7, 3, s, m, s, k);
    ClearLeads(s, k, c);
    Stretch(w, input, c, 13, 10, 4, s, k,
            Emit(Cleared(s), Sent(1)), k.(pc := Done, marks := k.marks.(rewrote := true)));
    Ended(w, input, c, 13, Emit(Cleared(s), Sent(1)), k.(pc := Done, marks := k.marks.(rewrote := true)));
  }

  lemma {:induction false} StaleLeads(s: Shared, m: Msg, c: Choice)
    requires m.pc == Chat && c.stale && s.row.Some? && s.cache == Some(Chatting)
    ensures Leads(s, m, c, 5, Cleared(s), m.(pc := Turn, marks := m.marks.(rewrote := true)))
  {
    var s1 := s.(cachedOrder := None);
    assert Uninterrupted(s, m, c, 1) == (s, m.(pc := Clear(Drop, ToTurn)));
    assert Uninterrupted(s, m, c, 2) == (s1, m.(pc := Clear(Current(Ask), ToTurn)));
    assert Uninterrupted(s, m, c, 3) == (s1, m.(pc := Clear(Reset(Chatting), ToTurn)));
    assert Uninterrupted(s, m, c, 4) == (s1, m.(pc := Clear(Forget, ToTurn)));
  }

  lemma {:induction false} StaleTurnLeads(s: Shared, m: Msg, c: Choice)
    requires m.pc == Turn && c.turn == CallLlm && m.id == 1 && m.version.Some? && s.row.Some?
    requires s.row.value.version != m.version.value
    ensures Leads(s, m, c, 2, Emit(Emit(s, CalledLlm(1)), Dropped(1)), m.(pc := Done))
  {
    assert Uninterrupted(s, m, c, 1) == (Emit(s, CalledLlm(1)), m.(pc := Reread));
  }

  lemma {:induction false} StaleCartCleared(w: World, input: Input, c: Choice)
    requires Initial(w) && Unattended(w.shared, Chatting) && !c.limited && c.stale
    ensures AloneAt(w, Alone(input, c, 14), 13, Cleared(w.shared),
                    StaleAtTurn(w.shared, input))
  {
    var s, v := w.shared, Alone(input, c, 14);
    var m := Past(s, Chatting, input, Choose);
    assert [Arrive(1, input)] + Go(c, 6) <= v;
    RunToChoose(w, v, Chatting, input, c);
    assert Uninterrupted(s, m, c, 0) == (s, m);
    Stretch(w, input, c, 14, 7, 1, s, m, s, m.(pc := Chat));
    StaleLeads(s, m.(pc := Chat), c);
    Stretch(w, input, c, 14, 8, 5, s, m.(pc := Chat), Cleared(s), StaleAtTurn(s, input));
  }

  function StaleAtTurn(s: Shared, input: Input): Msg
    requires s.row.Some?
  {
    var m := Past(s, Chatting, input, Turn);
    m.(marks := m.marks.(rewrote := true))
  }

  // A stale cart is cleared on the way to the LLM, whose answer is then dropped.
  lemma {:induction false} StaleCartDropsAnswer(w: World, input: Input, c: Choice)
    requires Initial(w) && Unattended(w.shared, Chatting) && !c.limited && c.stale && c.turn == CallLlm
    ensures EndsIn(w, input, c, 14, Emit(Emit(Cleared(w.shared), CalledLlm(1)), Dropped(1)), Done)
  {
    var t, k := Cleared(w.shared), StaleAtTurn(w.shared, input);
    StaleCartCleared(w, input, c);
    StaleTurnLeads(t, k, c);
    Stretch(w, input, c, 14, 13, 2, t, k, Emit(Emit(t, CalledLlm(1)), Dropped(1)), k.(pc := Done));
    Ended(w, input, c, 14, Emit(Emit(t, CalledLlm(1)), Dropped(1)), k.(pc := Done));
  }

  // ---------------------------------------------------------------- the handlers

  // What the payment and the confirmation handler make of an answer about a
  // pending order.
  datatype Ending = MovesTo(state: State) | Reenters | StaysPut | ClearsOrder | Stops

  function EndingOf(x: State, answer: Answer, c: Choice): Ending {
    match (x, answer)
    case (_, SaysNo) => ClearsOrder
    case (AwaitingPayment, NamesPayment) =>
      (match c.payment
       case PaymentNotFound => ClearsOrder
       case PaymentRaised => Stops
       case AskFulfillment => MovesTo(Chatting)
       case HoldForPrepayment => MovesTo(Chatting)
       case AskConfirmation => MovesTo(ConfirmingOrder))
    case (ConfirmingOrder, SaysYes) =>
      (match c.confirm
       case NeedFulfillment => MovesTo(Chatting)
       case RefusedByGate => MovesTo(Chatting)
       case HeldForPrepayment => StaysPut
       case SaysConfirmed => ClearsOrder
       case ConfirmNotFound => ClearsOrder
       case _ => Stops)
    case _ => Reenters
  }

  // A session write of a state, followed by Redis.
  function Moved(s: Shared, x: State): Shared
    requires s.row.Some?
  {
    var u := s.row.value;
    s.(row := Some(User(x, u.version + 1, u.order, u.booking, u.paused, u.snoozedUntil, u.humanUntil)),
       cache := Some(x), log := s.log + [x])
  }

  predicate Answering(s: Shared, x: State) {
    (x == AwaitingPayment || x == ConfirmingOrder) && Unattended(s, x) && s.cachedOrder.Some?
  }

  function Handling(x: State): HandlerPc {
    if x == AwaitingPayment then Payment else Confirmation
  }

  lemma {:induction false} ReachesHandler(w: World, moves: seq<Move>, x: State, input: Input, c: Choice)
    requires Initial(w) && Answering(w.shared, x) && !c.limited
    requires [Arrive(1, input)] + Go(c, 7) <= moves
    ensures AloneAt(w, moves, 8, w.shared, Past(w.shared, x, input, Handler(Handling(x), AskOrder)))
  {
    var s := w.shared;
    var m := Past(s, x, input, Choose);
    assert [Arrive(1, input)] + Go(c, 6) <= [Arrive(1, input)] + Go(c, 7);
    RunToChoose(w, moves, x, input, c);
    assert moves[7] == ([Arrive(1, input)] + Go(c, 7))[7];
    assert Uninterrupted(s, m, c, 0) == (s, m);
    AloneSteps(w, moves, 7, 1, s, m, c, s, m.(pc := Handler(Handling(x), AskOrder)));
  }

  // Where the handler goes on one step later.
  function PcOf(e: Ending): Pc {
    match e
    case MovesTo(state) => Trans(Check(Ask), state, Finish)
    case Reenters => Trans(Check(Ask), Chatting, ToChat)
    case StaysPut => Reply
    case ClearsOrder => Clear(Drop, Finish)
    case Stops => Raised
  }

  lemma {:induction false} HandlerGoesTo(s: Shared, m: Msg, x: State, c: Choice)
    requires Answering(s, x) && m.pc == Handler(Handling(x), AskOrder)
    ensures Leads(s, m, c, 1, Emit(s, Handled(m.id)), m.(pc := PcOf(EndingOf(x, m.input.answer, c))))
  {
    assert Uninterrupted(s, m, c, 0) == (s, m);
  }

  // An order key missing in Redis is filled from the row first; with no order
  // there either, any answer clears.
  lemma {:induction false} OrderFromRow(s: Shared, m: Msg, x: State, c: Choice)
    requires (x == AwaitingPayment || x == ConfirmingOrder) && s.row.Some? && s.cachedOrder == None
    requires m.pc == Handler(Handling(x), AskOrder)
    ensures var e := Emit(s, Handled(m.id));
            match s.row.value.order
            case Some(order) =>
              Leads(s, m, c, 3, e.(cachedOrder := Some(order)), m.(pc := PcOf(EndingOf(x, m.input.answer, c))))
            case None => Leads(s, m, c, 2, e, m.(pc := Clear(Drop, Finish)))
  {
    var e, h := Emit(s, Handled(m.id)), Handling(x);
    assert Uninterrupted(s, m, c, 1) == (e, m.(pc := Handler(h, FetchOrder)));
    if s.row.value.order.Some? {
      assert Uninterrupted(s, m, c, 2) == (e, m.(pc := Handler(h, FillOrder(s.row.value.order.value))));
    }
  }

  lemma {:induction false} TransitionLeads(s: Shared, m: Msg, c: Choice)
    requires m.pc.Trans? && m.pc.t == Check(Ask) && m.pc.next == Finish && m.id == 1
    requires s.row.Some? && s.cache.Some? && Allowed(s.cache.value, m.pc.to)
    ensures Leads(s, m, c, 3, Emit(Moved(s, m.pc.to), Sent(1)), m.(pc := Done, marks := m.marks.(rewrote := true)))
  {
    var to := m.pc.to;
    var written := Moved(s, to).(cache := s.cache);
    assert Uninterrupted(s, m, c, 1) == (s, m.(pc := Trans(Write, to, Finish)));
    assert Uninterrupted(s, m, c, 2)
        == (written, m.(pc := Trans(Cache, to, Finish), marks := m.marks.(rewrote := true)));
  }

  // An answer that moves the dialog on: the row and Redis say the new state.
  lemma {:induction false} AnswerMoves(w: World, x: State, input: Input, c: Choice)
    requires Initial(w) && Answering(w.shared, x) && !c.limited && EndingOf(x, input.answer, c).MovesTo?
    ensures EndsIn(w, input, c, 11,
                   Emit(Moved(Emit(w.shared, Handled(1)), EndingOf(x, input.answer, c).state), Sent(1)), Done)
  {
    var s, v := w.shared, Alone(input, c, 11);
    var m := Past(s, x, input, Handler(Handling(x), AskOrder));
    assert [Arrive(1, input)] + Go(c, 7) <= v;
    ReachesHandler(w, v, x, input, c);
    HandlerGoesTo(s, m, x, c);
    var e, to := Emit(s, Handled(1)), EndingOf(x, input.answer, c).state;
    var k := m.(pc := Trans(Check(Ask), to, Finish));
    Stretch(w, input, c, 11, 8, 1, s, m, e, k);
    TransitionLeads(e, k, c);
    Stretch(w, input, c, 11, 9, 3, e, k,
            Emit(Moved(e, to), Sent(1)), k.(pc := Done, marks := k.marks.(rewrote := true)));
    Ended(w, input, c, 11, Emit(Moved(e, to), Sent(1)), k.(pc := Done, marks := k.marks.(rewrote := true)));
  }

  // One that clears the order: the row keeps its state.
  lemma {:induction false} AnswerClears(w: World, x: State, input: Input, c: Choice)
    requires Initial(w) && Answering(w.shared, x) && !c.limited && EndingOf(x, input.answer, c) == ClearsOrder
    ensures EndsIn(w, input, c, 12, Emit(Cleared(Emit(w.shared, Handled(1))), Sent(1)), Done)
  {
    var s, v := w.shared, Alone(input, c, 12);
    var m := Past(s, x, input, Handler(Handling(x), AskOrder));
    assert [Arrive(1, input)] + Go(c, 7) <= v;
    ReachesHandler(w, v, x, input, c);
    HandlerGoesTo(s, m, x, c);
    var e, k := Emit(s, Handled(1)), m.(pc := Clear(Drop, Finish));
    Stretch(w, input, c, 12, 8, 1, s, m, e, k);
    ClearLeads(e, k, c);
    Stretch(w, input, c, 12, 9, 4, e, k,
            Emit(Cleared(e), Sent(1)), k.(pc := Done, marks := k.marks.(rewrote := true)));
    Ended(w, input, c, 12, Emit(Cleared(e), Sent(1)), k.(pc := Done, marks := k.marks.(rewrote := true)));
  }

  // One that is held or fails: nothing is written; held, it is answered.
  lemma {:induction false} AnswerStays(w: World, x: State, input: Input, c: Choice)
    requires Initial(w) && Answering(w.shared, x) && !c.limited
    ensures EndingOf(x, input.answer, c) == StaysPut ==>
              EndsIn(w, input, c, 9, Emit(Emit(w.shared, Handled(1)), Sent(1)), Done)
    ensures EndingOf(x, input.answer, c) == Stops ==>
              EndsIn(w, input, c, 9, Emit(w.shared, Handled(1)), Raised)
  {
    var s, v := w.shared, Alone(input, c, 9);
    var m := Past(s, x, input, Handler(Handling(x), AskOrder));
    assert [Arrive(1, input)] + Go(c, 7) <= v;
    ReachesHandler(w, v, x, input, c);
    HandlerGoesTo(s, m, x, c);
    var e, k := Emit(s, Handled(1)), m.(pc := PcOf(EndingOf(x, input.answer, c)));
    Stretch(w, input, c, 9, 8, 1, s, m, e, k);
    assert Uninterrupted(e, k, c, 0) == (e, k);
    var (t, l) := Uninterrupted(e, k, c, 1);
    Stretch(w, input, c, 9, 9, 1, e, k, t, l);
  }

  // ---------------------------------------------------------------- operator only

  // In human mode short of its deadline the message is answered for the operator
  // and Redis is brought up to the row.
  lemma {:induction false} OperatorIsAnnounced(w: World, input: Input, c: Choice)
    requires Initial(w) && w.shared.row.Some? && w.shared.cache.Some? && !c.limited
    requires var u := w.shared.row.value;
             && u.state == HumanMode && u.snoozedUntil == None && !ModeExpired(u, w.shared.now)
             && (u.paused || !input.hint)
    ensures EndsIn(w, input, c, 7, Emit(w.shared.(cache := Some(HumanMode)), Sent(1)), Done)
  {
    var s, v := w.shared, Alone(input, c, 7);
    var m := Arrived(s, 1, input);
    Arrives(w, input, c, 7);
    var k := m.(state := s.cache.value, pc := Preflight);
    assert Uninterrupted(s, m, c, 1) == (s, k.(pc := Entry(RateLimit)));
    Stretch(w, input, c, 7, 1, 2, s, m, s, k);
    var u := s.row.value;
    var h := k.(version := Some(u.version), seen := Seen(true, u.paused, false), marks := k.marks.(readAt := |s.log|),
                pc := HumanSync);
    assert ReadRow(s, k) == (s, h);
    assert Uninterrupted(s, k, c, 0) == (s, k);
    Stretch(w, input, c, 7, 3, 1, s, k, s, h);
    var t, l := s.(cache := Some(HumanMode)), h.(state := HumanMode, pc := HintCheck);
    assert Uninterrupted(s, h, c, 1) == (t, l);
    assert Uninterrupted(s, h, c, 2) == (t, l.(pc := Inbound));
    assert Uninterrupted(s, h, c, 3) == (t, l.(pc := Choose));
    Stretch(w, input, c, 7, 4, 4, s, h, Emit(t, Sent(1)), l.(pc := Done));
    Ended(w, input, c, 7, Emit(t, Sent(1)), l.(pc := Done));
  }

  // ---------------------------------------------------------------- the ways back to the bot

  lemma {:induction false} RunToPreflight(w: World, moves: seq<Move>, input: Input, c: Choice)
    requires Initial(w) && w.shared.cache.Some? && !c.limited && [Arrive(1, input)] + Go(c, 2) <= moves
    ensures AloneAt(w, moves, 3, w.shared, Before(w.shared, w.shared.cache.value, input, Preflight))
  {
    var s, x := w.shared, w.shared.cache.value;
    var m := Arrived(s, 1, input);
    assert moves[0] == ([Arrive(1, input)] + Go(c, 2))[0];
    assert Run(w, moves, 0) == w;
    assert AloneAt(w, moves, 1, s, m);
    forall i | 1 <= i < 3 ensures moves[i] == Advance(1, c) {
      assert moves[i] == ([Arrive(1, input)] + Go(c, 2))[i];
    }
    assert Uninterrupted(s, m, c, 1) == (s, Before(s, x, input, Entry(RateLimit)));
    AloneSteps(w, moves, 1, 2, s, m, c, s, Before(s, x, input, Preflight));
  }

  // A snooze that has run out, to the second, is cleared from the row, and the
  // message goes on as if there had been none.
  lemma {:induction false} ExpiredSnoozeIsCleared(w: World, input: Input, c: Choice)
    requires Initial(w) && w.shared.row.Some? && w.shared.cache.Some? && !c.limited
    requires var u := w.shared.row.value;
             u.state != HumanMode && u.snoozedUntil.Some? && u.snoozedUntil.value <= w.shared.now
    ensures var x := Run(w, Alone(input, c, 3), 4);
            && x.shared == w.shared.(row := Some(w.shared.row.value.(snoozedUntil := None)))
            && x.msgs.Keys == {1} && x.msgs[1].pc == HumanSync
            && x.msgs[1].seen == Seen(false, w.shared.row.value.paused, false)
  {
    var s, v := w.shared, Alone(input, c, 3);
    var m := Before(s, s.cache.value, input, Preflight);
    assert [Arrive(1, input)] + Go(c, 2) <= v;
    RunToPreflight(w, v, input, c);
    var (t, l) := ReadRow(s, m);
    assert Uninterrupted(s, m, c, 0) == (s, m);
    AloneSteps(w, v, 3, 1, s, m, c, t, l);
  }

  // The row and Redis after the bot is back.
  function BackToBot(s: Shared): Shared
    requires s.row.Some?
  {
    var u := s.row.value;
    s.(row := Some(User(Chatting, u.version + 1, u.order, u.booking, u.paused, u.snoozedUntil, None)),
       cache := Some(Chatting), log := s.log + [Chatting])
  }

  lemma {:induction false} ResumeLeads(s: Shared, m: Msg, c: Choice)
    requires s.row.Some? && m.pc.Resuming? && !m.pc.written
    ensures Leads(s, m, c, 2, BackToBot(s),
                  m.(state := Chatting, version := None, seen := m.seen.(human := false),
                     pc := if m.pc.why == Expired then HumanSync else Inbound))
  {
    assert Uninterrupted(s, m, c, 1) == (BackToBot(s).(cache := s.cache), m.(pc := Resuming(m.pc.why, true)));
  }

  lemma {:induction false} SyncLeads(s: Shared, m: Msg, c: Choice)
    requires s.row.Some? && m.pc == HumanSync && !m.seen.human
    ensures Leads(s, m, c, 3, s, m.(pc := Choose))
  {
    assert Uninterrupted(s, m, c, 1) == (s, m.(pc := HintCheck));
    assert Uninterrupted(s, m, c, 2) == (s, m.(pc := Inbound));
  }

  // A human mode whose deadline has come ends with the next message, which then
  // is one for the bot.
  lemma {:induction false} DeadlineEndsMode(w: World, input: Input, c: Choice)
    requires Initial(w) && w.shared.row.Some? && w.shared.cache.Some? && !c.limited
    requires var u := w.shared.row.value;
             && u.state == HumanMode && !u.paused && u.snoozedUntil == None
             && u.humanUntil.Some? && u.humanUntil.value <= w.shared.now
    ensures EndsIn(w, input, c, 8, BackToBot(w.shared), Choose)
    ensures Run(w, Alone(input, c, 8), 9).msgs[1].state == Chatting
    ensures !Run(w, Alone(input, c, 8), 9).msgs[1].seen.human
  {
    var s, t := w.shared, BackToBot(w.shared);
    var k := Past(s, s.cache.value, input, Resuming(Expired, false)).(seen := Seen(true, false, false));
    var l := k.(state := Chatting, version := None, seen := Seen(false, false, false), pc := HumanSync);
    DeadlineSeen(w, input, c);
    ResumeLeads(s, k, c);
    Stretch(w, input, c, 8, 4, 2, s, k, t, l);
    SyncLeads(t, l, c);
    Stretch(w, input, c, 8, 6, 3, t, l, t, l.(pc := Choose));
    Ended(w, input, c, 8, t, l.(pc := Choose));
  }

  lemma {:induction false} DeadlineSeen(w: World, input: Input, c: Choice)
    requires Initial(w) && w.shared.row.Some? && w.shared.cache.Some? && !c.limited
    requires var u := w.shared.row.value;
             && u.state == HumanMode && !u.paused && u.snoozedUntil == None
             && u.humanUntil.Some? && u.humanUntil.value <= w.shared.now
    ensures AloneAt(w, Alone(input, c, 8), 4, w.shared,
                    Past(w.shared, w.shared.cache.value, input, Resuming(Expired, false)).(
                      seen := Seen(true, false, false)))
  {
    var s, v := w.shared, Alone(input, c, 8);
    var m := Before(s, s.cache.value, input, Preflight);
    var k := Past(s, s.cache.value, input, Resuming(Expired, false)).(seen := Seen(true, false, false));
    assert [Arrive(1, input)] + Go(c, 2) <= v;
    RunToPreflight(w, v, input, c);
    assert ReadRow(s, m) == (s, k);
    assert Uninterrupted(s, m, c, 0) == (s, m);
    Stretch(w, input, c, 8, 3, 1, s, m, s, k);
  }

  lemma {:induction false} PhraseLeads(s: Shared, m: Msg, c: Choice)
    requires m.pc == HumanSync && m.state == HumanMode && m.seen == Seen(true, false, false) && m.input.hint
    ensures Leads(s, m, c, 2, s, m.(pc := Resuming(Hinted, false)))
  {
    assert Uninterrupted(s, m, c, 1) == (s, m.(pc := HintCheck));
  }

  // A new-conversation phrase ends it before its deadline, unless the AI is
  // paused or snoozed.
  lemma {:induction false} PhraseEndsMode(w: World, input: Input, c: Choice)
    requires Initial(w) && w.shared.row.Some? && w.shared.cache == Some(HumanMode) && !c.limited && input.hint
    requires var u := w.shared.row.value;
             && u.state == HumanMode && !u.paused && u.snoozedUntil == None
             && (u.humanUntil.Some? ==> w.shared.now < u.humanUntil.value)
    ensures EndsIn(w, input, c, 8, BackToBot(w.shared), Choose)
    ensures Run(w, Alone(input, c, 8), 9).msgs[1].state == Chatting
    ensures !Run(w, Alone(input, c, 8), 9).msgs[1].seen.human
  {
    var s, t := w.shared, BackToBot(w.shared);
    var h := Past(s, HumanMode, input, Resuming(Hinted, false)).(seen := Seen(true, false, false));
    var l := h.(state := Chatting, version := None, seen := Seen(false, false, false), pc := Inbound);
    PhraseSeen(w, input, c);
    ResumeLeads(s, h, c);
    Stretch(w, input, c, 8, 6, 2, s, h, t, l);
    assert Uninterrupted(t, l, c, 0) == (t, l);
    Stretch(w, input, c, 8, 8, 1, t, l, t, l.(pc := Choose));
    Ended(w, input, c, 8, t, l.(pc := Choose));
  }

  lemma {:induction false} PhraseSeen(w: World, input: Input, c: Choice)
    requires Initial(w) && w.shared.row.Some? && w.shared.cache == Some(HumanMode) && !c.limited && input.hint
    requires var u := w.shared.row.value;
             && u.state == HumanMode && !u.paused && u.snoozedUntil == None
             && (u.humanUntil.Some? ==> w.shared.now < u.humanUntil.value)
    ensures AloneAt(w, Alone(input, c, 8), 6, w.shared,
                    Past(w.shared, HumanMode, input, Resuming(Hinted, false)).(seen := Seen(true, false, false)))
  {
    var s, v := w.shared, Alone(input, c, 8);
    var m := Before(s, HumanMode, input, Preflight);
    var k := Past(s, HumanMode, input, HumanSync).(seen := Seen(true, false, false));
    assert [Arrive(1, input)] + Go(c, 2) <= v;
    RunToPreflight(w, v, input, c);
    assert ReadRow(s, m) == (s, k);
    assert Uninterrupted(s, m, c, 0) == (s, m);
    Stretch(w, input, c, 8, 3, 1, s, m, s, k);
    PhraseLeads(s, k, c);
    Stretch(w, input, c, 8, 4, 2, s, k, s, k.(pc := Resuming(Hinted, false)));
  }
}
