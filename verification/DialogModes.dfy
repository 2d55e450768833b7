// Two modes of a dialog: the operator's, which a customer's messages leave by
// two ways that are meant and one that is not, and the one that a cleared order
// leaves behind, which they cannot leave.
module DialogModes {
  import opened Wrappers
  import opened Dialog
  import OrderConfirmation

  // Only replies and dropped answers were added to the trace.
  ghost predicate Silent(s: Shared, t: Shared) {
    && s.trace <= t.trace
    && forall i :: |s.trace| <= i < |t.trace| ==> t.trace[i].Sent? || t.trace[i].Dropped?
  }

  lemma {:induction false} SilentTrans(s: Shared, t: Shared, u: Shared)
    requires Silent(s, t) && Silent(t, u)
    ensures Silent(s, u)
  {
  }

  // ---------------------------------------------------------------- human mode

  // The mode is durable and, unless the AI is paused for good, has not run out.
  predicate ModeHolds(u: User, now: int) {
    u.state == HumanMode && (u.paused || u.humanUntil.None? || now < u.humanUntil.value)
  }

  predicate InHumanMode(s: Shared) {
    s.row.Some? && ModeHolds(s.row.value, s.now)
  }

  // Only the snooze, which is not part of the session, may be cleared.
  predicate SameSession(u: User, v: User) {
    v == u.(snoozedUntil := v.snoozedUntil)
  }

  // A message without a new-conversation phrase (any message while paused) that
  // either has just arrived or had gone to the LLM before the operator came.
  predicate Quiet(s: Shared, m: Msg)
    requires s.row.Some?
  {
    && (m.input.hint ==> s.row.value.paused)
    && match m.pc
       case Entry(_) => true
       case Preflight => true
       case HumanSync => m.seen.human && m.seen.paused == s.row.value.paused
       case HintCheck => m.seen.human && m.seen.paused == s.row.value.paused
       case Inbound => m.seen.human
       case Choose => m.seen.human
       case Reread => m.state == Chatting
       case Cas => m.state == Chatting
       case CacheStep => true
       case Reply => true
       case Done => true
       case _ => false
  }

  predicate QuietMove(s: Shared, v: Move)
    requires s.row.Some?
  {
    match v
    case Arrive(_, input) => input.hint ==> s.row.value.paused
    case Advance(_, _) => true
    case Other(o) => (o.Tick? && ModeHolds(s.row.value, o.now)) || o.Caches? || o.CachesOrder?
  }

  lemma {:induction false} QuietStep(s: Shared, m: Msg, c: Choice)
    requires InHumanMode(s) && Quiet(s, m)
    ensures var (t, n) := Step(s, m, c);
            && InHumanMode(t) && SameSession(s.row.value, t.row.value) && Silent(s, t) && Quiet(t, n)
  {
  }

  ghost predicate HumanWorld(w: World) {
    InHumanMode(w.shared) && forall id :: id in w.msgs ==> Quiet(w.shared, w.msgs[id])
  }

  lemma {:induction false} QuietNext(w: World, v: Move)
    requires HumanWorld(w) && QuietMove(w.shared, v)
    ensures var x := Next(w, v);
            HumanWorld(x) && SameSession(w.shared.row.value, x.shared.row.value) && Silent(w.shared, x.shared)
  {
    if v.Advance? && v.id in w.msgs {
      QuietStep(w.shared, w.msgs[v.id], v.choice);
    }
  }

  ghost predicate QuietAt(w: World, moves: seq<Move>, n: nat)
    requires n < |moves|
  {
    var s := Run(w, moves, n).shared;
    s.row.Some? && QuietMove(s, moves[n])
  }

  ghost predicate AllQuiet(w: World, moves: seq<Move>) {
    forall n {:trigger QuietAt(w, moves, n)} :: 0 <= n < |moves| ==> QuietAt(w, moves, n)
  }

  // Human mode persists: any number of such messages, in any interleaving, with
  // time passing short of the deadline and the cache coming and going, leave
  // the session as it was, and neither the LLM nor any handler runs.
  lemma {:induction false} HumanModePersists(w: World, moves: seq<Move>, n: nat)
    requires HumanWorld(w) && AllQuiet(w, moves) && n <= |moves|
    ensures var x := Run(w, moves, n);
            && HumanWorld(x) && SameSession(w.shared.row.value, x.shared.row.value)
            && Silent(w.shared, x.shared)
  {
    if n > 0 {
      HumanModePersists(w, moves, n - 1);
      assert QuietAt(w, moves, n - 1);
      QuietNext(Run(w, moves, n - 1), moves[n - 1]);
      SilentTrans(w.shared, Run(w, moves, n - 1).shared, Run(w, moves, n).shared);
    }
  }

  // The mode itself, though not the silence, outlasts more: messages in the LLM
  // branch, in a clearing, or past a write of their own. Left out are the three
  // ways a message ends the mode: it may resume the bot past the deadline, or on
  // a new-conversation phrase, or it is in a payment or confirmation handler, or
  // on the way to one, whose transition overwrites the mode. When each of them
  // does is in DialogSafety: ResumeOverwritesIff and TransitionOverwritesIff.
  predicate Lasting(s: Shared, m: Msg)
    requires s.row.Some?
  {
    && (m.input.hint ==> s.row.value.paused)
    && match m.pc
       case Entry(_) => true
       case Preflight => true
       case Resuming(_, written) => written
       case HumanSync => if m.seen.human then m.seen.paused == s.row.value.paused else NoHandler(m)
       case HintCheck => if m.seen.human then m.seen.paused == s.row.value.paused else NoHandler(m)
       case Inbound => NoHandler(m)
       case Choose => NoHandler(m)
       case Handler(h, _) => h == Booking
       case Trans(t, _, next) => t == Cache && next != ToTurn
       case Clear(_, next) => next == ToTurn ==> m.state == Chatting
       case Chat => m.state == Chatting
       case Turn => m.state == Chatting
       case Reread => m.state == Chatting
       case Cas => m.state == Chatting
       case _ => true
  }

  // At the choice it goes to the operator's reply, to the LLM branch, or to the
  // booking handler.
  predicate NoHandler(m: Msg) {
    OperatorOnly(m) || (m.state != AwaitingPayment && m.state != ConfirmingOrder)
  }

  // Everything of the row but the pending order, the version and the snooze.
  predicate SameMode(u: User, v: User) {
    u.state == v.state && u.paused == v.paused && u.humanUntil == v.humanUntil
  }

  ghost predicate Lasts(s: Shared, x: (Shared, Msg)) {
    s.row.Some? && x.0.row.Some? && InHumanMode(x.0) && SameMode(s.row.value, x.0.row.value) && Lasting(x.0, x.1)
  }

  lemma {:induction false} ArrivalLasts(s: Shared, m: Msg, c: Choice)
    requires InHumanMode(s) && Lasting(s, m)
    requires m.pc.Entry? || m.pc.Preflight? || m.pc.Resuming? || m.pc.HumanSync? || m.pc.HintCheck?
    ensures Lasts(s, Step(s, m, c))
  {
  }

  lemma {:induction false} HandlingLasts(s: Shared, m: Msg, c: Choice)
    requires InHumanMode(s) && Lasting(s, m) && (m.pc.Inbound? || m.pc.Choose? || m.pc.Handler?)
    ensures Lasts(s, Step(s, m, c))
  {
  }

  lemma {:induction false} WritingLasts(s: Shared, m: Msg, c: Choice)
    requires InHumanMode(s) && Lasting(s, m) && (m.pc.Trans? || m.pc.Clear?)
    ensures Lasts(s, Step(s, m, c))
  {
  }

  lemma {:induction false} LlmLasts(s: Shared, m: Msg, c: Choice)
    requires InHumanMode(s) && Lasting(s, m)
    requires m.pc.Chat? || m.pc.Turn? || m.pc.Escalate? || m.pc.Reread? || m.pc.Cas? || m.pc.CacheStep? || m.pc.Reply?
    ensures Lasts(s, Step(s, m, c))
  {
  }

  lemma {:induction false} StepLasts(s: Shared, m: Msg, c: Choice)
    requires InHumanMode(s) && Lasting(s, m)
    ensures Lasts(s, Step(s, m, c))
  {
    match m.pc
    case Entry(_) | Preflight | Resuming(_, _) | HumanSync | HintCheck => ArrivalLasts(s, m, c);
    case Inbound | Choose | Handler(_, _) => HandlingLasts(s, m, c);
    case Trans(_, _, _) | Clear(_, _) => WritingLasts(s, m, c);
    case Chat | Turn | Escalate | Reread | Cas | CacheStep | Reply => LlmLasts(s, m, c);
    case Done | Raised =>
  }

  ghost predicate LastingWorld(w: World) {
    InHumanMode(w.shared) && forall id :: id in w.msgs ==> Lasting(w.shared, w.msgs[id])
  }

  lemma {:induction false} NextLasts(w: World, v: Move)
    requires LastingWorld(w) && QuietMove(w.shared, v)
    ensures var x := Next(w, v);
            LastingWorld(x) && SameMode(w.shared.row.value, x.shared.row.value)
  {
    if v.Advance? && v.id in w.msgs {
      StepLasts(w.shared, w.msgs[v.id], v.choice);
    }
  }

  lemma {:induction false} HumanStatePersists(w: World, moves: seq<Move>, n: nat)
    requires LastingWorld(w) && AllQuiet(w, moves) && n <= |moves|
    ensures var x := Run(w, moves, n);
            LastingWorld(x) && SameMode(w.shared.row.value, x.shared.row.value)
  {
    if n > 0 {
      HumanStatePersists(w, moves, n - 1);
      assert QuietAt(w, moves, n - 1);
      NextLasts(Run(w, moves, n - 1), moves[n - 1]);
    }
  }

  // ---------------------------------------------------------------- paused and snoozed customers

  // The AI is paused, or a snooze is still running; the state does not matter.
  predicate Muted(s: Shared) {
    && s.row.Some?
    && (s.row.value.paused || (s.row.value.snoozedUntil.Some? && s.now < s.row.value.snoozedUntil.value))
  }

  predicate SeesMute(s: Shared, m: Msg)
    requires s.row.Some?
  {
    m.seen.paused == s.row.value.paused && (m.seen.paused || m.seen.snoozed)
  }

  // Messages that arrive from then on, with any phrase.
  predicate MutedMsg(s: Shared, m: Msg)
    requires s.row.Some?
  {
    match m.pc
    case Entry(_) => true
    case Preflight => true
    case Resuming(why, _) => why == Expired && SeesMute(s, m) && !m.seen.paused
    case HumanSync => SeesMute(s, m)
    case HintCheck => SeesMute(s, m)
    case Inbound => SeesMute(s, m)
    case Choose => SeesMute(s, m)
    case Done => true
    case _ => false
  }

  predicate MutedMove(s: Shared, v: Move) {
    match v
    case Arrive(_, _) => true
    case Advance(_, _) => true
    case Other(o) => (o.Tick? && Muted(s.(now := o.now))) || o.Caches? || o.CachesOrder?
  }

  // No human mode is there to run out, ...
  predicate NothingExpires(u: User) {
    u.paused || u.state != HumanMode || u.humanUntil == None
  }

  // ... and no message is about to end one that has.
  ghost predicate Still(w: World) {
    && w.shared.row.Some? && NothingExpires(w.shared.row.value)
    && forall id :: id in w.msgs ==> !w.msgs[id].pc.Resuming?
  }

  ghost predicate StaysMuted(s: Shared, m: Msg, x: (Shared, Msg)) {
    && s.row.Some? && Muted(x.0) && MutedMsg(x.0, x.1) && Silent(s, x.0)
    && x.0.row.value.paused == s.row.value.paused
    && (NothingExpires(s.row.value) && !m.pc.Resuming? ==>
          SameSession(s.row.value, x.0.row.value) && !x.1.pc.Resuming?)
  }

  lemma {:induction false} MutedArrival(s: Shared, m: Msg, c: Choice)
    requires Muted(s) && MutedMsg(s, m) && (m.pc.Entry? || m.pc.Preflight? || m.pc.Resuming?)
    ensures StaysMuted(s, m, Step(s, m, c))
  {
  }

  lemma {:induction false} MutedStep(s: Shared, m: Msg, c: Choice)
    requires Muted(s) && MutedMsg(s, m)
    ensures StaysMuted(s, m, Step(s, m, c))
  {
    if m.pc.Entry? || m.pc.Preflight? || m.pc.Resuming? {
      MutedArrival(s, m, c);
    }
  }

  ghost predicate MutedWorld(w: World) {
    Muted(w.shared) && forall id :: id in w.msgs ==> MutedMsg(w.shared, w.msgs[id])
  }

  lemma {:induction false} MutedNext(w: World, v: Move)
    requires MutedWorld(w) && MutedMove(w.shared, v)
    ensures var x := Next(w, v);
            && MutedWorld(x) && Silent(w.shared, x.shared)
            && (Still(w) ==> Still(x) && SameSession(w.shared.row.value, x.shared.row.value))
  {
    if v.Advance? && v.id in w.msgs {
      MutedStep(w.shared, w.msgs[v.id], v.choice);
    }
  }

  ghost predicate MutedAt(w: World, moves: seq<Move>, n: nat)
    requires n < |moves|
  {
    MutedMove(Run(w, moves, n).shared, moves[n])
  }

  ghost predicate AllMuted(w: World, moves: seq<Move>) {
    forall n {:trigger MutedAt(w, moves, n)} :: 0 <= n < |moves| ==> MutedAt(w, moves, n)
  }

  // Whatever the state: over every run of messages that arrive while the AI is
  // paused or snoozed, and as long as it is, neither the LLM nor any handler
  // runs, nothing is routed, and the session stays as it is, except that a human
  // mode under a mere snooze still runs out.
  lemma {:induction false} MutedIsSilent(w: World, moves: seq<Move>, n: nat)
    requires MutedWorld(w) && AllMuted(w, moves) && n <= |moves|
    ensures var x := Run(w, moves, n);
            && MutedWorld(x) && Silent(w.shared, x.shared)
            && (Still(w) ==> Still(x) && SameSession(w.shared.row.value, x.shared.row.value))
  {
    if n > 0 {
      MutedIsSilent(w, moves, n - 1);
      assert MutedAt(w, moves, n - 1);
      MutedNext(Run(w, moves, n - 1), moves[n - 1]);
      SilentTrans(w.shared, Run(w, moves, n - 1).shared, Run(w, moves, n).shared);
    }
  }

  // ---------------------------------------------------------------- after an order was cleared

  const RESTING := {Chatting, AwaitingPayment, ConfirmingOrder, HumanMode}

  // The database still says that an order waits for an answer, and has none.
  predicate Stranded(s: Shared) {
    && s.row.Some? && s.row.value.state in {AwaitingPayment, ConfirmingOrder}
    && s.row.value.order == None && s.cachedOrder == None
    && (s.cache.Some? ==> s.cache.value in RESTING)
  }

  predicate StrandedLookup(l: Lookup) {
    l.Fill? ==> l.state in RESTING && l.order == None
  }

  predicate StrandedMsg(m: Msg) {
    && !m.seen.human && m.state in RESTING
    && match m.pc
       case Entry(e) => e.Find? ==> StrandedLookup(e.l)
       case Resuming(_, _) => false
       case Handler(h, p) => h != Booking && !p.FillOrder?
       case Trans(_, _, _) => false
       case Clear(c, next) =>
         && (next == Finish || (next == ToTurn && m.state == Chatting))
         && (c.Current? ==> StrandedLookup(c.l))
       case Chat => m.state == Chatting
       case Turn => m.state == Chatting
       case Reread => m.state == Chatting
       case Cas => false
       case CacheStep => false
       case _ => true
  }

  // Customers write, messages proceed, Redis entries expire, time passes; no
  // operator and no other writer steps in.
  predicate CustomerMove(v: Move) {
    match v
    case Arrive(_, _) => true
    case Advance(_, _) => true
    case Other(o) => o.Tick? || o == Caches(None) || o == CachesOrder(None)
  }

  // Nothing was routed, and the durable state is what it was.
  ghost predicate NoRoute(s: Shared, t: Shared) {
    && s.trace <= t.trace
    && s.row.Some? && t.row.Some? && s.row.value.state == t.row.value.state
    && forall i :: |s.trace| <= i < |t.trace| ==> !t.trace[i].Routed?
  }

  ghost predicate StaysStranded(s: Shared, x: (Shared, Msg)) {
    Stranded(x.0) && StrandedMsg(x.1) && NoRoute(s, x.0)
  }

  lemma {:induction false} StrandedEntry(s: Shared, m: Msg, c: Choice)
    requires Stranded(s) && StrandedMsg(m) && (m.pc.Entry? || m.pc.Preflight? || m.pc.HumanSync? || m.pc.HintCheck?)
    ensures StaysStranded(s, Step(s, m, c))
  {
  }

  lemma {:induction false} StrandedHandler(s: Shared, m: Msg, c: Choice)
    requires Stranded(s) && StrandedMsg(m) && (m.pc.Choose? || m.pc.Handler?)
    ensures StaysStranded(s, Step(s, m, c))
  {
  }

  lemma {:induction false} StrandedClear(s: Shared, m: Msg, c: Choice)
    requires Stranded(s) && StrandedMsg(m) && m.pc.Clear?
    ensures StaysStranded(s, ClearStep(s, m))
  {
  }

  lemma {:induction false} StrandedLlm(s: Shared, m: Msg, c: Choice)
    requires Stranded(s) && StrandedMsg(m) && (m.pc.Chat? || m.pc.Turn? || m.pc.Escalate? || m.pc.Reread?)
    ensures StaysStranded(s, Step(s, m, c))
  {
  }

  lemma {:induction false} StrandedStep(s: Shared, m: Msg, c: Choice)
    requires Stranded(s) && StrandedMsg(m)
    ensures StaysStranded(s, Step(s, m, c))
  {
    match m.pc
    case Entry(_) | Preflight | HumanSync | HintCheck => StrandedEntry(s, m, c);
    case Choose | Handler(_, _) => StrandedHandler(s, m, c);
    case Clear(_, _) => StrandedClear(s, m, c);
    case Chat | Turn | Escalate | Reread => StrandedLlm(s, m, c);
    case _ =>
  }

  ghost predicate StrandedWorld(w: World) {
    Stranded(w.shared) && forall id :: id in w.msgs ==> StrandedMsg(w.msgs[id])
  }

  lemma {:induction false} StrandedNext(w: World, v: Move)
    requires StrandedWorld(w) && CustomerMove(v)
    ensures StrandedWorld(Next(w, v)) && NoRoute(w.shared, Next(w, v).shared)
  {
    if v.Advance? && v.id in w.msgs {
      StrandedStep(w.shared, w.msgs[v.id], v.choice);
    }
  }

  // The way of an answer that a handler meets by clearing the order: nobody has
  // the dialog; the state is in Redis once it has been looked up, and the order
  // key is gone once it was dropped.
  predicate Closing(s: Shared, m: Msg) {
    && s.row.Some? && s.row.value.state in {AwaitingPayment, ConfirmingOrder}
    && !s.row.value.paused && s.row.value.snoozedUntil == None
    && m.seen == Seen(false, false, false)
    && match m.pc
       case Entry(Find(l)) =>
         && (s.cache.Some? ==> s.cache.value == s.row.value.state)
         && (l.Fill? ==> l.state == s.row.value.state)
       case Handler(h, _) => h == HandlerOf(s.row.value.state) && OnItsWay(s, m)
       case Clear(c, next) =>
         && next == Finish && m.state == s.row.value.state
         && (!c.Drop? ==> s.cachedOrder == None)
         && (c.Current? ==> c.l == Ask) && (c.Reset? ==> c.state == s.row.value.state)
         && s.cache == Some(if c.Forget? then Chatting else s.row.value.state)
       case Resuming(_, _) => false
       case Trans(_, _, _) => false
       case Chat => false
       case Turn => false
       case Escalate => false
       case Reread => false
       case Cas => false
       case CacheStep => false
       case Reply => false
       case Done => false
       case Raised => false
       case _ => OnItsWay(s, m)
  }

  function HandlerOf(x: State): HandlerPc {
    if x == AwaitingPayment then Payment else Confirmation
  }

  predicate OnItsWay(s: Shared, m: Msg)
    requires s.row.Some?
  {
    s.cache == Some(s.row.value.state) && m.state == s.row.value.state
  }

  // Which answers a handler meets so: a "no", a "yes" that confirms or finds no
  // order to confirm, a payment for an order that is no draft, and any answer
  // when there is no pending order.
  lemma {:induction false} ClearsIff(m: Msg, order: Option<nat>, c: Choice)
    requires m.pc.Handler? && m.pc.h != Booking
    ensures OrderPc(m, order, c) == Clear(Drop, Finish) <==>
              || order == None || m.input.answer == SaysNo
              || (m.pc.h == Confirmation && m.input.answer == SaysYes
                  && (c.confirm == OrderConfirmation.SaysConfirmed || c.confirm == OrderConfirmation.ConfirmNotFound))
              || (m.pc.h == Payment && m.input.answer == NamesPayment
                  && c.payment == OrderConfirmation.PaymentNotFound)
  {
  }

  predicate Clears(s: Shared, m: Msg, c: Choice) {
    m.pc.Handler? ==>
      var pc := HandlerStep(s, m, c).1.pc;
      pc.Handler? || pc == Clear(Drop, Finish)
  }

  // While it is on its way the other messages of the chat wait, as the per-chat
  // serializer makes them, it is not rate-limited, and its handler clears the
  // order; afterwards customers do what they like.
  predicate ClosingMove(s: Shared, m: Msg, v: Move) {
    if m.pc == Done then CustomerMove(v)
    else
      match v
      case Arrive(_, _) => true
      case Advance(id, c) => id == m.id && !c.limited && Clears(s, m, c)
      case Other(o) => o.Tick? || o == CachesOrder(None)
  }

  ghost predicate ClosingAt(w: World, moves: seq<Move>, n: nat, id: int)
    requires n < |moves|
  {
    var x := Run(w, moves, n);
    id in x.msgs && ClosingMove(x.shared, x.msgs[id], moves[n])
  }

  ghost predicate ClosingRun(w: World, moves: seq<Move>, k: nat, id: int) {
    forall n {:trigger ClosingAt(w, moves, n, id)} :: k <= n < |moves| ==> ClosingAt(w, moves, n, id)
  }

  // How many of its own steps are still to come at most.
  function Remaining(pc: Pc): nat {
    match pc
    case Entry(Find(Ask)) => 16
    case Entry(Find(Fetch)) => 15
    case Entry(Find(Fill(_, _))) => 14
    case Entry(RateLimit) => 13
    case Preflight => 12
    case HumanSync => 11
    case HintCheck => 10
    case Inbound => 9
    case Choose => 8
    case Handler(_, AskOrder) => 7
    case Handler(_, FetchOrder) => 6
    case Handler(_, FillOrder(_)) => 5
    case Clear(Drop, _) => 4
    case Clear(Current(_), _) => 3
    case Clear(Reset(_), _) => 2
    case Clear(Forget, _) => 1
    case _ => 0
  }

  function OwnSteps(moves: seq<Move>, k: nat, n: nat, id: int): nat
    requires k <= n <= |moves|
    decreases n
  {
    if n == k then 0
    else if moves[n - 1].Advance? && moves[n - 1].id == id then OwnSteps(moves, k, n - 1, id) + 1
    else OwnSteps(moves, k, n - 1, id)
  }

  // One step further on the way, or at its end.
  ghost predicate Onward(s: Shared, m: Msg, x: (Shared, Msg)) {
    && x.1.id == m.id && NoRoute(s, x.0) && Remaining(x.1.pc) < Remaining(m.pc)
    && (Closing(x.0, x.1) || (x.1.pc == Done && Stranded(x.0) && x.0.cache == Some(Chatting) && StrandedMsg(x.1)))
  }

  lemma {:induction false} ClosingEntry(s: Shared, m: Msg, c: Choice)
    requires Closing(s, m) && !c.limited
    requires m.pc.Entry? || m.pc.Preflight? || m.pc.HumanSync? || m.pc.HintCheck? || m.pc.Inbound? || m.pc.Choose?
    ensures Onward(s, m, Step(s, m, c))
  {
  }

  lemma {:induction false} ClosingHandler(s: Shared, m: Msg, c: Choice)
    requires Closing(s, m) && m.pc.Handler? && Clears(s, m, c)
    ensures Onward(s, m, HandlerStep(s, m, c))
  {
  }

  lemma {:induction false} ClosingClear(s: Shared, m: Msg)
    requires Closing(s, m) && m.pc.Clear?
    ensures Onward(s, m, ClearStep(s, m))
  {
  }

  lemma {:induction false} ClosingStep(s: Shared, m: Msg, c: Choice)
    requires Closing(s, m) && !c.limited && Clears(s, m, c)
    ensures Onward(s, m, Step(s, m, c))
  {
    match m.pc
    case Handler(_, _) => ClosingHandler(s, m, c);
    case Clear(_, _) => ClosingClear(s, m);
    case _ => ClosingEntry(s, m, c);
  }

  ghost predicate ClosingWorld(w: World, id: int) {
    && id in w.msgs && w.msgs[id].id == id
    && if w.msgs[id].pc == Done then StrandedWorld(w)
       else Closing(w.shared, w.msgs[id]) && forall j :: j in w.msgs && j != id ==> StrandedMsg(w.msgs[j])
  }

  lemma {:induction false} ClosingNext(w: World, v: Move, id: int)
    requires ClosingWorld(w, id) && ClosingMove(w.shared, w.msgs[id], v)
    ensures ClosingWorld(Next(w, v), id) && NoRoute(w.shared, Next(w, v).shared)
    ensures var m, n := w.msgs[id], Next(w, v).msgs[id];
            n.pc == Done || (if v.Advance? && v.id == id then Remaining(n.pc) < Remaining(m.pc) else n.pc == m.pc)
  {
    if w.msgs[id].pc == Done {
      StrandedNext(w, v);
    } else if v.Advance? {
      ClosingStep(w.shared, w.msgs[id], v.choice);
    }
  }

  // From there no number of customer messages gets an LLM answer executed: the
  // model may be called, but every one of its answers is dropped.
  lemma {:induction false} StrandedForever(w: World, moves: seq<Move>, n: nat)
    requires StrandedWorld(w) && n <= |moves| && forall i :: 0 <= i < |moves| ==> CustomerMove(moves[i])
    ensures var x := Run(w, moves, n);
            StrandedWorld(x) && NoRoute(w.shared, x.shared)
  {
    if n > 0 {
      StrandedForever(w, moves, n - 1);
      StrandedNext(Run(w, moves, n - 1), moves[n - 1]);
    }
  }

  // From any moment at which such an answer is on its way and the other messages
  // of the chat are at rest.
  lemma {:induction false} ClosesThrough(w: World, moves: seq<Move>, k: nat, n: nat, id: int)
    requires k <= n <= |moves| && ClosingWorld(Run(w, moves, k), id) && ClosingRun(w, moves, k, id)
    ensures var a, x := Run(w, moves, k), Run(w, moves, n);
            && ClosingWorld(x, id) && NoRoute(a.shared, x.shared)
            && (x.msgs[id].pc == Done
                || OwnSteps(moves, k, n, id) + Remaining(x.msgs[id].pc) <= Remaining(a.msgs[id].pc))
  {
    if k < n {
      ClosesThrough(w, moves, k, n - 1, id);
      assert ClosingAt(w, moves, n - 1, id);
      ClosingNext(Run(w, moves, n - 1), moves[n - 1], id);
    }
  }

  // The whole story, from the arrival of the answer: in every run that starts
  // with it and in which its handler clears the order, Redis miss or not, no LLM
  // answer of that customer is ever executed; after at most sixteen steps of its
  // own the message is through, and from then on the row waits for an answer
  // about an order it does not have, for as long as only customers act.
  lemma {:induction false} ClearingStrands(w: World, moves: seq<Move>, n: nat, id: int, input: Input)
    requires Initial(w) && w.shared.row.Some?
    requires var u := w.shared.row.value;
             u.state in {AwaitingPayment, ConfirmingOrder} && !u.paused && u.snoozedUntil == None
    requires w.shared.cache in {None, Some(w.shared.row.value.state)}
    requires 0 < n <= |moves| && moves[0] == Arrive(id, input) && ClosingRun(w, moves, 1, id)
    ensures var x := Run(w, moves, n);
            && id in x.msgs && x.shared.row.Some? && x.shared.row.value.state == w.shared.row.value.state
            && (forall i :: 0 <= i < |x.shared.trace| ==> !x.shared.trace[i].Routed?)
            && (x.msgs[id].pc == Done ==> StrandedWorld(x))
            && (OwnSteps(moves, 1, n, id) >= 16 ==> x.msgs[id].pc == Done)
  {
    assert Run(w, moves, 1) == Next(w, moves[0]);
    ClosesThrough(w, moves, 1, n, id);
  }
}
