// One customer's dialog: the durable row, its Redis copy, and the steps that
// messages, operators and other writers interleave. Sources: process_message in
// app/api/webhooks.py, app/services/dialog_mgr.py, app/services/conversation_state.py
// and app/api/admin/chats.py. A step reads Redis, writes Redis, sends a reply, or is
// one database transaction; only the state and the pending order, which go to
// Redis back to back, share a step. A run that stops anywhere is a crash.
module Dialog {
  import opened Wrappers
  import OrderConfirmation

  // ---------------------------------------------------------------- durable state

  datatype State = Chatting | AwaitingPayment | ConfirmingOrder | ConfirmingBooking | HumanMode

  // check_conversation_transition.
  predicate Allowed(from: State, to: State) {
    match from
    case Chatting => true
    case AwaitingPayment => to != ConfirmingBooking
    case ConfirmingOrder => to != ConfirmingBooking
    case ConfirmingBooking => to == ConfirmingBooking || to == Chatting || to == HumanMode
    case HumanMode => to == HumanMode || to == Chatting
  }

  datatype User = User(
    state: State, version: nat, order: Option<nat>, booking: Option<nat>,
    paused: bool, snoozedUntil: Option<int>, humanUntil: Option<int>)

  const NEW_USER := User(Chatting, 0, None, None, false, None, None)

  datatype Change = Keep | Put(value: Option<nat>)

  datatype Patch = Patch(state: Option<State>, order: Change, booking: Change)

  function ToState(s: State): Patch { Patch(Some(s), Keep, Keep) }

  const DROP_ORDER := Patch(None, Put(None), Keep)

  predicate Empty(p: Patch) {
    p.state == None && p.order == Keep && p.booking == Keep
  }

  function Changed(old': Option<nat>, c: Change): Option<nat> {
    if c.Put? then c.value else old'
  }

  // The part of update_user_session_fields_in_db that decides: an expectation
  // that does not match leaves the row alone and answers false.
  predicate Matches(row: Option<User>, state: Option<State>, version: Option<nat>) {
    && (state.Some? ==> state.value == if row.Some? then row.value.state else Chatting)
    && (version.Some? ==> row.Some? && row.value.version == version.value)
  }

  function Patched(u: User, p: Patch): User {
    u.(state := if p.state.Some? then p.state.value else u.state,
       order := Changed(u.order, p.order),
       booking := Changed(u.booking, p.booking),
       version := u.version + 1)
  }

  // ---------------------------------------------------------------- the shared world

  datatype Event =
    | CalledLlm(id: int)
    | Handled(id: int)   // an order or booking handler ran
    | Routed(id: int)    // the LLM answer was executed
    | Dropped(id: int)   // the LLM answer was thrown away, nothing is sent
    | Sent(id: int)

  // `log` lists the durable states in the order session writes committed them,
  // the initial one first; it exists for the statements only.
  datatype Shared = Shared(
    row: Option<User>, cache: Option<State>, cachedOrder: Option<nat>, now: int,
    log: seq<State>, trace: seq<Event>)

  // A committed session write.
  function Commit(s: Shared, p: Patch, state: Option<State>, version: Option<nat>): (Shared, bool) {
    if !Matches(s.row, state, version) then (s, false)
    else if Empty(p) then (s, true)
    else if s.row.None? then (s, state == None && version == None)
    else
      var u := Patched(s.row.value, p);
      (s.(row := Some(u), log := s.log + [u.state]), true)
  }

  // get_user_state: ask Redis; on a miss fetch the row and fill Redis from it,
  // the pending order included.
  datatype Lookup = Ask | Fetch | Fill(state: State, order: Option<nat>)

  datatype Looked = Found(state: State) | More(next: Lookup)

  function Look(s: Shared, l: Lookup): (Shared, Looked) {
    match l
    case Ask => (s, if s.cache.Some? then Found(s.cache.value) else More(Fetch))
    case Fetch => (s, if s.row.Some? then More(Fill(s.row.value.state, s.row.value.order)) else Found(Chatting))
    case Fill(state, order) =>
      (s.(cache := Some(state), cachedOrder := if order.Some? then order else s.cachedOrder), Found(state))
  }

  // ---------------------------------------------------------------- one message

  datatype Answer = SaysYes | SaysNo | NamesPayment | SaysElse

  datatype Input = Input(hint: bool, answer: Answer)

  // What follows a transition or a clearing: reply and stop, go on to the LLM
  // branch, or go on inside it.
  datatype Then = Finish | ToChat | ToTurn

  datatype EntryPc = Find(l: Lookup) | RateLimit
  datatype Resumption = Expired | Hinted
  datatype HandlerPc = Payment | Confirmation | Booking
  datatype PendingPc = AskOrder | FetchOrder | FillOrder(order: nat)  // get_pending_order
  datatype TransPc = Check(l: Lookup) | Write | Cache
  datatype ClearPc = Drop | Current(l: Lookup) | Reset(state: State) | Forget

  datatype Pc =
    | Entry(e: EntryPc)
    | Preflight
    | Resuming(why: Resumption, written: bool)  // write the row, then the cache
    | HumanSync
    | HintCheck
    | Inbound
    | Choose
    | Handler(h: HandlerPc, p: PendingPc)
    | Trans(t: TransPc, to: State, next: Then)
    | Clear(c: ClearPc, next: Then)             // empty Redis, then the row
    | Chat | Turn | Escalate | Reread | Cas | CacheStep | Reply | Done | Raised

  // What route_intent returns.
  datatype Route = Route(newState: Option<State>, order: Change, booking: Change)

  // What the preflight saw of the row.
  datatype Seen = Seen(human: bool, paused: bool, snoozed: bool)

  // For the statements only: positions in the log at arrival and at the
  // preflight, and whether this message wrote the session after it.
  datatype Marks = Marks(startAt: nat, readAt: nat, rewrote: bool)

  // The locals of _process_message_inner.
  datatype Msg = Msg(
    id: int, input: Input, pc: Pc, state: State, version: Option<nat>, seen: Seen, result: Route, applied: bool,
    marks: Marks)

  datatype ChatTurn = CancelAll | Acknowledge | QuickHuman | QuickCancel | QuickText | Faq | CallLlm

  // Everything the model leaves open at a step.
  datatype Choice = Choice(
    limited: bool, inboundFails: bool, payment: OrderConfirmation.PaymentOutcome,
    confirm: OrderConfirmation.ConfirmOutcome, bookingClears: bool, stale: bool, turn: ChatTurn, route: Route)

  function Arrived(s: Shared, id: int, input: Input): Msg {
    Msg(id, input, Entry(Find(Ask)), Chatting, None, Seen(false, false, false),
        Route(None, Keep, Keep), false, Marks(if s.log == [] then 0 else |s.log| - 1, |s.log|, false))
  }

  function Emit(s: Shared, e: Event): Shared {
    s.(trace := s.trace + [e])
  }

  function Send(s: Shared, m: Msg): (Shared, Msg) {
    (Emit(s, Sent(m.id)), m.(pc := Done))
  }

  // Snooze that has run out is cleared; this is not a session write.
  function ClearSnooze(u: User, now: int): User {
    if u.snoozedUntil.Some? && u.snoozedUntil.value <= now then u.(snoozedUntil := None) else u
  }

  function ReadRow(s: Shared, m: Msg): (Shared, Msg) {
    match s.row
    case None => (s, m.(version := None, marks := m.marks.(readAt := |s.log|), pc := HumanSync))
    case Some(u) =>
      var v := ClearSnooze(u, s.now);
      (s.(row := Some(v)),
       m.(version := Some(u.version), marks := m.marks.(readAt := |s.log|),
          seen := Seen(u.state == HumanMode, u.paused, v.snoozedUntil.Some?),
          pc := if ModeExpired(u, s.now) then Resuming(Expired, false) else HumanSync))
  }

  predicate ModeExpired(u: User, now: int) {
    u.state == HumanMode && !u.paused && u.humanUntil.Some? && u.humanUntil.value <= now
  }

  // Back to the bot: an unguarded write of CHATTING that also ends the mode.
  function Resume(s: Shared): Shared {
    var t := Commit(s, ToState(Chatting), None, None).0;
    if t.row.Some? then t.(row := Some(t.row.value.(humanUntil := None))) else t
  }

  function ResumeStep(s: Shared, m: Msg): (Shared, Msg)
    requires m.pc.Resuming?
  {
    if !m.pc.written then (Resume(s), m.(pc := Resuming(m.pc.why, true)))
    else
      (s.(cache := Some(Chatting)),
       m.(state := Chatting, seen := m.seen.(human := false), version := None,
          pc := if m.pc.why.Expired? then HumanSync else Inbound))
  }

  // A durable HUMAN_MODE overrides the cached state.
  function HumanSyncStep(s: Shared, m: Msg): (Shared, Msg) {
    if m.seen.human && m.state != HumanMode
    then (s.(cache := Some(HumanMode)), m.(state := HumanMode, pc := HintCheck))
    else (s, m.(pc := HintCheck))
  }

  predicate ResumesOnHint(m: Msg) {
    m.seen.human && !m.seen.paused && !m.seen.snoozed && m.input.hint
  }

  function HintStep(s: Shared, m: Msg): (Shared, Msg) {
    (s, m.(pc := if ResumesOnHint(m) then Resuming(Hinted, false) else Inbound))
  }

  // The inbound log creates the customer when there is none.
  function InboundStep(s: Shared, m: Msg, c: Choice): (Shared, Msg) {
    (if s.row.None? && !c.inboundFails then s.(row := Some(NEW_USER), log := s.log + [Chatting]) else s,
     m.(pc := Choose))
  }

  predicate OperatorOnly(m: Msg) {
    m.state == HumanMode || m.seen.human || m.seen.paused || m.seen.snoozed
  }

  function ChooseStep(s: Shared, m: Msg): (Shared, Msg) {
    if OperatorOnly(m) then Send(s, m)
    else
      (s, m.(pc := match m.state
                   case AwaitingPayment => Handler(Payment, AskOrder)
                   case ConfirmingOrder => Handler(Confirmation, AskOrder)
                   case ConfirmingBooking => Handler(Booking, AskOrder)
                   case _ => Chat))
  }

  // handle_order_payment_choice with the pending order, up to its first write.
  function PaymentPc(m: Msg, order: Option<nat>, c: Choice): Pc {
    if order.None? || m.input.answer == SaysNo then Clear(Drop, Finish)
    else if m.input.answer != NamesPayment then Trans(Check(Ask), Chatting, ToChat)
    else
      match c.payment
      case PaymentNotFound => Clear(Drop, Finish)
      case PaymentRaised => Raised
      case AskFulfillment => Trans(Check(Ask), Chatting, Finish)
      case HoldForPrepayment => Trans(Check(Ask), Chatting, Finish)
      case AskConfirmation => Trans(Check(Ask), ConfirmingOrder, Finish)
  }

  // handle_confirmation with the pending order, up to its first session write.
  function ConfirmationPc(m: Msg, order: Option<nat>, c: Choice): Pc {
    if order.None? || m.input.answer == SaysNo then Clear(Drop, Finish)
    else if m.input.answer != SaysYes then Trans(Check(Ask), Chatting, ToChat)
    else
      match c.confirm
      case NeedFulfillment => Trans(Check(Ask), Chatting, Finish)
      case RefusedByGate => Trans(Check(Ask), Chatting, Finish)
      case HeldForPrepayment => Reply
      case SaysConfirmed => Clear(Drop, Finish)
      case ConfirmNotFound => Clear(Drop, Finish)
      case _ => Raised
  }

  function OrderPc(m: Msg, order: Option<nat>, c: Choice): Pc
    requires m.pc.Handler?
  {
    if m.pc.h == Payment then PaymentPc(m, order, c) else ConfirmationPc(m, order, c)
  }

  // The pending order is looked up like the state; the booking handler may
  // clear the pending booking, which puts CHATTING into Redis.
  function HandlerStep(s: Shared, m: Msg, c: Choice): (Shared, Msg)
    requires m.pc.Handler?
  {
    if m.pc.h == Booking then
      (Emit(if c.bookingClears then s.(cache := Some(Chatting)) else s, Handled(m.id)), m.(pc := Reply))
    else
      match m.pc.p
      case AskOrder =>
        (Emit(s, Handled(m.id)),
         m.(pc := if s.cachedOrder.Some? then OrderPc(m, s.cachedOrder, c) else Handler(m.pc.h, FetchOrder)))
      case FetchOrder =>
        (s, m.(pc := if s.row.Some? && s.row.value.order.Some? then Handler(m.pc.h, FillOrder(s.row.value.order.value))
                     else OrderPc(m, None, c)))
      case FillOrder(order) => (s.(cachedOrder := Some(order)), m.(pc := OrderPc(m, Some(order), c)))
  }

  function Continue(s: Shared, m: Msg, next: Then): (Shared, Msg) {
    match next
    case Finish => Send(s, m)
    case ToChat => (s, m.(state := Chatting, pc := Chat))
    case ToTurn => (s, m.(pc := Turn))
  }

  // This message's own session write, when there is a row to write.
  function Wrote(s: Shared, m: Msg): Marks {
    m.marks.(rewrote := m.marks.rewrote || s.row.Some?)
  }

  // set_user_state_durable and apply_user_state_transition_in_db: a check
  // against what get_user_state finds, an unguarded write, then the cache.
  function TransStep(s: Shared, m: Msg): (Shared, Msg)
    requires m.pc.Trans?
  {
    var to, next := m.pc.to, m.pc.next;
    match m.pc.t
    case Check(l) =>
      var (t, r) := Look(s, l);
      (t, m.(pc := match r
                   case More(l') => Trans(Check(l'), to, next)
                   case Found(from) => if Allowed(from, to) then Trans(Write, to, next) else Raised))
    case Write =>
      (Commit(s, ToState(to), None, None).0, m.(pc := Trans(Cache, to, next), marks := Wrote(s, m)))
    case Cache => Continue(s.(cache := Some(to)), m, next)
  }

  // clear_pending_order_durable: its update of the row is committed last, after
  // the key was dropped and, unless an operator has the dialog, CHATTING set.
  function ClearStep(s: Shared, m: Msg): (Shared, Msg)
    requires m.pc.Clear?
  {
    var next := m.pc.next;
    match m.pc.c
    case Drop => (s.(cachedOrder := None), m.(pc := Clear(Current(Ask), next)))
    case Current(l) =>
      var (t, r) := Look(s, l);
      (t, m.(pc := match r
                   case More(l') => Clear(Current(l'), next)
                   case Found(state) => Clear(Reset(state), next)))
    case Reset(state) =>
      (if state != HumanMode then s.(cache := Some(Chatting)) else s, m.(pc := Clear(Forget, next)))
    case Forget => Continue(Commit(s, DROP_ORDER, None, None).0, m.(marks := Wrote(s, m)), next)
  }

  // A stale cart is reset first.
  function ChatStep(s: Shared, m: Msg, c: Choice): (Shared, Msg) {
    (s, m.(pc := if c.stale then Clear(Drop, ToTurn) else Turn))
  }

  function TurnStep(s: Shared, m: Msg, c: Choice): (Shared, Msg) {
    match c.turn
    case CancelAll => (s, m.(pc := Clear(Drop, Finish)))
    case QuickCancel => (s, m.(pc := Clear(Drop, Finish)))
    case QuickHuman => (Emit(s, Sent(m.id)), m.(pc := Escalate))
    case CallLlm => (Emit(s, CalledLlm(m.id)), m.(pc := Reread))
    case _ => Send(s, m)
  }

  // The quick reply that calls an operator went out; now Redis says so.
  function EscalateStep(s: Shared, m: Msg): (Shared, Msg) {
    (s.(cache := Some(HumanMode)), m.(pc := Done))
  }

  // The re-read before routing.
  predicate Fresh(s: Shared, m: Msg) {
    && m.state == (if s.row.Some? then s.row.value.state else Chatting)
    && (m.version.Some? && s.row.Some? ==> s.row.value.version == m.version.value)
  }

  function RereadStep(s: Shared, m: Msg, c: Choice): (Shared, Msg) {
    if !Fresh(s, m) then (Emit(s, Dropped(m.id)), m.(pc := Done))
    else (Emit(s, Routed(m.id)), m.(result := c.route, pc := Cas))
  }

  // The guarded write and its commit.
  function CasStep(s: Shared, m: Msg): (Shared, Msg) {
    var (t, ok) := Commit(s, Patch(m.result.newState, m.result.order, m.result.booking), Some(m.state), m.version);
    (t, m.(applied := ok, pc := CacheStep))
  }

  function CacheResult(s: Shared, m: Msg): (Shared, Msg) {
    var t := if m.applied && m.result.newState.Some? then s.(cache := m.result.newState) else s;
    var u := if m.applied && m.result.order.Put? && m.result.order.value.Some?
             then t.(cachedOrder := m.result.order.value) else t;
    (u, m.(pc := Reply))
  }

  // The state, looked up; then the rate limit.
  function EntryStep(s: Shared, m: Msg, c: Choice): (Shared, Msg)
    requires m.pc.Entry?
  {
    match m.pc.e
    case Find(l) =>
      var (t, r) := Look(s, l);
      (t, match r
          case More(l') => m.(pc := Entry(Find(l')))
          case Found(state) => m.(state := state, pc := Entry(RateLimit)))
    case RateLimit => if c.limited then Send(s, m) else (s, m.(pc := Preflight))
  }

  function Step(s: Shared, m: Msg, c: Choice): (Shared, Msg) {
    match m.pc
    case Entry(_) => EntryStep(s, m, c)
    case Preflight => ReadRow(s, m)
    case Resuming(_, _) => ResumeStep(s, m)
    case HumanSync => HumanSyncStep(s, m)
    case HintCheck => HintStep(s, m)
    case Inbound => InboundStep(s, m, c)
    case Choose => ChooseStep(s, m)
    case Handler(_, _) => HandlerStep(s, m, c)
    case Trans(_, _, _) => TransStep(s, m)
    case Clear(_, _) => ClearStep(s, m)
    case Chat => ChatStep(s, m, c)
    case Turn => TurnStep(s, m, c)
    case Escalate => EscalateStep(s, m)
    case Reread => RereadStep(s, m, c)
    case Cas => CasStep(s, m)
    case CacheStep => CacheResult(s, m)
    case Reply => Send(s, m)
    case Done => (s, m)
    case Raised => (s, m)
  }

  // A message left alone for n steps.
  function Uninterrupted(s: Shared, m: Msg, c: Choice, n: nat): (Shared, Msg) {
    if n == 0 then (s, m)
    else
      var (t, k) := Uninterrupted(s, m, c, n - 1);
      Step(t, k, c)
  }

  // ---------------------------------------------------------------- everybody else

  // Operators, draft recovery, other workers, eviction and time. Every session
  // write goes through Commit; the flags are written without touching it.
  datatype Outside =
    | Writes(patch: Patch)
    | Flags(paused: bool, snoozedUntil: Option<int>, humanUntil: Option<int>)
    | Caches(state: Option<State>)
    | CachesOrder(order: Option<nat>)
    | Tick(now: int)

  function OutsideStep(s: Shared, o: Outside): Shared {
    match o
    case Writes(patch) => Commit(s, patch, None, None).0
    case Flags(p, z, h) =>
      if s.row.Some? then s.(row := Some(s.row.value.(paused := p, snoozedUntil := z, humanUntil := h))) else s
    case Caches(state) => s.(cache := state)
    case CachesOrder(order) => s.(cachedOrder := order)
    case Tick(now) => s.(now := if now > s.now then now else s.now)
  }

  // ---------------------------------------------------------------- runs

  datatype World = World(shared: Shared, msgs: map<int, Msg>)

  datatype Move = Arrive(id: int, input: Input) | Advance(id: int, choice: Choice) | Other(outside: Outside)

  function Next(w: World, v: Move): World {
    match v
    case Arrive(id, input) => if id in w.msgs then w else w.(msgs := w.msgs[id := Arrived(w.shared, id, input)])
    case Advance(id, choice) =>
      if id !in w.msgs then w
      else
        var (s, m) := Step(w.shared, w.msgs[id], choice);
        World(s, w.msgs[id := m])
    case Other(outside) => w.(shared := OutsideStep(w.shared, outside))
  }

  function Run(w: World, moves: seq<Move>, n: nat): World
    requires n <= |moves|
  {
    if n == 0 then w else Next(Run(w, moves, n - 1), moves[n - 1])
  }

  // A world before any message: the log is the one durable state, if any.
  predicate Initial(w: World) {
    && w.msgs == map[]
    && w.shared.log == (if w.shared.row.Some? then [w.shared.row.value.state] else [])
    && w.shared.trace == []
  }

  // The version the row had, or will have when it is created.
  function FirstVersion(w: World): nat {
    if w.shared.row.Some? then w.shared.row.value.version else 0
  }
}
