// app/api/webhooks.py, handle_order_payment_choice and handle_confirmation, with
// the gate of app/services/order_confirm_gate.py and confirm_order of
// app/services/intent_router.py: how an order comes to be confirmed by chat.
module OrderConfirmation {
  import opened Wrappers
  import opened Text

  datatype Status = Draft | Confirmed | Cancelled | OtherStatus

  // order_meta; a missing key is the empty string, or false.
  datatype Meta = Meta(
    orderType: string, deliveryAddress: string, pickupTimeNote: string, paymentMethod: string,
    requiresPrepayment: bool)

  const NO_META := Meta("", "", "", "", false)

  // What items_json holds under "order_meta": nothing truthy, an object, or
  // something truthy that is not an object.
  datatype MetaField = NoMeta | MetaObject(meta: Meta) | MetaJunk

  datatype Line = Line(name: string, menuId: string)

  // items_json: nothing truthy, an object, or something truthy that is not one.
  datatype Items = NoItems | Items(lines: seq<Line>, meta: MetaField) | Junk

  datatype Order = Order(status: Status, items: Items, prepaymentStatus: string)

  // The verdict of validate_order against the menu of the moment.
  datatype MenuCheck = MenuCheck(unknown: bool, stopped: bool, anyValid: bool)

  // What surrounds one call: the organization's prepayment_enforced (None when
  // the organization is missing), the two menu reads, the linked booking.
  datatype Env = Env(enforced: Option<bool>, menuAtGate: MenuCheck, menuAtConfirm: MenuCheck, bookingOk: bool)

  // ---------------------------------------------------------------- shared checks

  // _missing_fulfillment_after_payment_reply is non-empty.
  predicate MissingFulfillment(m: Meta) {
    || (Norm(m.orderType) == "delivery" && Strip(m.deliveryAddress) == "")
    || (Norm(m.orderType) == "pickup" && Strip(m.pickupTimeNote) == "")
  }

  // _fulfillment_block_reason is non-empty.
  predicate Blocked(m: Meta) {
    || MissingFulfillment(m)
    || Norm(m.orderType) == ""
    || (Norm(m.paymentMethod) == "" && Norm(m.orderType) != "hall")
  }

  function FoodLines(items: Items): seq<Line> {
    if items.Items? then Named(items.lines, |items.lines|) else []
  }

  function Named(lines: seq<Line>, n: nat): seq<Line>
    requires n <= |lines|
  {
    if n == 0 then []
    else if Strip(lines[n - 1].name) != "" then Named(lines, n - 1) + [lines[n - 1]]
    else Named(lines, n - 1)
  }

  predicate CartReady(o: Order, menu: MenuCheck) {
    && FoodLines(o.items) != []
    && !menu.unknown && !menu.stopped && menu.anyValid
    && forall i :: 0 <= i < |FoodLines(o.items)| ==> Strip(FoodLines(o.items)[i].menuId) != ""
  }

  // validate_order_ready_to_confirm.
  predicate GateOk(o: Order, menu: MenuCheck, checkFulfillment: bool, m: Meta) {
    && o.status == Draft
    && FoodLines(o.items) != []
    && (checkFulfillment ==> !Blocked(m))
    && CartReady(o, menu)
  }

  predicate Settled(prepaymentStatus: string) {
    Norm(prepaymentStatus) == "paid" || Norm(prepaymentStatus) == "waived"
  }

  // ---------------------------------------------------------------- the payment step

  datatype PaymentOutcome =
    | PaymentNotFound      // no draft to pay for
    | PaymentRaised        // an exception; nothing is committed
    | AskFulfillment       // back to CHATTING for the address or the time
    | HoldForPrepayment    // back to CHATTING until the operator marks the payment
    | AskConfirmation      // CONFIRMING_ORDER

  function MetaToEdit(items: Items): Option<Meta> {
    if !items.Items? || items.meta.NoMeta? then Some(NO_META)
    else if items.meta.MetaObject? then Some(items.meta.meta) else None
  }

  function WithPayment(items: Items, m: Meta, method': string): Items {
    Items(if items.Items? then items.lines else [], MetaObject(m.(paymentMethod := method')))
  }

  predicate NeedsPrepayment(m: Meta, enforced: Option<bool>) {
    m.requiresPrepayment && enforced != Some(false)
  }

  function PaymentStep(o: Order, method': string, env: Env): (Order, PaymentOutcome) {
    if o.status != Draft then (o, PaymentNotFound)
    else
      match MetaToEdit(o.items)
      case None => (o, PaymentRaised)
      case Some(m) =>
        var paid := o.(items := WithPayment(o.items, m, method'));
        var after := m.(paymentMethod := method');
        if MissingFulfillment(after) then (paid, AskFulfillment)
        else if NeedsPrepayment(after, env.enforced) && !Settled(o.prepaymentStatus) then (paid, HoldForPrepayment)
        else (paid, AskConfirmation)
  }

  // ---------------------------------------------------------------- the confirmation step

  datatype Word = Yes | No | OtherWord

  datatype ConfirmOutcome =
    | ConfirmRaised
    | NeedFulfillment    // back to CHATTING
    | RefusedByGate      // back to CHATTING
    | HeldForPrepayment  // stays in CONFIRMING_ORDER
    | ConfirmNotFound
    | SaysConfirmed      // the reply announces the order as confirmed
    | SaysCancelled
    | Reenter            // neither yes nor no: on to the LLM

  // confirm_order; None is its None.
  function ConfirmOrder(o: Order, env: Env): Option<Order> {
    if o.status != Draft then Some(o)
    else if !GateOk(o, env.menuAtConfirm, false, NO_META) then None
    else if !env.bookingOk then None
    else Some(o.(status := Confirmed))
  }

  function ConfirmStep(o: Order, word: Word, env: Env): (Order, ConfirmOutcome) {
    match word
    case OtherWord => (o, Reenter)
    case No => (o.(status := if o.status == Draft then Cancelled else o.status), SaysCancelled)
    case Yes =>
      if o.items.Junk? then (o, ConfirmRaised)
      else
        var om := if o.items.Items? && o.items.meta.MetaObject? then o.items.meta.meta else NO_META;
        var isObject := o.items.Items? && !o.items.meta.MetaJunk?;
        if isObject && MissingFulfillment(om) then (o, NeedFulfillment)
        else if o.items.Items? && !GateOk(o, env.menuAtGate, true, om) then (o, RefusedByGate)
        else if isObject && om.requiresPrepayment && env.enforced != Some(false) && !Settled(o.prepaymentStatus)
        then (o, HeldForPrepayment)
        else
          match ConfirmOrder(o, env)
          case None => (o, ConfirmNotFound)
          case Some(done) => (done, SaysConfirmed)
  }

  // The order row, as the handlers edit it in place.
  class OrderRow {
    var status: Status
    var items: Items
    var prepaymentStatus: string

    function Snapshot(): Order reads this {
      Order(status, items, prepaymentStatus)
    }

    constructor (o: Order)
      ensures Snapshot() == o
    {
      status, items, prepaymentStatus := o.status, o.items, o.prepaymentStatus;
    }

    method HandlePaymentChoice(method': string, env: Env) returns (out: PaymentOutcome)
      modifies this
      ensures (Snapshot(), out) == PaymentStep(old(Snapshot()), method', env)
    {
      if status != Draft {
        return PaymentNotFound;
      }
      var edit := MetaToEdit(items);
      if edit.None? {
        return PaymentRaised;
      }
      var meta := edit.value.(paymentMethod := method');
      items := WithPayment(items, edit.value, method');
      if MissingFulfillment(meta) {
        return AskFulfillment;
      }
      var needsPrepay := meta.requiresPrepayment;
      if env.enforced == Some(false) {
        needsPrepay := false;
      }
      return if needsPrepay && !Settled(prepaymentStatus) then HoldForPrepayment else AskConfirmation;
    }

    method HandleYes(env: Env) returns (out: ConfirmOutcome)
      modifies this
      ensures (Snapshot(), out) == ConfirmStep(old(Snapshot()), Yes, env)
    {
      if items.Junk? {
        return ConfirmRaised;
      }
      if items.Items? {
        var om := if items.meta.MetaObject? then items.meta.meta else NO_META;
        if !items.meta.MetaJunk? && MissingFulfillment(om) {
          return NeedFulfillment;
        }
        if !GateOk(Snapshot(), env.menuAtGate, true, om) {
          return RefusedByGate;
        }
        if !items.meta.MetaJunk? && om.requiresPrepayment {
          var enforced := if env.enforced.Some? then env.enforced.value else true;
          if enforced && !Settled(prepaymentStatus) {
            return HeldForPrepayment;
          }
        }
      }
      if status == Draft {
        if !GateOk(Snapshot(), env.menuAtConfirm, false, NO_META) || !env.bookingOk {
          return ConfirmNotFound;
        }
        status := Confirmed;
      }
      return SaysConfirmed;
    }
  }

  // ---------------------------------------------------------------- when an order is confirmed

  // The named food lines are all on the menu and none is stopped.
  predicate GoodMenu(menu: MenuCheck) {
    menu == MenuCheck(false, false, true)
  }

  // Everything a chat confirmation is supposed to rest on.
  predicate Ready(o: Order, env: Env) {
    && o.status == Draft && o.items.Items? && o.items.meta.MetaObject?
    && (exists i :: 0 <= i < |o.items.lines| && Strip(o.items.lines[i].name) != "")
    && (forall i :: 0 <= i < |o.items.lines| && Strip(o.items.lines[i].name) != "" ==>
          Strip(o.items.lines[i].menuId) != "")
    && GoodMenu(env.menuAtGate) && GoodMenu(env.menuAtConfirm) && env.bookingOk
    && var m := o.items.meta.meta;
       && Norm(m.orderType) != ""
       && (Norm(m.orderType) == "delivery" ==> Strip(m.deliveryAddress) != "")
       && (Norm(m.orderType) == "pickup" ==> Strip(m.pickupTimeNote) != "")
       && (Norm(m.orderType) != "hall" ==> Norm(m.paymentMethod) != "")
       && (m.requiresPrepayment && env.enforced != Some(false) ==> Norm(o.prepaymentStatus) in {"paid", "waived"})
  }

  lemma {:induction false} NamedAre(lines: seq<Line>, n: nat, l: Line)
    requires n <= |lines|
    ensures l in Named(lines, n) <==> Strip(l.name) != "" && l in lines[..n]
  {
    if n > 0 {
      NamedAre(lines, n - 1, l);
      assert lines[..n] == lines[..n - 1] + [lines[n - 1]];
    }
  }

  // A cart is ready exactly when it names food, all of it with a menu id.
  lemma {:induction false} CartReadyIff(o: Order, menu: MenuCheck)
    requires o.items.Items?
    ensures CartReady(o, menu) <==>
              && GoodMenu(menu)
              && (exists i :: 0 <= i < |o.items.lines| && Strip(o.items.lines[i].name) != "")
              && (forall i :: 0 <= i < |o.items.lines| && Strip(o.items.lines[i].name) != "" ==>
                    Strip(o.items.lines[i].menuId) != "")
  {
    var lines := o.items.lines;
    var food := FoodLines(o.items);
    assert lines[..|lines|] == lines;
    forall l ensures l in food <==> Strip(l.name) != "" && l in lines {
      NamedAre(lines, |lines|, l);
    }
    if exists i :: 0 <= i < |lines| && Strip(lines[i].name) != "" {
      var i :| 0 <= i < |lines| && Strip(lines[i].name) != "";
      assert lines[i] in food;
    }
    if food != [] {
      assert food[0] in food;
    }
    assert forall i :: 0 <= i < |lines| && Strip(lines[i].name) != "" ==> lines[i] in food;
    assert forall i :: 0 <= i < |food| ==> food[i] in food;
  }

  // A "yes" moves an order to confirmed exactly when all of it holds: no shape
  // of items_json slips through, and nothing else is asked for.
  lemma {:induction false} ConfirmedIffReady(o: Order, word: Word, env: Env)
    ensures o.status == Draft && ConfirmStep(o, word, env).0.status == Confirmed <==> word == Yes && Ready(o, env)
  {
    if o.items.Items? {
      CartReadyIff(o, env.menuAtGate);
      CartReadyIff(o, env.menuAtConfirm);
    } else {
      assert FoodLines(o.items) == [];
    }
  }

  // The announcement is true unless the row had no items and was not a draft:
  // then the order is returned as it stands, even cancelled, and announced.
  lemma {:induction false} AnnouncementTrueIff(o: Order, env: Env)
    ensures var (after, out) := ConfirmStep(o, Yes, env);
            out == SaysConfirmed ==>
              (after.status == Confirmed <==> !(o.items == NoItems && o.status != Draft && o.status != Confirmed))
  {
    ConfirmedIffReady(o, Yes, env);
  }

  lemma {:induction false} AnnouncedThoughCancelled(env: Env)
    ensures ConfirmStep(Order(Cancelled, NoItems, ""), Yes, env) == (Order(Cancelled, NoItems, ""), SaysConfirmed)
  {
  }

  // ---------------------------------------------------------------- the two steps agree

  predicate Recognized(method': string) {
    method' == "cash" || method' == "card" || method' == "remote"
  }

  lemma {:induction false} RecognizedNonBlank(method': string)
    requires Recognized(method')
    ensures Norm(method') != ""
  {
    assert !IsSpace(method'[0]) && !IsSpace(method'[|method'| - 1]);
    assert Strip(method') == method';
  }

  // What the payment step leaves in the row, and when it gives which outcome.
  lemma {:induction false} PaymentRecords(o: Order, method': string, env: Env)
    ensures var (paid, out) := PaymentStep(o, method', env);
            && (out == PaymentNotFound <==> o.status != Draft)
            && (out == PaymentRaised <==> o.status == Draft && o.items.Items? && o.items.meta == MetaJunk)
            && (out == PaymentNotFound || out == PaymentRaised ==> paid == o)
            && (out != PaymentNotFound && out != PaymentRaised ==>
                  var lines := if o.items.Items? then o.items.lines else [];
                  var m := if o.items.Items? && o.items.meta.MetaObject? then o.items.meta.meta
                           else Meta("", "", "", "", false);
                  && paid == Order(Draft, Items(lines, MetaObject(
                       Meta(m.orderType, m.deliveryAddress, m.pickupTimeNote, method', m.requiresPrepayment))),
                       o.prepaymentStatus)
                  && (out == AskFulfillment <==>
                        || (Norm(m.orderType) == "delivery" && Strip(m.deliveryAddress) == "")
                        || (Norm(m.orderType) == "pickup" && Strip(m.pickupTimeNote) == "")))
  {
  }

  // A "no" cancels a draft and nothing else, any other word changes nothing, and
  // a "yes" never does more than confirm.
  lemma {:induction false} AnswersChangeStatusOnly(o: Order, word: Word, env: Env)
    ensures var (after, out) := ConfirmStep(o, word, env);
            && after == o.(status := after.status)
            && (word == No ==>
                  out == SaysCancelled && after.status == if o.status == Draft then Cancelled else o.status)
            && (word == OtherWord ==> out == Reenter && after == o)
            && (word == Yes && out != SaysConfirmed ==> after == o)
            && (word == Yes ==> (out == ConfirmRaised <==> o.items == Junk))
            && (word == Yes && o.status != Draft ==> after == o)
  {
  }

  // After the payment step has asked for confirmation, an immediate "yes" on
  // unchanged data is never sent back for an address or a time, and never held
  // for prepayment. It still meets the gate, and confirms exactly when the cart
  // and the booking hold up and the order says how it is to be received.
  lemma {:induction false} YesAfterPayment(o: Order, method': string, env: Env)
    requires Recognized(method') && PaymentStep(o, method', env).1 == AskConfirmation
    ensures var paid := PaymentStep(o, method', env).0;
            var (after, out) := ConfirmStep(paid, Yes, env);
            && out != NeedFulfillment && out != HeldForPrepayment && out != ConfirmRaised
            && (out == RefusedByGate <==>
                  Norm(paid.items.meta.meta.orderType) == "" || !CartReady(paid, env.menuAtGate))
            && (after.status == Confirmed <==>
                  && Norm(paid.items.meta.meta.orderType) != "" && CartReady(paid, env.menuAtGate)
                  && CartReady(paid, env.menuAtConfirm) && env.bookingOk)
  {
    RecognizedNonBlank(method');
    ConfirmedIffReady(PaymentStep(o, method', env).0, Yes, env);
  }

  // The gap is real: with no order type the payment step asks for confirmation
  // and the gate refuses the "yes", whatever the menu says.
  lemma {:induction false} NoOrderTypeIsRefused(env: Env)
    ensures var o := Order(Draft, Items([Line("plov", "id-1")], NoMeta), "");
            var (paid, asked) := PaymentStep(o, "cash", env);
            asked == AskConfirmation && ConfirmStep(paid, Yes, env).1 == RefusedByGate
  {
    assert Norm("") == "";
  }

  // And a hold at the payment step is a refusal at the confirmation step: a
  // "yes" under the same data confirms nothing, and whatever the gate lets
  // through is held there too.
  lemma {:induction false} HoldAgrees(o: Order, method': string, env: Env)
    requires Recognized(method') && PaymentStep(o, method', env).1 == HoldForPrepayment
    ensures var paid := PaymentStep(o, method', env).0;
            var (after, out) := ConfirmStep(paid, Yes, env);
            && after == paid
            && (out == HeldForPrepayment <==> GateOk(paid, env.menuAtGate, true, paid.items.meta.meta))
            && (out == HeldForPrepayment || out == RefusedByGate)
  {
  }

  // ---------------------------------------------------------------- prepayment, status by status

  lemma {:induction false} PaidWords()
    ensures Norm("paid") == Norm("PAID") == Norm(" Paid\n") == "paid"
  {
    Unblanked("paid");
    Unblanked("PAID");
    StripMiddle(" ", "Paid", "\n");
    assert " " + "Paid" + "\n" == " Paid\n";
  }

  lemma {:induction false} WaivedWords()
    ensures Norm("waived") == Norm("\tWaived ") == "waived"
  {
    Unblanked("waived");
    StripMiddle("\t", "Waived", " ");
    assert "\t" + "Waived" + " " == "\tWaived ";
  }

  lemma {:induction false} UnpaidWords()
    ensures |Norm("pending")| == 7 && |Norm("not_required")| == 12 && Norm("") == Norm(" ") == ""
  {
    Unblanked("pending");
    Unblanked("not_required");
    StripMiddle(" ", "", "");
    assert " " + "" + "" == " ";
  }

  lemma {:induction false} Unblanked(s: string)
    requires s != [] && !IsSpace(s[0]) && !IsSpace(s[|s| - 1])
    ensures Strip(s) == s
  {
    StripMiddle([], s, []);
    assert [] + s + [] == s;
  }

  // The kind of order is recognized in capitals and between blanks.
  lemma {:induction false} OrderTypeWord()
    ensures Norm(" DELIVERY\n") == "delivery"
  {
    StripMiddle(" ", "DELIVERY", "\n");
    assert " " + "DELIVERY" + "\n" == " DELIVERY\n";
  }

  // Under enforced required prepayment both steps hold the order exactly as
  // long as its status, blanks and capitals aside, is neither of the two words.
  lemma {:induction false} PrepaymentGate(o: Order, method': string, env: Env)
    requires Recognized(method') && o.status == Draft && o.items.Items? && o.items.meta.MetaObject?
    requires o.items.meta.meta.requiresPrepayment && env.enforced != Some(false)
    requires !MissingFulfillment(o.items.meta.meta)
    ensures var (paid, asked) := PaymentStep(o, method', env);
            && (Norm(o.prepaymentStatus) in {"paid", "waived"} ==> asked == AskConfirmation)
            && (Norm(o.prepaymentStatus) !in {"paid", "waived"} ==> asked == HoldForPrepayment)
    ensures GateOk(o, env.menuAtGate, true, o.items.meta.meta) ==>
              (ConfirmStep(o, Yes, env).1 == HeldForPrepayment <==> Norm(o.prepaymentStatus) !in {"paid", "waived"})
  {
  }

  // A draft of one dish for the hall, paid by card, that wants prepayment.
  predicate Sample(o: Order) {
    && o.status == Draft
    && o.items == Items([Line("plov", "id-1")], MetaObject(Meta("hall", "", "", "card", true)))
  }

  lemma {:induction false} SampleIsReady(o: Order, env: Env)
    requires Sample(o) && GoodMenu(env.menuAtGate) && GoodMenu(env.menuAtConfirm) && env.bookingOk
    ensures !MissingFulfillment(o.items.meta.meta) && GateOk(o, env.menuAtGate, true, o.items.meta.meta)
    ensures Norm(o.prepaymentStatus) in {"paid", "waived"} ==> Ready(o, env)
  {
    Unblanked("hall");
    Unblanked("card");
    Unblanked("plov");
    Unblanked("id-1");
    assert Norm("hall") == "hall" && Norm("card") == "card";
    assert o.items.lines[0].name == "plov";
    CartReadyIff(o, env.menuAtGate);
    NamedAre(o.items.lines, 1, Line("plov", "id-1"));
    assert o.items.lines[..1] == o.items.lines;
  }

  lemma {:induction false} SampleStatus(o: Order, env: Env)
    requires Sample(o) && env.enforced != Some(false)
    requires !MissingFulfillment(o.items.meta.meta) && GateOk(o, env.menuAtGate, true, o.items.meta.meta)
    ensures Norm(o.prepaymentStatus) !in {"paid", "waived"} ==>
              && PaymentStep(o, "card", env).1 == HoldForPrepayment
              && ConfirmStep(o, Yes, env).1 == HeldForPrepayment
    ensures Norm(o.prepaymentStatus) in {"paid", "waived"} ==>
              && PaymentStep(o, "card", env).1 == AskConfirmation
              && (Ready(o, env) ==> ConfirmStep(o, Yes, env).0.status == Confirmed)
  {
    PrepaymentGate(o, "card", env);
    ConfirmedIffReady(o, Yes, env);
  }

  predicate PaidWord(p: string) {
    p == "paid" || p == "waived" || p == "PAID" || p == " Paid\n" || p == "\tWaived "
  }

  predicate UnpaidWord(p: string) {
    p == "pending" || p == "not_required" || p == "" || p == " "
  }

  lemma {:induction false} WordsSettle(p: string)
    ensures PaidWord(p) ==> Norm(p) == "paid" || Norm(p) == "waived"
    ensures UnpaidWord(p) ==> Norm(p) != "paid" && Norm(p) != "waived"
  {
    PaidWords();
    WaivedWords();
    UnpaidWords();
  }

  // Spelled out for the statuses that occur.
  lemma {:induction false} PrepaymentByStatus(o: Order, env: Env)
    requires Sample(o) && env.enforced != Some(false)
    requires GoodMenu(env.menuAtGate) && GoodMenu(env.menuAtConfirm) && env.bookingOk
    ensures o.prepaymentStatus in {"paid", "waived", "PAID", " Paid\n", "\tWaived "} ==>
              && PaymentStep(o, "card", env).1 == AskConfirmation
              && ConfirmStep(o, Yes, env).0.status == Confirmed
    ensures o.prepaymentStatus in {"pending", "not_required", "", " "} ==>
              && PaymentStep(o, "card", env).1 == HoldForPrepayment
              && ConfirmStep(o, Yes, env).1 == HeldForPrepayment
  {
    var p := o.prepaymentStatus;
    assert p in {"paid", "waived", "PAID", " Paid\n", "\tWaived "} ==> PaidWord(p);
    assert p in {"pending", "not_required", "", " "} ==> UnpaidWord(p);
    WordsSettle(p);
    SampleIsReady(o, env);
    SampleStatus(o, env);
  }

  // ---------------------------------------------------------------- whole runs

  // Chat steps, and edits by others (operators, the LLM path, payment marks),
  // which may change anything except that they do not confirm.
  datatype Event =
    | ChatPayment(method': string, env: Env)
    | ChatAnswer(word: Word, env: Env)
    | Edited(order: Order)

  function After(o: Order, events: seq<Event>, n: nat): Order
    requires n <= |events|
  {
    if n == 0 then o
    else
      var before := After(o, events, n - 1);
      match events[n - 1]
      case ChatPayment(method', env) => PaymentStep(before, method', env).0
      case ChatAnswer(word, env) => ConfirmStep(before, word, env).0
      case Edited(order) => order
  }

  // In every run, an order that is confirmed was confirmed by a "yes" at which
  // every requirement held.
  lemma {:induction false} ConfirmedByReadyYes(o: Order, events: seq<Event>, n: nat)
    requires n <= |events| && o.status != Confirmed
    requires forall i :: 0 <= i < |events| && events[i].Edited? ==> events[i].order.status != Confirmed
    requires After(o, events, n).status == Confirmed
    ensures exists k ::
              && 0 <= k < n && events[k].ChatAnswer? && events[k].word == Yes
              && Ready(After(o, events, k), events[k].env)
              && After(o, events, k + 1) == After(o, events, k).(status := Confirmed)
  {
    var before := After(o, events, n - 1);
    match events[n - 1]
    case ChatPayment(method', env) =>
      ConfirmedByReadyYes(o, events, n - 1);
    case ChatAnswer(word, env) =>
      ConfirmedIffReady(before, word, env);
      if before.status == Draft {
        assert Ready(After(o, events, n - 1), events[n - 1].env);
        assert After(o, events, n) == ConfirmStep(before, word, env).0;
      } else {
        ConfirmedByReadyYes(o, events, n - 1);
      }
    case Edited(order) =>
  }
}
