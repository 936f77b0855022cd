/**
  The payment gateway's checkout flow (`WC_Stripe_Gateway`): choosing what
  to charge (a guest's one-time token, a new processor customer, a saved card
  or a card added to the saved ones), calling the processor, recording the
  result on the order, and completing or failing the order.

  The host state the flow touches is held in the gateway object: the record of
  the order being paid (status, notes, metadata), the cart, the queued notices,
  the session's "awaiting payment" flag, the current user's metadata, and the
  log of calls made to the processor.
 */
module Gateway {
  import opened Php
  import opened Stripe
  import opened CardStore
  import opened Validation

  datatype Status = Pending | Processing | OnHold | Completed | Failed | Cancelled | Refunded

  /** A value written with `update_post_meta`: a string, a boolean, or PHP's null. */
  datatype MetaValue = Text(text: string) | Flag(flag: bool) | NullValue

  /** The logged-in WordPress user. */
  datatype User = User(id: nat, login: string, email: string)

  /** What the flow reads from the order: its billing contact, its total in
      minor currency units, and whether WooCommerce will want to process it
      after payment. */
  datatype Order = Order(
    id: nat,
    billingFirstName: string,
    billingLastName: string,
    billingEmail: string,
    amount: int,
    needsProcessing: bool)

  /** What the checkout form posts: `stripe_token`, `wc_stripe_card` (a saved
      card's index or "new"; "" when absent), and whether `form_errors` is 1. */
  datatype Form = Form(token: string, chosenCard: string, formErrors: bool)

  /** What `send_to_stripe` returns: true, false, or nothing at all. */
  datatype SendResult = Charged | CaughtError | NoValue

  /** What `process_payment` returns: the success array, or nothing. */
  datatype Checkout = Success(redirect: string) | NoResult

  const GatewayName := "wc_stripe"

  const TransactionErrorNotice := Notice("Transaction Error: Could not complete your payment.", "error")

  /** The notice queued when a processor call throws. */
  function ErrorNotice(message: string): Notice {
    Notice("Error: " + message, "error")
  }

  function SuccessNote(transactionId: string): string {
    GatewayName + " payment completed with Transaction Id of \"" + transactionId + "\""
  }

  function FailureNote(message: string): string {
    GatewayName + " Credit Card Payment Failed with message: \"" + message + "\""
  }

  /** The statuses from which `payment_complete` moves an order on. */
  predicate AwaitsPayment(s: Status) {
    s == Pending || s == OnHold || s == Failed
  }

  /** The status `payment_complete` leaves an order in: an order awaiting
      payment becomes processing, or completed when it needs no processing;
      an order in any other status keeps it. */
  function PaidStatus(o: Order, current: Status): (s: Status)
    ensures AwaitsPayment(current) ==> (s == Processing <==> o.needsProcessing)
    ensures AwaitsPayment(current) ==> (s == Completed <==> !o.needsProcessing)
    ensures !AwaitsPayment(current) ==> s == current
  {
    if !AwaitsPayment(current) then current
    else if o.needsProcessing then Processing else Completed
  }

  /** "First Last", the card holder's name sent in every description. */
  function HolderName(o: Order): string {
    o.billingFirstName + " " + o.billingLastName
  }

  /** "login (#id - email) Name" for a user, "Guest (email) Name" otherwise. */
  function CustomerDescription(user: Option<User>, o: Order): string {
    match user
    case Some(u) => u.login + " (#" + DecimalText(u.id) + " - " + u.email + ") " + HolderName(o)
    case None => "Guest (" + o.billingEmail + ") " + HolderName(o)
  }

  /** The holder's name is the billing first name, one space, and the
      billing last name. */
  lemma HolderNameShowsBilling(o: Order)
    ensures var name, first := HolderName(o), o.billingFirstName;
            && |name| == |first| + 1 + |o.billingLastName|
            && name[..|first|] == first && name[|first|] == ' '
            && name[|first| + 1..] == o.billingLastName
  {
  }

  /** A guest's description is "Guest (", the billing e-mail, ") " and the
      holder's name; a user's is the login, " (#", the user id in decimal,
      " - ", the user's e-mail, ") " and the holder's name. */
  lemma DescriptionShowsCustomer(user: Option<User>, o: Order)
    ensures var d, name := CustomerDescription(user, o), HolderName(o);
            && |d| > |name| && d[|d| - |name|..] == name
            && d[|d| - |name| - 2..|d| - |name|] == ") "
    ensures user.None? ==>
              var d, e := CustomerDescription(user, o), o.billingEmail;
              && d[..7] == "Guest (" && d[7..7 + |e|] == e
              && |d| == 9 + |e| + |HolderName(o)|
    ensures user.Some? ==>
              var d, u := CustomerDescription(user, o), user.value;
              var id := DecimalText(u.id);
              var l := |u.login|;
              && d[..l] == u.login && d[l..l + 3] == " (#"
              && d[l + 3..l + 3 + |id|] == id
              && d[l + 3 + |id|..l + 6 + |id|] == " - "
              && d[l + 6 + |id|..l + 6 + |id| + |u.email|] == u.email
              && |d| == l + 8 + |id| + |u.email| + |HolderName(o)|
  {
  }

  /** The notice queued for a thrown call reads "Error: " and the thrown
      message; it is an error, as is the transaction error notice
      `process_payment` adds on failure. */
  lemma ErrorNoticeText(message: string)
    ensures ErrorNotice(message).kind == "error" && TransactionErrorNotice.kind == "error"
    ensures ErrorNotice(message).message[..7] == "Error: "
    ensures ErrorNotice(message).message[7..] == message
  {
  }

  /** The success note names the gateway and quotes the transaction id. */
  lemma SuccessNoteText(transactionId: string)
    ensures var n, k := SuccessNote(transactionId), |GatewayName| + 43;
            && n[..|GatewayName|] == GatewayName
            && |n| == k + |transactionId| + 1 && n[k..k + |transactionId|] == transactionId
  {
  }

  /** The failure note names the gateway and quotes the message, and no
      failure note reads like a success note. */
  lemma FailureNoteText(message: string, transactionId: string)
    ensures var n, k := FailureNote(message), |GatewayName| + 43;
            && n[..|GatewayName|] == GatewayName
            && |n| == k + |message| + 1 && n[k..k + |message|] == message
    ensures FailureNote(message) != SuccessNote(transactionId)
  {
    var paid := " payment completed with Transaction Id of \"" + transactionId + "\"";
    var failed := " Credit Card Payment Failed with message: \"" + message + "\"";
    assert SuccessNote(transactionId) == GatewayName + paid && paid[1] == 'p';
    assert FailureNote(message) == GatewayName + failed && failed[1] == 'C';
  }

  /** Where resolving the charging method ended: a call threw with
      `message`, or the charge is ready to be sent as `request`, with the
      customer id to record on the order. */
  datatype Outcome = Stopped(message: string) | Reached(request: ChargeRequest, customerId: MetaValue)

  /** What the charge preparation of `send_to_stripe` does before the charge
      call: the processor calls it makes, the saved-card reference it stores,
      and where it ends. */
  datatype Plan = Plan(made: seq<Call>, saved: Option<SavedCard>, outcome: Outcome)

  /** The host state one checkout reads and writes, as plain values: the log
      of processor calls, the user's metadata, the order's metadata, the
      transaction id, the queued notices, the order's status and notes, the
      cart and the session's "awaiting payment" flag. */
  datatype Ledger = Ledger(
    calls: seq<Call>,
    userMeta: UserMeta,
    orderMeta: map<string, MetaValue>,
    transactionId: string,
    notices: seq<Notice>,
    status: Status,
    notes: seq<string>,
    cartEmpty: bool,
    awaitingPayment: bool)

  /** The charge preparation as a function of the current user, the saved
      cards, the posted form and the processor's replies, starting from the
      charge basics `base`. It makes at most three calls, none of them a
      charge. */
  function ChargePlan(user: Option<User>, cards: seq<SavedCard>, form: Form, replies: Replies,
                      base: ChargeRequest): (p: Plan)
    ensures |p.made| <= 3
    ensures forall k :: 0 <= k < |p.made| ==> !p.made[k].CreateCharge?
  {
    if user.None? then
      Plan([], None, Reached(base.(card := Present(form.token)), NullValue))
    else if cards == [] then
      var create := CreateCustomer(user.value.id, form.token, base.description);
      match replies.createCustomer
      case Thrown(m) => Plan([create], None, Stopped(m))
      case Ok(c) => Plan([create], None, Reached(base.(customer := Present(c.id)), Text(c.id)))
    else
      var saved := cards[0].customerId;
      var get := GetCustomer(saved);
      match replies.getCustomer
      case Thrown(m) => Plan([get], None, Stopped(m))
      case Ok(c) =>
        if form.chosenCard != "new" then
          Plan([get], None,
               Reached(base.(card := ChosenCardId(cards, form.chosenCard), customer := Present(c.id)), Text(c.id)))
        else
          var add := UpdateCustomer(saved + "/cards", "card", form.token);
          match replies.addCard
          case Thrown(m) => Plan([get, add], None, Stopped(m))
          case Ok(card) =>
            var setDefault := UpdateCustomer(saved, "default_card", card.id);
            match replies.setDefault
            case Thrown(m) => Plan([get, add, setDefault], None, Stopped(m))
            case Ok(c2) =>
              Plan([get, add, setDefault], Some(SavedCardFor(c2, card)),
                   Reached(base.(card := Present(card.id), customer := Present(c2.id)), Text(c2.id)))
  }

  /** The number of calls in `calls` that create something on the
      processor's side. */
  function Creations(calls: seq<Call>): (n: nat)
    ensures n <= |calls|
    ensures n == 0 <==> forall k :: 0 <= k < |calls| ==> !calls[k].Creates()
  {
    if calls == [] then 0
    else (if calls[0].Creates() then 1 else 0) + Creations(calls[1..])
  }

  /** What every charge that is reached is charged to: a guest's charge
      carries the posted token and no customer, and makes no call before the
      charge; a logged-in user's charge names the processor customer, which
      is also the id recorded on the order. Amount, currency and description
      are those of the basics, and a charge never names neither a card nor a
      customer. A stop happens only for a logged-in user, after at least one
      call, and saves no card. */
  lemma ChargeSource(user: Option<User>, cards: seq<SavedCard>, form: Form, replies: Replies,
                     base: ChargeRequest)
    requires base.card == Absent && base.customer == Absent
    ensures var p := ChargePlan(user, cards, form, replies, base);
            p.outcome.Reached? ==>
              var req := p.outcome.request;
              && req.amount == base.amount && req.currency == base.currency
              && req.description == base.description
              && (req.card != Absent || req.customer != Absent)
              && (req.customer != Absent <==> user.Some?)
              && (user.None? ==>
                    p.made == [] && req.card == Present(form.token) && p.outcome.customerId == NullValue)
              && (user.Some? ==>
                    p.outcome.customerId.Text? && req.customer == Present(p.outcome.customerId.text))
    ensures var p := ChargePlan(user, cards, form, replies, base);
            p.outcome.Stopped? ==> user.Some? && p.made != [] && p.saved.None?
  {
  }

  /** A logged-in user with no saved card: exactly one call, creating a
      customer from the posted token; nothing is saved; when the creation
      succeeds the charge names the created customer and carries no card, and
      that customer's id is the one recorded on the order; when it throws,
      the preparation stops with its message. */
  lemma NewCustomerPlan(user: Option<User>, cards: seq<SavedCard>, form: Form, replies: Replies,
                        base: ChargeRequest)
    requires user.Some? && cards == []
    requires base.card == Absent && base.customer == Absent
    ensures var p := ChargePlan(user, cards, form, replies, base);
            && p.made == [CreateCustomer(user.value.id, form.token, base.description)]
            && p.saved.None?
            && (replies.createCustomer.Ok? ==>
                  var id := replies.createCustomer.value.id;
                  && p.outcome.Reached?
                  && p.outcome.request.customer == Present(id)
                  && p.outcome.request.card == Absent
                  && p.outcome.customerId == Text(id))
            && (replies.createCustomer.Thrown? ==>
                  p.outcome == Stopped(replies.createCustomer.message))
  {
  }

  /** A logged-in user with saved cards who picks saved card `i` by the
      value its radio option posts: the customer is fetched by the first
      saved card's customer id, nothing is created or saved, and the charge
      names card `i` of that customer. A posted value naming no saved card
      sends the card as PHP's null. */
  lemma SavedCardPlan(user: Option<User>, cards: seq<SavedCard>, form: Form, replies: Replies,
                      base: ChargeRequest, i: nat)
    requires user.Some? && i < |cards|
    ensures var p := ChargePlan(user, cards, form.(chosenCard := DecimalText(i)), replies, base);
            && p.made == [GetCustomer(cards[0].customerId)]
            && Creations(p.made) == 0 && p.saved.None?
            && (replies.getCustomer.Ok? ==>
                  p.outcome == Reached(base.(card := Present(cards[i].cardId),
                                             customer := Present(replies.getCustomer.value.id)),
                                       Text(replies.getCustomer.value.id)))
    ensures IndexKey(form.chosenCard).None? && form.chosenCard != "new" && replies.getCustomer.Ok? ==>
              ChargePlan(user, cards, form, replies, base).outcome.request.card == Null
  {
    var value := DecimalText(i);
    ChosenCardRoundTrip(cards, i, value);
    DecimalTextIsCanonical(i);
    assert value != "new" by {
      assert IsDigit(value[0]);
      assert !IsDigit("new"[0]);
    }
  }

  /** A new card is saved exactly when the customer fetch, the card addition
      and the default-card update all succeed; the saved reference then names
      the customer and the card the charge is sent with. */
  lemma NewCardPlan(user: Option<User>, cards: seq<SavedCard>, form: Form, replies: Replies,
                    base: ChargeRequest)
    requires user.Some? && cards != [] && form.chosenCard == "new"
    ensures var p := ChargePlan(user, cards, form, replies, base);
            p.saved.Some? <==>
              replies.getCustomer.Ok? && replies.addCard.Ok? && replies.setDefault.Ok?
    ensures var p := ChargePlan(user, cards, form, replies, base);
            p.saved.Some? ==>
              && p.saved == Some(SavedCardFor(replies.setDefault.value, replies.addCard.value))
              && p.made == [GetCustomer(cards[0].customerId),
                            UpdateCustomer(cards[0].customerId + "/cards", "card", form.token),
                            UpdateCustomer(cards[0].customerId, "default_card", replies.addCard.value.id)]
              && p.outcome.Reached?
              && p.outcome.request.card == Present(p.saved.value.cardId)
              && p.outcome.request.customer == Present(p.saved.value.customerId)
  {
  }

  /** The preparation creates at most one object on the processor's side,
      and a customer only for a logged-in user with no saved card. */
  lemma AtMostOneCreation(user: Option<User>, cards: seq<SavedCard>, form: Form,
                            replies: Replies, base: ChargeRequest)
    ensures var p := ChargePlan(user, cards, form, replies, base);
            Creations(p.made) <= 1
    ensures var p := ChargePlan(user, cards, form, replies, base);
            (exists k :: 0 <= k < |p.made| && p.made[k].CreateCustomer?) <==> user.Some? && cards == []
  {
  }

  /** The preparation does not depend on the charge's reply: a card added
      for the charge stays saved when the charge itself is declined. */
  lemma PlanIgnoresCharge(user: Option<User>, cards: seq<SavedCard>, form: Form, replies: Replies,
                          base: ChargeRequest, charge: Reply<Charge>)
    ensures ChargePlan(user, cards, form, replies.(charge := charge), base)
            == ChargePlan(user, cards, form, replies, base)
  {
  }

  class StripeGateway {
    /** The current user; None for a guest. */
    const user: Option<User>
    /** The `capture` setting. */
    const capture: string
    /** The shop's currency code, as configured. */
    const currency: string
    /** The user-metadata key the saved cards are read from. */
    const dbLocation: string
    /** `stripe_customer_info`: the saved cards, read once when the gateway is built. */
    const customerInfo: seq<SavedCard>
    /** `get_return_url($order)`. */
    const returnUrl: string
    /** `transactionErrorMessage`: declared and never assigned, so always null. */
    const transactionErrorMessage: string := ""

    var order: Option<Order>
    var transactionId: string

    var orderStatus: Status
    var orderNotes: seq<string>
    var orderMeta: map<string, MetaValue>
    var cartEmpty: bool
    var awaitingPayment: bool
    var notices: seq<Notice>
    var userMeta: UserMeta
    var calls: seq<Call>

    constructor (user: Option<User>, capture: string, currency: string, dbLocation: string,
                 userMeta: UserMeta, returnUrl: string,
                 orderStatus: Status, orderNotes: seq<string>, orderMeta: map<string, MetaValue>)
      requires !Falsy(dbLocation)
      ensures this.user == user && this.capture == capture && this.currency == currency
      ensures this.dbLocation == dbLocation && this.returnUrl == returnUrl
      ensures this.userMeta == userMeta
      ensures customerInfo == if user.Some? then Stored(userMeta, dbLocation) else []
      ensures order == None && transactionId == ""
      ensures this.orderStatus == orderStatus && this.orderNotes == orderNotes && this.orderMeta == orderMeta
      ensures !cartEmpty && awaitingPayment && notices == [] && calls == []
    {
      this.user := user;
      this.capture := capture;
      this.currency := currency;
      this.dbLocation := dbLocation;
      this.customerInfo := if user.Some? then Stored(userMeta, dbLocation) else [];
      this.returnUrl := returnUrl;
      this.order := None;
      this.transactionId := "";
      this.orderStatus := orderStatus;
      this.orderNotes := orderNotes;
      this.orderMeta := orderMeta;
      this.cartEmpty := false;
      this.awaitingPayment := true;
      this.notices := [];
      this.userMeta := userMeta;
      this.calls := [];
    }

    /** The charge basics every path starts from: amount, lower-cased
        currency and description, with neither `card` nor `customer` set. */
    function Basics(o: Order): (req: ChargeRequest)
      ensures req.card == Absent && req.customer == Absent
      ensures req.amount == o.amount && req.currency == Lower(currency)
      ensures req.description == CustomerDescription(user, o)
    {
      ChargeRequest(o.amount, Lower(currency), CustomerDescription(user, o), Absent, Absent)
    }

    /** The order metadata a successful charge leaves behind. */
    function PaidMeta(meta: map<string, MetaValue>, chargeId: string, customerId: MetaValue): (m: map<string, MetaValue>)
      ensures m.Keys == meta.Keys + {"transaction_id", "auth_capture", "customer_id"}
      ensures m["transaction_id"] == Text(chargeId)
      ensures m["auth_capture"] == Flag(capture == "yes")
      ensures m["customer_id"] == customerId
      ensures forall k :: k in meta && k !in {"transaction_id", "auth_capture", "customer_id"} ==> m[k] == meta[k]
    {
      meta["transaction_id" := Text(chargeId)]["auth_capture" := Flag(capture == "yes")]["customer_id" := customerId]
    }

    /** The `try` block of `send_to_stripe` up to the charge: picks what to
        charge, making the calls and saving the card `ChargePlan` gives, and
        ends where the plan ends (a thrown call's message, or the request). */
    method PrepareCharge(form: Form, replies: Replies) returns (outcome: Outcome)
      requires order.Some?
      modifies this`calls, this`userMeta
      ensures var plan := ChargePlan(user, customerInfo, form, replies, Basics(order.value));
              && outcome == plan.outcome
              && calls == old(calls) + plan.made
              && userMeta == (if plan.saved.Some? then SaveNewCard(old(userMeta), dbLocation, plan.saved.value)
                              else old(userMeta))
    {
      var request := Basics(order.value);
      if user.None? {
        return Reached(request.(card := Present(form.token)), NullValue);
      }
      var customer: Customer;
      if customerInfo == [] {
        calls := calls + [CreateCustomer(user.value.id, form.token, request.description)];
        if replies.createCustomer.Thrown? {
          return Stopped(replies.createCustomer.message);
        }
        customer := replies.createCustomer.value;
      } else {
        var saved := customerInfo[0].customerId;
        calls := calls + [GetCustomer(saved)];
        if replies.getCustomer.Thrown? {
          return Stopped(replies.getCustomer.message);
        }
        customer := replies.getCustomer.value;
        if form.chosenCard == "new" {
          calls := calls + [UpdateCustomer(saved + "/cards", "card", form.token)];
          if replies.addCard.Thrown? {
            return Stopped(replies.addCard.message);
          }
          var card := replies.addCard.value;
          calls := calls + [UpdateCustomer(saved, "default_card", card.id)];
          if replies.setDefault.Thrown? {
            return Stopped(replies.setDefault.message);
          }
          customer := replies.setDefault.value;
          userMeta := SaveNewCard(userMeta, dbLocation, SavedCardFor(customer, card));
          request := request.(card := Present(card.id));
        } else {
          request := request.(card := ChosenCardId(customerInfo, form.chosenCard));
        }
      }
      return Reached(request.(customer := Present(customer.id)), Text(customer.id));
    }

    /** The host state as values. */
    function State(): Ledger
      reads this
    {
      Ledger(calls, userMeta, orderMeta, transactionId, notices, orderStatus, orderNotes, cartEmpty, awaitingPayment)
    }

    /** What `send_to_stripe` does for order `o`, taking the host state from
        `before` to `after` and returning `r`. With form errors it returns
        nothing and changes nothing. Otherwise the calls made and the card
        saved are those of `ChargePlan`, followed by the charge call when the
        plan reaches it; the result is true exactly when the charge is reached
        and goes through, and then the charge id and the paid metadata are
        recorded; otherwise the result is false, one error notice carries the
        message of the call that threw, and no order metadata is written. The
        order's status, notes, cart and session flag are never touched. */
    predicate Sent(o: Order, form: Form, replies: Replies, r: SendResult, before: Ledger, after: Ledger) {
      && after.status == before.status && after.notes == before.notes
      && after.cartEmpty == before.cartEmpty && after.awaitingPayment == before.awaitingPayment
      && (form.formErrors ==> r == NoValue && after == before)
      && (!form.formErrors ==>
            var plan := ChargePlan(user, customerInfo, form, replies, Basics(o));
            && after.userMeta == (if plan.saved.Some? then SaveNewCard(before.userMeta, dbLocation, plan.saved.value)
                                  else before.userMeta)
            && after.calls == before.calls + plan.made
                              + (if plan.outcome.Reached? then [CreateCharge(plan.outcome.request)] else [])
            && (r == Charged <==> plan.outcome.Reached? && replies.charge.Ok?)
            && (r == Charged ==>
                  && after.transactionId == replies.charge.value.id
                  && after.orderMeta == PaidMeta(before.orderMeta, after.transactionId, plan.outcome.customerId)
                  && after.notices == before.notices)
            && (r != Charged ==>
                  && r == CaughtError
                  && after.orderMeta == before.orderMeta && after.transactionId == before.transactionId
                  && after.notices == before.notices
                                      + [ErrorNotice(if plan.outcome.Stopped? then plan.outcome.message
                                                     else replies.charge.message)]))
    }

    /** `send_to_stripe`, as `Sent` describes it. */
    method SendToStripe(form: Form, replies: Replies) returns (r: SendResult)
      requires order.Some?
      modifies this`calls, this`userMeta, this`orderMeta, this`notices, this`transactionId
      ensures Sent(order.value, form, replies, r, old(State()), State())
    {
      if form.formErrors {
        return NoValue;
      }
      var outcome := PrepareCharge(form, replies);
      if outcome.Stopped? {
        notices := notices + [ErrorNotice(outcome.message)];
        return CaughtError;
      }
      calls := calls + [CreateCharge(outcome.request)];
      if replies.charge.Thrown? {
        notices := notices + [ErrorNotice(replies.charge.message)];
        return CaughtError;
      }
      transactionId := replies.charge.value.id;
      orderMeta := PaidMeta(orderMeta, transactionId, outcome.customerId);
      return Charged;
    }

    /** `payment_failed`: one note quoting `transactionErrorMessage`. */
    method PaymentFailed()
      requires order.Some?
      modifies this`orderNotes
      ensures orderNotes == old(orderNotes) + [FailureNote(transactionErrorMessage)]
    {
      orderNotes := orderNotes + [FailureNote(transactionErrorMessage)];
    }

    /** `order_complete`: nothing at all once the order is completed;
        otherwise the order is paid, the cart emptied, one note carrying the
        transaction id added and the session flag cleared. */
    method OrderComplete()
      requires order.Some?
      modifies this`orderStatus, this`cartEmpty, this`orderNotes, this`awaitingPayment
      ensures old(orderStatus) == Completed ==>
                && orderStatus == Completed && cartEmpty == old(cartEmpty)
                && orderNotes == old(orderNotes) && awaitingPayment == old(awaitingPayment)
      ensures old(orderStatus) != Completed ==>
                && orderStatus == PaidStatus(order.value, old(orderStatus)) && cartEmpty
                && orderNotes == old(orderNotes) + [SuccessNote(transactionId)] && !awaitingPayment
    {
      if orderStatus == Completed {
        return;
      }
      orderStatus := PaidStatus(order.value, orderStatus);
      cartEmpty := true;
      orderNotes := orderNotes + [SuccessNote(transactionId)];
      awaitingPayment := false;
    }

    /** The branch of `process_payment` on what `send_to_stripe` returned,
        taking the host state from `before` to `after`: a charge completes
        the order (nothing at all once it is completed; otherwise paid, cart
        emptied, one note carrying the transaction id, session flag cleared)
        and yields the redirect; anything else (false, or nothing at all)
        adds one failure note and the transaction error notice, and yields
        nothing. The calls, the metadata and the transaction id are kept. */
    predicate Concluded(o: Order, sent: SendResult, result: Checkout, before: Ledger, after: Ledger) {
      && after.calls == before.calls && after.userMeta == before.userMeta
      && after.orderMeta == before.orderMeta && after.transactionId == before.transactionId
      && (sent == Charged ==>
            && result == Success(returnUrl) && after.notices == before.notices
            && (before.status == Completed ==>
                  && after.status == Completed && after.notes == before.notes
                  && after.cartEmpty == before.cartEmpty && after.awaitingPayment == before.awaitingPayment)
            && (before.status != Completed ==>
                  && after.status == PaidStatus(o, before.status) && after.cartEmpty && !after.awaitingPayment
                  && after.notes == before.notes + [SuccessNote(before.transactionId)]))
      && (sent != Charged ==>
            && result == NoResult
            && after.status == before.status && after.cartEmpty == before.cartEmpty
            && after.awaitingPayment == before.awaitingPayment
            && after.notes == before.notes + [FailureNote(transactionErrorMessage)]
            && after.notices == before.notices + [TransactionErrorNotice])
    }

    /** The branch of `process_payment`, as `Concluded` describes it. */
    method Conclude(sent: SendResult) returns (result: Checkout)
      requires order.Some?
      modifies this`orderStatus, this`cartEmpty, this`orderNotes, this`awaitingPayment, this`notices
      ensures Concluded(order.value, sent, result, old(State()), State())
    {
      if sent == Charged {
        OrderComplete();
        result := Success(returnUrl);
      } else {
        PaymentFailed();
        notices := notices + [TransactionErrorNotice];
        result := NoResult;
      }
    }

    /** `process_payment`: charge, then complete the order and return the
        redirect, or record the failure and return nothing. */
    method ProcessPayment(o: Order, form: Form, replies: Replies) returns (result: Checkout)
      modifies this
      ensures order == Some(o)
      // success exactly when the charge call was made and went through
      ensures result.Success? <==>
                && !form.formErrors && replies.charge.Ok?
                && |calls| > |old(calls)| && calls[|calls| - 1].CreateCharge?
      // without form errors, the calls made and the card saved are the plan's
      ensures !form.formErrors ==>
                var plan := ChargePlan(user, customerInfo, form, replies, Basics(o));
                && userMeta == (if plan.saved.Some? then SaveNewCard(old(userMeta), dbLocation, plan.saved.value)
                                else old(userMeta))
                && calls == old(calls) + plan.made
                              + (if plan.outcome.Reached? then [CreateCharge(plan.outcome.request)] else [])
      ensures result.Success? ==> result.redirect == returnUrl && notices == old(notices)
      ensures result.Success? ==> transactionId == replies.charge.value.id
      ensures result.Success? ==>
                orderMeta == PaidMeta(old(orderMeta), transactionId,
                                      ChargePlan(user, customerInfo, form, replies, Basics(o)).outcome.customerId)
      ensures result.Success? && old(orderStatus) == Completed ==>
                && orderStatus == Completed && orderNotes == old(orderNotes)
                && cartEmpty == old(cartEmpty) && awaitingPayment == old(awaitingPayment)
      ensures result.Success? && old(orderStatus) != Completed ==>
                && orderStatus == PaidStatus(o, old(orderStatus)) && cartEmpty && !awaitingPayment
                && orderNotes == old(orderNotes) + [SuccessNote(transactionId)]
      ensures result == NoResult ==>
                && orderStatus == old(orderStatus) && orderMeta == old(orderMeta)
                && cartEmpty == old(cartEmpty) && awaitingPayment == old(awaitingPayment)
                && transactionId == old(transactionId)
                && orderNotes == old(orderNotes) + [FailureNote("")]
                && old(notices) < notices && notices[|notices| - 1] == TransactionErrorNotice
      // with form errors: no processor call, no card saved, and only the failure notice
      ensures form.formErrors ==>
                && result == NoResult && calls == old(calls) && userMeta == old(userMeta)
                && notices == old(notices) + [TransactionErrorNotice]
    {
      order := Some(o);
      var sent := SendToStripe(form, replies);
      result := Conclude(sent);
    }
  }
}
