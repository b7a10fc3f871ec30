/** Payments: checkout, provider callbacks and operator overrides, on top of the access services. */
module Billing {
  import opened Wrappers
  import opened Tables
  import opened Adapters
  import Access
  import Query
  import Services

  // ----- Rows -----

  datatype PaymentStatus = Awaiting | Paid | Canceled | PaymentFailed

  datatype ProviderStatus = Unset | Waiting | Confirmed | ProviderCanceled | Chargebacked | Other(text: string)

  datatype Payment = Payment(
    user: nat,
    planCode: string,
    status: PaymentStatus,
    externalId: Option<string>,
    checkoutUrl: string,
    providerStatus: ProviderStatus,
    paidAt: Option<int>)

  datatype EventKind = TrialStarted | Activated | Renewed

  datatype Event = Event(user: nat, payment: Option<nat>, kind: EventKind, planCode: string, startsAt: int, endsAt: int)

  datatype Ledger = Ledger(state: State, payments: seq<Payment>, history: seq<Event>)

  // ----- Marking payments -----

  /** Has the user a paid event for another payment? */
  predicate PaidBefore(history: seq<Event>, user: nat, p: nat) {
    exists k | 0 <= k < |history| ::
      history[k].user == user && history[k].payment.Some? && history[k].payment != Some(p)
  }

  predicate Sound(l: Ledger) {
    Services.Wired(l.state.catalog, l.state.engine)
  }

  /** The history event of a payment that has just activated the plan. */
  function PaidEvent(l: Ledger, p: nat, c: Catalog): Event
    requires p < |l.payments|
  {
    var x := l.payments[p];
    var k := Services.SubscriptionOf(c.subscriptions, x.user);
    var (startsAt, endsAt) :=
      if k < |c.subscriptions| then (c.subscriptions[k].startsAt, c.subscriptions[k].endsAt) else (0, 0);
    var kind := if PaidBefore(l.history, x.user, p) then Renewed else Activated;
    Event(x.user, Some(p), kind, x.planCode, startsAt, endsAt)
  }

  /** `mark_subscription_payment_paid`; fails when the plan code is unknown. */
  function MarkPaid(w: World, l: Ledger, p: nat): Option<Ledger>
    requires Sound(l) && p < |l.payments|
  {
    var x := l.payments[p];
    if x.status == Paid then Some(l)
    else
      match Services.Activate(w, l.state, x.user, x.planCode)
      case None => None
      case Some(s) =>
        var paid := x.(status := Paid, providerStatus := Confirmed, paidAt := Some(l.state.engine.now));
        Some(Ledger(s, l.payments[p := paid], l.history + [PaidEvent(l, p, s.catalog)]))
  }

  function MarkCanceled(l: Ledger, p: nat): Ledger
    requires p < |l.payments|
  {
    var x := l.payments[p];
    var status := if x.providerStatus == Unset then ProviderCanceled else x.providerStatus;
    l.(payments := l.payments[p := x.(status := Canceled, providerStatus := status)])
  }

  function MarkFailed(l: Ledger, p: nat): Ledger
    requires p < |l.payments|
  {
    l.(payments := l.payments[p := l.payments[p].(status := PaymentFailed)])
  }

  // ----- Callbacks -----

  /** A number in a callback payload: absent, readable, or not a number at all. */
  datatype Field = Absent | Number(value: int) | Garbled

  datatype Payload = Payload(paymentId: Field, userId: Field, planCode: Option<string>)

  datatype Callback = Callback(id: string, payload: Option<Payload>, status: ProviderStatus)

  datatype CallbackError =
    | EmptyId | UnknownPayment | PaymentMismatch | UserMismatch | PlanMismatch | GarbledPayload | UnknownPlan

  function FindPayment(payments: seq<Payment>, id: string): (p: nat)
    ensures p <= |payments| && (p < |payments| ==> payments[p].externalId == Some(id))
    ensures forall k | 0 <= k < p :: payments[k].externalId != Some(id)
  {
    Query.First(payments, (x: Payment) => x.externalId == Some(id))
  }

  /** The payload checks, in the order the service makes them. */
  function CheckPayload(payload: Payload, p: nat, x: Payment): Option<CallbackError> {
    if payload.paymentId.Garbled? then Some(GarbledPayload)
    else if payload.paymentId.Number? && payload.paymentId.value != p then Some(PaymentMismatch)
    else if payload.userId.Garbled? then Some(GarbledPayload)
    else if payload.userId.Number? && payload.userId.value != x.user then Some(UserMismatch)
    else if payload.planCode.Some? && payload.planCode.value != x.planCode then Some(PlanMismatch)
    else None
  }

  /** `confirm_subscription_payment_from_platega`, all or nothing. */
  function Confirm(w: World, l: Ledger, callback: Callback): Result<Ledger, CallbackError>
    requires Sound(l)
  {
    if callback.id == "" then Err(EmptyId)
    else
      var p := FindPayment(l.payments, callback.id);
      if p == |l.payments| then Err(UnknownPayment)
      else if callback.payload.Some? && CheckPayload(callback.payload.value, p, l.payments[p]).Some? then
        Err(CheckPayload(callback.payload.value, p, l.payments[p]).value)
      else
        var l1 := l.(payments := l.payments[p := l.payments[p].(providerStatus := callback.status)]);
        if callback.status == Confirmed then
          match MarkPaid(w, l1, p)
          case None => Err(UnknownPlan)
          case Some(l2) => Ok(l2)
        else if (callback.status == ProviderCanceled || callback.status == Chargebacked)
                && l1.payments[p].status == Awaiting then
          Ok(MarkCanceled(l1, p))
        else Ok(l1)
  }

  // ----- Checkout -----

  datatype ProviderReply =
    | NotConfigured | ProviderError | Created(externalId: string, url: string, status: ProviderStatus)

  predicate OpenCheckout(x: Payment, user: nat, code: string) {
    x.user == user && x.planCode == code && x.status == Awaiting && x.checkoutUrl != ""
  }

  predicate HasOpenCheckout(payments: seq<Payment>, user: nat, code: string) {
    exists k | 0 <= k < |payments| :: OpenCheckout(payments[k], user, code)
  }

  /** `create_subscription_checkout`: the new row survives a provider failure. */
  function Checkout(l: Ledger, user: nat, code: string, reply: ProviderReply): Ledger {
    if HasOpenCheckout(l.payments, user, code) || Services.FindPlan(code).None? then l
    else
      var x := Payment(user, code, Awaiting, None, "", Unset, None);
      match reply
      case NotConfigured => l.(payments := l.payments + [x])
      case ProviderError => l.(payments := l.payments + [x.(status := PaymentFailed)])
      case Created(id, url, status) =>
        if FindPayment(l.payments, id) < |l.payments| then l.(payments := l.payments + [x])
        else l.(payments := l.payments + [x.(externalId := Some(id), checkoutUrl := url, providerStatus := status)])
  }

  // ----- Runs -----

  datatype Step =
    | CallbackStep(callback: Callback)
    | OverrideStep(payment: nat, status: PaymentStatus)
    | CheckoutStep(user: nat, code: string, reply: ProviderReply)
    | ServiceStep(step: Access.Step)

  /** The operator's status endpoint: paid, canceled, anything else is failed. */
  function Override(w: World, l: Ledger, p: nat, status: PaymentStatus): Ledger
    requires Sound(l) && p < |l.payments|
  {
    match status
    case Paid => (match MarkPaid(w, l, p) case None => l case Some(l') => l')
    case Canceled => MarkCanceled(l, p)
    case _ => MarkFailed(l, p)
  }

  /** A started trial leaves an event without a payment. */
  function TrialEvents(s: State, step: Access.Step, s': State): seq<Event> {
    if step.TrialStep? && |s'.catalog.subscriptions| == |s.catalog.subscriptions| + 1 then
      var x := s'.catalog.subscriptions[|s.catalog.subscriptions|];
      [Event(step.user, None, TrialStarted, x.plan, x.startsAt, x.endsAt)]
    else []
  }

  function Apply(w: World, l: Ledger, step: Step): (r: Ledger)
    requires Sound(l)
    ensures Sound(r)
  {
    match step
    case CallbackStep(callback) =>
      ConfirmStaysSound(w, l, callback);
      (match Confirm(w, l, callback) case Ok(l') => l' case Err(_) => l)
    case OverrideStep(p, status) =>
      if p < |l.payments| then MarkPaidStaysSound(w, l, p); Override(w, l, p, status) else l
    case CheckoutStep(user, code, reply) => Checkout(l, user, code, reply)
    case ServiceStep(s) =>
      var state := Access.Apply(w, l.state, s);
      l.(state := state, history := l.history + TrialEvents(l.state, s, state))
  }

  lemma {:induction false} ActivationIsAStep(w: World, s: State, user: nat, code: string)
    requires Services.Wired(s.catalog, s.engine)
    ensures Services.Activate(w, s, user, code).Some? ==>
      Services.Activate(w, s, user, code).value == Access.Apply(w, s, Access.ActivateStep(user, code))
  {
  }

  /** Paying is, on the access side, exactly one activation step. */
  lemma {:induction false} MarkPaidStaysSound(w: World, l: Ledger, p: nat)
    requires Sound(l) && p < |l.payments|
    ensures MarkPaid(w, l, p).Some? ==>
      var l' := MarkPaid(w, l, p).value; var x := l.payments[p];
      && Sound(l')
      && l'.state == (if x.status == Paid then l.state
        else Access.Apply(w, l.state, Access.ActivateStep(x.user, x.planCode)))
  {
    ActivationIsAStep(w, l.state, l.payments[p].user, l.payments[p].planCode);
  }

  lemma {:induction false} ConfirmStaysSound(w: World, l: Ledger, callback: Callback)
    requires Sound(l)
    ensures Confirm(w, l, callback).Ok? ==> Sound(Confirm(w, l, callback).value)
  {
    var p := FindPayment(l.payments, callback.id);
    if p < |l.payments| {
      MarkPaidStaysSound(w, l.(payments := l.payments[p := l.payments[p].(providerStatus := callback.status)]), p);
    }
  }

  function Run(w: World, l: Ledger, steps: seq<Step>): (r: Ledger)
    requires Sound(l)
    ensures Sound(r)
    decreases |steps|
  {
    if steps == [] then l else Run(w, Apply(w, l, steps[0]), steps[1..])
  }
}
