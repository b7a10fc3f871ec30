/** What callbacks, overrides and checkouts come to, read off from the payment table and the request alone. */
module PaymentOutcomes {
  import opened Wrappers
  import opened Tables
  import opened Adapters
  import opened Billing
  import opened AccessRuns
  import opened BatchOutcomes
  import opened ServiceOutcomes
  import Access
  import Services

  // ----- Which payment, and does the payload fit it -----

  /** The first payment the provider knows by this id. */
  ghost predicate Names(payments: seq<Payment>, id: string, p: nat) {
    && p < |payments| && payments[p].externalId == Some(id)
    && forall j | 0 <= j < p :: payments[j].externalId != Some(id)
  }

  /** The field is absent or says exactly this. */
  predicate Fits(field: Field, value: int) {
    field == Absent || field == Number(value)
  }

  ghost predicate PaymentFits(callback: Callback, p: nat) {
    callback.payload.None? || Fits(callback.payload.value.paymentId, p)
  }

  ghost predicate UserFits(callback: Callback, user: nat) {
    callback.payload.None? || Fits(callback.payload.value.userId, user)
  }

  ghost predicate PlanFits(callback: Callback, code: string) {
    callback.payload.None? || callback.payload.value.planCode.None? || callback.payload.value.planCode.value == code
  }

  ghost predicate OnOffer(code: string) {
    exists days: nat, limit: nat :: Offered(code, days, limit)
  }

  lemma {:induction false} OnOfferFound(code: string)
    ensures OnOffer(code) <==> Services.FindPlan(code).Some?
  {
    PlansOnOffer(code);
  }

  /** A callback without an id, or for an id no payment has, is refused. */
  lemma {:induction false} CallbackNeedsPayment(w: World, l: Ledger, callback: Callback)
    requires Sound(l)
    ensures var r := Confirm(w, l, callback);
      && (r == Err(EmptyId) <==> callback.id == "")
      && (r == Err(UnknownPayment) <==>
            callback.id != "" && forall j | 0 <= j < |l.payments| :: l.payments[j].externalId != Some(callback.id))
  {
  }

  lemma {:induction false} PayloadChecked(payload: Payload, p: nat, x: Payment)
    ensures var fault := CheckPayload(payload, p, x);
      var payment, user := Fits(payload.paymentId, p), Fits(payload.userId, x.user);
      var plan := payload.planCode.None? || payload.planCode.value == x.planCode;
      && (fault.None? <==> payment && user && plan)
      && (!payment ==> fault == Some(if payload.paymentId == Garbled then GarbledPayload else PaymentMismatch))
      && (payment && !user ==> fault == Some(if payload.userId == Garbled then GarbledPayload else UserMismatch))
      && (payment && user && !plan ==> fault == Some(PlanMismatch))
  {
  }

  /** A callback for a known payment is refused for the first field that is garbled or disagrees with the payment, in
      the order payment, user, plan; past these checks only a confirmation of an unpaid payment for a plan that is not
      on offer is refused. */
  lemma {:induction false} CallbackRefusedExactly(w: World, l: Ledger, callback: Callback, p: nat)
    requires Sound(l) && callback.id != "" && Names(l.payments, callback.id, p)
    ensures var r, x := Confirm(w, l, callback), l.payments[p];
      && (r.Ok? <==>
            && PaymentFits(callback, p) && UserFits(callback, x.user) && PlanFits(callback, x.planCode)
            && (callback.status == Confirmed && x.status != Paid ==> OnOffer(x.planCode)))
      && (!PaymentFits(callback, p) ==>
            r == Err(if callback.payload.value.paymentId == Garbled then GarbledPayload else PaymentMismatch))
      && (PaymentFits(callback, p) && !UserFits(callback, x.user) ==>
            r == Err(if callback.payload.value.userId == Garbled then GarbledPayload else UserMismatch))
      && (PaymentFits(callback, p) && UserFits(callback, x.user) && !PlanFits(callback, x.planCode) ==>
            r == Err(PlanMismatch))
      && (PaymentFits(callback, p) && UserFits(callback, x.user) && PlanFits(callback, x.planCode) && r.Err? ==>
            r == Err(UnknownPlan))
  {
    assert FindPayment(l.payments, callback.id) == p;
    OnOfferFound(l.payments[p].planCode);
    if callback.payload.Some? {
      PayloadChecked(callback.payload.value, p, l.payments[p]);
    }
  }

  // ----- Paying -----

  /** The event says who paid for what and until when; it is a renewal exactly if another payment of the user's was
      logged before. */
  ghost predicate Logged(l: Ledger, l': Ledger, p: nat, k: nat) {
    && p < |l.payments| && k < |l'.state.catalog.subscriptions|
    && |l'.history| == |l.history| + 1 && l'.history[..|l.history|] == l.history
    && var event, x, subscription := l'.history[|l.history|], l.payments[p], l'.state.catalog.subscriptions[k];
      && event.user == x.user && event.payment == Some(p) && event.planCode == x.planCode
      && event.startsAt == subscription.startsAt && event.endsAt == subscription.endsAt
      && event.kind == (if exists j | 0 <= j < |l.history| ::
           l.history[j].user == x.user && l.history[j].payment.Some? && l.history[j].payment != Some(p)
         then Renewed else Activated)
  }

  /** The payer takes the plan, is synchronised on its routes, and the payment is logged. */
  ghost predicate PlanGranted(w: World, l: Ledger, l': Ledger, p: nat, k: nat) {
    && p < |l.payments|
    && var x, s, s' := l.payments[p], l.state, l'.state;
      && PlanTaken(s.catalog, s'.catalog, k, x.user, x.planCode, Services.Today(s.engine.now))
      && Scheduled(w, s.(catalog := s'.catalog), s', k, None, SyncSubscription)
      && Logged(l, l', p, k)
  }

  lemma {:induction false} PayingGrantsPlan(w: World, l: Ledger, p: nat, k: nat)
    requires Consistent(l.state) && p < |l.payments| && OwnedAt(l.state.catalog.subscriptions, l.payments[p].user, k)
    requires l.payments[p].status != Paid && MarkPaid(w, l, p).Some?
    ensures PlanGranted(w, l, MarkPaid(w, l, p).value, p, k)
  {
    var x, l' := l.payments[p], MarkPaid(w, l, p).value;
    ActivationTakesPlan(w, l.state, x.user, x.planCode, k);
    var c, c' := l.state.catalog, l'.state.catalog;
    var days: nat, limit: nat :| Offered(x.planCode, days, limit)
      && Subscribed(c, c', k, x.user, x.planCode, limit, Services.Today(l.state.engine.now),
                    EndDate(c, k, Services.Today(l.state.engine.now), days), c.defaults.paid);
    StillOwned(c.subscriptions, c'.subscriptions, x.user, k);
  }

  lemma {:induction false} StillOwned(subscriptions: seq<Subscription>, subscriptions': seq<Subscription>, user: nat,
                                      k: nat)
    requires OnePerUser(subscriptions) && OwnedAt(subscriptions, user, k)
    requires k < |subscriptions'| && |subscriptions| <= |subscriptions'| && subscriptions'[k].user == user
    requires forall j | 0 <= j < |subscriptions| && j != k :: subscriptions'[j] == subscriptions[j]
    ensures Services.SubscriptionOf(subscriptions', user) == k
  {
  }

  // ----- Callbacks -----

  /** Only payment `p` may differ, and only in its state with the provider and with us. */
  ghost predicate OnlyPayment(payments: seq<Payment>, payments': seq<Payment>, p: nat) {
    && p < |payments| == |payments'|
    && (forall j | 0 <= j < |payments| && j != p :: payments'[j] == payments[j])
    && payments'[p] == payments[p].(status := payments'[p].status, providerStatus := payments'[p].providerStatus,
                                    paidAt := payments'[p].paidAt)
  }

  /** An accepted callback notes what the provider says. A confirmation leaves the payment paid, a cancellation or
      chargeback cancels it if it was still awaited, and anything else leaves its state alone. */
  lemma {:induction false} AcceptedCallbackSettles(w: World, l: Ledger, callback: Callback, p: nat)
    requires Sound(l) && Names(l.payments, callback.id, p) && Confirm(w, l, callback).Ok?
    ensures var l', x := Confirm(w, l, callback).value, l.payments[p];
      var canceled := callback.status == ProviderCanceled || callback.status == Chargebacked;
      && OnlyPayment(l.payments, l'.payments, p) && l'.payments[p].providerStatus == callback.status
      && l'.payments[p].status == (if callback.status == Confirmed then Paid
           else if canceled && x.status == Awaiting then Canceled else x.status)
      && l'.payments[p].paidAt == (if callback.status == Confirmed && x.status != Paid then Some(l.state.engine.now)
           else x.paidAt)
      && (!(callback.status == Confirmed && x.status != Paid) ==> l'.state == l.state && l'.history == l.history)
  {
    assert FindPayment(l.payments, callback.id) == p;
  }

  lemma {:induction false} PlanGrantedAlike(w: World, l: Ledger, l1: Ledger, l': Ledger, p: nat, k: nat)
    requires l1.state == l.state && l1.history == l.history && p < |l.payments| && p < |l1.payments|
    requires l1.payments[p].user == l.payments[p].user && l1.payments[p].planCode == l.payments[p].planCode
    requires PlanGranted(w, l1, l', p, k)
    ensures PlanGranted(w, l, l', p, k)
  {
  }

  lemma {:induction false} ConfirmationPays(w: World, l: Ledger, callback: Callback, p: nat)
    requires Sound(l) && Names(l.payments, callback.id, p) && Confirm(w, l, callback).Ok?
    requires callback.status == Confirmed
    ensures var l1 := l.(payments := l.payments[p := l.payments[p].(providerStatus := callback.status)]);
      MarkPaid(w, l1, p) == Some(Confirm(w, l, callback).value)
  {
    assert FindPayment(l.payments, callback.id) == p;
  }

  /** As a step of a run, a refused callback changes nothing. */
  lemma {:induction false} CallbackStepFollows(w: World, l: Ledger, callback: Callback)
    requires Sound(l)
    ensures var l' := Apply(w, l, CallbackStep(callback));
      if Confirm(w, l, callback).Ok? then l' == Confirm(w, l, callback).value else l' == l
  {
  }

  /** A confirmation of an unpaid payment grants its plan once. */
  lemma {:induction false} ConfirmationGrantsPlan(w: World, l: Ledger, callback: Callback, p: nat, k: nat)
    requires Consistent(l.state) && Names(l.payments, callback.id, p) && Confirm(w, l, callback).Ok?
    requires callback.status == Confirmed && l.payments[p].status != Paid
    requires OwnedAt(l.state.catalog.subscriptions, l.payments[p].user, k)
    ensures PlanGranted(w, l, Confirm(w, l, callback).value, p, k)
  {
    var l1 := l.(payments := l.payments[p := l.payments[p].(providerStatus := callback.status)]);
    ConfirmationPays(w, l, callback, p);
    PayingGrantsPlan(w, l1, p, k);
    PlanGrantedAlike(w, l, l1, Confirm(w, l, callback).value, p, k);
  }

  // ----- Overrides and checkouts -----

  /** An operator may set any status: paying grants the plan and is refused only for a plan that is not on offer;
      anything but paid and canceled counts as failed. */
  lemma {:induction false} OverrideSettles(w: World, l: Ledger, p: nat, status: PaymentStatus)
    requires Sound(l) && p < |l.payments|
    ensures var l', x := Apply(w, l, OverrideStep(p, status)), l.payments[p];
      var pays := status == Paid && x.status != Paid && OnOffer(x.planCode);
      && OnlyPayment(l.payments, l'.payments, p)
      && l'.payments[p].status == (if pays then Paid else if status == Paid then x.status
           else if status == Canceled then Canceled else PaymentFailed)
      && l'.payments[p].paidAt == (if pays then Some(l.state.engine.now) else x.paidAt)
      && l'.payments[p].providerStatus == (if pays then Confirmed
           else if status == Canceled && x.providerStatus == Unset then ProviderCanceled else x.providerStatus)
      && (!pays ==> l'.state == l.state && l'.history == l.history)
  {
    OnOfferFound(l.payments[p].planCode);
  }

  lemma {:induction false} OverridePays(w: World, l: Ledger, p: nat)
    requires Sound(l) && p < |l.payments|
    ensures var r := MarkPaid(w, l, p); Apply(w, l, OverrideStep(p, Paid)) == if r.Some? then r.value else l
  {
  }

  lemma {:induction false} OverrideGrantsPlan(w: World, l: Ledger, p: nat, k: nat)
    requires Consistent(l.state) && p < |l.payments| && OwnedAt(l.state.catalog.subscriptions, l.payments[p].user, k)
    requires l.payments[p].status != Paid && OnOffer(l.payments[p].planCode)
    ensures PlanGranted(w, l, Apply(w, l, OverrideStep(p, Paid)), p, k)
  {
    OnOfferFound(l.payments[p].planCode);
    OverridePays(w, l, p);
    PayingGrantsPlan(w, l, p, k);
  }

  /** A checkout adds one awaited payment for a plan on offer, unless the user has one open for it. The payment fails if
      the provider does, and carries the provider's id, link and status once the provider has created its side. */
  lemma {:induction false} CheckoutAddsPayment(w: World, l: Ledger, user: nat, code: string, reply: ProviderReply)
    requires Sound(l)
    ensures var l' := Apply(w, l, CheckoutStep(user, code, reply));
      var reused := exists j | 0 <= j < |l.payments| ::
        var x := l.payments[j]; x.user == user && x.planCode == code && x.status == Awaiting && x.checkoutUrl != "";
      if reused || !OnOffer(code) then l' == l
      else
        && l' == l.(payments := l'.payments) && |l'.payments| == |l.payments| + 1
        && l'.payments[..|l.payments|] == l.payments
        && var x := l'.payments[|l.payments|];
          var linked := reply.Created?
            && forall j | 0 <= j < |l.payments| :: l.payments[j].externalId != Some(reply.externalId);
          && x.user == user && x.planCode == code && x.paidAt.None?
          && x.status == (if reply.ProviderError? then PaymentFailed else Awaiting)
          && x.externalId == (if linked then Some(reply.externalId) else None)
          && x.checkoutUrl == (if linked then reply.url else "")
          && x.providerStatus == (if linked then reply.status else Unset)
  {
    OnOfferFound(code);
    assert HasOpenCheckout(l.payments, user, code) <==> exists j | 0 <= j < |l.payments| ::
      OpenCheckout(l.payments[j], user, code);
  }

  // ----- Trials -----

  /** A trial that starts is logged once, with its dates and without a payment; one that does not is not. */
  lemma {:induction false} TrialLogged(w: World, l: Ledger, user: nat, k: nat)
    requires Consistent(l.state) && OwnedAt(l.state.catalog.subscriptions, user, k)
    ensures var l', today := Apply(w, l, ServiceStep(Access.TrialStep(user))), Services.Today(l.state.engine.now);
      l'.payments == l.payments && l'.history == l.history + if k < |l.state.catalog.subscriptions| then []
        else [Event(user, None, TrialStarted, "trial", today, today + 3)]
  {
    TrialStartsOnce(w, l.state, user, k, false);
  }
}
