/** What any sequence of callbacks, overrides, checkouts and service calls does to payments. */
module BillingTheorems {
  import opened Wrappers
  import opened Tables
  import opened Adapters
  import opened Billing
  import Access
  import Services

  // ----- Edges and events -----

  predicate IsPaid(payments: seq<Payment>, p: nat) {
    p < |payments| && payments[p].status == Paid
  }

  /** The step turned payment `p` from not paid to paid. */
  predicate PaidEdge(l: Ledger, l': Ledger, p: nat) {
    !IsPaid(l.payments, p) && IsPaid(l'.payments, p)
  }

  function EventCount(history: seq<Event>, p: nat): nat {
    if history == [] then 0
    else
      var n := |history| - 1;
      EventCount(history[..n], p) + if history[n].payment == Some(p) then 1 else 0
  }

  /** The paid edges of payment `p` over a run. */
  function Edges(w: World, l: Ledger, steps: seq<Step>, p: nat): nat
    requires Sound(l)
    decreases |steps|
  {
    if steps == [] then 0
    else
      var l1 := Apply(w, l, steps[0]);
      (if PaidEdge(l, l1, p) then 1 else 0) + Edges(w, l1, steps[1..], p)
  }

  lemma {:induction false} EventCountAppend(history: seq<Event>, x: Event, p: nat)
    ensures EventCount(history + [x], p) == EventCount(history, p) + (if x.payment == Some(p) then 1 else 0)
  {
    assert (history + [x])[..|history|] == history;
  }

  /** What one attempt to mark a payment paid does to payments and history. */
  ghost predicate PaidOnce(l: Ledger, l': Ledger, q: nat)
    requires q < |l.payments|
  {
    if l.payments[q].status == Paid then l' == l
    else
      && |l'.payments| == |l.payments| && l'.payments[q].status == Paid
      && (forall k | 0 <= k < |l.payments| && k != q :: l'.payments[k] == l.payments[k])
      && |l'.history| == |l.history| + 1 && l'.history == l.history + [l'.history[|l.history|]]
      && l'.history[|l.history|].payment == Some(q) && l'.history[|l.history|].user == l.payments[q].user
      && l'.history[|l.history|].kind == (if PaidBefore(l.history, l.payments[q].user, q) then Renewed else Activated)
  }

  lemma {:induction false} MarkPaidOnce(w: World, l: Ledger, q: nat)
    requires Sound(l) && q < |l.payments| && MarkPaid(w, l, q).Some?
    ensures PaidOnce(l, MarkPaid(w, l, q).value, q)
  {
  }

  /** A step either leaves history and paid statuses alone, or pays exactly one payment. */
  ghost predicate QuietOrPays(l: Ledger, l': Ledger) {
    || (l'.history == l.history && forall p :: !PaidEdge(l, l', p))
    || (exists q :: Pays(l, l', q))
    || (|l'.history| == |l.history| + 1 && l'.history == l.history + [l'.history[|l.history|]]
        && l'.history[|l.history|].payment.None? && l'.history[|l.history|].kind == TrialStarted
        && l'.payments == l.payments)
  }

  ghost predicate Pays(l: Ledger, l': Ledger, q: nat) {
    && PaidEdge(l, l', q) && q < |l.payments|
    && (forall p | p != q :: !PaidEdge(l, l', p))
    && |l'.history| == |l.history| + 1 && l'.history == l.history + [l'.history[|l.history|]]
    && l'.history[|l.history|].payment == Some(q) && l'.history[|l.history|].user == l.payments[q].user
    && l'.history[|l.history|].kind == (if PaidBefore(l.history, l.payments[q].user, q) then Renewed else Activated)
  }

  lemma {:induction false} PaidOnceIsQuietOrPays(l: Ledger, l1: Ledger, l': Ledger, q: nat)
    requires q < |l.payments| && |l1.payments| == |l.payments| && l1.history == l.history
    requires forall k | 0 <= k < |l.payments| ::
      l1.payments[k].status == l.payments[k].status && l1.payments[k].user == l.payments[k].user
    requires PaidOnce(l1, l', q)
    ensures QuietOrPays(l, l')
  {
    if l.payments[q].status != Paid {
      assert Pays(l, l', q);
    }
  }

  lemma {:induction false} ConfirmIsQuietOrPays(w: World, l: Ledger, callback: Callback)
    requires Sound(l) && Confirm(w, l, callback).Ok?
    ensures QuietOrPays(l, Confirm(w, l, callback).value)
  {
    var p := FindPayment(l.payments, callback.id);
    var l1 := l.(payments := l.payments[p := l.payments[p].(providerStatus := callback.status)]);
    if callback.status == Confirmed {
      MarkPaidOnce(w, l1, p);
      PaidOnceIsQuietOrPays(l, l1, MarkPaid(w, l1, p).value, p);
    }
  }

  lemma {:induction false} OverrideIsQuietOrPays(w: World, l: Ledger, p: nat, status: PaymentStatus)
    requires Sound(l) && p < |l.payments|
    ensures QuietOrPays(l, Override(w, l, p, status))
  {
    if status == Paid && MarkPaid(w, l, p).Some? {
      MarkPaidOnce(w, l, p);
      PaidOnceIsQuietOrPays(l, l, MarkPaid(w, l, p).value, p);
    }
  }

  lemma {:induction false} OtherStepIsQuiet(w: World, l: Ledger, step: Step)
    requires Sound(l) && (step.CheckoutStep? || step.ServiceStep?)
    ensures QuietOrPays(l, Apply(w, l, step))
  {
  }

  lemma {:induction false} StepIsQuietOrPays(w: World, l: Ledger, step: Step)
    requires Sound(l)
    ensures QuietOrPays(l, Apply(w, l, step))
  {
    match step {
      case CallbackStep(callback) =>
        if Confirm(w, l, callback).Ok? { ConfirmIsQuietOrPays(w, l, callback); }
      case OverrideStep(p, status) =>
        if p < |l.payments| { OverrideIsQuietOrPays(w, l, p, status); }
      case CheckoutStep(user, code, reply) => OtherStepIsQuiet(w, l, step);
      case ServiceStep(s) => OtherStepIsQuiet(w, l, step);
    }
  }

  lemma {:induction false} StepCounts(w: World, l: Ledger, step: Step, p: nat)
    requires Sound(l)
    ensures var l' := Apply(w, l, step);
      EventCount(l'.history, p) == EventCount(l.history, p) + (if PaidEdge(l, l', p) then 1 else 0)
  {
    StepIsQuietOrPays(w, l, step);
    var l' := Apply(w, l, step);
    if l'.history != l.history {
      EventCountAppend(l.history, l'.history[|l.history|], p);
    }
  }

  /** Over every run, overrides included, a payment gains exactly one history event per
      transition from not paid to paid. */
  lemma {:induction false} EventsMatchEdges(w: World, l: Ledger, steps: seq<Step>, p: nat)
    requires Sound(l)
    ensures EventCount(Run(w, l, steps).history, p) == EventCount(l.history, p) + Edges(w, l, steps, p)
    decreases |steps|
  {
    if steps != [] {
      StepCounts(w, l, steps[0], p);
      EventsMatchEdges(w, Apply(w, l, steps[0]), steps[1..], p);
    }
  }

  // ----- How long a payment stays paid -----

  /** An override that takes payment `p` away from paid. */
  predicate Demotes(step: Step, p: nat) {
    step.OverrideStep? && step.payment == p && step.status != Paid
  }

  function Once(b: bool): nat {
    if b then 1 else 0
  }

  /** The demoting overrides of a run that find payment `p` paid. */
  function Demotions(w: World, l: Ledger, steps: seq<Step>, p: nat): nat
    requires Sound(l)
    decreases |steps|
  {
    if steps == [] then 0
    else Once(IsPaid(l.payments, p) && Demotes(steps[0], p)) + Demotions(w, Apply(w, l, steps[0]), steps[1..], p)
  }

  /** One step leaves a paid payment paid exactly when it does not demote it. */
  lemma {:induction false} PaidUnlessDemoted(w: World, l: Ledger, step: Step, p: nat)
    requires Sound(l) && IsPaid(l.payments, p)
    ensures IsPaid(Apply(w, l, step).payments, p) <==> !Demotes(step, p)
  {
    match step {
      case CallbackStep(callback) =>
        if Confirm(w, l, callback).Ok? && callback.status == Confirmed {
          var q := FindPayment(l.payments, callback.id);
          MarkPaidOnce(w, l.(payments := l.payments[q := l.payments[q].(providerStatus := callback.status)]), q);
        }
      case OverrideStep(q, status) =>
        if q < |l.payments| && status == Paid && MarkPaid(w, l, q).Some? {
          MarkPaidOnce(w, l, q);
        }
      case CheckoutStep(user, code, reply) =>
      case ServiceStep(s) =>
    }
  }

  lemma {:induction false} RunNext(w: World, l: Ledger, steps: seq<Step>, n: nat)
    requires Sound(l) && n < |steps|
    ensures Run(w, l, steps[..n + 1]) == Apply(w, Run(w, l, steps[..n]), steps[n])
    decreases n
  {
    if n == 0 {
      assert steps[..1][1..] == [];
    } else {
      assert steps[..n + 1][1..] == steps[1..][..n];
      assert steps[..n][1..] == steps[1..][..n - 1];
      RunNext(w, Apply(w, l, steps[0]), steps[1..], n - 1);
    }
  }

  lemma {:induction false} PaidUpTo(w: World, l: Ledger, steps: seq<Step>, p: nat, n: nat)
    requires Sound(l) && IsPaid(l.payments, p) && n <= |steps|
    requires forall k | 0 <= k < n :: !Demotes(steps[k], p)
    ensures IsPaid(Run(w, l, steps[..n]).payments, p)
  {
    if n > 0 {
      PaidUpTo(w, l, steps, p, n - 1);
      RunNext(w, l, steps, n - 1);
      PaidUnlessDemoted(w, Run(w, l, steps[..n - 1]), steps[n - 1], p);
    }
  }

  /** A paid payment stays paid throughout a run if and only if no step of the run demotes it. */
  lemma {:induction false} StaysPaidUnlessDemoted(w: World, l: Ledger, steps: seq<Step>, p: nat)
    requires Sound(l) && IsPaid(l.payments, p)
    ensures (forall n: nat | n <= |steps| :: IsPaid(Run(w, l, steps[..n]).payments, p))
            <==> (forall k | 0 <= k < |steps| :: !Demotes(steps[k], p))
  {
    if forall k | 0 <= k < |steps| :: !Demotes(steps[k], p) {
      forall n: nat | n <= |steps| ensures IsPaid(Run(w, l, steps[..n]).payments, p) {
        PaidUpTo(w, l, steps, p, n);
      }
    } else if forall n: nat | n <= |steps| :: IsPaid(Run(w, l, steps[..n]).payments, p) {
      var k :| 0 <= k < |steps| && Demotes(steps[k], p);
      RunNext(w, l, steps, k);
      PaidUnlessDemoted(w, Run(w, l, steps[..k]), steps[k], p);
    }
  }

  /** Over every run a payment becomes paid as often as it is demoted, up to how the run begins and ends. */
  lemma {:induction false} EdgesBalanceDemotions(w: World, l: Ledger, steps: seq<Step>, p: nat)
    requires Sound(l)
    ensures Edges(w, l, steps, p) + Once(IsPaid(l.payments, p))
         == Demotions(w, l, steps, p) + Once(IsPaid(Run(w, l, steps).payments, p))
    decreases |steps|
  {
    if steps != [] {
      if IsPaid(l.payments, p) {
        PaidUnlessDemoted(w, l, steps[0], p);
      }
      EdgesBalanceDemotions(w, Apply(w, l, steps[0]), steps[1..], p);
    }
  }

  /** No step of the run demotes payment `p`. */
  predicate NeverDemotes(steps: seq<Step>, p: nat) {
    forall k | 0 <= k < |steps| :: !Demotes(steps[k], p)
  }

  lemma {:induction false} NoDemotions(w: World, l: Ledger, steps: seq<Step>, p: nat)
    requires Sound(l) && NeverDemotes(steps, p)
    ensures Demotions(w, l, steps, p) == 0
    decreases |steps|
  {
    if steps != [] {
      NoDemotions(w, Apply(w, l, steps[0]), steps[1..], p);
    }
  }

  /** In particular paid is absorbing, and a payment becomes paid at most once, unless an override demotes it. */
  lemma {:induction false} PaidIsAbsorbing(w: World, l: Ledger, steps: seq<Step>, p: nat)
    requires Sound(l) && NeverDemotes(steps, p)
    ensures IsPaid(l.payments, p) ==> IsPaid(Run(w, l, steps).payments, p)
    ensures Edges(w, l, steps, p) == Once(!IsPaid(l.payments, p) && IsPaid(Run(w, l, steps).payments, p))
  {
    if IsPaid(l.payments, p) {
      PaidUpTo(w, l, steps, p, |steps|);
      assert steps[..|steps|] == steps;
    }
    NoDemotions(w, l, steps, p);
    EdgesBalanceDemotions(w, l, steps, p);
  }

  // ----- Activations -----

  /** The access step a ledger step performs, if any. */
  function AccessSteps(w: World, l: Ledger, step: Step): seq<Access.Step>
    requires Sound(l)
  {
    match step
    case ServiceStep(s) => [s]
    case OverrideStep(p, status) => if p < |l.payments| && status == Paid then Activation(l, p) else []
    case CallbackStep(callback) =>
      var p := FindPayment(l.payments, callback.id);
      if Confirm(w, l, callback).Ok? && callback.status == Confirmed && p < |l.payments| then Activation(l, p) else []
    case CheckoutStep(_, _, _) => []
  }

  function Activation(l: Ledger, p: nat): seq<Access.Step>
    requires p < |l.payments|
  {
    if l.payments[p].status == Paid || Services.FindPlan(l.payments[p].planCode).None? then []
    else [Access.ActivateStep(l.payments[p].user, l.payments[p].planCode)]
  }

  /** The payment a step acts on. */
  function PaymentOf(l: Ledger, step: Step): Option<nat> {
    match step
    case CallbackStep(callback) => Some(FindPayment(l.payments, callback.id))
    case OverrideStep(p, _) => Some(p)
    case CheckoutStep(_, _, _) => None
    case ServiceStep(_) => None
  }

  /** The activations of one step for payment `p`. */
  function StepActivations(w: World, l: Ledger, step: Step, p: nat): nat
    requires Sound(l)
  {
    if PaymentOf(l, step) == Some(p) then |AccessSteps(w, l, step)| else 0
  }

  /** How often a run activates the plan on behalf of payment `p`. */
  function Activations(w: World, l: Ledger, steps: seq<Step>, p: nat): nat
    requires Sound(l)
    decreases |steps|
  {
    if steps == [] then 0
    else StepActivations(w, l, steps[0], p) + Activations(w, Apply(w, l, steps[0]), steps[1..], p)
  }

  lemma {:induction false} CallbackActivates(w: World, l: Ledger, callback: Callback, p: nat)
    requires Sound(l)
    ensures StepActivations(w, l, CallbackStep(callback), p)
      == Once(PaidEdge(l, Apply(w, l, CallbackStep(callback)), p))
  {
    if Confirm(w, l, callback).Ok? && callback.status == Confirmed {
      var q := FindPayment(l.payments, callback.id);
      MarkPaidOnce(w, l.(payments := l.payments[q := l.payments[q].(providerStatus := callback.status)]), q);
    }
  }

  lemma {:induction false} OverrideActivates(w: World, l: Ledger, q: nat, status: PaymentStatus, p: nat)
    requires Sound(l)
    ensures StepActivations(w, l, OverrideStep(q, status), p)
      == Once(PaidEdge(l, Apply(w, l, OverrideStep(q, status)), p))
  {
    if q < |l.payments| && status == Paid && MarkPaid(w, l, q).Some? {
      MarkPaidOnce(w, l, q);
    }
  }

  lemma {:induction false} StepActivates(w: World, l: Ledger, step: Step, p: nat)
    requires Sound(l)
    ensures StepActivations(w, l, step, p) == Once(PaidEdge(l, Apply(w, l, step), p))
  {
    match step {
      case CallbackStep(callback) => CallbackActivates(w, l, callback, p);
      case OverrideStep(q, status) => OverrideActivates(w, l, q, status, p);
      case CheckoutStep(user, code, reply) =>
      case ServiceStep(s) =>
    }
  }

  /** Over every run, overrides included, a payment activates its plan exactly once per transition to paid. */
  lemma {:induction false} ActivationsMatchEdges(w: World, l: Ledger, steps: seq<Step>, p: nat)
    requires Sound(l)
    ensures Activations(w, l, steps, p) == Edges(w, l, steps, p)
    decreases |steps|
  {
    if steps != [] {
      StepActivates(w, l, steps[0], p);
      ActivationsMatchEdges(w, Apply(w, l, steps[0]), steps[1..], p);
    }
  }

  /** A payment activates its plan at most once in a run if and only if it is demoted at most as often as the
      states of the payment before and after the run allow: never, when it ends paid and began unpaid. */
  lemma {:induction false} ActivatedAtMostOnce(w: World, l: Ledger, steps: seq<Step>, p: nat)
    requires Sound(l)
    ensures Activations(w, l, steps, p) <= 1
            <==> Demotions(w, l, steps, p) + Once(IsPaid(Run(w, l, steps).payments, p))
                 <= 1 + Once(IsPaid(l.payments, p))
    ensures NeverDemotes(steps, p) ==> Activations(w, l, steps, p) <= 1
  {
    ActivationsMatchEdges(w, l, steps, p);
    EdgesBalanceDemotions(w, l, steps, p);
    if NeverDemotes(steps, p) {
      NoDemotions(w, l, steps, p);
    }
  }

  lemma {:induction false} EventsBalance(w: World, l: Ledger, steps: seq<Step>, p: nat)
    requires Sound(l)
    ensures EventCount(Run(w, l, steps).history, p) + Once(IsPaid(l.payments, p))
         == EventCount(l.history, p) + Demotions(w, l, steps, p) + Once(IsPaid(Run(w, l, steps).payments, p))
  {
    EventsMatchEdges(w, l, steps, p);
    EdgesBalanceDemotions(w, l, steps, p);
  }

  /** Every paid payment has exactly one event and every other payment none. */
  ghost predicate OneEventPerPaid(l: Ledger) {
    forall p: nat :: EventCount(l.history, p) == Once(IsPaid(l.payments, p))
  }

  /** No override finds a payment paid and takes that away. */
  ghost predicate NothingDemoted(w: World, l: Ledger, steps: seq<Step>)
    requires Sound(l)
  {
    forall p: nat :: Demotions(w, l, steps, p) == 0
  }

  lemma {:induction false} OneToOneIfNothingDemoted(w: World, l: Ledger, steps: seq<Step>)
    requires Sound(l) && OneEventPerPaid(l) && NothingDemoted(w, l, steps)
    ensures OneEventPerPaid(Run(w, l, steps))
  {
    var l' := Run(w, l, steps);
    forall p: nat ensures EventCount(l'.history, p) == Once(IsPaid(l'.payments, p)) {
      EventsBalance(w, l, steps, p);
      assert Demotions(w, l, steps, p) == 0;
      assert EventCount(l.history, p) == Once(IsPaid(l.payments, p));
    }
  }

  lemma {:induction false} NothingDemotedIfOneToOne(w: World, l: Ledger, steps: seq<Step>)
    requires Sound(l) && OneEventPerPaid(l) && OneEventPerPaid(Run(w, l, steps))
    ensures NothingDemoted(w, l, steps)
  {
    var l' := Run(w, l, steps);
    forall p: nat ensures Demotions(w, l, steps, p) == 0 {
      EventsBalance(w, l, steps, p);
      assert EventCount(l.history, p) == Once(IsPaid(l.payments, p));
      assert EventCount(l'.history, p) == Once(IsPaid(l'.payments, p));
    }
  }

  /** Callbacks repeated, reordered or mismatched, checkouts, services and overrides: paid payments and paid
      events stay one to one if and only if no payment is demoted while it is paid. */
  lemma {:induction false} ReplayIsSafe(w: World, l: Ledger, steps: seq<Step>)
    requires Sound(l) && OneEventPerPaid(l)
    ensures OneEventPerPaid(Run(w, l, steps)) <==> NothingDemoted(w, l, steps)
  {
    if OneEventPerPaid(Run(w, l, steps)) {
      NothingDemotedIfOneToOne(w, l, steps);
    }
    if NothingDemoted(w, l, steps) {
      OneToOneIfNothingDemoted(w, l, steps);
    }
  }

  // ----- Activated or renewed -----

  /** Each paid event is a renewal exactly when the user had one for another payment before it. */
  ghost predicate Classified(history: seq<Event>) {
    forall k | 0 <= k < |history| && history[k].payment.Some? ::
      history[k].kind == (if PaidBefore(history[..k], history[k].user, history[k].payment.value) then Renewed
        else Activated)
  }

  lemma {:induction false} StepClassifies(w: World, l: Ledger, step: Step)
    requires Sound(l) && Classified(l.history)
    ensures Classified(Apply(w, l, step).history)
  {
    StepIsQuietOrPays(w, l, step);
    var h, h' := l.history, Apply(w, l, step).history;
    if h' != h {
      forall k | 0 <= k < |h'| && h'[k].payment.Some?
        ensures h'[k].kind == (if PaidBefore(h'[..k], h'[k].user, h'[k].payment.value) then Renewed else Activated)
      {
        if k < |h| {
          assert h'[..k] == h[..k];
        } else {
          assert h'[..k] == h;
        }
      }
    }
  }

  lemma {:induction false} RunClassifies(w: World, l: Ledger, steps: seq<Step>)
    requires Sound(l) && Classified(l.history)
    ensures Classified(Run(w, l, steps).history)
    decreases |steps|
  {
    if steps != [] {
      StepClassifies(w, l, steps[0]);
      RunClassifies(w, Apply(w, l, steps[0]), steps[1..]);
    }
  }

  ghost predicate FirstPaidOf(history: seq<Event>, k: nat)
    requires k < |history|
  {
    forall j | 0 <= j < k :: !(history[j].user == history[k].user && history[j].payment.Some?)
  }

  lemma {:induction false} CountTwice(history: seq<Event>, j: nat, k: nat, p: nat)
    requires j < k < |history| && history[j].payment == Some(p) && history[k].payment == Some(p)
    ensures EventCount(history, p) >= 2
  {
    var n := |history| - 1;
    if k < n {
      CountTwice(history[..n], j, k, p);
    } else {
      CountOnce(history[..n], j, p);
    }
  }

  lemma {:induction false} CountOnce(history: seq<Event>, j: nat, p: nat)
    requires j < |history| && history[j].payment == Some(p)
    ensures EventCount(history, p) >= 1
  {
    var n := |history| - 1;
    if j < n {
      CountOnce(history[..n], j, p);
    }
  }

  /** Unless a paid payment is demoted, a user's first paid event is an activation and every later one a renewal. */
  lemma {:induction false} FirstActivatedThenRenewed(w: World, l: Ledger, steps: seq<Step>, k: nat)
    requires Sound(l) && OneEventPerPaid(l) && Classified(l.history)
    requires NothingDemoted(w, l, steps)
    requires k < |Run(w, l, steps).history| && Run(w, l, steps).history[k].payment.Some?
    ensures var h := Run(w, l, steps).history; h[k].kind == (if FirstPaidOf(h, k) then Activated else Renewed)
  {
    ReplayIsSafe(w, l, steps);
    RunClassifies(w, l, steps);
    var h := Run(w, l, steps).history;
    var p := h[k].payment.value;
    if !FirstPaidOf(h, k) {
      var j :| 0 <= j < k && h[j].user == h[k].user && h[j].payment.Some?;
      assert EventCount(h, p) <= 1;
      if h[j].payment.value == p {
        CountTwice(h, j, k, p);
      }
      assert h[..k][j] == h[j];
      assert PaidBefore(h[..k], h[k].user, p);
    } else {
      assert !PaidBefore(h[..k], h[k].user, p);
    }
  }

  /** With overrides a user's only payment can be activated twice: canceled, then paid again. */
  lemma {:induction false} OverrideRepeatsActivation(w: World, l: Ledger, p: nat)
    requires Sound(l) && IsPaid(l.payments, p) && Services.FindPlan(l.payments[p].planCode).Some?
    requires !PaidBefore(l.history, l.payments[p].user, p)
    ensures var l2 := Run(w, l, [OverrideStep(p, Canceled), OverrideStep(p, Paid)]);
      && |l2.history| == |l.history| + 1
      && l2.history[|l.history|].payment == Some(p) && l2.history[|l.history|].kind == Activated
  {
    var steps := [OverrideStep(p, Canceled), OverrideStep(p, Paid)];
    var l1 := Apply(w, l, steps[0]);
    assert steps[1..] == [OverrideStep(p, Paid)];
    assert steps[1..][1..] == [];
    var l2 := Apply(w, l1, OverrideStep(p, Paid));
    MarkPaidOnce(w, l1, p);
    assert Run(w, l1, steps[1..]) == Run(w, l2, []);
  }

  // ----- The access side of a ledger run -----

  lemma {:induction false} RunOne(w: World, s: State, step: Access.Step)
    requires Services.Wired(s.catalog, s.engine)
    ensures Access.Run(w, s, [step]) == Access.Apply(w, s, step)
  {
    assert [step][1..] == [];
  }

  lemma {:induction false} OverrideIsAccess(w: World, l: Ledger, p: nat, status: PaymentStatus)
    requires Sound(l) && p < |l.payments|
    ensures Override(w, l, p, status).state == Access.Run(w, l.state, AccessSteps(w, l, OverrideStep(p, status)))
  {
    if status == Paid {
      MarkPaidStaysSound(w, l, p);
      RunOne(w, l.state, Access.ActivateStep(l.payments[p].user, l.payments[p].planCode));
    }
  }

  lemma {:induction false} ConfirmIsAccess(w: World, l: Ledger, callback: Callback)
    requires Sound(l) && Confirm(w, l, callback).Ok?
    ensures Confirm(w, l, callback).value.state == Access.Run(w, l.state, AccessSteps(w, l, CallbackStep(callback)))
  {
    var p := FindPayment(l.payments, callback.id);
    if callback.status == Confirmed {
      MarkPaidStaysSound(w, l.(payments := l.payments[p := l.payments[p].(providerStatus := callback.status)]), p);
      RunOne(w, l.state, Access.ActivateStep(l.payments[p].user, l.payments[p].planCode));
    }
  }

  lemma {:induction false} StepIsAccess(w: World, l: Ledger, step: Step)
    requires Sound(l)
    ensures Apply(w, l, step).state == Access.Run(w, l.state, AccessSteps(w, l, step))
  {
    match step {
      case ServiceStep(s) => RunOne(w, l.state, s);
      case OverrideStep(p, status) => if p < |l.payments| { OverrideIsAccess(w, l, p, status); }
      case CallbackStep(callback) => if Confirm(w, l, callback).Ok? { ConfirmIsAccess(w, l, callback); }
      case CheckoutStep(_, _, _) =>
    }
  }

  function AllAccessSteps(w: World, l: Ledger, steps: seq<Step>): seq<Access.Step>
    requires Sound(l)
    decreases |steps|
  {
    if steps == [] then []
    else AccessSteps(w, l, steps[0]) + AllAccessSteps(w, Apply(w, l, steps[0]), steps[1..])
  }

  lemma {:induction false} RunSplits(w: World, s: State, a: seq<Access.Step>, b: seq<Access.Step>)
    requires Services.Wired(s.catalog, s.engine)
    ensures Access.Run(w, s, a + b) == Access.Run(w, Access.Run(w, s, a), b)
    decreases |a|
  {
    if a == [] {
      assert a + b == b;
    } else {
      assert (a + b)[1..] == a[1..] + b;
      RunSplits(w, Access.Apply(w, s, a[0]), a[1..], b);
    }
  }

  /** Every ledger run acts on devices, bindings and subscriptions as a run of access steps: the service calls and
      the activations counted above. So everything proved of access runs holds here. */
  lemma {:induction false} LedgerRunsAreAccessRuns(w: World, l: Ledger, steps: seq<Step>)
    requires Sound(l)
    ensures Run(w, l, steps).state == Access.Run(w, l.state, AllAccessSteps(w, l, steps))
    decreases |steps|
  {
    if steps != [] {
      var l1 := Apply(w, l, steps[0]);
      StepIsAccess(w, l, steps[0]);
      LedgerRunsAreAccessRuns(w, l1, steps[1..]);
      RunSplits(w, l.state, AccessSteps(w, l, steps[0]), AllAccessSteps(w, l1, steps[1..]));
    }
  }
}
