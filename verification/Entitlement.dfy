/** From payments to access: every paid event's days end up in the subscription's end date. */
module Entitlement {
  import opened Wrappers
  import opened Tables
  import opened Adapters
  import opened Billing
  import opened BillingTheorems
  import Access
  import AccessRuns
  import AccessTheorems
  import Renewal
  import Routes
  import Services

  /** The days of the plan behind a paid event of the user. */
  function DaysOfEvent(x: Event, user: nat): nat {
    var plan := Services.FindPlan(x.planCode);
    if x.user == user && x.payment.Some? && plan.Some? then plan.value.days else 0
  }

  function PaidDays(history: seq<Event>, user: nat): nat {
    if history == [] then 0
    else
      var n := |history| - 1;
      PaidDays(history[..n], user) + DaysOfEvent(history[n], user)
  }

  lemma {:induction false} PaidDaysAppend(history: seq<Event>, x: Event, user: nat)
    ensures PaidDays(history + [x], user) == PaidDays(history, user) + DaysOfEvent(x, user)
  {
    assert (history + [x])[..|history|] == history;
  }

  /** The subscription's end date moved by at least the days of the paid events logged meanwhile. */
  ghost predicate Granted(l: Ledger, l': Ledger, k: nat)
    requires k < |l.state.catalog.subscriptions|
  {
    var x := l.state.catalog.subscriptions[k];
    && AccessRuns.Consistent(l'.state) && k < |l'.state.catalog.subscriptions|
    && l'.state.catalog.subscriptions[k].user == x.user
    && l'.state.catalog.subscriptions[k].endsAt - x.endsAt >= PaidDays(l'.history, x.user) - PaidDays(l.history, x.user)
  }

  lemma {:induction false} OneGrant(endsAt: int, grants: seq<Renewal.Grant>)
    ensures Renewal.RenewAll(endsAt, grants) >= endsAt
    ensures grants != [] ==> Renewal.RenewAll(endsAt, grants) >= endsAt + grants[0].days
  {
    Renewal.NoDayIsLost(endsAt, grants);
  }

  /** Paying one payment moves its user's end date by the days it logs. */
  lemma {:induction false} PayingGrants(w: World, l: Ledger, p: nat, k: nat)
    requires Sound(l) && AccessRuns.Consistent(l.state) && p < |l.payments| && MarkPaid(w, l, p).Some?
    requires k < |l.state.catalog.subscriptions|
    ensures Granted(l, MarkPaid(w, l, p).value, k)
  {
    var x := l.payments[p];
    if x.status != Paid {
      var step := Access.ActivateStep(x.user, x.planCode);
      var l' := MarkPaid(w, l, p).value;
      MarkPaidStaysSound(w, l, p);
      AccessRuns.StepAdvances(w, l.state, step);
      AccessTheorems.StepRenews(w, l.state, step, k);
      PaidDaysAppend(l.history, PaidEvent(l, p, l'.state.catalog), l.state.catalog.subscriptions[k].user);
      assert l'.history == l.history + [PaidEvent(l, p, l'.state.catalog)];
      OneGrant(l.state.catalog.subscriptions[k].endsAt, AccessTheorems.GrantOf(l.state, step, k));
    }
  }

  /** A started trial is no paid event. */
  lemma {:induction false} TrialEventsAreFree(s: State, step: Access.Step, s': State, history: seq<Event>, user: nat)
    ensures PaidDays(history + TrialEvents(s, step, s'), user) == PaidDays(history, user)
  {
    var events := TrialEvents(s, step, s');
    if events != [] {
      PaidDaysAppend(history, events[0], user);
      assert events == [events[0]];
    } else {
      assert history + events == history;
    }
  }

  lemma {:induction false} ServiceGrants(w: World, l: Ledger, step: Access.Step, k: nat)
    requires Sound(l) && AccessRuns.Consistent(l.state) && k < |l.state.catalog.subscriptions|
    ensures Granted(l, Apply(w, l, ServiceStep(step)), k)
  {
    AccessRuns.StepAdvances(w, l.state, step);
    AccessTheorems.StepRenews(w, l.state, step, k);
    OneGrant(l.state.catalog.subscriptions[k].endsAt, AccessTheorems.GrantOf(l.state, step, k));
    TrialEventsAreFree(l.state, step, Access.Apply(w, l.state, step), l.history, l.state.catalog.subscriptions[k].user);
  }

  lemma {:induction false} ConfirmGrants(w: World, l: Ledger, callback: Callback, k: nat)
    requires Sound(l) && AccessRuns.Consistent(l.state) && k < |l.state.catalog.subscriptions|
    requires Confirm(w, l, callback).Ok?
    ensures Granted(l, Confirm(w, l, callback).value, k)
  {
    if callback.status == Confirmed {
      var p := FindPayment(l.payments, callback.id);
      PayingGrants(w, l.(payments := l.payments[p := l.payments[p].(providerStatus := callback.status)]), p, k);
    }
  }

  lemma {:induction false} OverrideGrants(w: World, l: Ledger, p: nat, status: PaymentStatus, k: nat)
    requires Sound(l) && AccessRuns.Consistent(l.state) && k < |l.state.catalog.subscriptions| && p < |l.payments|
    ensures Granted(l, Override(w, l, p, status), k)
  {
    if status == Paid && MarkPaid(w, l, p).Some? {
      PayingGrants(w, l, p, k);
    }
  }

  lemma {:induction false} StepGrants(w: World, l: Ledger, step: Step, k: nat)
    requires Sound(l) && AccessRuns.Consistent(l.state) && k < |l.state.catalog.subscriptions|
    ensures Granted(l, Apply(w, l, step), k)
  {
    match step {
      case ServiceStep(s) => ServiceGrants(w, l, s, k);
      case OverrideStep(p, status) => if p < |l.payments| { OverrideGrants(w, l, p, status, k); }
      case CallbackStep(callback) => if Confirm(w, l, callback).Ok? { ConfirmGrants(w, l, callback, k); }
      case CheckoutStep(_, _, _) =>
    }
  }

  /** No paid day is lost: over every run of callbacks, overrides, checkouts and services, the end date
      grows by at least the days of all paid events logged for the subscriber meanwhile. */
  lemma {:induction false} PaidDaysAreGranted(w: World, l: Ledger, steps: seq<Step>, k: nat)
    requires Sound(l) && AccessRuns.Consistent(l.state) && k < |l.state.catalog.subscriptions|
    ensures Granted(l, Run(w, l, steps), k)
    decreases |steps|
  {
    if steps != [] {
      StepGrants(w, l, steps[0], k);
      PaidDaysAreGranted(w, Apply(w, l, steps[0]), steps[1..], k);
    }
  }

  // ----- Subscriptions created in the run -----

  /** A step adds at most one subscription, which lasts at least the days of its owner's paid events from today on;
      and paid events are logged for subscribers only. */
  ghost predicate Opens(l: Ledger, l': Ledger) {
    var subscriptions, subscriptions' := l.state.catalog.subscriptions, l'.state.catalog.subscriptions;
    && |subscriptions| <= |subscriptions'| <= |subscriptions| + 1
    && (|subscriptions'| == |subscriptions| + 1 ==>
          var x := subscriptions'[|subscriptions|];
          x.endsAt >= Services.Today(l.state.engine.now) + PaidDays(l'.history, x.user) - PaidDays(l.history, x.user))
    && forall user: nat | PaidDays(l'.history, user) != PaidDays(l.history, user) ::
         exists j | 0 <= j < |subscriptions'| :: subscriptions'[j].user == user
  }

  lemma {:induction false} ActivatedOpens(c: Catalog, user: nat, plan: Services.Plan, today: int)
    requires Routes.InCatalog(c.routes, c.defaults.paid)
    ensures var c', k := Services.Activated(c, user, plan, today), Services.SubscriptionOf(c.subscriptions, user);
      && k < |c'.subscriptions| && c'.subscriptions[k].user == user
      && |c'.subscriptions| == (if k == |c.subscriptions| then |c.subscriptions| + 1 else |c.subscriptions|)
      && (k == |c.subscriptions| ==> c'.subscriptions[k].endsAt == today + plan.days)
  {
  }

  lemma {:induction false} PayingOpens(w: World, l: Ledger, p: nat)
    requires Sound(l) && p < |l.payments| && MarkPaid(w, l, p).Some?
    ensures Opens(l, MarkPaid(w, l, p).value)
  {
    var x, l', c := l.payments[p], MarkPaid(w, l, p).value, l.state.catalog;
    if x.status != Paid {
      var plan := Services.FindPlan(x.planCode).value;
      var event := PaidEvent(l, p, l'.state.catalog);
      assert l'.history == l.history + [event];
      assert l'.state.catalog == Services.Activated(c, x.user, plan, Services.Today(l.state.engine.now));
      ActivatedOpens(c, x.user, plan, Services.Today(l.state.engine.now));
      forall user: nat ensures PaidDays(l'.history, user) == PaidDays(l.history, user) + DaysOfEvent(event, user) {
        PaidDaysAppend(l.history, event, user);
      }
    }
  }

  lemma {:induction false} ActivateStepOpens(w: World, s: State, user: nat, code: string)
    requires Services.Wired(s.catalog, s.engine)
    ensures var subscriptions, subscriptions' :=
      s.catalog.subscriptions, Access.Apply(w, s, Access.ActivateStep(user, code)).catalog.subscriptions;
      && |subscriptions| <= |subscriptions'| <= |subscriptions| + 1
      && (|subscriptions'| == |subscriptions| + 1
        ==> subscriptions'[|subscriptions|].endsAt >= Services.Today(s.engine.now))
  {
    if Services.FindPlan(code).Some? {
      ActivatedOpens(s.catalog, user, Services.FindPlan(code).value, Services.Today(s.engine.now));
    }
  }

  lemma {:induction false} OtherStepOpens(w: World, s: State, step: Access.Step)
    requires Services.Wired(s.catalog, s.engine) && !step.ActivateStep?
    ensures var subscriptions, subscriptions' :=
      s.catalog.subscriptions, Access.Apply(w, s, step).catalog.subscriptions;
      && |subscriptions| <= |subscriptions'| <= |subscriptions| + 1
      && (|subscriptions'| == |subscriptions| + 1
        ==> subscriptions'[|subscriptions|].endsAt >= Services.Today(s.engine.now))
  {
  }

  lemma {:induction false} ServiceOpens(w: World, l: Ledger, step: Access.Step)
    requires Sound(l)
    ensures Opens(l, Apply(w, l, ServiceStep(step)))
  {
    if step.ActivateStep? {
      ActivateStepOpens(w, l.state, step.user, step.code);
    } else {
      OtherStepOpens(w, l.state, step);
    }
    forall user: nat ensures PaidDays(Apply(w, l, ServiceStep(step)).history, user) == PaidDays(l.history, user) {
      TrialEventsAreFree(l.state, step, Access.Apply(w, l.state, step), l.history, user);
    }
  }

  lemma {:induction false} StepOpens(w: World, l: Ledger, step: Step)
    requires Sound(l)
    ensures Opens(l, Apply(w, l, step))
  {
    match step {
      case ServiceStep(s) => ServiceOpens(w, l, s);
      case OverrideStep(p, status) =>
        if p < |l.payments| && status == Paid && MarkPaid(w, l, p).Some? {
          PayingOpens(w, l, p);
        }
      case CallbackStep(callback) =>
        if Confirm(w, l, callback).Ok? && callback.status == Confirmed {
          var p := FindPayment(l.payments, callback.id);
          PayingOpens(w, l.(payments := l.payments[p := l.payments[p].(providerStatus := callback.status)]), p);
        }
      case CheckoutStep(_, _, _) =>
    }
  }

  /** The day on which the run creates subscription `k`. */
  function CreationDay(w: World, l: Ledger, steps: seq<Step>, k: nat): int
    requires Sound(l)
    decreases |steps|
  {
    if steps == [] then 0
    else
      var l1 := Apply(w, l, steps[0]);
      if k < |l1.state.catalog.subscriptions| then Services.Today(l.state.engine.now)
        else CreationDay(w, l1, steps[1..], k)
  }

  /** A subscription created in the run lasts at least from its creation day for the days of all paid events that the
      run logs for its owner. */
  lemma {:induction false} PaidDaysFromCreation(w: World, l: Ledger, steps: seq<Step>, k: nat)
    requires Sound(l) && AccessRuns.Consistent(l.state)
    requires |l.state.catalog.subscriptions| <= k < |Run(w, l, steps).state.catalog.subscriptions|
    ensures var l' := Run(w, l, steps); var x := l'.state.catalog.subscriptions[k];
      x.endsAt >= CreationDay(w, l, steps, k) + PaidDays(l'.history, x.user) - PaidDays(l.history, x.user)
    decreases |steps|
  {
    var l1 := Apply(w, l, steps[0]);
    var l' := Run(w, l1, steps[1..]);
    var x := l'.state.catalog.subscriptions[k];
    StepOpens(w, l, steps[0]);
    StaysConsistent(w, l, steps[0]);
    if k < |l1.state.catalog.subscriptions| {
      PaidDaysAreGranted(w, l1, steps[1..], k);
    } else {
      PaidDaysFromCreation(w, l1, steps[1..], k);
      NotYetSubscribed(w, l1, steps[1..], k);
    }
  }

  lemma {:induction false} StaysConsistent(w: World, l: Ledger, step: Step)
    requires Sound(l) && AccessRuns.Consistent(l.state)
    ensures AccessRuns.Consistent(Apply(w, l, step).state)
  {
    StepIsAccess(w, l, step);
    AccessRuns.RunAdvances(w, l.state, AccessSteps(w, l, step));
  }

  /** The owner of a subscription that the run has yet to create has none before. */
  lemma {:induction false} NotYetSubscribed(w: World, l: Ledger, steps: seq<Step>, k: nat)
    requires Sound(l) && AccessRuns.Consistent(l.state)
    requires |l.state.catalog.subscriptions| <= k < |Run(w, l, steps).state.catalog.subscriptions|
    ensures forall j | 0 <= j < |l.state.catalog.subscriptions| ::
      l.state.catalog.subscriptions[j].user != Run(w, l, steps).state.catalog.subscriptions[k].user
  {
    LedgerRunsAreAccessRuns(w, l, steps);
    AccessRuns.RunAdvances(w, l.state, AllAccessSteps(w, l, steps));
  }
}
