/** Every step of the transition systems is one call on the mutable tables, so what is proved of
    all runs of steps holds of all runs of calls. */
module Dispatch {
  import opened Wrappers
  import opened Tables
  import opened Access
  import opened Backend
  import opened Services
  import Billing
  import PaymentDesk
  import Support
  import SupportDesk

  /** A call about devices. */
  method PerformOnDevices(db: Database, step: Step)
    requires Wired(db.CatalogView(), db.EngineView()) && DeviceStep(step)
    modifies db
    ensures db.View() == Apply(db.world, old(db.View()), step)
  {
    match step {
      case TouchStep(k, req, pending) =>
        if k < |db.subscriptions| {
          var touched := db.TouchSubscription(k, req, pending);
        }
      case RepairStep(user, d) =>
        var repaired := db.RepairUserDevice(user, d);
      case RevokeStep(user, d, reason) =>
        var revoked := db.RevokeUserDevice(user, d, reason);
      case SyncStep(k) =>
        if k < |db.subscriptions| {
          var ops := db.ScheduleBatch(k, None, SyncSubscription);
        }
    }
  }

  /** A call about subscriptions. */
  method PerformOnSubscriptions(db: Database, step: Step)
    requires Wired(db.CatalogView(), db.EngineView()) && SubscriptionStep(step)
    modifies db
    ensures db.View() == Apply(db.world, old(db.View()), step)
  {
    match step {
      case ActivateStep(user, code) =>
        var activated := db.ActivatePlan(user, code);
      case ExtendStep(k, days) =>
        if k < |db.subscriptions| {
          var extended := db.ExtendByDays(k, days);
        }
      case TrialStep(user) =>
        db.CreateTrial(user);
    }
  }

  /** A service call, operator edit or pause on the access tables. */
  method Perform(db: Database, step: Step)
    requires Wired(db.CatalogView(), db.EngineView())
    modifies db
    ensures db.View() == Apply(db.world, old(db.View()), step)
  {
    if DeviceStep(step) {
      PerformOnDevices(db, step);
    } else if SubscriptionStep(step) {
      PerformOnSubscriptions(db, step);
    } else {
      match step {
        case HealthStep(server) =>
          if server < |db.servers| {
            var code := db.CheckServerHealth(server);
          }
        case MoveRouteStep(r, server) =>
          if r < |db.routes| && server < |db.servers| {
            db.routes := db.routes[r := db.routes[r].(server := server)];
          }
        case ConfigureStep(server, profile) =>
          db.profiles := db.profiles[server := profile];
        case WaitStep(elapsed) =>
          db.now := db.now + elapsed;
      }
    }
  }

  /** Any sequence of such calls is a run of the transition system. */
  method PerformAll(db: Database, steps: seq<Step>)
    requires Wired(db.CatalogView(), db.EngineView())
    modifies db
    ensures db.View() == Run(db.world, old(db.View()), steps)
  {
    ghost var start := db.View();
    for k := 0 to |steps|
      invariant Wired(db.CatalogView(), db.EngineView())
      invariant Run(db.world, db.View(), steps[k..]) == Run(db.world, start, steps)
    {
      assert steps[k..][0] == steps[k] && steps[k..][1..] == steps[k + 1..];
      Perform(db, steps[k]);
    }
    assert steps[|steps|..] == [];
  }

  /** A payment call, or a service call beside the payments. */
  method PerformOnDesk(desk: PaymentDesk.Desk, step: Billing.Step)
    requires Billing.Sound(desk.View())
    modifies desk, desk.db
    ensures desk.View() == Billing.Apply(desk.db.world, old(desk.View()), step)
  {
    match step {
      case CallbackStep(callback) =>
        var reply := desk.ConfirmPayment(callback);
      case OverrideStep(p, status) =>
        if p < |desk.payments| {
          desk.OverrideStatus(p, status);
        }
      case CheckoutStep(user, code, reply) =>
        desk.CreateCheckout(user, code, reply);
      case ServiceStep(s) =>
        PerformAndLog(desk, s);
    }
  }

  /** A service call; a trial that it started is logged in the history. */
  method PerformAndLog(desk: PaymentDesk.Desk, step: Step)
    requires Billing.Sound(desk.View())
    modifies desk, desk.db
    ensures desk.View() == Billing.Apply(desk.db.world, old(desk.View()), Billing.ServiceStep(step))
  {
    ghost var before := desk.db.View();
    var count := |desk.db.subscriptions|;
    Perform(desk.db, step);
    LogTrial(desk, before, step, count);
  }

  /** Logs the start of a trial that a step has just created. */
  method LogTrial(desk: PaymentDesk.Desk, ghost before: State, step: Step, count: nat)
    requires count == |before.catalog.subscriptions|
    modifies desk`history
    ensures desk.history == old(desk.history) + Billing.TrialEvents(before, step, desk.db.View())
  {
    if step.TrialStep? && |desk.db.subscriptions| == count + 1 {
      var x := desk.db.subscriptions[count];
      desk.history := desk.history + [Billing.Event(step.user, None, Billing.TrialStarted, x.plan, x.startsAt,
        x.endsAt)];
    }
  }

  /** A call on a support conversation. */
  method PerformOnConversation(talk: SupportDesk.Conversation, step: Support.Step)
    requires Support.TalkOk(talk.View())
    modifies talk
    ensures talk.View() == Support.Apply(old(talk.View()), step) && Support.TalkOk(talk.View())
  {
    Support.StepKeeps(talk.View(), step);
    match step {
      case UserStep(source, user, text, n, notified) =>
        var refusal := talk.PostUserMessage(source, user, text, n, notified);
      case AdminStep(admin, text, n, d) =>
        var refusal := talk.PostAdminMessage(admin, text, n, d);
      case AssignStep(admin) =>
        talk.AssignTo(admin);
      case CloseStep(closer, d) =>
        var refusal := talk.CloseBy(closer, d);
      case ReplyStep(admin, text, n, assign, close, d, closing) =>
        var refusal := talk.ReplyBy(admin, text, n, assign, close, d, closing);
      case WaitStep(elapsed) =>
        talk.now := talk.now + elapsed;
    }
  }

  /** Any sequence of calls on the payment tables is a run of the ledger. */
  method PerformAllOnDesk(desk: PaymentDesk.Desk, steps: seq<Billing.Step>)
    requires Billing.Sound(desk.View())
    modifies desk, desk.db
    ensures desk.View() == Billing.Run(desk.db.world, old(desk.View()), steps)
  {
    ghost var start := desk.View();
    for k := 0 to |steps|
      invariant Billing.Sound(desk.View())
      invariant Billing.Run(desk.db.world, desk.View(), steps[k..]) == Billing.Run(desk.db.world, start, steps)
    {
      assert steps[k..][0] == steps[k] && steps[k..][1..] == steps[k + 1..];
      PerformOnDesk(desk, steps[k]);
    }
    assert steps[|steps|..] == [];
  }

  /** Any sequence of calls on a conversation is a run of it. */
  method PerformAllOnConversation(talk: SupportDesk.Conversation, steps: seq<Support.Step>)
    requires Support.TalkOk(talk.View())
    modifies talk
    ensures talk.View() == Support.After(old(talk.View()), steps, |steps|) && Support.TalkOk(talk.View())
  {
    ghost var start := talk.View();
    for k := 0 to |steps|
      invariant talk.View() == Support.After(start, steps, k) && Support.TalkOk(talk.View())
    {
      PerformOnConversation(talk, steps[k]);
    }
  }
}
