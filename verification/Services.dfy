/** The service calls of the backend as steps on the whole state. */
module Services {
  import opened Wrappers
  import opened Tables
  import opened Adapters
  import opened Provisioning
  import opened Schedule
  import opened Renewal
  import Devices
  import Feed
  import Query
  import Routes

  // ----- Constants -----

  /** Asia/Yekaterinburg, five hours ahead of UTC. */
  const ZONE_OFFSET: int := 5 * 3600 * SECOND

  function Today(now: int): int {
    (now + ZONE_OFFSET) / DAY
  }

  datatype Plan = Plan(code: string, days: nat, maxDevices: nat)

  function FindPlan(code: string): Option<Plan> {
    if code == "1m" then Some(Plan(code, 30, 3))
    else if code == "3m" then Some(Plan(code, 90, 4))
    else if code == "6m" then Some(Plan(code, 180, 5))
    else if code == "12m" then Some(Plan(code, 365, 10))
    else None
  }

  const TRIAL_DAYS: nat := 3
  const TRIAL_MAX_DEVICES: nat := 3

  function TrialPlan(): string { "trial" }

  /** The route lists that the backend ships with. */
  function ShippedDefaults(): Defaults {
    Defaults(
      [Definition("ru", "Россия"), Definition("de", "Германия"),
       Definition("nl", "Нидерланды"), Definition("pl", "Польша")],
      [Definition("nl", "Нидерланды"), Definition("de", "Германия"), Definition("pl", "Польша")])
  }

  // ----- References -----

  /** Every reference between rows resolves, and the default catalogue is in place. */
  predicate Wired(c: Catalog, e: Engine) {
    && (forall r | 0 <= r < |c.routes| :: c.routes[r].server < |e.servers|)
    && (forall k | 0 <= k < |c.subscriptions| :: Feed.RowsKnown(c, c.subscriptions[k].routes))
    && ServersKnown(e)
    && Routes.InCatalog(c.routes, c.defaults.paid) && Routes.InCatalog(c.routes, c.defaults.trial)
  }

  /** The routes a batch for a subscription runs over: managed ones, by position. */
  function BatchRoutes(c: Catalog, subscription: nat): seq<nat>
    requires subscription < |c.subscriptions|
  {
    Managed(InOrder(c.subscriptions[subscription].routes))
  }

  lemma {:induction false} BatchReachable(c: Catalog, e: Engine, subscription: nat)
    requires Wired(c, e) && subscription < |c.subscriptions|
    ensures AllReachable(c, e, BatchRoutes(c, subscription))
  {
    var rows := c.subscriptions[subscription].routes;
    var routes := BatchRoutes(c, subscription);
    forall k | 0 <= k < |routes| ensures Reachable(c, e, routes[k]) {
      assert routes[k] in routes;
      var row :| row in InOrder(rows) && row.route == Some(routes[k]);
      Query.OrderByMember(RouteBefore, rows, row);
      var m :| 0 <= m < |rows| && rows[m] == row;
      assert Feed.RowsKnown(c, rows);
    }
  }

  // ----- Provisioning calls -----

  /** `schedule_*`: one operation per managed route, each executed at once and logged. */
  function ScheduleFor(w: World, s: State, subscription: nat, device: Option<nat>, kind: OperationKind)
    : (x: (State, seq<Operation>))
    requires Wired(s.catalog, s.engine) && subscription < |s.catalog.subscriptions|
    requires device.Some? ==> device.value < |s.catalog.devices|
    ensures x.0.catalog == s.catalog && Wired(s.catalog, x.0.engine) && |x.0.engine.servers| == |s.engine.servers|
  {
    BatchReachable(s.catalog, s.engine, subscription);
    var (e, ops) := RunBatch(w, s.catalog, s.engine, subscription, device, kind, BatchRoutes(s.catalog, subscription));
    (s.(engine := e, operations := s.operations + ops), ops)
  }

  /** The subscription of a user: each user has at most one. */
  function SubscriptionOf(subscriptions: seq<Subscription>, user: nat): (i: nat)
    ensures i <= |subscriptions|
    ensures i < |subscriptions| ==> subscriptions[i].user == user
    ensures forall k | 0 <= k < i :: subscriptions[k].user != user
  {
    Query.First(subscriptions, (x: Subscription) => x.user == user)
  }

  /** A batch for the user's subscription, or nothing when the user has none. */
  function ScheduleForUser(w: World, s: State, user: nat, device: Option<nat>, kind: OperationKind): State
    requires Wired(s.catalog, s.engine)
    requires device.Some? ==> device.value < |s.catalog.devices|
  {
    var k := SubscriptionOf(s.catalog.subscriptions, user);
    if k < |s.catalog.subscriptions| then ScheduleFor(w, s, k, device, kind).0 else s
  }

  // ----- Devices -----

  datatype SubscriptionStatus = NoSubscription | Trial | Paid | Expired | PendingPayment

  /** `get_subscription_status`. */
  function StatusOf(subscription: Option<Subscription>, today: int, pending: bool): SubscriptionStatus {
    match subscription
    case None => if pending then PendingPayment else NoSubscription
    case Some(x) =>
      if pending && x.endsAt < today then PendingPayment
      else if x.endsAt < today then Expired
      else if x.plan == TrialPlan() then Trial
      else Paid
  }

  datatype TouchReply = TouchReply(state: State, device: nat, created: bool, operations: seq<Operation>)

  function WithDevices(s: State, devices: seq<Device>): State {
    s.(catalog := s.catalog.(devices := devices))
  }

  /** `touch_public_subscription`: bind the device, then repair it on every managed route. */
  function Touch(w: World, s: State, subscription: nat, req: Devices.TouchRequest, pending: bool)
    : Result<TouchReply, Devices.TouchError>
    requires Wired(s.catalog, s.engine) && subscription < |s.catalog.subscriptions|
  {
    var x := s.catalog.subscriptions[subscription];
    var status := StatusOf(Some(x), Today(s.engine.now), pending);
    if !status.Trial? && !status.Paid? then Err(Devices.SubscriptionInactive)
    else
      match Devices.TouchDevice(s.catalog.devices, s.engine.now, x.user, x.maxDevices, req)
      case Err(error) => Err(error)
      case Ok(t) =>
        Devices.TouchShape(s.catalog.devices, s.engine.now, x.user, x.maxDevices, req);
        var (s', ops) := ScheduleFor(w, WithDevices(s, t.devices), subscription, Some(t.device), RepairDevice);
        Ok(TouchReply(s', t.device, t.created, ops))
  }

  /** The repair endpoint: refused for a device that is not the user's or is revoked. */
  function Repair(w: World, s: State, user: nat, d: nat): State
    requires Wired(s.catalog, s.engine)
  {
    if Devices.Live(s.catalog.devices, user, d) then ScheduleForUser(w, s, user, Some(d), RepairDevice) else s
  }

  /** The revoke endpoint: mark the device, then revoke its binding on every managed route. */
  function Revoke(w: World, s: State, user: nat, d: nat, reason: string): State
    requires Wired(s.catalog, s.engine)
  {
    if Devices.Live(s.catalog.devices, user, d) then
      var row := Devices.RevokeRow(s.catalog.devices[d], s.engine.now, reason);
      ScheduleForUser(w, WithDevices(s, s.catalog.devices[d := row]), user, Some(d), RevokeDevice)
    else s
  }

  // ----- Subscriptions -----

  function WithSubscription(c: Catalog, k: nat, x: Subscription, nextRouteId: nat): Catalog
    requires k <= |c.subscriptions|
  {
    c.(subscriptions := if k == |c.subscriptions| then c.subscriptions + [x] else c.subscriptions[k := x],
       nextRouteId := nextRouteId)
  }

  /** Writing a subscription twice is writing it once. */
  lemma {:induction false} Overwritten(c: Catalog, k: nat, x: Subscription, n: nat, y: Subscription, m: nat)
    requires k <= |c.subscriptions|
    ensures WithSubscription(c, k, x, n).subscriptions[k := y] == WithSubscription(c, k, y, m).subscriptions
  {
  }

  /** The subscription after an activation, before its routes are reconciled. */
  function Renewed(c: Catalog, user: nat, plan: Plan, today: int): Subscription {
    var k := SubscriptionOf(c.subscriptions, user);
    if k == |c.subscriptions| then Subscription(user, plan.code, today, today + plan.days, plan.maxDevices, [])
    else
      var x := c.subscriptions[k];
      x.(plan := plan.code, startsAt := today, endsAt := Renew(x.endsAt, Grant(today, plan.days)),
         maxDevices := plan.maxDevices)
  }

  function Activated(c: Catalog, user: nat, plan: Plan, today: int): Catalog
    requires Routes.InCatalog(c.routes, c.defaults.paid)
  {
    var x := Renewed(c, user, plan, today);
    var t := Routes.Reconcile(c.routes, c.defaults.paid, Routes.RouteTable(x.routes, c.nextRouteId));
    WithSubscription(c, SubscriptionOf(c.subscriptions, user), x.(routes := t.rows), t.nextId)
  }

  lemma {:induction false} SubscriptionStaysWired(c: Catalog, e: Engine, k: nat, x: Subscription, nextRouteId: nat)
    requires Wired(c, e) && k <= |c.subscriptions| && Routes.LinksKnown(c.routes, x.routes)
    ensures Wired(WithSubscription(c, k, x, nextRouteId), e)
  {
    var c' := WithSubscription(c, k, x, nextRouteId);
    forall j | 0 <= j < |c'.subscriptions| ensures Feed.RowsKnown(c', c'.subscriptions[j].routes) {
      if j != k {
        assert Feed.RowsKnown(c, c.subscriptions[j].routes);
      }
    }
  }

  lemma {:induction false} ActivatedWired(c: Catalog, e: Engine, user: nat, plan: Plan, today: int)
    requires Wired(c, e)
    ensures Wired(Activated(c, user, plan, today), e)
  {
    var x := Renewed(c, user, plan, today);
    var k := SubscriptionOf(c.subscriptions, user);
    var t := Routes.RouteTable(x.routes, c.nextRouteId);
    assert Routes.LinksKnown(c.routes, x.routes) by {
      if k < |c.subscriptions| {
        assert Feed.RowsKnown(c, c.subscriptions[k].routes);
      }
    }
    Routes.ReconcileLinks(c.routes, c.defaults.paid, t);
    var r := Routes.Reconcile(c.routes, c.defaults.paid, t);
    SubscriptionStaysWired(c, e, k, x.(routes := r.rows), r.nextId);
  }

  /** `activate_subscription_plan`; an unknown plan code is a validation error. */
  function Activate(w: World, s: State, user: nat, code: string): Option<State>
    requires Wired(s.catalog, s.engine)
  {
    match FindPlan(code)
    case None => None
    case Some(plan) =>
      var c := Activated(s.catalog, user, plan, Today(s.engine.now));
      ActivatedWired(s.catalog, s.engine, user, plan, Today(s.engine.now));
      Some(ScheduleFor(w, s.(catalog := c), SubscriptionOf(s.catalog.subscriptions, user), None, SyncSubscription).0)
  }

  /** `extend_subscription_by_days`; refused unless the number of days is positive. */
  function Extend(s: State, subscription: nat, days: int): Option<State>
    requires subscription < |s.catalog.subscriptions|
  {
    if days <= 0 then None
    else
      var x := s.catalog.subscriptions[subscription];
      var x' := x.(endsAt := Renew(x.endsAt, Grant(Today(s.engine.now), days)));
      Some(s.(catalog := WithSubscription(s.catalog, subscription, x', s.catalog.nextRouteId)))
  }

  /** A trial subscription before it gets its routes. */
  function TrialSubscription(user: nat, today: int): Subscription {
    Subscription(user, TrialPlan(), today, today + TRIAL_DAYS, TRIAL_MAX_DEVICES, [])
  }

  function TrialCatalog(c: Catalog, user: nat, today: int): Catalog
    requires Routes.InCatalog(c.routes, c.defaults.trial)
  {
    var x := TrialSubscription(user, today);
    var t := Routes.Reconcile(c.routes, c.defaults.trial, Routes.RouteTable(x.routes, c.nextRouteId));
    WithSubscription(c, |c.subscriptions|, x.(routes := t.rows), t.nextId)
  }

  lemma {:induction false} TrialWired(c: Catalog, e: Engine, user: nat, today: int)
    requires Wired(c, e)
    ensures Wired(TrialCatalog(c, user, today), e)
  {
    var x := TrialSubscription(user, today);
    var t := Routes.RouteTable(x.routes, c.nextRouteId);
    Routes.ReconcileLinks(c.routes, c.defaults.trial, t);
    var r := Routes.Reconcile(c.routes, c.defaults.trial, t);
    SubscriptionStaysWired(c, e, |c.subscriptions|, x.(routes := r.rows), r.nextId);
  }

  /** `create_trial_subscription`: a new subscription for a user who has none. */
  function StartTrial(w: World, s: State, user: nat): State
    requires Wired(s.catalog, s.engine)
  {
    if SubscriptionOf(s.catalog.subscriptions, user) < |s.catalog.subscriptions| then s
    else
      var c := TrialCatalog(s.catalog, user, Today(s.engine.now));
      TrialWired(s.catalog, s.engine, user, Today(s.engine.now));
      ScheduleFor(w, s.(catalog := c), |s.catalog.subscriptions|, None, SyncSubscription).0
  }
}
