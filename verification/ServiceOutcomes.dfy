/** What the service calls come to, read off from the tables, the arguments and the clock alone. */
module ServiceOutcomes {
  import opened Wrappers
  import opened Text
  import opened Tables
  import opened Adapters
  import opened Services
  import opened BatchOutcomes
  import opened TouchOutcomes
  import opened AccessRuns
  import Access
  import Devices
  import Routes

  // ----- Subscriptions -----

  /** The place of the user's subscription, or the next free place when there is none. */
  ghost predicate OwnedAt(subscriptions: seq<Subscription>, user: nat, k: nat) {
    if k < |subscriptions| then subscriptions[k].user == user
    else k == |subscriptions| && forall j | 0 <= j < |subscriptions| :: subscriptions[j].user != user
  }

  lemma {:induction false} OwnedOnce(c: Catalog, user: nat, k: nat)
    requires OnePerUser(c.subscriptions) && OwnedAt(c.subscriptions, user, k)
    ensures SubscriptionOf(c.subscriptions, user) == k
  {
  }

  /** The plans on offer: their code, their days and how many devices they allow. */
  ghost predicate Offered(code: string, days: nat, limit: nat) {
    || (code == "1m" && days == 30 && limit == 3)
    || (code == "3m" && days == 90 && limit == 4)
    || (code == "6m" && days == 180 && limit == 5)
    || (code == "12m" && days == 365 && limit == 10)
  }

  lemma {:induction false} PlansOnOffer(code: string)
    ensures match FindPlan(code)
      case Some(plan) => plan.code == code && Offered(code, plan.days, plan.maxDevices)
      case None => forall days: nat, limit: nat :: !Offered(code, days, limit)
  {
  }

  /** A row for a definition, at its position, with what the catalogue says about the route of that code. */
  ghost predicate ShowsRoute(catalog: seq<Route>, def: Definition, i: nat, row: SubscriptionRoute) {
    && row.code == def.code && row.position == i + 1 && row.route.Some? && row.route.value < |catalog|
    && var route := catalog[row.route.value];
      && route.code == def.code && row.url == route.endpointUrl
      && row.title == if route.locationName == "" then def.title else route.locationName
  }

  /** The rows are those of the definitions: each has one row, and there is no other. */
  ghost predicate ComesWith(catalog: seq<Route>, defs: seq<Definition>, rows: seq<SubscriptionRoute>) {
    && Routes.UniqueCodes(rows)
    && (forall row | row in rows :: exists i: nat | i < |defs| :: ShowsRoute(catalog, defs[i], i, row))
    && (forall i: nat | i < |defs| :: exists row | row in rows :: ShowsRoute(catalog, defs[i], i, row))
  }

  lemma {:induction false} RowShows(catalog: seq<Route>, def: Definition, i: nat, id: nat)
    requires Routes.FindRoute(catalog, def.code) < |catalog|
    ensures ShowsRoute(catalog, def, i, Routes.RowFor(catalog, def, i, id))
  {
  }

  lemma {:induction false} EachRowShows(catalog: seq<Route>, defs: seq<Definition>, t: Routes.RouteTable,
                                        row: SubscriptionRoute)
    requires Routes.InCatalog(catalog, defs) && Routes.DistinctDefinitions(defs)
    requires Routes.UniqueCodes(t.rows) && Routes.IdsBelow(t) && row in Routes.Reconcile(catalog, defs, t).rows
    ensures exists i: nat | i < |defs| :: ShowsRoute(catalog, defs[i], i, row)
  {
    Routes.ReconcileIsExact(catalog, defs, t);
    var i: nat :| i < |defs| && row == Routes.RowFor(catalog, defs[i], i, row.id);
    RowShows(catalog, defs[i], i, row.id);
  }

  lemma {:induction false} EachDefinitionShown(catalog: seq<Route>, defs: seq<Definition>, t: Routes.RouteTable, i: nat)
    requires Routes.InCatalog(catalog, defs) && Routes.DistinctDefinitions(defs)
    requires Routes.UniqueCodes(t.rows) && Routes.IdsBelow(t) && i < |defs|
    ensures exists row | row in Routes.Reconcile(catalog, defs, t).rows :: ShowsRoute(catalog, defs[i], i, row)
  {
    Routes.ReconcileIsExact(catalog, defs, t);
    var rows := Routes.Reconcile(catalog, defs, t).rows;
    assert Routes.Represented(catalog, defs[i], i, rows);
    var row :| row in rows && row == Routes.RowFor(catalog, defs[i], i, row.id);
    RowShows(catalog, defs[i], i, row.id);
  }

  lemma {:induction false} ReconciledComesWith(catalog: seq<Route>, defs: seq<Definition>, t: Routes.RouteTable)
    requires Routes.InCatalog(catalog, defs) && Routes.DistinctDefinitions(defs)
    requires Routes.UniqueCodes(t.rows) && Routes.IdsBelow(t)
    ensures ComesWith(catalog, defs, Routes.Reconcile(catalog, defs, t).rows)
  {
    var rows := Routes.Reconcile(catalog, defs, t).rows;
    Routes.ReconcileKeepsTable(catalog, defs, t);
    forall row | row in rows ensures exists i: nat | i < |defs| :: ShowsRoute(catalog, defs[i], i, row) {
      EachRowShows(catalog, defs, t, row);
    }
    forall i: nat | i < |defs| ensures exists row | row in rows :: ShowsRoute(catalog, defs[i], i, row) {
      EachDefinitionShown(catalog, defs, t, i);
    }
  }

  /** Subscription `k` is written or added as described; no other subscription and no other table changes. */
  ghost predicate Subscribed(c: Catalog, c': Catalog, k: nat, user: nat, plan: string, limit: nat, startsAt: int,
                             endsAt: int, defs: seq<Definition>)
  {
    && |c'.subscriptions| == (if k == |c.subscriptions| then k + 1 else |c.subscriptions|) && k < |c'.subscriptions|
    && (forall j | 0 <= j < |c.subscriptions| && j != k :: c'.subscriptions[j] == c.subscriptions[j])
    && c'.devices == c.devices && c'.routes == c.routes && c'.defaults == c.defaults
    && var x := c'.subscriptions[k];
      && x.user == user && x.plan == plan && x.maxDevices == limit && x.startsAt == startsAt && x.endsAt == endsAt
      && ComesWith(c.routes, defs, x.routes)
  }

  function Later(a: int, b: int): int { if a > b then a else b }

  /** The end date after days are granted: they count from the old end date, or from today if that is later. */
  ghost function EndDate(c: Catalog, k: nat, today: int, days: int): int {
    Later(if k < |c.subscriptions| then c.subscriptions[k].endsAt else today, today) + days
  }

  /** Writing subscription `k` with the definitions' rows. */
  lemma {:induction false} SubscribedBy(c: Catalog, k: nat, x: Subscription, n: nat, defs: seq<Definition>)
    requires k <= |c.subscriptions| && ComesWith(c.routes, defs, x.routes)
    ensures Subscribed(c, WithSubscription(c, k, x, n), k, x.user, x.plan, x.maxDevices, x.startsAt, x.endsAt, defs)
  {
  }

  lemma {:induction false} RenewedIs(c: Catalog, user: nat, plan: Plan, today: int, k: nat)
    requires SubscriptionsOk(c) && OwnedAt(c.subscriptions, user, k)
    ensures var x := Renewed(c, user, plan, today);
      && x.user == user && x.plan == plan.code && x.maxDevices == plan.maxDevices && x.startsAt == today
      && x.endsAt == EndDate(c, k, today, plan.days)
      && Routes.UniqueCodes(x.routes) && Routes.IdsBelow(Routes.RouteTable(x.routes, c.nextRouteId))
  {
    OwnedOnce(c, user, k);
    if k < |c.subscriptions| {
      assert RoutesOk(c.subscriptions[k], c.nextRouteId);
    }
  }

  lemma {:induction false} ActivatedIs(c: Catalog, user: nat, plan: Plan, today: int, k: nat)
    requires SubscriptionsOk(c) && OwnedAt(c.subscriptions, user, k)
    requires Routes.InCatalog(c.routes, c.defaults.paid) && Routes.DistinctDefinitions(c.defaults.paid)
    ensures Subscribed(c, Activated(c, user, plan, today), k, user, plan.code, plan.maxDevices, today,
                       EndDate(c, k, today, plan.days), c.defaults.paid)
  {
    OwnedOnce(c, user, k);
    RenewedIs(c, user, plan, today, k);
    var x := Renewed(c, user, plan, today);
    var t := Routes.RouteTable(x.routes, c.nextRouteId);
    ReconciledComesWith(c.routes, c.defaults.paid, t);
    var r := Routes.Reconcile(c.routes, c.defaults.paid, t);
    SubscribedBy(c, k, x.(routes := r.rows), r.nextId, c.defaults.paid);
  }

  /** The user's subscription, new or not, has the code and the limit of a plan on offer, starts today, lasts the plan's
      days longer, comes with the paid routes and counts as paid; no other subscription changed. */
  ghost predicate PlanTaken(c: Catalog, c': Catalog, k: nat, user: nat, code: string, today: int) {
    && (exists days: nat, limit: nat ::
          && Offered(code, days, limit)
          && Subscribed(c, c', k, user, code, limit, today, EndDate(c, k, today, days), c.defaults.paid))
    && forall pending :: StatusOf(Some(c'.subscriptions[k]), today, pending) == Paid
  }

  lemma {:induction false} CountsAsPaid(x: Subscription, today: int, pending: bool)
    requires x.plan != "trial" && today <= x.endsAt
    ensures StatusOf(Some(x), today, pending) == Paid
  {
  }

  lemma {:induction false} TakenBy(c: Catalog, c': Catalog, k: nat, user: nat, code: string, today: int, days: nat,
                                   limit: nat)
    requires Offered(code, days, limit)
    requires Subscribed(c, c', k, user, code, limit, today, EndDate(c, k, today, days), c.defaults.paid)
    ensures PlanTaken(c, c', k, user, code, today)
  {
    forall pending ensures StatusOf(Some(c'.subscriptions[k]), today, pending) == Paid {
      CountsAsPaid(c'.subscriptions[k], today, pending);
    }
  }

  lemma {:induction false} ActivatedTakesPlan(c: Catalog, user: nat, code: string, today: int, k: nat)
    requires SubscriptionsOk(c) && OwnedAt(c.subscriptions, user, k) && FindPlan(code).Some?
    requires Routes.InCatalog(c.routes, c.defaults.paid) && Routes.DistinctDefinitions(c.defaults.paid)
    ensures PlanTaken(c, Activated(c, user, FindPlan(code).value, today), k, user, code, today)
  {
    var plan := FindPlan(code).value;
    PlansOnOffer(code);
    ActivatedIs(c, user, plan, today, k);
    TakenBy(c, Activated(c, user, plan, today), k, user, code, today, plan.days, plan.maxDevices);
  }

  /** A plan is activated exactly if it is on offer, and the subscription is then synchronised on each of its routes. */
  lemma {:induction false} ActivationTakesPlan(w: World, s: State, user: nat, code: string, k: nat)
    requires Consistent(s) && OwnedAt(s.catalog.subscriptions, user, k)
    ensures match Activate(w, s, user, code)
      case None => forall days: nat, limit: nat :: !Offered(code, days, limit)
      case Some(s') =>
        && PlanTaken(s.catalog, s'.catalog, k, user, code, Today(s.engine.now))
        && Scheduled(w, s.(catalog := s'.catalog), s', k, None, SyncSubscription)
  {
    PlansOnOffer(code);
    if FindPlan(code).Some? {
      var plan, today := FindPlan(code).value, Today(s.engine.now);
      ActivatedTakesPlan(s.catalog, user, code, today, k);
      OwnedOnce(s.catalog, user, k);
      ActivatedWired(s.catalog, s.engine, user, plan, today);
      ScheduleAddresses(w, s.(catalog := Activated(s.catalog, user, plan, today)), k, None, SyncSubscription);
    }
  }

  /** The activation of a plan that is not on offer changes nothing. */
  ghost predicate ActivationSettled(w: World, s: State, s': State, user: nat, code: string, k: nat) {
    if exists days: nat, limit: nat :: Offered(code, days, limit) then
      && PlanTaken(s.catalog, s'.catalog, k, user, code, Today(s.engine.now))
      && Scheduled(w, s.(catalog := s'.catalog), s', k, None, SyncSubscription)
    else s' == s
  }

  lemma {:induction false} ActivationSettles(w: World, s: State, user: nat, code: string, k: nat)
    requires Consistent(s) && OwnedAt(s.catalog.subscriptions, user, k)
    ensures var r := Activate(w, s, user, code);
      ActivationSettled(w, s, if r.Some? then r.value else s, user, code, k)
  {
    PlansOnOffer(code);
    ActivationTakesPlan(w, s, user, code, k);
  }

  lemma {:induction false} ActivationStepFollows(w: World, s: State, user: nat, code: string, k: nat)
    requires Consistent(s) && OwnedAt(s.catalog.subscriptions, user, k)
    ensures ActivationSettled(w, s, Access.Apply(w, s, Access.ActivateStep(user, code)), user, code, k)
  {
    ActivationSettles(w, s, user, code, k);
    var r := Activate(w, s, user, code);
    assert Access.Apply(w, s, Access.ActivateStep(user, code)) == if r.Some? then r.value else s;
  }

  lemma {:induction false} TrialStepIsCall(w: World, s: State, user: nat)
    requires Wired(s.catalog, s.engine)
    ensures Access.Apply(w, s, Access.TrialStep(user)) == StartTrial(w, s, user)
  {
  }

  /** A trial starts exactly for a user without a subscription: three days, three devices and the trial routes. */
  lemma {:induction false} TrialStartsOnce(w: World, s: State, user: nat, k: nat, pending: bool)
    requires Consistent(s) && OwnedAt(s.catalog.subscriptions, user, k)
    ensures var s', today := Access.Apply(w, s, Access.TrialStep(user)), Today(s.engine.now);
      if k < |s.catalog.subscriptions| then s' == s
      else
        && Subscribed(s.catalog, s'.catalog, k, user, "trial", 3, today, today + 3, s.catalog.defaults.trial)
        && Scheduled(w, s.(catalog := s'.catalog), s', k, None, SyncSubscription)
        && StatusOf(Some(s'.catalog.subscriptions[k]), today, pending) == Trial
  {
    OwnedOnce(s.catalog, user, k);
    TrialStepIsCall(w, s, user);
    if k == |s.catalog.subscriptions| {
      var c, today := s.catalog, Today(s.engine.now);
      TrialWired(c, s.engine, user, today);
      var t := Routes.RouteTable([], c.nextRouteId);
      ReconciledComesWith(c.routes, c.defaults.trial, t);
      var r := Routes.Reconcile(c.routes, c.defaults.trial, t);
      SubscribedBy(c, k, TrialSubscription(user, today).(routes := r.rows), r.nextId, c.defaults.trial);
      ScheduleAddresses(w, s.(catalog := TrialCatalog(c, user, today)), k, None, SyncSubscription);
    }
  }

  /** An extension is refused unless its days are positive; otherwise it moves the end date and changes nothing else. */
  lemma {:induction false} ExtensionMovesEndDate(w: World, s: State, k: nat, days: int)
    requires Wired(s.catalog, s.engine) && k < |s.catalog.subscriptions|
    ensures var x, s' := s.catalog.subscriptions[k], Access.Apply(w, s, Access.ExtendStep(k, days));
      if days <= 0 then s' == s
      else s' == s.(catalog := s.catalog.(subscriptions := s.catalog.subscriptions[k :=
        x.(endsAt := Later(x.endsAt, Today(s.engine.now)) + days)]))
  {
  }

  /** Today begins at midnight five hours ahead of UTC. */
  lemma {:induction false} TodayIs(now: int)
    ensures Today(now) * 86_400_000_000 <= now + 18_000_000_000 < (Today(now) + 1) * 86_400_000_000
  {
    assert DAY == 86_400_000_000 && ZONE_OFFSET == 18_000_000_000;
    var x := now + ZONE_OFFSET;
    assert x == DAY * (x / DAY) + x % DAY;
  }

  /** What a subscriber is shown: past the end date only an open payment matters; a user without a subscription is
      waiting for a payment or has nothing. */
  lemma {:induction false} StatusFollows(x: Option<Subscription>, today: int, pending: bool)
    ensures var status, inForce := StatusOf(x, today, pending), x.Some? && today <= x.value.endsAt;
      && (status == Trial <==> inForce && x.value.plan == "trial")
      && (status == Paid <==> inForce && x.value.plan != "trial")
      && (status == PendingPayment <==> pending && !inForce)
      && (status == Expired <==> !pending && !inForce && x.Some?)
  {
  }

  lemma {:induction false} ManualSyncSchedules(w: World, s: State, k: nat)
    requires Wired(s.catalog, s.engine) && k < |s.catalog.subscriptions|
    ensures Access.Apply(w, s, Access.SyncStep(k)) == ScheduleFor(w, s, k, None, SyncSubscription).0
  {
  }

  /** A manual synchronisation of a subscription runs over each of its routes, for all of its devices. */
  lemma {:induction false} ManualSyncReachesEveryRoute(w: World, s: State, k: nat)
    requires Wired(s.catalog, s.engine) && k < |s.catalog.subscriptions|
    ensures Scheduled(w, s, Access.Apply(w, s, Access.SyncStep(k)), k, None, SyncSubscription)
  {
    ManualSyncSchedules(w, s, k);
    ScheduleAddresses(w, s, k, None, SyncSubscription);
  }

  // ----- Devices -----

  /** A touch is refused once the end date has passed, without an address, or for a device that is neither known by its
      key nor by its address once the user holds as many devices as the subscription allows. */
  ghost predicate TouchRefused(s: State, x: Subscription, req: Devices.TouchRequest) {
    || x.endsAt < Today(s.engine.now) || req.ip == ""
    || (&& !SomeWithKey(s.catalog.devices, x.user, Devices.NormalizeKey(req.key))
        && !SomeAtAddress(s.catalog.devices, x.user, req.ip)
        && |HeldBy(s.catalog.devices, x.user)| >= x.maxDevices)
  }

  lemma {:induction false} TouchRefusedFor(w: World, s: State, k: nat, req: Devices.TouchRequest, pending: bool)
    requires Wired(s.catalog, s.engine) && k < |s.catalog.subscriptions|
    ensures var x, reply := s.catalog.subscriptions[k], Touch(w, s, k, req, pending);
      && (reply.Err? <==> TouchRefused(s, x, req))
      && (reply.Err? ==>
            reply.error == if x.endsAt < Today(s.engine.now) then Devices.SubscriptionInactive
                           else if req.ip == "" then Devices.IpUnavailable else Devices.LimitExceeded)
  {
    var x := s.catalog.subscriptions[k];
    TouchRefusedExactly(s.catalog.devices, s.engine.now, x.user, x.maxDevices, req);
  }

  /** An accepted touch writes the device table and repairs the device on every route the subscription is linked to. */
  ghost predicate TouchTaken(w: World, s: State, s': State, k: nat, req: Devices.TouchRequest, t: Devices.Touched) {
    && k < |s.catalog.subscriptions|
    && Writes(s.catalog.devices, s.engine.now, s.catalog.subscriptions[k].user, req, t)
    && Scheduled(w, s.(catalog := s.catalog.(devices := t.devices)), s', k, Some(t.device), RepairDevice)
  }

  lemma {:induction false} TouchRepairsItsDevice(w: World, s: State, k: nat, req: Devices.TouchRequest, pending: bool)
    requires Wired(s.catalog, s.engine) && k < |s.catalog.subscriptions| && Touch(w, s, k, req, pending).Ok?
    ensures var reply := Touch(w, s, k, req, pending).value;
      && TouchTaken(w, s, reply.state, k, req,
                    Devices.Touched(reply.state.catalog.devices, reply.device, reply.created))
      && reply.state.operations == s.operations + reply.operations
  {
    var x := s.catalog.subscriptions[k];
    var t := Devices.TouchDevice(s.catalog.devices, s.engine.now, x.user, x.maxDevices, req).value;
    Devices.TouchShape(s.catalog.devices, s.engine.now, x.user, x.maxDevices, req);
    TouchWritesItsDevice(s.catalog.devices, s.engine.now, x.user, x.maxDevices, req);
    ScheduleAddresses(w, WithDevices(s, t.devices), k, Some(t.device), RepairDevice);
  }

  /** A refused touch changes nothing. */
  ghost predicate TouchSettled(w: World, s: State, s': State, k: nat, req: Devices.TouchRequest) {
    && k < |s.catalog.subscriptions|
    && if TouchRefused(s, s.catalog.subscriptions[k], req) then s' == s
       else exists t :: TouchTaken(w, s, s', k, req, t)
  }

  lemma {:induction false} TouchSettles(w: World, s: State, k: nat, req: Devices.TouchRequest, pending: bool)
    requires Wired(s.catalog, s.engine) && k < |s.catalog.subscriptions|
    ensures var reply := Touch(w, s, k, req, pending);
      TouchSettled(w, s, if reply.Ok? then reply.value.state else s, k, req)
  {
    TouchRefusedFor(w, s, k, req, pending);
    if Touch(w, s, k, req, pending).Ok? {
      TouchRepairsItsDevice(w, s, k, req, pending);
    }
  }

  lemma {:induction false} TouchStepFollows(w: World, s: State, k: nat, req: Devices.TouchRequest, pending: bool)
    requires Wired(s.catalog, s.engine) && k < |s.catalog.subscriptions|
    ensures TouchSettled(w, s, Access.Apply(w, s, Access.TouchStep(k, req, pending)), k, req)
  {
    TouchSettles(w, s, k, req, pending);
    var reply := Touch(w, s, k, req, pending);
    assert Access.Apply(w, s, Access.TouchStep(k, req, pending)) == if reply.Ok? then reply.value.state else s;
  }

  lemma {:induction false} DeviceStepsAreCalls(w: World, s: State, user: nat, d: nat, reason: string)
    requires Wired(s.catalog, s.engine)
    ensures Access.Apply(w, s, Access.RepairStep(user, d)) == Repair(w, s, user, d)
    ensures Access.Apply(w, s, Access.RevokeStep(user, d, reason)) == Revoke(w, s, user, d, reason)
  {
  }

  /** Only a device the user still holds is repaired, on every route of the user's subscription. */
  lemma {:induction false} RepairReachesEveryRoute(w: World, s: State, user: nat, d: nat, k: nat)
    requires Consistent(s) && OwnedAt(s.catalog.subscriptions, user, k)
    ensures var s' := Access.Apply(w, s, Access.RepairStep(user, d));
      if Held(s.catalog.devices, user, d) && k < |s.catalog.subscriptions| then
        Scheduled(w, s, s', k, Some(d), RepairDevice)
      else s' == s
  {
    OwnedOnce(s.catalog, user, k);
    DeviceStepsAreCalls(w, s, user, d, "");
    if Held(s.catalog.devices, user, d) && k < |s.catalog.subscriptions| {
      ScheduleAddresses(w, s, k, Some(d), RepairDevice);
    }
  }

  /** Only a device the user still holds is revoked: it is stamped with the time and the trimmed reason, and revoked on
      every route of the user's subscription. */
  lemma {:induction false} RevokeReachesEveryRoute(w: World, s: State, user: nat, d: nat, reason: string, k: nat)
    requires Consistent(s) && OwnedAt(s.catalog.subscriptions, user, k)
    ensures var s' := Access.Apply(w, s, Access.RevokeStep(user, d, reason));
      if !Held(s.catalog.devices, user, d) then s' == s
      else
        var row := s.catalog.devices[d].(revokedAt := Some(s.engine.now), revokedReason := Strip(reason));
        var s1 := s.(catalog := s.catalog.(devices := s.catalog.devices[d := row]));
        if k < |s.catalog.subscriptions| then Scheduled(w, s1, s', k, Some(d), RevokeDevice) else s' == s1
  {
    OwnedOnce(s.catalog, user, k);
    DeviceStepsAreCalls(w, s, user, d, reason);
    if Held(s.catalog.devices, user, d) && k < |s.catalog.subscriptions| {
      var row := Devices.RevokeRow(s.catalog.devices[d], s.engine.now, reason);
      ScheduleAddresses(w, WithDevices(s, s.catalog.devices[d := row]), k, Some(d), RevokeDevice);
    }
  }
}
