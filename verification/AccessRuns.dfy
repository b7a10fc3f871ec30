/** The invariant of the whole database, and that every step and every run keeps it. */
module AccessRuns {
  import opened Wrappers
  import opened Tables
  import opened Adapters
  import opened Provisioning
  import opened Lifecycle
  import opened ServerCache
  import opened Operations
  import opened Schedule
  import opened Services
  import opened Access
  import Devices
  import Feed
  import Reconciled
  import Routes

  // ----- The invariant -----

  ghost predicate OnePerUser(subscriptions: seq<Subscription>) {
    forall i, j | 0 <= i < j < |subscriptions| :: subscriptions[i].user != subscriptions[j].user
  }

  ghost predicate UniqueRouteCodes(routes: seq<Route>) {
    forall i, j | 0 <= i < j < |routes| :: routes[i].code != routes[j].code
  }

  ghost predicate RoutesOk(x: Subscription, nextRouteId: nat) {
    && Routes.UniqueCodes(x.routes) && Routes.IdsBelow(Routes.RouteTable(x.routes, nextRouteId))
    && Reconciled.Apart(x.routes)
  }

  ghost predicate DevicesOk(devices: seq<Device>, now: int) {
    Devices.KeysDistinct(devices) && forall i | 0 <= i < |devices| :: devices[i].lastSeen <= now
  }

  ghost predicate SubscriptionsOk(c: Catalog) {
    OnePerUser(c.subscriptions) && forall k | 0 <= k < |c.subscriptions| :: RoutesOk(c.subscriptions[k], c.nextRouteId)
  }

  ghost predicate AllFinished(ops: seq<Operation>) {
    forall k | 0 <= k < |ops| ::
      (ops[k].status.Succeeded? || ops[k].status.Failed? || ops[k].status.Skipped?) && ops[k].finishedAt.Some?
  }

  /** What every service call keeps. */
  ghost predicate Consistent(s: State) {
    && Wired(s.catalog, s.engine)
    && DevicesOk(s.catalog.devices, s.engine.now) && SubscriptionsOk(s.catalog) && UniqueRouteCodes(s.catalog.routes)
    && Routes.DistinctDefinitions(s.catalog.defaults.paid) && Routes.DistinctDefinitions(s.catalog.defaults.trial)
    && BindingsOk(s.catalog, s.engine) && CacheOk(s.engine)
    && AllFinished(s.operations)
  }

  // ----- How a state may change -----

  /** A device keeps its owner; once revoked, its row is frozen. */
  ghost predicate DeviceKept(x: Device, x': Device) {
    x'.user == x.user && x'.createdAt == x.createdAt && (x.revokedAt.Some? ==> x' == x)
  }

  ghost predicate DevicesKept(devices: seq<Device>, devices': seq<Device>) {
    |devices| <= |devices'| && forall i | 0 <= i < |devices| :: DeviceKept(devices[i], devices'[i])
  }

  ghost predicate CodesKept(routes: seq<Route>, routes': seq<Route>) {
    |routes'| == |routes| && forall i | 0 <= i < |routes| :: routes'[i].code == routes[i].code
  }

  /** A subscription keeps its owner, and its end date never moves back. */
  ghost predicate SubscriptionsKept(subscriptions: seq<Subscription>, subscriptions': seq<Subscription>) {
    && |subscriptions| <= |subscriptions'|
    && forall k | 0 <= k < |subscriptions| ::
         subscriptions'[k].user == subscriptions[k].user && subscriptions[k].endsAt <= subscriptions'[k].endsAt
  }

  ghost predicate RevokedStayDead(devices: seq<Device>, bs: seq<Binding>, bs': seq<Binding>) {
    forall d: nat | d < |devices| && devices[d].revokedAt.Some? :: NoRevival(bs, bs', d)
  }

  ghost predicate Advance(s: State, s': State) {
    && s.engine.now <= s'.engine.now && s.operations <= s'.operations
    && DevicesKept(s.catalog.devices, s'.catalog.devices) && CodesKept(s.catalog.routes, s'.catalog.routes)
    && SubscriptionsKept(s.catalog.subscriptions, s'.catalog.subscriptions)
    && Evolves(s.engine.bindings, s'.engine.bindings)
    && RevokedStayDead(s.catalog.devices, s.engine.bindings, s'.engine.bindings)
  }

  /** One step: the invariant is kept, the state advances, and panels hear nothing but present end dates. */
  ghost predicate Stepped(s: State, s': State) {
    && Consistent(s') && Advance(s, s')
    && TellsTruly(s'.catalog, s.engine.bindings, s'.engine.bindings)
  }

  lemma {:induction false} AdvanceReflexive(s: State)
    ensures Advance(s, s)
  {
    EvolvesReflexive(s.engine.bindings);
  }

  lemma {:induction false} DevicesKeptTransitive(a: seq<Device>, b: seq<Device>, c: seq<Device>)
    requires DevicesKept(a, b) && DevicesKept(b, c)
    ensures DevicesKept(a, c)
  {
    forall i | 0 <= i < |a| ensures DeviceKept(a[i], c[i]) {
      assert DeviceKept(a[i], b[i]) && DeviceKept(b[i], c[i]);
    }
  }

  lemma {:induction false} RevokedStayDeadTransitive(a: seq<Device>, b: seq<Device>, bs: seq<Binding>,
                                                     bs1: seq<Binding>, bs2: seq<Binding>)
    requires DevicesKept(a, b) && RevokedStayDead(a, bs, bs1) && RevokedStayDead(b, bs1, bs2) && Evolves(bs1, bs2)
    ensures RevokedStayDead(a, bs, bs2)
  {
    forall d: nat | d < |a| && a[d].revokedAt.Some? ensures NoRevival(bs, bs2, d) {
      assert DeviceKept(a[d], b[d]);
      NoRevivalTransitive(bs, bs1, bs2, d);
    }
  }

  lemma {:induction false} AdvanceTransitive(s: State, s1: State, s2: State)
    requires Advance(s, s1) && Advance(s1, s2)
    ensures Advance(s, s2)
  {
    DevicesKeptTransitive(s.catalog.devices, s1.catalog.devices, s2.catalog.devices);
    EvolvesTransitive(s.engine.bindings, s1.engine.bindings, s2.engine.bindings);
    RevokedStayDeadTransitive(s.catalog.devices, s1.catalog.devices,
                              s.engine.bindings, s1.engine.bindings, s2.engine.bindings);
  }

  lemma {:induction false} SteppedReflexive(s: State)
    requires Consistent(s)
    ensures Stepped(s, s)
  {
    AdvanceReflexive(s);
  }

  /** A step that first writes the catalogue and then provisions. */
  lemma {:induction false} SteppedAfterWriting(s: State, s1: State, s2: State)
    requires Stepped(s, s1) && Stepped(s1, s2) && s1.engine == s.engine
    ensures Stepped(s, s2)
  {
    AdvanceTransitive(s, s1, s2);
  }

  // ----- Changes of the catalogue -----

  /** Bindings stay in order when devices are added or edited and route codes stay. */
  lemma {:induction false} BindingsOkCatalog(c: Catalog, c': Catalog, e: Engine)
    requires BindingsOk(c, e) && |c.devices| <= |c'.devices| && CodesKept(c.routes, c'.routes)
    requires SubscriptionsKept(c.subscriptions, c'.subscriptions)
    ensures BindingsOk(c', e)
  {
    forall i | 0 <= i < |e.bindings| ensures RowOk(c', |e.servers|, e.now, e.bindings[i]) {
      assert RowOk(c, |e.servers|, e.now, e.bindings[i]);
    }
  }

  /** Replacing the catalogue alone: enough to check the catalogue. */
  lemma {:induction false} CatalogStep(s: State, c: Catalog)
    requires Consistent(s) && Wired(c, s.engine) && c.defaults == s.catalog.defaults
    requires DevicesOk(c.devices, s.engine.now) && SubscriptionsOk(c) && UniqueRouteCodes(c.routes)
    requires DevicesKept(s.catalog.devices, c.devices) && CodesKept(s.catalog.routes, c.routes)
    requires SubscriptionsKept(s.catalog.subscriptions, c.subscriptions)
    ensures Stepped(s, s.(catalog := c))
  {
    BindingsOkCatalog(s.catalog, c, s.engine);
    EvolvesReflexive(s.engine.bindings);
  }

  lemma {:induction false} KeptReflexive(c: Catalog)
    ensures DevicesKept(c.devices, c.devices) && CodesKept(c.routes, c.routes)
  {
  }

  /** Replacing the engine by one with the same bindings. */
  lemma {:induction false} EngineStep(s: State, e: Engine)
    requires Consistent(s) && e.bindings == s.engine.bindings && |e.servers| == |s.engine.servers|
    requires s.engine.now <= e.now && CacheOk(e)
    ensures Wired(s.catalog, e) && Stepped(s, s.(engine := e))
  {
    BindingsOkCarries(s.catalog, s.engine, e);
    EvolvesReflexive(s.engine.bindings);
    KeptReflexive(s.catalog);
  }

  // ----- Batches -----

  lemma {:induction false} ScheduleAdvances(w: World, s: State, k: nat, device: Option<nat>, kind: OperationKind)
    requires Consistent(s) && k < |s.catalog.subscriptions|
    requires device.Some? ==> device.value < |s.catalog.devices|
    requires device.Some? && !kind.RevokeDevice? ==> s.catalog.devices[device.value].revokedAt.None?
    ensures var (s', ops) := ScheduleFor(w, s, k, device, kind);
      && Stepped(s, s') && StaysDown(s.engine, s'.engine)
      && OnePerRoute(k, device, kind, BatchRoutes(s.catalog, k), ops)
      && s'.operations == s.operations + ops
  {
    BatchReachable(s.catalog, s.engine, k);
    var routes := BatchRoutes(s.catalog, k);
    BatchKeeps(w, s.catalog, s.engine, k, device, kind, routes);
    var (e', ops) := RunBatch(w, s.catalog, s.engine, k, device, kind, routes);
    forall d: nat | d < |s.catalog.devices| && s.catalog.devices[d].revokedAt.Some?
      ensures NoRevival(s.engine.bindings, e'.bindings, d)
    {
      BatchNoRevival(w, s.catalog, s.engine, k, device, kind, routes, d);
    }
    FinishedAppend(s.operations, k, device, kind, routes, ops);
    KeptReflexive(s.catalog);
  }

  lemma {:induction false} FinishedAppend(old_: seq<Operation>, k: nat, device: Option<nat>, kind: OperationKind,
                                          routes: seq<nat>, ops: seq<Operation>)
    requires AllFinished(old_) && OnePerRoute(k, device, kind, routes, ops)
    ensures AllFinished(old_ + ops)
  {
    forall i | 0 <= i < |ops| ensures ops[i].finishedAt.Some?
      && (ops[i].status.Succeeded? || ops[i].status.Failed? || ops[i].status.Skipped?) {
      assert FinishedFor(ops[i], k, device, kind, routes[i]);
    }
  }

  lemma {:induction false} ScheduleForUserAdvances(w: World, s: State, user: nat, device: Option<nat>,
                                                   kind: OperationKind)
    requires Consistent(s)
    requires device.Some? ==> device.value < |s.catalog.devices|
    requires device.Some? && !kind.RevokeDevice? ==> s.catalog.devices[device.value].revokedAt.None?
    ensures var s' := ScheduleForUser(w, s, user, device, kind);
      Stepped(s, s') && StaysDown(s.engine, s'.engine) && s'.catalog == s.catalog
  {
    SteppedReflexive(s);
    var k := SubscriptionOf(s.catalog.subscriptions, user);
    if k < |s.catalog.subscriptions| {
      ScheduleAdvances(w, s, k, device, kind);
    }
  }

  // ----- One lemma per step -----

  lemma {:induction false} DevicesStep(s: State, devices: seq<Device>)
    requires Consistent(s) && DevicesOk(devices, s.engine.now) && DevicesKept(s.catalog.devices, devices)
    ensures Wired(WithDevices(s, devices).catalog, s.engine)
    ensures Stepped(s, WithDevices(s, devices))
  {
    var c := WithDevices(s, devices).catalog;
    assert forall k | 0 <= k < |c.subscriptions| :: Feed.RowsKnown(s.catalog, c.subscriptions[k].routes);
    CatalogStep(s, c);
  }

  lemma {:induction false} TouchDevicesOk(s: State, k: nat, req: Devices.TouchRequest)
    requires Consistent(s) && k < |s.catalog.subscriptions|
    requires var x := s.catalog.subscriptions[k];
      Devices.TouchDevice(s.catalog.devices, s.engine.now, x.user, x.maxDevices, req).Ok?
    ensures var x := s.catalog.subscriptions[k];
      var t := Devices.TouchDevice(s.catalog.devices, s.engine.now, x.user, x.maxDevices, req).value;
      DevicesOk(t.devices, s.engine.now) && DevicesKept(s.catalog.devices, t.devices)
  {
    var x := s.catalog.subscriptions[k];
    Devices.TouchShape(s.catalog.devices, s.engine.now, x.user, x.maxDevices, req);
    Devices.TouchKeepsKeys(s.catalog.devices, s.engine.now, x.user, x.maxDevices, req);
  }

  lemma {:induction false} TouchAdvances(w: World, s: State, k: nat, req: Devices.TouchRequest, pending: bool)
    requires Consistent(s) && k < |s.catalog.subscriptions| && Touch(w, s, k, req, pending).Ok?
    ensures var s' := Touch(w, s, k, req, pending).value.state;
      Stepped(s, s') && StaysDown(s.engine, s'.engine)
  {
    var x := s.catalog.subscriptions[k];
    var t := Devices.TouchDevice(s.catalog.devices, s.engine.now, x.user, x.maxDevices, req).value;
    TouchDevicesOk(s, k, req);
    Devices.TouchShape(s.catalog.devices, s.engine.now, x.user, x.maxDevices, req);
    DevicesStep(s, t.devices);
    var s1 := WithDevices(s, t.devices);
    ScheduleAdvances(w, s1, k, Some(t.device), RepairDevice);
    SteppedAfterWriting(s, s1, ScheduleFor(w, s1, k, Some(t.device), RepairDevice).0);
  }

  lemma {:induction false} RevokeAdvances(w: World, s: State, user: nat, d: nat, reason: string)
    requires Consistent(s)
    ensures var s' := Revoke(w, s, user, d, reason); Stepped(s, s') && StaysDown(s.engine, s'.engine)
  {
    SteppedReflexive(s);
    if Devices.Live(s.catalog.devices, user, d) {
      var devices := s.catalog.devices[d := Devices.RevokeRow(s.catalog.devices[d], s.engine.now, reason)];
      Devices.RevokeKeepsKeys(s.catalog.devices, d, s.engine.now, reason);
      DevicesStep(s, devices);
      var s1 := WithDevices(s, devices);
      ScheduleForUserAdvances(w, s1, user, Some(d), RevokeDevice);
      SteppedAfterWriting(s, s1, ScheduleForUser(w, s1, user, Some(d), RevokeDevice));
    }
  }

  /** Adding or editing one subscription whose routes are in order. */
  lemma {:induction false} SubscriptionWritten(s: State, k: nat, x: Subscription, nextRouteId: nat)
    requires Consistent(s) && k <= |s.catalog.subscriptions| && s.catalog.nextRouteId <= nextRouteId
    requires Routes.LinksKnown(s.catalog.routes, x.routes) && RoutesOk(x, nextRouteId)
    requires if k < |s.catalog.subscriptions| then x.user == s.catalog.subscriptions[k].user
             else SubscriptionOf(s.catalog.subscriptions, x.user) == |s.catalog.subscriptions|
    requires k < |s.catalog.subscriptions| ==> s.catalog.subscriptions[k].endsAt <= x.endsAt
    ensures var s' := s.(catalog := WithSubscription(s.catalog, k, x, nextRouteId)); Stepped(s, s')
  {
    var c := WithSubscription(s.catalog, k, x, nextRouteId);
    SubscriptionStaysWired(s.catalog, s.engine, k, x, nextRouteId);
    forall j | 0 <= j < |c.subscriptions| ensures RoutesOk(c.subscriptions[j], nextRouteId) {
      if j != k {
        assert RoutesOk(s.catalog.subscriptions[j], s.catalog.nextRouteId);
      }
    }
    KeptReflexive(s.catalog);
    CatalogStep(s, c);
  }

  /** Writing a subscription whose routes have just been reconciled. */
  lemma {:induction false} ReconciledAdvances(s: State, k: nat, defs: seq<Definition>, x: Subscription)
    requires Consistent(s) && Routes.InCatalog(s.catalog.routes, defs) && Routes.DistinctDefinitions(defs)
    requires k <= |s.catalog.subscriptions| && RoutesOk(x, s.catalog.nextRouteId)
    requires Routes.LinksKnown(s.catalog.routes, x.routes)
    requires if k < |s.catalog.subscriptions| then x.user == s.catalog.subscriptions[k].user
             else SubscriptionOf(s.catalog.subscriptions, x.user) == |s.catalog.subscriptions|
    requires k < |s.catalog.subscriptions| ==> s.catalog.subscriptions[k].endsAt <= x.endsAt
    ensures var t := Routes.Reconcile(s.catalog.routes, defs, Routes.RouteTable(x.routes, s.catalog.nextRouteId));
      var s' := s.(catalog := WithSubscription(s.catalog, k, x.(routes := t.rows), t.nextId));
      Stepped(s, s')
  {
    var t := Routes.RouteTable(x.routes, s.catalog.nextRouteId);
    Routes.ReconcileLinks(s.catalog.routes, defs, t);
    Routes.ReconcileKeepsTable(s.catalog.routes, defs, t);
    Reconciled.ReconciledApart(s.catalog.routes, defs, t);
    var r := Routes.Reconcile(s.catalog.routes, defs, t);
    SubscriptionWritten(s, k, x.(routes := r.rows), r.nextId);
  }

  lemma {:induction false} ActivatedAdvances(s: State, user: nat, plan: Plan)
    requires Consistent(s)
    ensures var s' := s.(catalog := Activated(s.catalog, user, plan, Today(s.engine.now))); Stepped(s, s')
  {
    var c, today := s.catalog, Today(s.engine.now);
    var x := Renewed(c, user, plan, today);
    var k := SubscriptionOf(c.subscriptions, user);
    assert Routes.LinksKnown(c.routes, x.routes) && RoutesOk(x, c.nextRouteId) by {
      if k < |c.subscriptions| {
        assert Feed.RowsKnown(c, c.subscriptions[k].routes) && RoutesOk(c.subscriptions[k], c.nextRouteId);
      }
    }
    ReconciledAdvances(s, k, c.defaults.paid, x);
  }

  lemma {:induction false} ActivateAdvances(w: World, s: State, user: nat, code: string)
    requires Consistent(s) && Activate(w, s, user, code).Some?
    ensures var s' := Activate(w, s, user, code).value; Stepped(s, s') && StaysDown(s.engine, s'.engine)
  {
    var plan := FindPlan(code).value;
    var s1 := s.(catalog := Activated(s.catalog, user, plan, Today(s.engine.now)));
    ActivatedAdvances(s, user, plan);
    var k := SubscriptionOf(s.catalog.subscriptions, user);
    ScheduleAdvances(w, s1, k, None, SyncSubscription);
    SteppedAfterWriting(s, s1, ScheduleFor(w, s1, k, None, SyncSubscription).0);
  }

  lemma {:induction false} TrialCatalogAdvances(s: State, user: nat)
    requires Consistent(s) && SubscriptionOf(s.catalog.subscriptions, user) == |s.catalog.subscriptions|
    ensures var s' := s.(catalog := TrialCatalog(s.catalog, user, Today(s.engine.now))); Stepped(s, s')
  {
    var x := TrialSubscription(user, Today(s.engine.now));
    ReconciledAdvances(s, |s.catalog.subscriptions|, s.catalog.defaults.trial, x);
  }

  lemma {:induction false} TrialAdvances(w: World, s: State, user: nat)
    requires Consistent(s)
    ensures var s' := StartTrial(w, s, user); Stepped(s, s') && StaysDown(s.engine, s'.engine)
  {
    var n := |s.catalog.subscriptions|;
    SteppedReflexive(s);
    if SubscriptionOf(s.catalog.subscriptions, user) == n {
      TrialCatalogAdvances(s, user);
      var s1 := s.(catalog := TrialCatalog(s.catalog, user, Today(s.engine.now)));
      ScheduleAdvances(w, s1, n, None, SyncSubscription);
      SteppedAfterWriting(s, s1, ScheduleFor(w, s1, n, None, SyncSubscription).0);
    }
  }

  lemma {:induction false} ExtendAdvances(s: State, k: nat, days: int)
    requires Consistent(s) && k < |s.catalog.subscriptions| && Extend(s, k, days).Some?
    ensures var s' := Extend(s, k, days).value; Stepped(s, s')
  {
    var x := Extend(s, k, days).value.catalog.subscriptions[k];
    assert Feed.RowsKnown(s.catalog, s.catalog.subscriptions[k].routes);
    assert RoutesOk(s.catalog.subscriptions[k], s.catalog.nextRouteId);
    SubscriptionWritten(s, k, x, s.catalog.nextRouteId);
  }

  lemma {:induction false} MoveRouteAdvances(s: State, r: nat, server: nat)
    requires Consistent(s)
    ensures var s' := MoveRoute(s, r, server); Stepped(s, s')
  {
    SteppedReflexive(s);
    if r < |s.catalog.routes| && server < |s.engine.servers| {
      KeptReflexive(s.catalog);
      CatalogStep(s, MoveRoute(s, r, server).catalog);
    }
  }

  lemma {:induction false} HealthAdvances(w: World, s: State, server: nat)
    requires Consistent(s)
    ensures var s' := CheckHealth(w, s, server); Stepped(s, s')
  {
    SteppedReflexive(s);
    if server < |s.engine.servers| {
      RefreshKeepsCache(w, s.engine, server);
      EngineStep(s, RefreshHealth(w, s.engine, server).0);
    }
  }

  lemma {:induction false} WaitAdvances(s: State, elapsed: nat)
    requires Consistent(s)
    ensures var s' := s.(engine := s.engine.(now := s.engine.now + elapsed));
      Wired(s'.catalog, s'.engine) && Stepped(s, s')
  {
    var e := s.engine.(now := s.engine.now + elapsed);
    assert forall server: nat, k: nat | server < |e.servers|
      && IsLast(e.snapshots, server, k) :: IsLast(s.engine.snapshots, server, k);
    EngineStep(s, e);
  }

  lemma {:induction false} ConfigureAdvances(s: State, server: nat, profile: Profile)
    requires Consistent(s)
    ensures var s' := s.(engine := s.engine.(profiles := s.engine.profiles[server := profile]));
      Wired(s'.catalog, s'.engine) && Stepped(s, s')
  {
    EngineStep(s, s.engine.(profiles := s.engine.profiles[server := profile]));
  }

  lemma {:induction false} DeviceStepAdvances(w: World, s: State, step: Step)
    requires Consistent(s) && DeviceStep(step)
    ensures var s' := Apply(w, s, step); Stepped(s, s') && StaysDown(s.engine, s'.engine)
  {
    SteppedReflexive(s);
    match step {
      case TouchStep(k, req, pending) =>
        if k < |s.catalog.subscriptions| && Touch(w, s, k, req, pending).Ok? { TouchAdvances(w, s, k, req, pending); }
      case RepairStep(user, d) =>
        if Devices.Live(s.catalog.devices, user, d) { ScheduleForUserAdvances(w, s, user, Some(d), RepairDevice); }
      case RevokeStep(user, d, reason) => RevokeAdvances(w, s, user, d, reason);
      case SyncStep(k) =>
        if k < |s.catalog.subscriptions| { ScheduleAdvances(w, s, k, None, SyncSubscription); }
    }
  }

  lemma {:induction false} SubscriptionStepAdvances(w: World, s: State, step: Step)
    requires Consistent(s) && SubscriptionStep(step)
    ensures var s' := Apply(w, s, step); Stepped(s, s') && StaysDown(s.engine, s'.engine)
  {
    SteppedReflexive(s);
    match step {
      case ActivateStep(user, code) =>
        if Activate(w, s, user, code).Some? { ActivateAdvances(w, s, user, code); }
      case ExtendStep(k, days) =>
        if k < |s.catalog.subscriptions| && Extend(s, k, days).Some? { ExtendAdvances(s, k, days); }
      case TrialStep(user) => TrialAdvances(w, s, user);
    }
  }

  lemma {:induction false} ServerStepAdvances(w: World, s: State, step: Step)
    requires Consistent(s) && !DeviceStep(step) && !SubscriptionStep(step)
    ensures var s' := Apply(w, s, step); Stepped(s, s') && (!step.HealthStep? ==> StaysDown(s.engine, s'.engine))
  {
    match step {
      case HealthStep(server) => HealthAdvances(w, s, server);
      case MoveRouteStep(r, server) => MoveRouteAdvances(s, r, server);
      case ConfigureStep(server, profile) => ConfigureAdvances(s, server, profile);
      case WaitStep(elapsed) => WaitAdvances(s, elapsed);
    }
  }

  /** Every step keeps the invariant and only advances; only a health check may bring a server up; and panels are
      told present end dates only. */
  lemma {:induction false} StepAdvances(w: World, s: State, step: Step)
    requires Consistent(s)
    ensures var s' := Apply(w, s, step); Stepped(s, s') && (!step.HealthStep? ==> StaysDown(s.engine, s'.engine))
  {
    if DeviceStep(step) {
      DeviceStepAdvances(w, s, step);
    } else if SubscriptionStep(step) {
      SubscriptionStepAdvances(w, s, step);
    } else {
      ServerStepAdvances(w, s, step);
    }
  }

  // ----- Whole runs -----

  /** The invariant holds after every run, and the run as a whole only advances. */
  lemma {:induction false} RunAdvances(w: World, s: State, steps: seq<Step>)
    requires Consistent(s)
    ensures Consistent(Run(w, s, steps)) && Advance(s, Run(w, s, steps))
    decreases |steps|
  {
    AdvanceReflexive(s);
    if steps != [] {
      var s1 := Apply(w, s, steps[0]);
      StepAdvances(w, s, steps[0]);
      RunAdvances(w, s1, steps[1..]);
      AdvanceTransitive(s, s1, Run(w, s, steps));
    }
  }

  // ----- A starting state -----

  /** A database with servers and the default catalogue but no users yet. */
  function Empty(now: int, servers: seq<Server>, profiles: map<nat, Profile>, routes: seq<Route>,
                 defaults: Defaults): State {
    State(Catalog([], routes, [], 0, defaults), Engine(now, 0, servers, profiles, [], []), [])
  }

  lemma {:induction false} ShippedRoutesDiffer()
    ensures var d := ShippedDefaults(); Routes.DistinctDefinitions(d.paid) && Routes.DistinctDefinitions(d.trial)
  {
    assert "ru"[0] == 'r' && "de"[0] == 'd' && "nl"[0] == 'n' && "pl"[0] == 'p';
  }

  /** The invariant of all runs holds to begin with. */
  lemma {:induction false} EmptyIsConsistent(now: int, servers: seq<Server>, profiles: map<nat, Profile>,
                                             routes: seq<Route>)
    requires UniqueRouteCodes(routes)
    requires forall r | 0 <= r < |routes| :: routes[r].server < |servers|
    requires var d := ShippedDefaults(); Routes.InCatalog(routes, d.paid) && Routes.InCatalog(routes, d.trial)
    ensures Consistent(Empty(now, servers, profiles, routes, ShippedDefaults()))
  {
    ShippedRoutesDiffer();
  }
}
