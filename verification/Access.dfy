/** Runs of service calls: what holds after every run, whatever the adapters answered. */
module Access {
  import opened Wrappers
  import opened Tables
  import opened Adapters
  import opened Provisioning
  import opened ServerCache
  import opened Services
  import Devices
  import Feed
  import Routes

  // ----- Steps and runs -----

  datatype Step =
    | TouchStep(subscription: nat, req: Devices.TouchRequest, pending: bool)
    | RepairStep(user: nat, device: nat)
    | RevokeStep(user: nat, device: nat, reason: string)
    | SyncStep(subscription: nat)
    | ActivateStep(user: nat, code: string)
    | ExtendStep(subscription: nat, days: int)
    | TrialStep(user: nat)
    | HealthStep(server: nat)
    | MoveRouteStep(route: nat, server: nat)
    | ConfigureStep(server: nat, profile: Profile)
    | WaitStep(elapsed: nat)

  /** One service call, operator edit or pause; a refused call changes nothing. */
  function Apply(w: World, s: State, step: Step): (r: State)
    requires Wired(s.catalog, s.engine)
    ensures Wired(r.catalog, r.engine)
  {
    match step
    case TouchStep(k, req, pending) =>
      if k < |s.catalog.subscriptions| && Touch(w, s, k, req, pending).Ok? then Touch(w, s, k, req, pending).value.state
      else s
    case RepairStep(user, d) => Repair(w, s, user, d)
    case RevokeStep(user, d, reason) => Revoke(w, s, user, d, reason)
    case SyncStep(k) => if k < |s.catalog.subscriptions| then ScheduleFor(w, s, k, None, SyncSubscription).0 else s
    case ActivateStep(user, code) => if Activate(w, s, user, code).Some? then Activate(w, s, user, code).value else s
    case ExtendStep(k, days) =>
      if k < |s.catalog.subscriptions| && Extend(s, k, days).Some? then
        assert Feed.RowsKnown(s.catalog, s.catalog.subscriptions[k].routes);
        SubscriptionStaysWired(s.catalog, s.engine, k, Extend(s, k, days).value.catalog.subscriptions[k],
          s.catalog.nextRouteId);
        Extend(s, k, days).value
      else s
    case TrialStep(user) => StartTrial(w, s, user)
    case HealthStep(server) => CheckHealth(w, s, server)
    case MoveRouteStep(r, server) => MoveRoute(s, r, server)
    case ConfigureStep(server, profile) => s.(engine := s.engine.(profiles := s.engine.profiles[server := profile]))
    case WaitStep(elapsed) => s.(engine := s.engine.(now := s.engine.now + elapsed))
  }

  /** The explicit health check of one server. */
  function CheckHealth(w: World, s: State, server: nat): (r: State)
    requires Wired(s.catalog, s.engine)
    ensures Wired(r.catalog, r.engine)
  {
    if server < |s.engine.servers| then
      RefreshKeepsCache(w, s.engine, server);
      s.(engine := RefreshHealth(w, s.engine, server).0)
    else s
  }

  /** An operator moves a route to another server. */
  function MoveRoute(s: State, r: nat, server: nat): (x: State)
    requires Wired(s.catalog, s.engine)
    ensures Wired(x.catalog, x.engine)
  {
    if r < |s.catalog.routes| && server < |s.engine.servers| then
      var routes := s.catalog.routes[r := s.catalog.routes[r].(server := server)];
      SameCodes(s.catalog.routes, routes, s.catalog.defaults.paid);
      SameCodes(s.catalog.routes, routes, s.catalog.defaults.trial);
      var c := s.catalog.(routes := routes);
      assert forall k | 0 <= k < |c.subscriptions| ::
        Feed.RowsKnown(s.catalog, c.subscriptions[k].routes) && Feed.RowsKnown(c, c.subscriptions[k].routes);
      s.(catalog := c)
    else s
  }

  lemma {:induction false} SameFind(a: seq<Route>, b: seq<Route>, code: string)
    requires |a| == |b| && forall i | 0 <= i < |a| :: a[i].code == b[i].code
    ensures Routes.FindRoute(a, code) == Routes.FindRoute(b, code)
  {
  }

  lemma {:induction false} SameCodes(a: seq<Route>, b: seq<Route>, defs: seq<Definition>)
    requires |a| == |b| && forall i | 0 <= i < |a| :: a[i].code == b[i].code
    requires Routes.InCatalog(a, defs)
    ensures Routes.InCatalog(b, defs)
  {
    forall i | 0 <= i < |defs| ensures Routes.FindRoute(b, defs[i].code) < |b| {
      SameFind(a, b, defs[i].code);
    }
  }

  function Run(w: World, s: State, steps: seq<Step>): (r: State)
    requires Wired(s.catalog, s.engine)
    ensures Wired(r.catalog, r.engine)
    decreases |steps|
  {
    if steps == [] then s else Run(w, Apply(w, s, steps[0]), steps[1..])
  }

  // ----- Groups of steps -----

  /** Touch, repair, revoke or a manual sync. */
  predicate DeviceStep(step: Step) {
    step.TouchStep? || step.RepairStep? || step.RevokeStep? || step.SyncStep?
  }

  /** Activation, extension or trial. */
  predicate SubscriptionStep(step: Step) {
    step.ActivateStep? || step.ExtendStep? || step.TrialStep?
  }

  // ----- What a step does to the devices -----

  predicate Admitted(s: State, k: nat, pending: bool)
    requires k < |s.catalog.subscriptions|
  {
    var status := StatusOf(Some(s.catalog.subscriptions[k]), Today(s.engine.now), pending);
    status.Trial? || status.Paid?
  }

  /** The device table after a step; no adapter has a say in it. */
  function DevicesAfter(s: State, step: Step): seq<Device> {
    var devices := s.catalog.devices;
    match step
    case TouchStep(k, req, pending) =>
      if k < |s.catalog.subscriptions| && Admitted(s, k, pending) then
        var x := s.catalog.subscriptions[k];
        match Devices.TouchDevice(devices, s.engine.now, x.user, x.maxDevices, req)
        case Ok(t) => t.devices
        case Err(_) => devices
      else devices
    case RevokeStep(user, d, reason) =>
      if Devices.Live(devices, user, d) then devices[d := Devices.RevokeRow(devices[d], s.engine.now, reason)]
        else devices
    case _ => devices
  }

  lemma {:induction false} QuietStepKeepsDevices(w: World, s: State, step: Step)
    requires Wired(s.catalog, s.engine) && !step.TouchStep? && !step.RevokeStep?
    ensures Apply(w, s, step).catalog.devices == s.catalog.devices
  {
  }

  lemma {:induction false} StepDevices(w: World, s: State, step: Step)
    requires Wired(s.catalog, s.engine)
    ensures Apply(w, s, step).catalog.devices == DevicesAfter(s, step)
  {
    if !step.TouchStep? && !step.RevokeStep? {
      QuietStepKeepsDevices(w, s, step);
    }
  }
}
