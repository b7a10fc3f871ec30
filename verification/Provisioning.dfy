/** The provisioning engine: gates, device loop and write-back, as functions on the engine state. */
module Provisioning {
  import opened Wrappers
  import opened Text
  import opened Tables
  import opened Adapters
  import Query

  const HEARTBEAT_MAX_AGE: int := 300 * SECOND

  // ----- Server health -----

  function EnsureProfile(e: Engine, server: nat): Engine {
    if server in e.profiles then e
    else e.(profiles := e.profiles[server := Profile(Mock, true, "")])
  }

  function ProfileOf(e: Engine, server: nat): Profile {
    if server in e.profiles then e.profiles[server] else Profile(Mock, true, "")
  }

  predicate Stale(e: Engine, server: nat)
    requires server < |e.servers|
  {
    e.now - e.servers[server].lastHeartbeat >= HEARTBEAT_MAX_AGE
  }

  /** Appends a status snapshot and copies it onto the server. */
  function RecordSnapshot(e: Engine, server: nat, status: ServerStatus): Engine
    requires server < |e.servers|
  {
    e.(snapshots := e.snapshots + [Snapshot(server, status, e.now)],
       servers := e.servers[server := e.servers[server].(status := status, lastHeartbeat := e.now)])
  }

  function AfterCall(e: Engine, elapsed: nat): Engine {
    e.(now := e.now + elapsed, calls := e.calls + 1)
  }

  function RefreshHealth(w: World, e: Engine, server: nat): (r: (Engine, ErrorCode))
    requires server < |e.servers|
  {
    var e1 := EnsureProfile(e, server);
    if !ProfileOf(e1, server).isEnabled then (RecordSnapshot(e1, server, Maintenance), ProvisioningDisabled)
    else
      var outcome := w.health(e1.calls);
      var e2 := AfterCall(e1, outcome.elapsed);
      match outcome
      case HealthReport(_, available, _, code) =>
        (RecordSnapshot(e2, server, if available then Running else Offline), code)
      case HealthRaised(_, raised) => (RecordSnapshot(e2, server, Offline), raised)
      case HealthCrashed(_) => (RecordSnapshot(e2, server, Offline), RuntimeError)
  }

  // ----- Bindings -----

  /** The row for a device and a route: the first one, if any. */
  function Find(bs: seq<Binding>, d: nat, r: nat): (i: nat)
    ensures i <= |bs|
    ensures i < |bs| ==> bs[i].Keyed(d, r)
    ensures forall k | 0 <= k < i :: !bs[k].Keyed(d, r)
  {
    Query.First(bs, (b: Binding) => b.Keyed(d, r))
  }

  /** Writes row `i`, or appends it when `i` is the next free position. */
  function Put(bs: seq<Binding>, i: nat, b: Binding): (r: seq<Binding>)
    requires i <= |bs|
    ensures |r| == if i == |bs| then |bs| + 1 else |bs|
    ensures r[i] == b
    ensures forall k | 0 <= k < |bs| && k != i :: r[k] == bs[k]
  {
    if i == |bs| then bs + [b] else bs[i := b]
  }

  function EmailPrefix(): string { "infinda-s" }

  function EmailSuffix(): string { "@local" }

  function ClientEmail(subscription: nat, device: nat, code: string): (r: string)
    ensures r != ""
  {
    EmailPrefix() + (Decimal(subscription) + ['-'] + (['d'] + Decimal(device) + ['-'] + (code + EmailSuffix())))
  }

  /** The row that the lookup creates when a device has none on a route. */
  function FreshBinding(c: Catalog, subscription: Option<nat>, d: nat, r: nat, uuid: NonEmpty): Binding
    requires d < |c.devices| && r < |c.routes|
  {
    Binding(c.devices[d].user, subscription, d, r, c.routes[r].server, Active, None, uuid,
            ClientEmail(if subscription.Some? then subscription.value else 0, d, c.routes[r].code),
            "", 0, "", NoError, None, None, None, None)
  }

  /** Brings an existing row up to date and fills in a missing identity. */
  function Realigned(c: Catalog, subscription: Option<nat>, b: Binding, uuid: NonEmpty): Binding
    requires b.device < |c.devices| && b.route < |c.routes|
  {
    b.(user := c.devices[b.device].user, subscription := subscription, server := c.routes[b.route].server,
       uuid := if b.uuid == "" then uuid else b.uuid,
       email := if b.email == ""
                then ClientEmail(if subscription.Some? then subscription.value else 0, b.device, c.routes[b.route].code)
                else b.email)
  }

  /** The row `ensure_provisioned_device_access` leaves at position `Find(bs, d, r)`. */
  function EnsuredRow(c: Catalog, bs: seq<Binding>, subscription: Option<nat>, d: nat, r: nat,
                      uuid: NonEmpty): (b: Binding)
    requires d < |c.devices| && r < |c.routes|
    ensures b.Keyed(d, r) && b.uuid != "" && b.email != "" && b.server == c.routes[r].server
    ensures b.subscription == subscription
  {
    var i := Find(bs, d, r);
    if i == |bs| then FreshBinding(c, subscription, d, r, uuid)
    else Realigned(c, subscription, bs[i], uuid)
  }

  function EnsureAccess(c: Catalog, e: Engine, subscription: Option<nat>, d: nat, r: nat, uuid: NonEmpty): Engine
    requires d < |c.devices| && r < |c.routes|
  {
    e.(bindings := Put(e.bindings, Find(e.bindings, d, r), EnsuredRow(c, e.bindings, subscription, d, r, uuid)))
  }

  /** A failed adapter call takes the binding's server offline and marks the binding. */
  function CallFailed(e: Engine, i: nat, kind: AdapterKind, code: RaisedCode): (Engine, ResultItem)
    requires i < |e.bindings| && e.bindings[i].server < |e.servers|
  {
    var e1 := RecordSnapshot(e, e.bindings[i].server, Offline);
    (e1.(bindings := e1.bindings[i := e1.bindings[i].MarkFailed(kind, code)]),
     ResultItem(e.bindings[i].device, Failed, code, ""))
  }

  /** What the panel holds after it accepted a client: the end date of the binding's subscription. The source keeps
      this on the panel only; the other adapters talk to no panel. */
  function ToldAfter(kind: AdapterKind, c: Catalog, b: Binding): Option<Told> {
    if kind.Xui? && b.subscription.Some? && b.subscription.value < |c.subscriptions| then
      Some(Told(b.subscription.value, c.subscriptions[b.subscription.value].endsAt))
    else b.told
  }

  function SyncBinding(w: World, c: Catalog, e: Engine, i: nat): (Engine, ResultItem)
    requires i < |e.bindings| && e.bindings[i].server < |e.servers| && e.bindings[i].route < |c.routes|
  {
    var b := e.bindings[i];
    var e1 := EnsureProfile(e, b.server);
    var profile := ProfileOf(e1, b.server);
    var outcome := w.sync(e1.calls);
    var e2 := AfterCall(e1, outcome.elapsed);
    match outcome
    case SyncRaised(_, raised) => CallFailed(e2, i, profile.adapter, raised)
    case SyncCrashed(_) => CallFailed(e2, i, profile.adapter, RuntimeError)
    case SyncDone(_, inbound) =>
      var result := SyncResult(profile, e.servers[b.server].hostname, b, c.routes[b.route], inbound);
      (e2.(bindings := e2.bindings[i := b.MarkSynced(result, ToldAfter(profile.adapter, c, b), e2.now)]),
       ResultItem(b.device, Succeeded, NoError, result.url))
  }

  function RevokeBinding(w: World, e: Engine, i: nat): (Engine, ResultItem)
    requires i < |e.bindings| && e.bindings[i].server < |e.servers|
  {
    var b := e.bindings[i];
    var e1 := EnsureProfile(e, b.server);
    var profile := ProfileOf(e1, b.server);
    var outcome := RevokeAnswer(profile, b, w.revoke(e1.calls));
    var e2 := AfterCall(e1, outcome.elapsed);
    match outcome
    case RevokeRaised(_, raised) => CallFailed(e2, i, profile.adapter, raised)
    case RevokeCrashed(_) => CallFailed(e2, i, profile.adapter, RuntimeError)
    case RevokeDone(_) =>
      (e2.(bindings := e2.bindings[i := b.MarkRevoked(profile.adapter, e2.now)]),
       ResultItem(b.device, Succeeded, NoError, ""))
  }

  // ----- The device loop -----

  /** Every binding's server exists. */
  predicate ServersKnown(e: Engine) {
    forall i | 0 <= i < |e.bindings| :: e.bindings[i].server < |e.servers|
  }

  /** The references one iteration follows. */
  predicate Reachable(c: Catalog, e: Engine, r: nat) {
    r < |c.routes| && c.routes[r].server < |e.servers|
  }

  function SyncDevice(w: World, c: Catalog, e: Engine, subscription: nat, d: nat, r: nat): (x: (Engine, ResultItem))
    requires Reachable(c, e, r) && d < |c.devices|
    ensures |x.0.servers| == |e.servers| && (ServersKnown(e) ==> ServersKnown(x.0))
  {
    var e1 := EnsureAccess(c, e, Some(subscription), d, r, w.uuid(e.calls));
    SyncBinding(w, c, e1, Find(e.bindings, d, r))
  }

  predicate Known(c: Catalog, targets: seq<nat>) {
    forall k | 0 <= k < |targets| :: targets[k] < |c.devices|
  }

  function SyncDevices(w: World, c: Catalog, e: Engine, subscription: nat, targets: seq<nat>, r: nat)
    : (x: (Engine, seq<ResultItem>))
    requires Reachable(c, e, r) && Known(c, targets)
    ensures |x.0.servers| == |e.servers| && |x.1| == |targets| && (ServersKnown(e) ==> ServersKnown(x.0))
  {
    if targets == [] then (e, [])
    else
      var n := |targets| - 1;
      var (e1, items) := SyncDevices(w, c, e, subscription, targets[..n], r);
      var (e2, item) := SyncDevice(w, c, e1, subscription, targets[n], r);
      (e2, items + [item])
  }

  /** The loop, one round further. */
  lemma {:induction false} SyncDevicesNext(w: World, c: Catalog, e: Engine, subscription: nat, targets: seq<nat>,
                                           r: nat, k: nat)
    requires Reachable(c, e, r) && Known(c, targets) && k < |targets|
    ensures var x := SyncDevices(w, c, e, subscription, targets[..k], r);
      var y := SyncDevice(w, c, x.0, subscription, targets[k], r);
      SyncDevices(w, c, e, subscription, targets[..k + 1], r) == (y.0, x.1 + [y.1])
  {
    assert targets[..k + 1][..k] == targets[..k];
  }

  /** The loop over one target more. */
  lemma {:induction false} SyncDevicesAppend(w: World, c: Catalog, e: Engine, subscription: nat, front: seq<nat>,
                                             d: nat, r: nat)
    requires Reachable(c, e, r) && Known(c, front) && Known(c, front + [d])
    ensures var x := SyncDevices(w, c, e, subscription, front, r);
      && d < |c.devices| && Reachable(c, x.0, r)
      && var y := SyncDevice(w, c, x.0, subscription, d, r);
        SyncDevices(w, c, e, subscription, front + [d], r) == (y.0, x.1 + [y.1])
  {
    var targets := front + [d];
    assert targets[..|front|] == front && targets[|front|] == d;
  }

  /** The first failure reported, or no error at all. */
  function FirstError(items: seq<ResultItem>): ErrorCode {
    if items == [] then NoError
    else if items[0].status.Failed? then items[0].error
    else FirstError(items[1..])
  }

  predicate AnyFailed(items: seq<ResultItem>) {
    exists k | 0 <= k < |items| :: items[k].status.Failed?
  }

  // ----- Operations -----

  datatype Gate = Open | Stop(status: OperationStatus, error: ErrorCode)

  /** Profile enabled, server up, heartbeat fresh, subscription present: in that order. */
  function PassGates(w: World, e: Engine, op: Operation): (x: (Engine, Gate))
    requires op.server.Some? && op.server.value < |e.servers|
    ensures |x.0.servers| == |e.servers| && x.0.bindings == e.bindings
  {
    var server := op.server.value;
    var e1 := EnsureProfile(e, server);
    if !ProfileOf(e1, server).isEnabled then (e1, Stop(Skipped, ProvisioningDisabled))
    else if e1.servers[server].status.Down() then (e1, Stop(Failed, ServerUnavailable))
    else
      var (e2, code) := if Stale(e1, server) then RefreshHealth(w, e1, server) else (e1, NoError);
      if e2.servers[server].status.Down() then
        (e2, Stop(Failed, if code == NoError then ServerUnavailable else code))
      else if op.subscription.None? then (e2, Stop(Skipped, MissingSubscription))
      else (e2, Open)
  }

  /** Newest first: `ORDER BY last_seen DESC, created_at DESC`, with the row number settling ties. */
  predicate Newer(devices: seq<Device>, a: nat, b: nat) {
    a < |devices| && b < |devices| &&
    (|| devices[a].lastSeen > devices[b].lastSeen
     || (devices[a].lastSeen == devices[b].lastSeen &&
         (|| devices[a].createdAt > devices[b].createdAt
          || (devices[a].createdAt == devices[b].createdAt && a >= b))))
  }

  function NewestFirst(devices: seq<Device>, ids: seq<nat>): seq<nat> {
    Query.OrderBy((a, b) => Newer(devices, a, b), ids)
  }

  /** The devices a user has not revoked, newest first. */
  function ActiveDevices(devices: seq<Device>, user: nat): seq<nat> {
    NewestFirst(devices, Query.Where(devices, (x: Device) => x.ActiveFor(user)))
  }

  /** Rows an operation refers to exist. */
  predicate Linked(c: Catalog, e: Engine, op: Operation) {
    && (op.route.Some? ==> Reachable(c, e, op.route.value))
    && (op.server.Some? ==> op.server.value < |e.servers|)
    && (op.device.Some? ==> op.device.value < |c.devices|)
    && (op.subscription.Some? ==> op.subscription.value < |c.subscriptions|)
  }

  function Targets(c: Catalog, op: Operation): seq<nat>
    requires op.subscription.Some? && op.subscription.value < |c.subscriptions|
  {
    if op.device.Some? then [op.device.value]
    else ActiveDevices(c.devices, c.subscriptions[op.subscription.value].user)
  }

  lemma {:induction false} TargetsKnown(c: Catalog, user: nat)
    ensures Known(c, ActiveDevices(c.devices, user))
    ensures forall d: nat :: d in ActiveDevices(c.devices, user) <==> d < |c.devices| && c.devices[d].ActiveFor(user)
  {
    var ids := Query.Where(c.devices, (x: Device) => x.ActiveFor(user));
    forall d: nat ensures d in ActiveDevices(c.devices, user) <==> d < |c.devices| && c.devices[d].ActiveFor(user) {
      Query.OrderByMember((a, b) => Newer(c.devices, a, b), ids, d);
    }
    var ds := ActiveDevices(c.devices, user);
    assert forall k | 0 <= k < |ds| :: ds[k] in ds;
  }

  function ExecuteRevoke(w: World, e: Engine, op: Operation): (x: (Engine, Operation))
    requires op.route.Some? && op.server.Some? && ServersKnown(e)
    ensures |x.0.servers| == |e.servers| && ServersKnown(x.0)
  {
    var kind := Some(ProfileOf(e, op.server.value).adapter);
    if op.device.None? then (e, op.MarkFinished(Skipped, kind, MissingDevice, [], e.now))
    else
      var i := Find(e.bindings, op.device.value, op.route.value);
      if i == |e.bindings| then (e, op.MarkFinished(Skipped, kind, NoError, [], e.now))
      else
        var (e1, item) := RevokeBinding(w, e, i);
        (e1, op.MarkFinished(item.status, kind, item.error, [item], e1.now))
  }

  function ExecuteSync(w: World, c: Catalog, e: Engine, op: Operation): (x: (Engine, Operation))
    requires op.route.Some? && op.server.Some? && op.subscription.Some? && Linked(c, e, op)
    ensures |x.0.servers| == |e.servers| && (ServersKnown(e) ==> ServersKnown(x.0))
  {
    var kind := Some(ProfileOf(e, op.server.value).adapter);
    var targets := Targets(c, op);
    TargetsKnown(c, c.subscriptions[op.subscription.value].user);
    if targets == [] then (e, op.MarkFinished(Skipped, kind, NoError, [], e.now))
    else
      var (e1, items) := SyncDevices(w, c, e, op.subscription.value, targets, op.route.value);
      (e1, op.MarkFinished(if AnyFailed(items) then Failed else Succeeded, kind, FirstError(items), items, e1.now))
  }

  /** `execute_provisioning_operation`. */
  function Execute(w: World, c: Catalog, e: Engine, op: Operation): (x: (Engine, Operation))
    requires Linked(c, e, op) && ServersKnown(e)
    ensures |x.0.servers| == |e.servers| && ServersKnown(x.0)
  {
    if op.route.None? || op.server.None? then
      (e, op.MarkFinished(Skipped, None, MissingRouteOrServer, [], e.now))
    else
      var (e1, gate) := PassGates(w, e, op);
      match gate
      case Stop(status, code) =>
        (e1, op.MarkFinished(status, Some(ProfileOf(e1, op.server.value).adapter), code, [], e1.now))
      case Open =>
        if op.kind.RevokeDevice? then ExecuteRevoke(w, e1, op) else ExecuteSync(w, c, e1, op)
  }
}
