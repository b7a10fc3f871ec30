/** The backend's tables as one mutable object, and the services as methods that update it in place. */
module Backend {
  import opened Wrappers
  import opened Tables
  import opened Adapters
  import opened Provisioning
  import opened Lifecycle
  import opened Loops
  import opened Schedule
  import opened Services
  import opened Text
  import opened VlessLink
  import Devices
  import Feed
  import Routes

  class Database {
    const world: World
    const defaults: Defaults

    var now: int
    var calls: nat
    var servers: seq<Server>
    var profiles: map<nat, Profile>
    var snapshots: seq<Snapshot>
    var bindings: seq<Binding>
    var operations: seq<Operation>
    var devices: seq<Device>
    var routes: seq<Route>
    var subscriptions: seq<Subscription>
    var nextRouteId: nat

    /** What provisioning reads and writes. */
    function EngineView(): Engine
      reads this
    {
      Engine(now, calls, servers, profiles, snapshots, bindings)
    }

    function CatalogView(): Catalog
      reads this
    {
      Catalog(devices, routes, subscriptions, nextRouteId, defaults)
    }

    function View(): State
      reads this
    {
      State(CatalogView(), EngineView(), operations)
    }

    constructor (world: World, start: State)
      ensures View() == start && this.world == world
    {
      this.world := world;
      var e, c := start.engine, start.catalog;
      now, calls, servers, profiles, snapshots, bindings :=
        e.now, e.calls, e.servers, e.profiles, e.snapshots, e.bindings;
      devices, routes, subscriptions, nextRouteId := c.devices, c.routes, c.subscriptions, c.nextRouteId;
      operations := start.operations;
      defaults := c.defaults;
    }

    // ----- Servers -----

    /** `ensure_server_provisioning_profile`. */
    method GetProfile(server: nat) returns (profile: Profile)
      modifies this`profiles
      ensures EngineView() == EnsureProfile(old(EngineView()), server)
      ensures profile == ProfileOf(EngineView(), server)
    {
      if server !in profiles {
        profiles := profiles[server := Profile(Mock, true, "")];
      }
      profile := profiles[server];
    }

    /** `create_server_status_snapshot`. */
    method CreateSnapshot(server: nat, status: ServerStatus)
      requires server < |servers|
      modifies this`snapshots, this`servers
      ensures EngineView() == RecordSnapshot(old(EngineView()), server, status)
    {
      var snapshot := Snapshot(server, status, now);
      snapshots := snapshots + [snapshot];
      var row := servers[server];
      row := row.(status := status);
      row := row.(lastHeartbeat := snapshot.checkedAt);
      servers := servers[server := row];
    }

    /** Time spent waiting for the outside world. */
    method Await(elapsed: nat)
      modifies this`now, this`calls
      ensures EngineView() == AfterCall(old(EngineView()), elapsed)
    {
      now := now + elapsed;
      calls := calls + 1;
    }

    /** `refresh_server_provisioning_health`. */
    method CheckServerHealth(server: nat) returns (code: ErrorCode)
      requires server < |servers|
      modifies this`profiles, this`now, this`calls, this`snapshots, this`servers
      ensures (EngineView(), code) == RefreshHealth(world, old(EngineView()), server)
    {
      var profile := GetProfile(server);
      if !profile.isEnabled {
        CreateSnapshot(server, Maintenance);
        return ProvisioningDisabled;
      }
      var outcome := world.health(calls);
      Await(outcome.elapsed);
      match outcome {
        case HealthReport(_, available, _, reported) =>
          CreateSnapshot(server, if available then Running else Offline);
          code := reported;
        case HealthRaised(_, raised) =>
          CreateSnapshot(server, Offline);
          code := raised;
        case HealthCrashed(_) =>
          CreateSnapshot(server, Offline);
          code := RuntimeError;
      }
    }

    // ----- Bindings -----

    /** `ensure_provisioned_device_access`: get or create the row, then bring it up to date. */
    method EnsureBinding(subscription: Option<nat>, d: nat, r: nat) returns (i: nat)
      requires d < |devices| && r < |routes|
      modifies this`bindings
      ensures EngineView() == EnsureAccess(CatalogView(), old(EngineView()), subscription, d, r, world.uuid(calls))
      ensures i == Find(old(bindings), d, r)
    {
      var uuid := world.uuid(calls);
      var email := ClientEmail(if subscription.Some? then subscription.value else 0, d, routes[r].code);
      i := Find(bindings, d, r);
      if i == |bindings| {
        bindings := bindings + [Binding(devices[d].user, subscription, d, r, routes[r].server, Active, None,
                                        uuid, email, "", 0, "", NoError, None, None, None, None)];
        return;
      }
      var b := bindings[i];
      b := b.(user := devices[d].user);
      b := b.(subscription := subscription);
      b := b.(server := routes[r].server);
      if b.uuid == "" {
        b := b.(uuid := uuid);
      }
      if b.email == "" {
        b := b.(email := email);
      }
      bindings := bindings[i := b];
    }

    method MarkBindingFailed(i: nat, kind: AdapterKind, code: RaisedCode)
      requires i < |bindings|
      modifies this`bindings
      ensures bindings == old(bindings)[i := old(bindings)[i].MarkFailed(kind, code)]
    {
      var b := bindings[i];
      b := b.(status := Error);
      b := b.(adapter := Some(kind));
      b := b.(lastError := code);
      bindings := bindings[i := b];
    }

    method MarkBindingSynced(i: nat, result: BindingResult, expiry: Option<Told>)
      requires i < |bindings|
      modifies this`bindings
      ensures bindings == old(bindings)[i := old(bindings)[i].MarkSynced(result, expiry, now)]
    {
      var b := bindings[i];
      b := b.(status := Active, adapter := Some(result.adapter));
      b := b.(uuid := result.uuid, email := result.email, clientId := result.clientId);
      b := b.(inboundId := result.inboundId, url := result.url);
      b := b.(lastError := NoError);
      if b.provisionedAt.None? {
        b := b.(provisionedAt := Some(now));
      }
      b := b.(lastSyncedAt := Some(now), revokedAt := None);
      b := b.(told := expiry);
      bindings := bindings[i := b];
    }

    method MarkBindingRevoked(i: nat, kind: AdapterKind)
      requires i < |bindings|
      modifies this`bindings
      ensures bindings == old(bindings)[i := old(bindings)[i].MarkRevoked(kind, now)]
    {
      var b := bindings[i];
      b := b.(status := Revoked, adapter := Some(kind));
      b := b.(lastError := NoError);
      b := b.(lastSyncedAt := Some(now), revokedAt := Some(now));
      bindings := bindings[i := b];
    }

    /** The two steps after a failed adapter call. */
    method RecordFailure(i: nat, kind: AdapterKind, code: RaisedCode) returns (item: ResultItem)
      requires i < |bindings| && bindings[i].server < |servers|
      modifies this`snapshots, this`servers, this`bindings
      ensures (EngineView(), item) == CallFailed(old(EngineView()), i, kind, code)
    {
      CreateSnapshot(bindings[i].server, Offline);
      MarkBindingFailed(i, kind, code);
      item := ResultItem(bindings[i].device, Failed, code, "");
    }

    /** `_execute_sync_for_binding`. */
    method SyncOneBinding(i: nat) returns (item: ResultItem)
      requires i < |bindings| && bindings[i].server < |servers| && bindings[i].route < |routes|
      modifies this`profiles, this`now, this`calls, this`snapshots, this`servers, this`bindings
      ensures (EngineView(), item) == SyncBinding(world, CatalogView(), old(EngineView()), i)
    {
      var server := bindings[i].server;
      var profile := GetProfile(server);
      var outcome := world.sync(calls);
      Await(outcome.elapsed);
      match outcome {
        case SyncRaised(_, raised) =>
          item := RecordFailure(i, profile.adapter, raised);
        case SyncCrashed(_) =>
          item := RecordFailure(i, profile.adapter, RuntimeError);
        case SyncDone(_, inbound) =>
          var result := SyncResult(profile, servers[server].hostname, bindings[i], routes[bindings[i].route], inbound);
          MarkBindingSynced(i, result, ToldAfter(profile.adapter, CatalogView(), bindings[i]));
          item := ResultItem(bindings[i].device, Succeeded, NoError, bindings[i].url);
      }
    }

    /** `_execute_revoke_for_binding`. */
    method RevokeOneBinding(i: nat) returns (item: ResultItem)
      requires i < |bindings| && bindings[i].server < |servers|
      modifies this`profiles, this`now, this`calls, this`snapshots, this`servers, this`bindings
      ensures (EngineView(), item) == RevokeBinding(world, old(EngineView()), i)
    {
      var profile := GetProfile(bindings[i].server);
      var outcome := RevokeAnswer(profile, bindings[i], world.revoke(calls));
      Await(outcome.elapsed);
      match outcome {
        case RevokeRaised(_, raised) =>
          item := RecordFailure(i, profile.adapter, raised);
        case RevokeCrashed(_) =>
          item := RecordFailure(i, profile.adapter, RuntimeError);
        case RevokeDone(_) =>
          MarkBindingRevoked(i, profile.adapter);
          item := ResultItem(bindings[i].device, Succeeded, NoError, "");
      }
    }

    // ----- Operations -----

    /** `ProvisioningOperation.mark_finished`, field by field. */
    method MarkFinished(k: nat, status: OperationStatus, kind: Option<AdapterKind>, code: ErrorCode,
                        items: seq<ResultItem>)
      requires k < |operations|
      modifies this`operations
      ensures operations == old(operations)[k := old(operations)[k].MarkFinished(status, kind, code, items, now)]
    {
      var op := operations[k];
      op := op.(status := status);
      op := op.(results := items);
      op := op.(error := code);
      op := op.(adapter := kind);
      op := op.(finishedAt := Some(now));
      operations := operations[k := op];
    }

    /** One round of the device loop. */
    method SyncTarget(subscription: nat, d: nat, r: nat) returns (item: ResultItem)
      requires Reachable(CatalogView(), EngineView(), r) && d < |devices|
      modifies this`profiles, this`now, this`calls, this`snapshots, this`servers, this`bindings
      ensures (EngineView(), item) == SyncDevice(world, CatalogView(), old(EngineView()), subscription, d, r)
    {
      var i := EnsureBinding(Some(subscription), d, r);
      item := SyncOneBinding(i);
    }

    /** The device loop of a sync or repair. */
    method SyncTargets(subscription: nat, targets: seq<nat>, r: nat) returns (items: seq<ResultItem>)
      requires Reachable(CatalogView(), EngineView(), r) && Known(CatalogView(), targets)
      modifies this`profiles, this`now, this`calls, this`snapshots, this`servers, this`bindings
      ensures (EngineView(), items) == SyncDevices(world, CatalogView(), old(EngineView()), subscription, targets, r)
    {
      ghost var c, e := CatalogView(), EngineView();
      items := [];
      for k := 0 to |targets|
        invariant CatalogView() == c
        invariant (EngineView(), items) == SyncedSoFar(world, c, e, subscription, targets, r, k)
      {
        SyncedSoFarNext(world, c, e, subscription, targets, r, k);
        var item := SyncTarget(subscription, targets[k], r);
        items := items + [item];
      }
      assert targets[..|targets|] == targets;
    }

    /** The checks before an operation may do anything; a failed one finishes the operation. */
    method PassOrFinish(k: nat) returns (passed: bool)
      requires k < |operations| && operations[k].server.Some? && operations[k].server.value < |servers|
      modifies this`profiles, this`now, this`calls, this`snapshots, this`servers, this`operations
      ensures EngineView() == PassGates(world, old(EngineView()), old(operations)[k]).0
      ensures match PassGates(world, old(EngineView()), old(operations)[k]).1
        case Open => passed && operations == old(operations)
        case Stop(status, code) => !passed && operations == old(operations)[k :=
          old(operations)[k].MarkFinished(status,
            Some(ProfileOf(EngineView(), old(operations)[k].server.value).adapter), code, [], now)]
    {
      var server := operations[k].server.value;
      var profile := GetProfile(server);
      if !profile.isEnabled {
        MarkFinished(k, Skipped, Some(profile.adapter), ProvisioningDisabled, []);
        return false;
      }
      if servers[server].status.Down() {
        MarkFinished(k, Failed, Some(profile.adapter), ServerUnavailable, []);
        return false;
      }
      if now - servers[server].lastHeartbeat >= HEARTBEAT_MAX_AGE {
        var code := CheckServerHealth(server);
        if servers[server].status.Down() {
          MarkFinished(k, Failed, Some(profile.adapter), if code == NoError then ServerUnavailable else code, []);
          return false;
        }
      }
      if operations[k].subscription.None? {
        MarkFinished(k, Skipped, Some(profile.adapter), MissingSubscription, []);
        return false;
      }
      passed := true;
    }

    method RunRevoke(k: nat)
      requires k < |operations| && operations[k].server.Some? && operations[k].route.Some? && ServersKnown(EngineView())
      modifies this`profiles, this`now, this`calls, this`snapshots, this`servers, this`bindings, this`operations
      ensures var x := ExecuteRevoke(world, old(EngineView()), old(operations)[k]);
        EngineView() == x.0 && operations == old(operations)[k := x.1]
    {
      var op := operations[k];
      var kind := Some(ProfileOf(EngineView(), op.server.value).adapter);
      if op.device.None? {
        MarkFinished(k, Skipped, kind, MissingDevice, []);
        return;
      }
      var i := Find(bindings, op.device.value, op.route.value);
      if i == |bindings| {
        MarkFinished(k, Skipped, kind, NoError, []);
        return;
      }
      var item := RevokeOneBinding(i);
      MarkFinished(k, item.status, kind, item.error, [item]);
    }

    method RunSync(k: nat)
      requires k < |operations| && operations[k].server.Some? && operations[k].route.Some?
        && operations[k].subscription.Some?
      requires Linked(CatalogView(), EngineView(), operations[k])
      modifies this`profiles, this`now, this`calls, this`snapshots, this`servers, this`bindings, this`operations
      ensures var x := ExecuteSync(world, CatalogView(), old(EngineView()), old(operations)[k]);
        EngineView() == x.0 && operations == old(operations)[k := x.1]
    {
      var op := operations[k];
      var kind := Some(ProfileOf(EngineView(), op.server.value).adapter);
      var targets := FindTargets(op);
      SyncOverIsExecuteSync(world, CatalogView(), EngineView(), op, targets, kind);
      SyncAndFinish(k, op.subscription.value, targets, op.route.value, kind);
    }

    method SyncAndFinish(k: nat, subscription: nat, targets: seq<nat>, r: nat, kind: Option<AdapterKind>)
      requires k < |operations| && Reachable(CatalogView(), EngineView(), r) && Known(CatalogView(), targets)
      modifies this`profiles, this`now, this`calls, this`snapshots, this`servers, this`bindings, this`operations
      ensures var x := SyncOver(world, CatalogView(), old(EngineView()), old(operations)[k], subscription, targets,
        r, kind);
        EngineView() == x.0 && operations == old(operations)[k := x.1]
    {
      if targets == [] {
        MarkFinished(k, Skipped, kind, NoError, []);
      } else {
        SyncAll(k, subscription, targets, r, kind);
      }
    }

    method SyncAll(k: nat, subscription: nat, targets: seq<nat>, r: nat, kind: Option<AdapterKind>)
      requires k < |operations| && Reachable(CatalogView(), EngineView(), r) && Known(CatalogView(), targets)
      modifies this`profiles, this`now, this`calls, this`snapshots, this`servers, this`bindings, this`operations
      ensures var x := SyncDevices(world, CatalogView(), old(EngineView()), subscription, targets, r);
        EngineView() == x.0 && operations == old(operations)[k := Concluded(old(operations)[k], kind, x.1, x.0.now)]
    {
      var items := SyncTargets(subscription, targets, r);
      FinishSync(k, kind, items);
    }

    /** The operation's own device, or else every active device of the subscriber. */
    method FindTargets(op: Operation) returns (targets: seq<nat>)
      requires op.subscription.Some? && Linked(CatalogView(), EngineView(), op)
      ensures targets == Targets(CatalogView(), op) && Known(CatalogView(), targets)
    {
      var user := subscriptions[op.subscription.value].user;
      TargetsKnown(CatalogView(), user);
      targets := if op.device.Some? then [op.device.value] else ActiveDevices(devices, user);
    }

    /** The verdict on the collected items. */
    method FinishSync(k: nat, kind: Option<AdapterKind>, items: seq<ResultItem>)
      requires k < |operations|
      modifies this`operations
      ensures operations == old(operations)[k := Concluded(old(operations)[k], kind, items, now)]
    {
      var failed: seq<ResultItem> := [];
      for j := 0 to |items|
        invariant FailedItems(items[..j]) == failed
      {
        assert items[..j + 1][..j] == items[..j];
        if items[j].status.Failed? {
          failed := failed + [items[j]];
        }
      }
      assert items[..|items|] == items;
      FailedItemsTell(items);
      if failed != [] {
        MarkFinished(k, Failed, kind, failed[0].error, items);
      } else {
        MarkFinished(k, Succeeded, kind, NoError, items);
      }
    }

    /** `execute_provisioning_operation` on logged operation `k`. */
    method ExecuteOperation(k: nat)
      requires k < |operations| && Linked(CatalogView(), EngineView(), operations[k]) && ServersKnown(EngineView())
      modifies this`profiles, this`now, this`calls, this`snapshots, this`servers, this`bindings, this`operations
      ensures var x := Execute(world, CatalogView(), old(EngineView()), old(operations)[k]);
        EngineView() == x.0 && operations == old(operations)[k := x.1]
    {
      var op := operations[k];
      if op.route.None? || op.server.None? {
        MarkFinished(k, Skipped, None, MissingRouteOrServer, []);
        return;
      }
      var passed := PassOrFinish(k);
      if !passed {
        return;
      }
      if op.kind.RevokeDevice? {
        RunRevoke(k);
      } else {
        RunSync(k);
      }
    }

    /** `schedule_*`: one operation per managed route, in order. */
    method ScheduleBatch(subscription: nat, device: Option<nat>, kind: OperationKind) returns (ops: seq<Operation>)
      requires Wired(CatalogView(), EngineView()) && subscription < |subscriptions|
      requires device.Some? ==> device.value < |devices|
      modifies this`profiles, this`now, this`calls, this`snapshots, this`servers, this`bindings, this`operations
      ensures (View(), ops) == ScheduleFor(world, old(View()), subscription, device, kind)
    {
      BatchReachable(CatalogView(), EngineView(), subscription);
      ops := ScheduleOver(subscription, device, kind, Managed(InOrder(subscriptions[subscription].routes)));
    }

    /** The loop: log a pending operation and execute it at once, route by route. */
    method ScheduleOver(subscription: nat, device: Option<nat>, kind: OperationKind,
                        batch: seq<nat>) returns (ops: seq<Operation>)
      requires AllReachable(CatalogView(), EngineView(), batch) && ServersKnown(EngineView())
        && subscription < |subscriptions|
      requires device.Some? ==> device.value < |devices|
      modifies this`profiles, this`now, this`calls, this`snapshots, this`servers, this`bindings, this`operations
      ensures (EngineView(), ops)
        == RunBatch(world, CatalogView(), old(EngineView()), subscription, device, kind, batch)
      ensures operations == old(operations) + ops
    {
      ghost var c, e := CatalogView(), EngineView();
      ops := [];
      for k := 0 to |batch|
        invariant CatalogView() == c
        invariant |ops| == k && operations == old(operations) + ops
        invariant BatchSoFar(world, c, e, subscription, device, kind, batch, k) == (EngineView(), ops)
      {
        ghost var done := ops;
        ops := ScheduleNext(e, subscription, device, kind, batch, k, ops);
        LogGrows(old(operations), done, ops[k]);
      }
      assert batch[..|batch|] == batch;
    }

    /** One round of the loop. */
    method ScheduleNext(ghost e: Engine, subscription: nat, device: Option<nat>, kind: OperationKind, batch: seq<nat>,
                        k: nat, done: seq<Operation>) returns (ops: seq<Operation>)
      requires AllReachable(CatalogView(), e, batch) && ServersKnown(e) && subscription < |subscriptions| && k < |batch|
      requires device.Some? ==> device.value < |devices|
      requires BatchSoFar(world, CatalogView(), e, subscription, device, kind, batch, k) == (EngineView(), done)
      modifies this`profiles, this`now, this`calls, this`snapshots, this`servers, this`bindings, this`operations
      ensures BatchSoFar(world, CatalogView(), e, subscription, device, kind, batch, k + 1) == (EngineView(), ops)
      ensures |ops| == |done| + 1 && ops == done + [ops[|done|]] && operations == old(operations) + [ops[|done|]]
    {
      BatchSoFarNext(world, CatalogView(), e, subscription, device, kind, batch, k);
      var op := ScheduleOne(subscription, device, kind, batch[k]);
      ops := done + [op];
    }

    method ScheduleOne(subscription: nat, device: Option<nat>, kind: OperationKind, r: nat) returns (op: Operation)
      requires Reachable(CatalogView(), EngineView(), r) && ServersKnown(EngineView()) && subscription < |subscriptions|
      requires device.Some? ==> device.value < |devices|
      modifies this`profiles, this`now, this`calls, this`snapshots, this`servers, this`bindings, this`operations
      ensures (EngineView(), op) == Execute(world, CatalogView(), old(EngineView()), NextOperation(CatalogView(),
        subscription, device, kind, r))
      ensures operations == old(operations) + [op]
    {
      NextIsLinked(CatalogView(), EngineView(), subscription, device, kind, r);
      var k := CreateOperation(NewOperation(subscriptions[subscription].user, subscription, device, r,
        routes[r].server, kind));
      ExecuteOperation(k);
      op := operations[k];
    }

    method CreateOperation(op: Operation) returns (k: nat)
      modifies this`operations
      ensures k == |old(operations)| && operations == old(operations) + [op]
    {
      k := |operations|;
      operations := operations + [op];
    }

    /** A batch for the user's subscription, if the user has one. */
    method ScheduleUserBatch(user: nat, device: Option<nat>, kind: OperationKind)
      requires Wired(CatalogView(), EngineView()) && (device.Some? ==> device.value < |devices|)
      modifies this`profiles, this`now, this`calls, this`snapshots, this`servers, this`bindings, this`operations
      ensures View() == ScheduleForUser(world, old(View()), user, device, kind)
    {
      var k := SubscriptionOf(subscriptions, user);
      if k < |subscriptions| {
        var ops := ScheduleBatch(k, device, kind);
      }
    }

    // ----- Devices -----

    /** `touch_public_subscription_device`. */
    method TouchDevice(subscription: nat, req: Devices.TouchRequest) returns (reply: Result<(nat, bool),
                       Devices.TouchError>)
      requires subscription < |subscriptions|
      modifies this`devices
      ensures match Devices.TouchDevice(old(devices), now, subscriptions[subscription].user,
        subscriptions[subscription].maxDevices, req)
        case Err(error) => reply == Err(error) && devices == old(devices)
        case Ok(t) => reply == Ok((t.device, t.created)) && devices == t.devices
    {
      if req.ip == "" {
        return Err(Devices.IpUnavailable);
      }
      var user := subscriptions[subscription].user;
      var existing := FindDevice(user, req.ip, Devices.NormalizeKey(req.key));
      if existing.Some? {
        UpdateDevice(existing.value, req);
        return Ok((existing.value, false));
      }
      if Devices.ActiveCount(devices, user) >= subscriptions[subscription].maxDevices {
        return Err(Devices.LimitExceeded);
      }
      CreateDevice(user, req);
      return Ok((|devices| - 1, true));
    }

    /** The lookup by key, if there is one, and then by address. */
    method FindDevice(user: nat, ip: string, key: string) returns (existing: Option<nat>)
      ensures existing == Devices.Existing(devices, user, ip, key)
    {
      existing := None;
      if key != "" {
        existing := Devices.ByKey(devices, user, key);
      }
      if existing.None? {
        existing := Devices.ByIp(devices, user, ip);
      }
    }

    /** The row of a device seen for the first time. */
    method CreateDevice(user: nat, req: Devices.TouchRequest)
      modifies this`devices
      ensures devices == old(devices) + [Devices.NewRow(user, now, req)]
    {
      var platform := OrElse(Strip(req.platform), "Unknown");
      var client := OrElse(Strip(req.client), "Happ");
      var name := Devices.NormalizeName(req.name, platform);
      var key := Devices.NormalizeKey(req.key);
      devices := devices + [Device(user, name, platform, client, req.ip, key, now, now, None, "")];
    }

    /** What a touch writes on a device that is already there. */
    method UpdateDevice(d: nat, req: Devices.TouchRequest)
      requires d < |devices|
      modifies this`devices
      ensures devices == old(devices)[d := Devices.TouchedRow(old(devices)[d], now, req)]
    {
      var platform := OrElse(Strip(req.platform), "Unknown");
      var key := Devices.NormalizeKey(req.key);
      var x := devices[d];
      x := x.(lastSeen := now);
      x := x.(ip := req.ip);
      x := x.(platform := platform);
      x := x.(client := OrElse(Strip(req.client), "Happ"));
      if key != "" {
        x := x.(key := key);
      }
      x := x.(name := Devices.NormalizeName(req.name, platform));
      devices := devices[d := x];
    }

    /** `touch_public_subscription`: refused before anything is written, or bound and repaired. */
    method TouchSubscription(subscription: nat, req: Devices.TouchRequest, pending: bool)
      returns (reply: Result<(nat, bool, seq<Operation>), Devices.TouchError>)
      requires Wired(CatalogView(), EngineView()) && subscription < |subscriptions|
      modifies this
      ensures match Touch(world, old(View()), subscription, req, pending)
        case Err(error) => reply == Err(error) && View() == old(View())
        case Ok(t) => reply == Ok((t.device, t.created, t.operations)) && View() == t.state
    {
      var status := StatusOf(Some(subscriptions[subscription]), Today(now), pending);
      if !status.Trial? && !status.Paid? {
        return Err(Devices.SubscriptionInactive);
      }
      ghost var before := View();
      var touched := TouchDevice(subscription, req);
      match touched {
        case Err(error) => return Err(error);
        case Ok((d, created)) =>
          assert View() == WithDevices(before, devices);
          var ops := ScheduleBatch(subscription, Some(d), RepairDevice);
          return Ok((d, created, ops));
      }
    }

    /** The repair endpoint. */
    method RepairUserDevice(user: nat, d: nat) returns (accepted: bool)
      requires Wired(CatalogView(), EngineView())
      modifies this
      ensures View() == Repair(world, old(View()), user, d) && accepted == Devices.Live(old(devices), user, d)
    {
      accepted := Devices.Live(devices, user, d);
      if accepted {
        ScheduleUserBatch(user, Some(d), RepairDevice);
      }
    }

    /** The revoke endpoint. */
    method RevokeUserDevice(user: nat, d: nat, reason: string) returns (accepted: bool)
      requires Wired(CatalogView(), EngineView())
      modifies this
      ensures View() == Revoke(world, old(View()), user, d, reason) && accepted == Devices.Live(old(devices), user, d)
    {
      accepted := Devices.Live(devices, user, d);
      if accepted {
        var x := devices[d];
        x := x.(revokedAt := Some(now));
        x := x.(revokedReason := Strip(reason));
        devices := devices[d := x];
        ScheduleUserBatch(user, Some(d), RevokeDevice);
      }
    }

    // ----- Subscriptions -----

    /** `ensure_subscription_routes`: update or create a row per definition, then delete the rest. */
    method EnsureRoutes(k: nat, defs: seq<Definition>)
      requires k < |subscriptions| && Routes.InCatalog(routes, defs)
      modifies this`subscriptions, this`nextRouteId
      ensures var t := Routes.Reconcile(routes, defs,
        Routes.RouteTable(old(subscriptions)[k].routes, old(nextRouteId)));
        subscriptions == old(subscriptions)[k := old(subscriptions)[k].(routes := t.rows)] && nextRouteId == t.nextId
    {
      var rows := ApplyDefinitions(subscriptions[k].routes, defs);
      rows := Routes.KeepDefined(rows, defs);
      subscriptions := subscriptions[k := subscriptions[k].(routes := rows)];
    }

    /** The pass over the definitions. */
    method ApplyDefinitions(existing: seq<SubscriptionRoute>,
                            defs: seq<Definition>) returns (rows: seq<SubscriptionRoute>)
      requires Routes.InCatalog(routes, defs)
      modifies this`nextRouteId
      ensures Routes.RouteTable(rows, nextRouteId)
           == Routes.ApplyDefinitions(routes, defs, Routes.RouteTable(existing, old(nextRouteId)))
    {
      ghost var t := Routes.RouteTable(existing, nextRouteId);
      rows := existing;
      for i := 0 to |defs|
        invariant Routes.RouteTable(rows, nextRouteId) == Routes.ApplyDefinitions(routes, defs[..i], t)
        invariant |existing| <= |rows| && forall m | 0 <= m < |existing| :: rows[m].code == existing[m].code
      {
        assert defs[..i + 1][..i] == defs[..i];
        var def, r, j := defs[i], Routes.FindRoute(routes, defs[i].code), Routes.FindCode(existing, defs[i].code);
        var title := OrElse(routes[r].locationName, def.title);
        if j == |existing| {
          rows := rows + [SubscriptionRoute(nextRouteId, def.code, title, routes[r].endpointUrl, Some(r), i + 1)];
          nextRouteId := nextRouteId + 1;
        } else {
          var row := rows[j];
          row := row.(title := title);
          row := row.(url := routes[r].endpointUrl);
          row := row.(route := Some(r));
          row := row.(position := i + 1);
          rows := rows[j := row];
        }
      }
      assert defs[..|defs|] == defs;
    }

    /** `activate_subscription_plan`; an unknown plan is refused before anything is written. */
    method ActivatePlan(user: nat, code: string) returns (accepted: bool)
      requires Wired(CatalogView(), EngineView())
      modifies this
      ensures match Activate(world, old(View()), user, code)
        case None => !accepted && View() == old(View())
        case Some(s) => accepted && View() == s
    {
      var found := FindPlan(code);
      if found.None? {
        return false;
      }
      ghost var c, e := CatalogView(), EngineView();
      ActivatedWired(c, e, user, found.value, Today(now));
      var k := StoreActivation(user, found.value);
      var ops := ScheduleBatch(k, None, SyncSubscription);
      accepted := true;
    }

    /** What an activation writes before anything is scheduled. */
    method StoreActivation(user: nat, plan: Plan) returns (k: nat)
      requires Routes.InCatalog(routes, defaults.paid)
      modifies this`subscriptions, this`nextRouteId
      ensures k == SubscriptionOf(old(subscriptions), user) && k < |subscriptions|
      ensures CatalogView() == Activated(old(CatalogView()), user, plan, Today(now))
    {
      ghost var c, x := CatalogView(), Renewed(CatalogView(), user, plan, Today(now));
      k := RenewSubscription(user, plan);
      EnsureRoutes(k, defaults.paid);
      Overwritten(c, k, x, c.nextRouteId, subscriptions[k], nextRouteId);
    }

    /** Creates the subscription, or renews it from its end date or today, whichever is later. */
    method RenewSubscription(user: nat, plan: Plan) returns (k: nat)
      modifies this`subscriptions
      ensures k == SubscriptionOf(old(subscriptions), user) && k < |subscriptions|
      ensures CatalogView() == WithSubscription(old(CatalogView()), k, Renewed(old(CatalogView()), user, plan,
        Today(now)), nextRouteId)
    {
      var today := Today(now);
      k := SubscriptionOf(subscriptions, user);
      if k == |subscriptions| {
        subscriptions := subscriptions + [Subscription(user, plan.code, today, today + plan.days, plan.maxDevices, [])];
        return;
      }
      var x := subscriptions[k];
      var base := if x.endsAt >= today then x.endsAt else today;
      x := x.(plan := plan.code);
      x := x.(startsAt := today);
      x := x.(endsAt := base + plan.days);
      x := x.(maxDevices := plan.maxDevices);
      subscriptions := subscriptions[k := x];
    }

    /** `extend_subscription_by_days`. */
    method ExtendByDays(k: nat, days: int) returns (accepted: bool)
      requires k < |subscriptions|
      modifies this`subscriptions
      ensures match Extend(old(View()), k, days)
        case None => !accepted && View() == old(View())
        case Some(s) => accepted && View() == s
    {
      if days <= 0 {
        return false;
      }
      var today := Today(now);
      var x := subscriptions[k];
      var base := if x.endsAt >= today then x.endsAt else today;
      x := x.(endsAt := base + days);
      subscriptions := subscriptions[k := x];
      accepted := true;
    }

    /** `create_trial_subscription`. */
    method CreateTrial(user: nat)
      requires Wired(CatalogView(), EngineView())
      modifies this
      ensures View() == StartTrial(world, old(View()), user)
    {
      if SubscriptionOf(subscriptions, user) == |subscriptions| {
        TrialWired(CatalogView(), EngineView(), user, Today(now));
        var k := StoreTrial(user);
        var ops := ScheduleBatch(k, None, SyncSubscription);
      }
    }

    /** What a trial writes before anything is scheduled. */
    method StoreTrial(user: nat) returns (k: nat)
      requires Routes.InCatalog(routes, defaults.trial)
      modifies this`subscriptions, this`nextRouteId
      ensures k == |old(subscriptions)| < |subscriptions|
      ensures CatalogView() == TrialCatalog(old(CatalogView()), user, Today(now))
    {
      k := |subscriptions|;
      subscriptions := subscriptions + [TrialSubscription(user, Today(now))];
      EnsureRoutes(k, defaults.trial);
    }

    // ----- The public view -----

    /** `build_subscription_route_access_snapshot`: a dictionary of usable rows, then one entry per route. */
    method RouteAccessSnapshot(k: nat, ip: string, key: string) returns (view: Feed.View)
      requires k < |subscriptions| && Feed.RowsKnown(CatalogView(), subscriptions[k].routes) && OneRowPerKey(bindings)
      ensures view == Feed.Snapshot(CatalogView(), bindings, k, ip, key)
    {
      var device := Devices.Resolve(devices, subscriptions[k].user, ip, key);
      var links: map<nat, string> := map[];
      if device.Some? {
        links := CollectLinks(bindings, k, device.value);
      }
      Feed.InOrderKnown(CatalogView(), subscriptions[k].routes);
      view := ShowRoutes(CatalogView(), bindings, k, device, InOrder(subscriptions[k].routes), links);
    }

    /** `build_public_subscription_feed`. */
    method PublicFeed(k: nat, ip: string, key: string) returns (text: string)
      requires k < |subscriptions| && Feed.RowsKnown(CatalogView(), subscriptions[k].routes) && OneRowPerKey(bindings)
      ensures text == Feed.PublicFeed(CatalogView(), bindings, k, ip, key)
    {
      var view := RouteAccessSnapshot(k, ip, key);
      text := Feed.FeedText(Feed.Urls(view.routes));
    }
  }
}
