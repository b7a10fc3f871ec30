/** What whole operations come to, read off from the device table, the rows and the panels' answers alone. */
module OperationOutcomes {
  import opened Wrappers
  import opened Tables
  import opened Adapters
  import opened Provisioning
  import opened Lifecycle
  import opened Operations
  import opened CallOutcomes
  import Query

  // ----- The devices of a subscriber -----

  /** Seen later; among devices seen at the same time the one created later, then the one with the higher row number. */
  ghost predicate Ahead(devices: seq<Device>, a: nat, b: nat) {
    && a < |devices| && b < |devices|
    && var x, y := devices[a], devices[b];
      || x.lastSeen > y.lastSeen
      || (x.lastSeen == y.lastSeen && x.createdAt > y.createdAt)
      || (x.lastSeen == y.lastSeen && x.createdAt == y.createdAt && a > b)
  }

  /** Every device the user has not revoked, each once, newest first. */
  ghost predicate ActiveNewestFirst(devices: seq<Device>, user: nat, ds: seq<nat>) {
    && (forall d: nat :: d in ds <==> d < |devices| && devices[d].user == user && devices[d].revokedAt.None?)
    && (forall i, j | 0 <= i < j < |ds| :: Ahead(devices, ds[i], ds[j]))
  }

  lemma {:induction false} ActiveListed(devices: seq<Device>, user: nat)
    ensures ActiveNewestFirst(devices, user, ActiveDevices(devices, user))
  {
    var before := (a, b) => Newer(devices, a, b);
    var ids, ds := Query.Where(devices, (x: Device) => x.ActiveFor(user)), ActiveDevices(devices, user);
    assert ds == Query.OrderBy(before, ids);
    forall d: nat ensures d in ds <==> d < |devices| && devices[d].ActiveFor(user) {
      Query.OrderByMember(before, ids, d);
    }
    Query.OrderByOrdered(before, ids);
    ActiveDevicesDistinct(devices, user);
    forall i, j | 0 <= i < j < |ds| ensures Ahead(devices, ds[i], ds[j]) {
      assert before(ds[i], ds[j]);
    }
  }

  /** There is only one such list. */
  lemma {:induction false} ActiveListedOnce(devices: seq<Device>, user: nat, ds: seq<nat>, ds': seq<nat>)
    requires ActiveNewestFirst(devices, user, ds) && ActiveNewestFirst(devices, user, ds')
    ensures ds == ds'
  {
    AheadAgree(devices, ds, ds');
  }

  lemma {:induction false} AheadAgree(devices: seq<Device>, xs: seq<nat>, ys: seq<nat>)
    requires forall d: nat :: d in xs <==> d in ys
    requires forall i, j | 0 <= i < j < |xs| :: Ahead(devices, xs[i], xs[j])
    requires forall i, j | 0 <= i < j < |ys| :: Ahead(devices, ys[i], ys[j])
    ensures xs == ys
  {
    assert (xs != [] ==> xs[0] in xs) && (ys != [] ==> ys[0] in ys);
    if xs != [] {
      var i :| 0 <= i < |ys| && ys[i] == xs[0];
      var j :| 0 <= j < |xs| && xs[j] == ys[0];
      assert i == 0;
      TailsAgree(devices, xs, ys);
      AheadAgree(devices, xs[1..], ys[1..]);
    }
  }

  lemma {:induction false} TailsAgree(devices: seq<Device>, xs: seq<nat>, ys: seq<nat>)
    requires xs != [] && ys != [] && xs[0] == ys[0]
    requires forall d: nat :: d in xs <==> d in ys
    requires forall i, j | 0 <= i < j < |xs| :: Ahead(devices, xs[i], xs[j])
    requires forall i, j | 0 <= i < j < |ys| :: Ahead(devices, ys[i], ys[j])
    ensures forall d: nat :: d in xs[1..] <==> d in ys[1..]
  {
    assert xs == [xs[0]] + xs[1..] && ys == [ys[0]] + ys[1..];
    assert xs[0] !in xs[1..] && ys[0] !in ys[1..];
    forall d: nat ensures d in xs[1..] <==> d in ys[1..] {
      assert d in xs <==> d == xs[0] || d in xs[1..];
      assert d in ys <==> d == ys[0] || d in ys[1..];
    }
  }

  // ----- The gates -----

  /** An operation gets past the gates: its profile is enabled, its server is up and was heard from recently or answers
      now, and it has a subscription. */
  ghost predicate MayProceed(w: World, e: Engine, op: Operation)
    requires op.server.Some? && op.server.value < |e.servers|
  {
    var server := op.server.value;
    && ProfileInForce(e, server).isEnabled && Up(e.servers[server].status)
    && (HeardRecently(e, server) || Available(w.health(e.calls))) && op.subscription.Some?
  }

  /** The number of the first panel call after the gates. */
  ghost function FirstCall(e: Engine, op: Operation): nat
    requires op.server.Some? && op.server.value < |e.servers|
  {
    if HeardRecently(e, op.server.value) then e.calls else e.calls + 1
  }

  /** The servers as the gates leave them: one that answered a health check runs from then on. */
  ghost function ServersInForce(e: Engine, op: Operation, now: int): seq<Server>
    requires op.server.Some? && op.server.value < |e.servers|
  {
    var server := op.server.value;
    if HeardRecently(e, server) then e.servers
    else e.servers[server := e.servers[server].(status := Running, lastHeartbeat := now)]
  }

  lemma {:induction false} GatesPassed(w: World, e: Engine, op: Operation)
    requires op.server.Some? && op.server.value < |e.servers|
    ensures var (e1, gate) := PassGates(w, e, op);
      && (gate.Open? <==> MayProceed(w, e, op))
      && (gate.Stop? ==> StopsWith(w, e, op, gate.status, gate.error))
      && (gate.Open? ==> e1.calls == FirstCall(e, op) && e1.servers == ServersInForce(e, op, e1.now))
      && forall server: nat :: ProfileInForce(e1, server) == ProfileInForce(e, server)
  {
    GatesDecide(w, e, op);
  }

  /** An operation without a route or a server, or one that a gate stops, touches no row and reports why. */
  lemma {:induction false} StoppedForItsReason(w: World, c: Catalog, e: Engine, op: Operation)
    requires Linked(c, e, op) && ServersKnown(e)
    ensures var (e', op') := Execute(w, c, e, op);
      if op.route.None? || op.server.None? then
        op'.status == Skipped && op'.error == MissingRouteOrServer && op'.results == [] && e' == e
      else
        !MayProceed(w, e, op) ==>
          StopsWith(w, e, op, op'.status, op'.error) && op'.results == [] && e'.bindings == e.bindings
  {
    if op.route.Some? && op.server.Some? {
      GatesPassed(w, e, op);
    }
  }

  /** Every operation is stamped with the time it ended and, unless it had no route or server, with the adapter of its
      server's profile. */
  lemma {:induction false} OperationNamesAdapter(w: World, c: Catalog, e: Engine, op: Operation)
    requires Linked(c, e, op) && ServersKnown(e)
    ensures var (e', op') := Execute(w, c, e, op);
      && op'.finishedAt == Some(e'.now)
      && op'.adapter == (if op.route.None? || op.server.None? then None
                         else Some(ProfileInForce(e, op.server.value).adapter))
  {
    if op.route.Some? && op.server.Some? {
      GatesPassed(w, e, op);
    }
  }

  // ----- Rounds of a synchronisation -----

  /** An item says what the adapter answered for the device. */
  ghost predicate Follows(item: ResultItem, d: nat, answer: SyncOutcome) {
    && item.device == d && item.error == SyncError(answer)
    && item.status == (if answer.SyncDone? then Succeeded else Failed)
  }

  lemma {:induction false} RoundFollowsAnswer(w: World, c: Catalog, e: Engine, subscription: nat, d: nat, r: nat)
    requires Reachable(c, e, r) && d < |c.devices|
    ensures var (e', item) := SyncDevice(w, c, e, subscription, d, r);
      var server, answer := c.routes[r].server, w.sync(e.calls);
      && Follows(item, d, answer) && e'.calls == e.calls + 1 && e'.now == e.now + answer.elapsed
      && e'.servers == if answer.SyncDone? then e.servers
         else e.servers[server := e.servers[server].(status := Offline, lastHeartbeat := e'.now)]
  {
    var e1 := EnsureAccess(c, e, Some(subscription), d, r, w.uuid(e.calls));
    SyncFollowsAnswer(w, c, e1, Find(e.bindings, d, r));
  }

  /** The `k`th answer from call `start` on. */
  ghost function Answer(w: World, start: nat, k: nat): SyncOutcome {
    w.sync(start + k)
  }

  /** The first `n` answers from call `start` on were all successes. */
  ghost predicate AllDone(w: World, start: nat, n: nat) {
    forall k: nat | k < n :: Answer(w, start, k).SyncDone?
  }

  ghost predicate ItemsFollow(w: World, start: nat, ds: seq<nat>, items: seq<ResultItem>) {
    && |items| == |ds|
    && forall k: nat | k < |ds| :: Follows(items[k], ds[k], Answer(w, start, k))
  }

  /** Only the route's server can change, and only if a call failed: then it is offline. */
  ghost predicate ServersAfter(servers: seq<Server>, servers': seq<Server>, server: nat, allDone: bool) {
    && |servers'| == |servers| && server < |servers|
    && (forall s: nat | s < |servers| && (s != server || allDone) :: servers'[s] == servers[s])
    && (!allDone ==> servers'[server].status == Offline && servers'[server].hostname == servers[server].hostname)
  }

  ghost predicate LoopState(w: World, e: Engine, e': Engine, ds: seq<nat>, items: seq<ResultItem>, server: nat) {
    && e'.calls == e.calls + |ds| && ItemsFollow(w, e.calls, ds, items)
    && ServersAfter(e.servers, e'.servers, server, AllDone(w, e.calls, |ds|))
  }

  /** The loop makes one call per device, in order, whatever the earlier answers were. */
  lemma {:induction false} LoopFollowsAnswers(w: World, c: Catalog, e: Engine, subscription: nat, ds: seq<nat>, r: nat)
    requires Reachable(c, e, r) && Known(c, ds)
    ensures var (e', items) := SyncDevices(w, c, e, subscription, ds, r);
      LoopState(w, e, e', ds, items, c.routes[r].server)
  {
    if ds != [] {
      var n := |ds| - 1;
      var front, d := ds[..n], ds[n];
      assert front + [d] == ds;
      SyncDevicesAppend(w, c, e, subscription, front, d, r);
      LoopFollowsAnswers(w, c, e, subscription, front, r);
      var (e1, items) := SyncDevices(w, c, e, subscription, front, r);
      var (e2, item) := SyncDevice(w, c, e1, subscription, d, r);
      RoundFollowsAnswer(w, c, e1, subscription, d, r);
      LoopStateNext(w, e, e1, e2, front, items, d, item, c.routes[r].server);
    }
  }

  /** One call further. */
  lemma {:induction false} LoopStateNext(w: World, e: Engine, e1: Engine, e2: Engine, ds: seq<nat>,
                                         items: seq<ResultItem>, d: nat, item: ResultItem, server: nat)
    requires LoopState(w, e, e1, ds, items, server)
    requires var answer := w.sync(e1.calls);
      && Follows(item, d, answer) && e2.calls == e1.calls + 1
      && e2.servers == if answer.SyncDone? then e1.servers
         else e1.servers[server := e1.servers[server].(status := Offline, lastHeartbeat := e2.now)]
    ensures LoopState(w, e, e2, ds + [d], items + [item], server)
  {
    var n := |ds|;
    assert Answer(w, e.calls, n) == w.sync(e1.calls);
    assert AllDone(w, e.calls, n + 1) <==> AllDone(w, e.calls, n) && Answer(w, e.calls, n).SyncDone?;
    forall k: nat | k < n + 1 ensures Follows((items + [item])[k], (ds + [d])[k], Answer(w, e.calls, k)) {
      if k < n {
        assert Follows(items[k], ds[k], Answer(w, e.calls, k));
      }
    }
  }

  // ----- A whole synchronisation -----

  ghost predicate HasRow(bs: seq<Binding>, d: nat, r: nat, status: AccessStatus) {
    exists i | 0 <= i < |bs| :: bs[i].device == d && bs[i].route == r && bs[i].status == status
  }

  ghost predicate HasFailedRow(bs: seq<Binding>, d: nat, r: nat, error: ErrorCode) {
    exists i | 0 <= i < |bs| ::
      bs[i].device == d && bs[i].route == r && bs[i].status == Error && bs[i].lastError == error
  }

  /** One item per device, each as the adapter answered; the verdict is that of the rows left behind, and a failure is
      reported with the error of the first device that failed. */
  ghost predicate Accounts(w: World, start: nat, bs: seq<Binding>, ds: seq<nat>, r: nat, op: Operation) {
    && ItemsFollow(w, start, ds, op.results)
    && (op.status == Skipped <==> ds == []) && (op.status == Succeeded || op.status == Failed || op.status == Skipped)
    && (op.status == Failed <==> !AllDone(w, start, |ds|))
    && (op.status == Succeeded <==> ds != [] && forall d | d in ds :: HasRow(bs, d, r, Active))
    && (op.status != Failed ==> op.error == NoError)
    && (op.status == Failed ==>
          exists k: nat | k < |ds| ::
            && op.error == SyncError(Answer(w, start, k)) != NoError && HasFailedRow(bs, ds[k], r, op.error)
            && AllDone(w, start, k))
  }

  lemma {:induction false} FirstFailureAnswered(w: World, start: nat, ds: seq<nat>, items: seq<ResultItem>)
    requires ItemsFollow(w, start, ds, items)
    ensures AnyFailed(items) <==> !AllDone(w, start, |ds|)
    ensures FirstError(items) != NoError ==> AnyFailed(items)
    ensures AnyFailed(items) ==>
      exists k: nat | k < |ds| ::
        && FirstError(items) == SyncError(Answer(w, start, k)) != NoError && items[k].status.Failed?
        && AllDone(w, start, k)
  {
    if AnyFailed(items) {
      var k := FirstFailure(items);
      assert Follows(items[k], ds[k], Answer(w, start, k));
      forall j: nat | j < k ensures Answer(w, start, j).SyncDone? {
        assert Follows(items[j], ds[j], Answer(w, start, j));
      }
      assert AllDone(w, start, k);
    } else {
      NoFailureNoError(items);
      forall k: nat | k < |ds| ensures Answer(w, start, k).SyncDone? {
        assert Follows(items[k], ds[k], Answer(w, start, k));
      }
    }
  }

  lemma {:induction false} NoFailureNoError(items: seq<ResultItem>)
    requires !AnyFailed(items)
    ensures FirstError(items) == NoError
  {
    if items != [] {
      NoFailureNoError(items[1..]);
    }
  }

  /** The rows left behind agree with the items. */
  lemma {:induction false} RowsAgree(bs: seq<Binding>, subscription: nat, r: nat, ds: seq<nat>, items: seq<ResultItem>)
    requires AllReported(bs, subscription, r, ds, items) && OneRowPerKey(bs)
    ensures forall k | 0 <= k < |ds| :: HasRow(bs, ds[k], r, Active) <==> !items[k].status.Failed?
    ensures forall k | 0 <= k < |ds| && items[k].status.Failed? :: HasFailedRow(bs, ds[k], r, items[k].error)
  {
    forall k | 0 <= k < |ds|
      ensures HasRow(bs, ds[k], r, Active) <==> !items[k].status.Failed?
      ensures items[k].status.Failed? ==> HasFailedRow(bs, ds[k], r, items[k].error)
    {
      assert Reported(bs, subscription, r, ds[k], items[k]);
      var i := Find(bs, ds[k], r);
      assert bs[i].Keyed(ds[k], r);
    }
  }

  lemma {:induction false} LoopAccounts(w: World, c: Catalog, e: Engine, subscription: nat, ds: seq<nat>, r: nat,
                                        op: Operation)
    requires Reachable(c, e, r) && Known(c, ds) && BindingsOk(c, e) && subscription < |c.subscriptions|
    requires Distinct(ds) && ds != []
    requires var items := SyncDevices(w, c, e, subscription, ds, r).1;
      && op.results == items && op.status == (if AnyFailed(items) then Failed else Succeeded)
      && op.error == FirstError(items)
    ensures Accounts(w, e.calls, SyncDevices(w, c, e, subscription, ds, r).0.bindings, ds, r, op)
  {
    var (e', items) := SyncDevices(w, c, e, subscription, ds, r);
    LoopFollowsAnswers(w, c, e, subscription, ds, r);
    SyncDevicesReport(w, c, e, subscription, ds, r);
    SyncDevicesKeep(w, c, e, subscription, ds, r);
    RowsAgree(e'.bindings, subscription, r, ds, items);
    FirstFailureAnswered(w, e.calls, ds, items);
    if AnyFailed(items) {
      var k: nat :| k < |ds| && FirstError(items) == SyncError(Answer(w, e.calls, k)) != NoError
        && items[k].status.Failed? && AllDone(w, e.calls, k);
      assert Follows(items[k], ds[k], Answer(w, e.calls, k));
      assert ds[k] in ds && !HasRow(e'.bindings, ds[k], r, Active);
    }
  }

  /** The part after the gates, for whichever devices it is about. */
  lemma {:induction false} SyncAccounts(w: World, c: Catalog, e: Engine, op: Operation)
    requires Linked(c, e, op) && BindingsOk(c, e) && op.route.Some? && op.server.Some? && op.subscription.Some?
    ensures var (e', op') := ExecuteSync(w, c, e, op); var ds := Targets(c, op);
      && Accounts(w, e.calls, e'.bindings, ds, op.route.value, op') && e'.calls == e.calls + |ds|
      && ServersAfter(e.servers, e'.servers, c.routes[op.route.value].server, op'.status != Failed)
  {
    var ds := Targets(c, op);
    TargetsKnown(c, c.subscriptions[op.subscription.value].user);
    TargetsDistinct(c, op);
    if ds != [] {
      var op' := ExecuteSync(w, c, e, op).1;
      LoopFollowsAnswers(w, c, e, op.subscription.value, ds, op.route.value);
      LoopAccounts(w, c, e, op.subscription.value, ds, op.route.value, op');
    }
  }

  lemma {:induction false} PastTheGates(w: World, c: Catalog, e: Engine, op: Operation)
    requires Linked(c, e, op) && BindingsOk(c, e) && op.route.Some? && op.server.Some? && MayProceed(w, e, op)
    requires !op.kind.RevokeDevice?
    ensures ServersKnown(e)
    ensures var (e', op') := Execute(w, c, e, op);
      Accounts(w, FirstCall(e, op), e'.bindings, Targets(c, op), op.route.value, op')
  {
    BindingsOkKnown(c, e);
    GatesPassed(w, e, op);
    GatesKeep(w, c, e, op);
    var e1 := PassGates(w, e, op).0;
    assert Execute(w, c, e, op) == ExecuteSync(w, c, e1, op);
    SyncAccounts(w, c, e1, op);
  }

  ghost function DevicesOf(items: seq<ResultItem>): (ds: seq<nat>)
    ensures |ds| == |items| && forall k | 0 <= k < |items| :: ds[k] == items[k].device
  {
    seq(|items|, k requires 0 <= k < |items| => items[k].device)
  }

  /** One call and one item for every device the user has not revoked, newest first. The operation is skipped exactly
      if there is no such device, and otherwise succeeds exactly if every one of them has an active row on the route. */
  ghost predicate CoversDevices(w: World, start: nat, devices: seq<Device>, user: nat, bs: seq<Binding>, r: nat,
                                op: Operation)
  {
    var ds := DevicesOf(op.results);
    && ActiveNewestFirst(devices, user, ds) && Accounts(w, start, bs, ds, r, op)
    && (op.status == Skipped <==> forall d: nat | d < |devices| :: !devices[d].ActiveFor(user))
    && (op.status == Succeeded <==>
          && (exists d: nat :: d < |devices| && devices[d].ActiveFor(user))
          && forall d: nat | d < |devices| && devices[d].ActiveFor(user) :: HasRow(bs, d, r, Active))
  }

  lemma {:induction false} ItemsListDevices(w: World, start: nat, ds: seq<nat>, items: seq<ResultItem>)
    requires ItemsFollow(w, start, ds, items)
    ensures DevicesOf(items) == ds
  {
    forall k: nat | k < |ds| ensures DevicesOf(items)[k] == ds[k] {
      assert Follows(items[k], ds[k], Answer(w, start, k));
    }
  }

  lemma {:induction false} CoveredExactly(w: World, start: nat, devices: seq<Device>, user: nat, bs: seq<Binding>,
                                          ds: seq<nat>, r: nat, op: Operation)
    requires ActiveNewestFirst(devices, user, ds) && Accounts(w, start, bs, ds, r, op)
    ensures CoversDevices(w, start, devices, user, bs, r, op)
  {
    ItemsListDevices(w, start, ds, op.results);
    if ds != [] {
      assert ds[0] in ds;
    }
  }

  /** Past the gates an operation without a device goes through every device the subscriber has not revoked. */
  lemma {:induction false} SyncCoversEveryDevice(w: World, c: Catalog, e: Engine, op: Operation)
    requires Linked(c, e, op) && BindingsOk(c, e) && op.route.Some? && op.server.Some? && MayProceed(w, e, op)
    requires !op.kind.RevokeDevice? && op.device.None?
    ensures ServersKnown(e)
    ensures var (e', op') := Execute(w, c, e, op);
      CoversDevices(w, FirstCall(e, op), c.devices, c.subscriptions[op.subscription.value].user, e'.bindings,
                    op.route.value, op')
  {
    var user := c.subscriptions[op.subscription.value].user;
    PastTheGates(w, c, e, op);
    ActiveListed(c.devices, user);
    var (e', op') := Execute(w, c, e, op);
    CoveredExactly(w, FirstCall(e, op), c.devices, user, e'.bindings, Targets(c, op), op.route.value, op');
  }

  /** An operation aimed at one device makes one call, for that device, whoever owns it. */
  lemma {:induction false} AimedSyncFollowsAnswer(w: World, c: Catalog, e: Engine, op: Operation)
    requires Linked(c, e, op) && BindingsOk(c, e) && op.route.Some? && op.server.Some? && MayProceed(w, e, op)
    requires !op.kind.RevokeDevice? && op.device.Some?
    ensures ServersKnown(e)
    ensures var (e', op') := Execute(w, c, e, op);
      var d, r, answer := op.device.value, op.route.value, w.sync(FirstCall(e, op));
      && |op'.results| == 1 && Follows(op'.results[0], d, answer)
      && op'.status == (if answer.SyncDone? then Succeeded else Failed) && op'.error == SyncError(answer)
      && (answer.SyncDone? <==> HasRow(e'.bindings, d, r, Active))
      && (!answer.SyncDone? ==> HasFailedRow(e'.bindings, d, r, op'.error))
  {
    PastTheGates(w, c, e, op);
    var op', start := Execute(w, c, e, op).1, FirstCall(e, op);
    assert Targets(c, op) == [op.device.value];
    assert Follows(op'.results[0], op.device.value, Answer(w, start, 0));
    assert AllDone(w, start, 1) <==> Answer(w, start, 0).SyncDone?;
    assert op.device.value in Targets(c, op);
  }

  /** A failed synchronisation leaves the route's server offline; no other server is affected by the calls. */
  lemma {:induction false} FailedSyncTakesServerDown(w: World, c: Catalog, e: Engine, op: Operation)
    requires Linked(c, e, op) && BindingsOk(c, e) && op.route.Some? && op.server.Some? && MayProceed(w, e, op)
    requires !op.kind.RevokeDevice?
    ensures ServersKnown(e)
    ensures var (e', op') := Execute(w, c, e, op); var checkedAt := PassGates(w, e, op).0.now;
      ServersAfter(ServersInForce(e, op, checkedAt), e'.servers, c.routes[op.route.value].server, op'.status != Failed)
  {
    BindingsOkKnown(c, e);
    GatesPassed(w, e, op);
    GatesKeep(w, c, e, op);
    var e1 := PassGates(w, e, op).0;
    assert Execute(w, c, e, op) == ExecuteSync(w, c, e1, op);
    SyncAccounts(w, c, e1, op);
  }

  // ----- A whole revocation -----

  /** Past the gates a revoke operation for a device with a row on the route ends as its panel answers: succeeded and
      the row revoked, or failed with the panel's error, the row in error and the row's server offline. */
  lemma {:induction false} RevokeOperationFollowsAnswer(w: World, c: Catalog, e: Engine, op: Operation, i: nat)
    requires Linked(c, e, op) && BindingsOk(c, e) && op.route.Some? && op.server.Some? && MayProceed(w, e, op)
    requires op.kind.RevokeDevice? && op.device.Some?
    requires i < |e.bindings| && e.bindings[i].device == op.device.value && e.bindings[i].route == op.route.value
    ensures ServersKnown(e)
    ensures var (e', op') := Execute(w, c, e, op); var b := e.bindings[i];
      var error := RevokeError(ProfileInForce(e, b.server).adapter, b.email, w.revoke(FirstCall(e, op)));
      && b.server < |e'.servers| && |e'.bindings| == |e.bindings| && e'.bindings == e.bindings[i := e'.bindings[i]]
      && op'.error == error && op'.status == (if error == NoError then Succeeded else Failed)
      && op'.results == [ResultItem(op.device.value, op'.status, error, "")]
      && (error == NoError ==> e'.bindings[i].status == Revoked && e'.bindings[i].revokedAt == op'.finishedAt)
      && (error != NoError ==>
            && e'.bindings[i].status == Error && e'.bindings[i].lastError == error
            && e'.servers[b.server].status == Offline)
  {
    BindingsOkKnown(c, e);
    GatesPassed(w, e, op);
    var e1 := PassGates(w, e, op).0;
    assert Find(e.bindings, op.device.value, op.route.value) == i;
    RevokeFollowsAnswer(w, e1, i);
  }

  /** Without a device there is nobody to revoke; without a row there is nothing to revoke. */
  lemma {:induction false} NothingToRevoke(w: World, c: Catalog, e: Engine, op: Operation)
    requires Linked(c, e, op) && BindingsOk(c, e) && op.route.Some? && op.server.Some? && MayProceed(w, e, op)
    requires op.kind.RevokeDevice?
    requires op.device.Some? ==> forall i | 0 <= i < |e.bindings| ::
      !(e.bindings[i].device == op.device.value && e.bindings[i].route == op.route.value)
    ensures ServersKnown(e)
    ensures var (e', op') := Execute(w, c, e, op);
      && e'.bindings == e.bindings && op'.status == Skipped && op'.results == []
      && op'.error == (if op.device.None? then MissingDevice else NoError)
  {
    BindingsOkKnown(c, e);
    GatesPassed(w, e, op);
  }
}
