/** Running one operation per managed route, and what the whole batch keeps and reports. */
module Schedule {
  import opened Wrappers
  import opened Tables
  import opened Adapters
  import opened Provisioning
  import opened Lifecycle
  import opened ServerCache
  import opened Operations
  import Query

  predicate RouteBefore(a: SubscriptionRoute, b: SubscriptionRoute) {
    a.position < b.position || (a.position == b.position && a.id <= b.id)
  }

  /** `ORDER BY position, id`. */
  function InOrder(rows: seq<SubscriptionRoute>): seq<SubscriptionRoute> {
    Query.OrderBy(RouteBefore, rows)
  }

  /** The catalogue routes among the rows, in the order of the rows. */
  function Managed(rows: seq<SubscriptionRoute>): (r: seq<nat>)
    ensures |r| <= |rows|
    ensures forall x :: x in r ==> exists row | row in rows :: row.route == Some(x)
  {
    if rows == [] then []
    else
      assert rows == [rows[0]] + rows[1..];
      var rest := Managed(rows[1..]);
      assert forall x | x in rest :: exists row | row in rows[1..] :: row.route == Some(x);
      assert rows[0] in rows;
      if rows[0].route.Some? then [rows[0].route.value] + rest else rest
  }

  function NewOperation(user: nat, subscription: nat, device: Option<nat>, route: nat, server: nat,
                        kind: OperationKind): Operation {
    Operation(user, Some(subscription), device, Some(route), Some(server), kind, Pending, None, NoError, [], None)
  }

  /** The routes of a batch exist and so do their servers. */
  predicate AllReachable(c: Catalog, e: Engine, routes: seq<nat>) {
    forall k | 0 <= k < |routes| :: Reachable(c, e, routes[k])
  }

  /** Runs a fresh operation on each route in turn. */
  function RunBatch(w: World, c: Catalog, e: Engine, subscription: nat, device: Option<nat>, kind: OperationKind,
                    routes: seq<nat>): (x: (Engine, seq<Operation>))
    requires AllReachable(c, e, routes) && ServersKnown(e) && subscription < |c.subscriptions|
    requires device.Some? ==> device.value < |c.devices|
    ensures |x.0.servers| == |e.servers| && ServersKnown(x.0) && |x.1| == |routes|
  {
    if routes == [] then (e, [])
    else
      var n := |routes| - 1;
      var (e1, ops) := RunBatch(w, c, e, subscription, device, kind, routes[..n]);
      var (e2, op) := Execute(w, c, e1, NextOperation(c, subscription, device, kind, routes[n]));
      (e2, ops + [op])
  }

  /** The batch, one route further. */
  lemma {:induction false} RunBatchNext(w: World, c: Catalog, e: Engine, subscription: nat, device: Option<nat>,
                                        kind: OperationKind, routes: seq<nat>, k: nat)
    requires AllReachable(c, e, routes) && ServersKnown(e) && subscription < |c.subscriptions| && k < |routes|
    requires device.Some? ==> device.value < |c.devices|
    ensures var x := RunBatch(w, c, e, subscription, device, kind, routes[..k]);
      var y := Execute(w, c, x.0, NextOperation(c, subscription, device, kind, routes[k]));
      RunBatch(w, c, e, subscription, device, kind, routes[..k + 1]) == (y.0, x.1 + [y.1])
  {
    assert routes[..k + 1][..k] == routes[..k];
  }

  function NextOperation(c: Catalog, subscription: nat, device: Option<nat>, kind: OperationKind, r: nat): Operation
    requires subscription < |c.subscriptions| && r < |c.routes|
  {
    NewOperation(c.subscriptions[subscription].user, subscription, device, r, c.routes[r].server, kind)
  }

  lemma {:induction false} NextIsLinked(c: Catalog, e: Engine, subscription: nat, device: Option<nat>,
                                        kind: OperationKind, r: nat)
    requires Reachable(c, e, r) && subscription < |c.subscriptions| && (device.Some? ==> device.value < |c.devices|)
    ensures Linked(c, e, NextOperation(c, subscription, device, kind, r))
  {
  }

  ghost predicate FinishedFor(op: Operation, subscription: nat, device: Option<nat>, kind: OperationKind, r: nat) {
    && (op.status.Succeeded? || op.status.Failed? || op.status.Skipped?)
    && op.finishedAt.Some? && op.route == Some(r) && op.kind == kind
    && op.subscription == Some(subscription) && op.device == device
  }

  /** One finished operation per managed route, in order. */
  ghost predicate OnePerRoute(subscription: nat, device: Option<nat>, kind: OperationKind,
                              routes: seq<nat>, ops: seq<Operation>) {
    && |ops| == |routes|
    && forall k | 0 <= k < |ops| :: FinishedFor(ops[k], subscription, device, kind, routes[k])
  }

  lemma {:induction false} NextKeeps(w: World, c: Catalog, e: Engine, subscription: nat, device: Option<nat>,
                                     kind: OperationKind, r: nat)
    requires Reachable(c, e, r) && BindingsOk(c, e) && subscription < |c.subscriptions|
    requires device.Some? ==> device.value < |c.devices|
    ensures ServersKnown(e)
    ensures var (e', op) := Execute(w, c, e, NextOperation(c, subscription, device, kind, r));
      Keeps(c, e, e') && FinishedFor(op, subscription, device, kind, r)
  {
    ExecuteKeeps(w, c, e, NextOperation(c, subscription, device, kind, r));
  }

  lemma {:induction false} OnePerRouteGrows(subscription: nat, device: Option<nat>, kind: OperationKind,
                                            front: seq<nat>, ops: seq<Operation>, r: nat, op: Operation)
    requires OnePerRoute(subscription, device, kind, front, ops) && FinishedFor(op, subscription, device, kind, r)
    ensures OnePerRoute(subscription, device, kind, front + [r], ops + [op])
  {
  }

  /** A batch returns one finished operation per route and keeps what operations keep. */
  lemma {:induction false} BatchKeeps(w: World, c: Catalog, e: Engine, subscription: nat, device: Option<nat>,
                                      kind: OperationKind, routes: seq<nat>)
    requires AllReachable(c, e, routes) && BindingsOk(c, e) && subscription < |c.subscriptions|
    requires device.Some? ==> device.value < |c.devices|
    ensures ServersKnown(e)
    ensures var (e', ops) := RunBatch(w, c, e, subscription, device, kind, routes);
      Keeps(c, e, e') && OnePerRoute(subscription, device, kind, routes, ops)
  {
    BindingsOkKnown(c, e);
    if routes == [] {
      EvolvesReflexive(e.bindings);
    } else {
      var n := |routes| - 1;
      var front, r := routes[..n], routes[n];
      assert front + [r] == routes;
      BatchKeeps(w, c, e, subscription, device, kind, front);
      var (e1, ops) := RunBatch(w, c, e, subscription, device, kind, front);
      BatchKeepsNext(w, c, e, e1, subscription, device, kind, front, ops, r);
    }
  }

  lemma {:induction false} BatchKeepsNext(w: World, c: Catalog, e: Engine, e1: Engine, subscription: nat,
                                          device: Option<nat>, kind: OperationKind, front: seq<nat>,
                                            ops: seq<Operation>, r: nat)
    requires Reachable(c, e1, r) && BindingsOk(c, e1) && ServersKnown(e1) && Keeps(c, e, e1)
      && subscription < |c.subscriptions|
    requires device.Some? ==> device.value < |c.devices|
    requires OnePerRoute(subscription, device, kind, front, ops)
    ensures var (e2, op) := Execute(w, c, e1, NextOperation(c, subscription, device, kind, r));
      Keeps(c, e, e2) && OnePerRoute(subscription, device, kind, front + [r], ops + [op])
  {
    NextKeeps(w, c, e1, subscription, device, kind, r);
    var (e2, op) := Execute(w, c, e1, NextOperation(c, subscription, device, kind, r));
    KeepsTransitive(c, e, e1, e2);
    OnePerRouteGrows(subscription, device, kind, front, ops, r, op);
  }

  /** No batch revives a revoked device unless a sync or repair was aimed at it. */
  lemma {:induction false} BatchNoRevival(w: World, c: Catalog, e: Engine, subscription: nat, device: Option<nat>,
                                          kind: OperationKind, routes: seq<nat>, d: nat)
    requires AllReachable(c, e, routes) && BindingsOk(c, e) && subscription < |c.subscriptions|
    requires device.Some? ==> device.value < |c.devices|
    requires d < |c.devices| && c.devices[d].revokedAt.Some?
    requires !kind.RevokeDevice? ==> device != Some(d)
    ensures ServersKnown(e)
    ensures NoRevival(e.bindings, RunBatch(w, c, e, subscription, device, kind, routes).0.bindings, d)
  {
    BindingsOkKnown(c, e);
    if routes != [] {
      var n := |routes| - 1;
      var front, r := routes[..n], routes[n];
      var e1 := RunBatch(w, c, e, subscription, device, kind, front).0;
      BatchKeeps(w, c, e, subscription, device, kind, front);
      BatchNoRevival(w, c, e, subscription, device, kind, front, d);
      var op := NextOperation(c, subscription, device, kind, r);
      ExecuteKeeps(w, c, e1, op);
      ExecuteNoRevival(w, c, e1, op, d);
      NoRevivalTransitive(e.bindings, e1.bindings, Execute(w, c, e1, op).0.bindings, d);
    }
  }

  // ----- What a repair of one device leaves behind -----

  /** The link a succeeded repair reported is the one stored on the device's row. */
  ghost predicate Delivered(bs: seq<Binding>, subscription: nat, d: nat, r: nat, op: Operation) {
    op.status == Succeeded ==>
      var i := Find(bs, d, r);
      && i < |bs| && bs[i].Keyed(d, r) && bs[i].status == Active && bs[i].revokedAt.None?
      && bs[i].subscription == Some(subscription)
      && |op.results| == 1 && op.results[0].url == bs[i].url
  }

  lemma {:induction false} RepairDelivers(w: World, c: Catalog, e: Engine, subscription: nat, d: nat, r: nat)
    requires Reachable(c, e, r) && ServersKnown(e) && subscription < |c.subscriptions| && d < |c.devices|
    ensures var (e', op) := Execute(w, c, e, NextOperation(c, subscription, Some(d), RepairDevice, r));
      Delivered(e'.bindings, subscription, d, r, op)
  {
    var op := NextOperation(c, subscription, Some(d), RepairDevice, r);
    var (e1, gate) := PassGates(w, e, op);
    GatesSound(w, e, op);
    if gate.Open? {
      assert Execute(w, c, e, op) == ExecuteSync(w, c, e1, op);
      ExecuteSyncDelivers(w, c, e1, subscription, d, r);
    }
  }

  lemma {:induction false} ExecuteSyncDelivers(w: World, c: Catalog, e: Engine, subscription: nat, d: nat, r: nat)
    requires Reachable(c, e, r) && subscription < |c.subscriptions| && d < |c.devices|
    ensures var (e', op) := ExecuteSync(w, c, e, NextOperation(c, subscription, Some(d), RepairDevice, r));
      Delivered(e'.bindings, subscription, d, r, op)
  {
    var (e', items) := SyncDevices(w, c, e, subscription, [d], r);
    SyncDevicesReport(w, c, e, subscription, [d], r);
    assert Reported(e'.bindings, subscription, r, d, items[0]);
  }

  /** Rows of another route keep their place and contents. */
  lemma {:induction false} ConfinedFind(bs: seq<Binding>, bs': seq<Binding>, targets: seq<nat>, r: nat, d: nat, r': nat)
    requires Confined(bs, bs', targets, r) && r != r' && Evolves(bs, bs') && Find(bs, d, r') < |bs|
    ensures Find(bs', d, r') == Find(bs, d, r') && bs'[Find(bs, d, r')] == bs[Find(bs, d, r')]
  {
    var j := Find(bs, d, r');
    assert bs'[j] == bs[j];
    forall k | 0 <= k < j ensures !bs'[k].Keyed(d, r') {
      assert RowEvolves(bs[k], bs'[k]);
    }
  }

  lemma {:induction false} DeliveredSurvives(w: World, c: Catalog, e: Engine, subscription: nat, d: nat, r: nat,
                                             r': nat, op': Operation)
    requires Reachable(c, e, r) && BindingsOk(c, e) && subscription < |c.subscriptions| && d < |c.devices| && r != r'
    requires Delivered(e.bindings, subscription, d, r', op')
    ensures ServersKnown(e)
    ensures var e' := Execute(w, c, e, NextOperation(c, subscription, Some(d), RepairDevice, r)).0;
      Delivered(e'.bindings, subscription, d, r', op')
  {
    var op := NextOperation(c, subscription, Some(d), RepairDevice, r);
    ExecuteKeeps(w, c, e, op);
    ExecuteConfined(w, c, e, op);
    if op'.status == Succeeded {
      ConfinedFind(e.bindings, Execute(w, c, e, op).0.bindings, Writable(c, op), r, d, r');
    }
  }

  ghost predicate AllDelivered(bs: seq<Binding>, subscription: nat, d: nat, routes: seq<nat>, ops: seq<Operation>) {
    && |ops| == |routes|
    && forall k | 0 <= k < |ops| :: Delivered(bs, subscription, d, routes[k], ops[k])
  }

  /** After a repair of one device every succeeded operation's link is in place. */
  lemma {:induction false} BatchDelivers(w: World, c: Catalog, e: Engine, subscription: nat, d: nat, routes: seq<nat>)
    requires AllReachable(c, e, routes) && BindingsOk(c, e) && subscription < |c.subscriptions| && d < |c.devices|
    requires Distinct(routes)
    ensures ServersKnown(e)
    ensures var (e', ops) := RunBatch(w, c, e, subscription, Some(d), RepairDevice, routes);
      AllDelivered(e'.bindings, subscription, d, routes, ops)
  {
    BindingsOkKnown(c, e);
    if routes != [] {
      var n := |routes| - 1;
      var front, r := routes[..n], routes[n];
      assert front + [r] == routes;
      assert r !in front;
      BatchKeeps(w, c, e, subscription, Some(d), RepairDevice, front);
      BatchDelivers(w, c, e, subscription, d, front);
      var (e1, ops) := RunBatch(w, c, e, subscription, Some(d), RepairDevice, front);
      DeliveredGrows(w, c, e1, subscription, d, front, ops, r);
    }
  }

  lemma {:induction false} DeliveredGrows(w: World, c: Catalog, e: Engine, subscription: nat, d: nat,
                                          front: seq<nat>, ops: seq<Operation>, r: nat)
    requires Reachable(c, e, r) && BindingsOk(c, e) && subscription < |c.subscriptions| && d < |c.devices|
    requires r !in front && AllDelivered(e.bindings, subscription, d, front, ops)
    ensures ServersKnown(e)
    ensures var (e', op) := Execute(w, c, e, NextOperation(c, subscription, Some(d), RepairDevice, r));
      AllDelivered(e'.bindings, subscription, d, front + [r], ops + [op])
  {
    BindingsOkKnown(c, e);
    var (e', op) := Execute(w, c, e, NextOperation(c, subscription, Some(d), RepairDevice, r));
    forall k | 0 <= k < |front| ensures Delivered(e'.bindings, subscription, d, front[k], ops[k]) {
      DeliveredSurvives(w, c, e, subscription, d, r, front[k], ops[k]);
    }
    RepairDelivers(w, c, e, subscription, d, r);
  }
}
