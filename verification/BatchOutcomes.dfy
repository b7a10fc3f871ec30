/** Which operations a service call logs, read off from the subscription's rows and the catalogue. */
module BatchOutcomes {
  import opened Wrappers
  import opened Tables
  import opened Adapters
  import opened Provisioning
  import opened Schedule
  import opened Services
  import Query

  // ----- The rows in order -----

  /** The same rows by position, rows at the same position by number. */
  ghost predicate SortedRows(rows: seq<SubscriptionRoute>, sorted: seq<SubscriptionRoute>) {
    && multiset(sorted) == multiset(rows)
    && forall i, j | 0 <= i < j < |sorted| ::
         sorted[i].position < sorted[j].position
         || (sorted[i].position == sorted[j].position && sorted[i].id <= sorted[j].id)
  }

  lemma {:induction false} InOrderSorts(rows: seq<SubscriptionRoute>)
    ensures SortedRows(rows, InOrder(rows))
  {
    assert forall a, b | a in rows && b in rows :: RouteBefore(a, b) || RouteBefore(b, a);
    Query.OrderByOrdered(RouteBefore, rows);
    assert Query.Ordered(RouteBefore, InOrder(rows));
  }

  /** The rows at these places are exactly the ones linked to a catalogue route, in their order. */
  ghost predicate LinkedAt(rows: seq<SubscriptionRoute>, at: seq<nat>) {
    && (forall k | 0 <= k < |at| :: at[k] < |rows| && rows[at[k]].route.Some?)
    && (forall k, m | 0 <= k < m < |at| :: at[k] < at[m])
    && (forall i: nat | i < |rows| && rows[i].route.Some? :: i in at)
  }

  lemma {:induction false} ManagedAppend(rows: seq<SubscriptionRoute>, row: SubscriptionRoute)
    ensures Managed(rows + [row]) == if row.route.Some? then Managed(rows) + [row.route.value] else Managed(rows)
  {
    if rows == [] {
      assert rows + [row] == [row] && [row][1..] == [];
    } else {
      assert (rows + [row])[1..] == rows[1..] + [row];
      ManagedAppend(rows[1..], row);
    }
  }

  ghost predicate RoutesAt(rows: seq<SubscriptionRoute>, at: seq<nat>, routes: seq<nat>) {
    |at| == |routes| && forall k | 0 <= k < |at| :: at[k] < |rows| && rows[at[k]].route == Some(routes[k])
  }

  predicate IsLinked(row: SubscriptionRoute) {
    row.route.Some?
  }

  lemma {:induction false} RoutesAtNext(rows: seq<SubscriptionRoute>, at: seq<nat>, routes: seq<nat>,
                                        row: SubscriptionRoute)
    requires RoutesAt(rows, at, routes)
    ensures RoutesAt(rows + [row], at, routes)
    ensures row.route.Some? ==> RoutesAt(rows + [row], at + [|rows|], routes + [row.route.value])
  {
    assert forall k | 0 <= k < |at| :: (rows + [row])[at[k]] == rows[at[k]];
  }

  lemma {:induction false} ManagedAt(rows: seq<SubscriptionRoute>)
    ensures RoutesAt(rows, Query.Where(rows, IsLinked), Managed(rows))
  {
    if rows != [] {
      var n := |rows| - 1;
      var front, row := rows[..n], rows[n];
      assert front + [row] == rows;
      ManagedAt(front);
      ManagedAppend(front, row);
      RoutesAtNext(front, Query.Where(front, IsLinked), Managed(front), row);
    }
  }

  lemma {:induction false} ManagedAre(rows: seq<SubscriptionRoute>) returns (at: seq<nat>)
    ensures LinkedAt(rows, at) && RoutesAt(rows, at, Managed(rows))
  {
    at := Query.Where(rows, IsLinked);
    ManagedAt(rows);
    assert forall k | 0 <= k < |at| :: at[k] in at;
  }

  // ----- Operations -----

  /** A finished operation for a subscription's user, on one route and on the server that hosts it. */
  ghost predicate Addressed(c: Catalog, subscription: nat, device: Option<nat>, kind: OperationKind, op: Operation) {
    && subscription < |c.subscriptions| && op.user == c.subscriptions[subscription].user
    && op.subscription == Some(subscription) && op.device == device && op.kind == kind
    && op.route.Some? && op.route.value < |c.routes| && op.server == Some(c.routes[op.route.value].server)
    && (op.status == Succeeded || op.status == Failed || op.status == Skipped) && op.finishedAt.Some?
  }

  /** One operation for each linked row of the subscription, in order of position. */
  ghost predicate OnePerLinkedRow(c: Catalog, subscription: nat, device: Option<nat>, kind: OperationKind,
                                  ops: seq<Operation>)
  {
    && (forall k | 0 <= k < |ops| :: Addressed(c, subscription, device, kind, ops[k]))
    && subscription < |c.subscriptions|
    && exists sorted: seq<SubscriptionRoute>, at: seq<nat> ::
         && SortedRows(c.subscriptions[subscription].routes, sorted) && LinkedAt(sorted, at)
         && |at| == |ops| && forall k | 0 <= k < |ops| :: ops[k].route == sorted[at[k]].route
  }

  lemma {:induction false} ExecuteStaysAddressed(w: World, c: Catalog, e: Engine, subscription: nat,
                                                 device: Option<nat>, kind: OperationKind, r: nat)
    requires Reachable(c, e, r) && ServersKnown(e) && subscription < |c.subscriptions|
    requires device.Some? ==> device.value < |c.devices|
    ensures var op := Execute(w, c, e, NextOperation(c, subscription, device, kind, r)).1;
      Addressed(c, subscription, device, kind, op) && op.route == Some(r)
  {
    var op := NextOperation(c, subscription, device, kind, r);
    var (e1, gate) := PassGates(w, e, op);
    if gate.Open? && kind.RevokeDevice? && device.Some? {
      var i := Find(e1.bindings, device.value, r);
      if i < |e1.bindings| {
        CallEnds(w, e1, i);
      }
    }
  }

  lemma {:induction false} CallEnds(w: World, e: Engine, i: nat)
    requires i < |e.bindings| && e.bindings[i].server < |e.servers|
    ensures var status := RevokeBinding(w, e, i).1.status; status == Succeeded || status == Failed
  {
  }

  ghost predicate AddressedInOrder(c: Catalog, subscription: nat, device: Option<nat>, kind: OperationKind,
                                   routes: seq<nat>, ops: seq<Operation>)
  {
    && |ops| == |routes|
    && forall k | 0 <= k < |ops| :: Addressed(c, subscription, device, kind, ops[k]) && ops[k].route == Some(routes[k])
  }

  lemma {:induction false} AddressedNext(c: Catalog, subscription: nat, device: Option<nat>, kind: OperationKind,
                                         front: seq<nat>, ops: seq<Operation>, r: nat, op: Operation)
    requires AddressedInOrder(c, subscription, device, kind, front, ops)
    requires Addressed(c, subscription, device, kind, op) && op.route == Some(r)
    ensures AddressedInOrder(c, subscription, device, kind, front + [r], ops + [op])
  {
  }

  lemma {:induction false} BatchAddressed(w: World, c: Catalog, e: Engine, subscription: nat, device: Option<nat>,
                                          kind: OperationKind, routes: seq<nat>)
    requires AllReachable(c, e, routes) && ServersKnown(e) && subscription < |c.subscriptions|
    requires device.Some? ==> device.value < |c.devices|
    ensures AddressedInOrder(c, subscription, device, kind, routes,
                             RunBatch(w, c, e, subscription, device, kind, routes).1)
  {
    if routes != [] {
      var n := |routes| - 1;
      var front, r := routes[..n], routes[n];
      assert front + [r] == routes;
      BatchAddressed(w, c, e, subscription, device, kind, front);
      var (e1, ops) := RunBatch(w, c, e, subscription, device, kind, front);
      ExecuteStaysAddressed(w, c, e1, subscription, device, kind, r);
      var op := Execute(w, c, e1, NextOperation(c, subscription, device, kind, r)).1;
      AddressedNext(c, subscription, device, kind, front, ops, r, op);
    }
  }

  lemma {:induction false} LinkedRowsAddressed(c: Catalog, subscription: nat, device: Option<nat>, kind: OperationKind,
                                               ops: seq<Operation>)
    requires subscription < |c.subscriptions|
    requires AddressedInOrder(c, subscription, device, kind, BatchRoutes(c, subscription), ops)
    ensures OnePerLinkedRow(c, subscription, device, kind, ops)
  {
    var rows := c.subscriptions[subscription].routes;
    InOrderSorts(rows);
    var at := ManagedAre(InOrder(rows));
    assert SortedRows(rows, InOrder(rows)) && LinkedAt(InOrder(rows), at);
    assert |at| == |ops| && forall k | 0 <= k < |ops| :: ops[k].route == InOrder(rows)[at[k]].route;
  }

  /** A new operation for the subscription's user, on one route and on the server that hosts it. */
  ghost function Fresh(c: Catalog, subscription: nat, device: Option<nat>, kind: OperationKind, r: nat): Operation
    requires subscription < |c.subscriptions| && r < |c.routes|
  {
    Operation(c.subscriptions[subscription].user, Some(subscription), device, Some(r), Some(c.routes[r].server), kind,
              Pending, None, NoError, [], None)
  }

  /** One engine state leads to the next by executing a new operation on the route. */
  ghost predicate Executes(w: World, c: Catalog, subscription: nat, device: Option<nat>, kind: OperationKind, r: nat,
                           e: Engine, e': Engine, op: Operation)
  {
    && subscription < |c.subscriptions| && r < |c.routes| && ServersKnown(e)
    && Linked(c, e, Fresh(c, subscription, device, kind, r))
    && Execute(w, c, e, Fresh(c, subscription, device, kind, r)) == (e', op)
  }

  /** The operations were executed one after the other, each on what the one before it left. */
  ghost predicate InSequence(w: World, c: Catalog, subscription: nat, device: Option<nat>, kind: OperationKind,
                             routes: seq<nat>, engines: seq<Engine>, ops: seq<Operation>)
  {
    && |ops| == |routes| && |engines| == |routes| + 1
    && forall k: nat | k < |routes| ::
         Executes(w, c, subscription, device, kind, routes[k], engines[k], engines[k + 1], ops[k])
  }

  lemma {:induction false} InSequenceNext(w: World, c: Catalog, subscription: nat, device: Option<nat>,
                                          kind: OperationKind, front: seq<nat>, engines: seq<Engine>,
                                          ops: seq<Operation>, r: nat, e: Engine, op: Operation)
    requires InSequence(w, c, subscription, device, kind, front, engines, ops)
    requires Executes(w, c, subscription, device, kind, r, engines[|front|], e, op)
    ensures InSequence(w, c, subscription, device, kind, front + [r], engines + [e], ops + [op])
  {
    var n := |front|;
    forall k: nat | k < n + 1
      ensures Executes(w, c, subscription, device, kind, (front + [r])[k], (engines + [e])[k], (engines + [e])[k + 1],
                       (ops + [op])[k])
    {
      if k < n {
        assert Executes(w, c, subscription, device, kind, front[k], engines[k], engines[k + 1], ops[k]);
      }
    }
  }

  lemma {:induction false} BatchInSequence(w: World, c: Catalog, e: Engine, subscription: nat, device: Option<nat>,
                                           kind: OperationKind, routes: seq<nat>) returns (engines: seq<Engine>)
    requires AllReachable(c, e, routes) && ServersKnown(e) && subscription < |c.subscriptions|
    requires device.Some? ==> device.value < |c.devices|
    ensures var (e', ops) := RunBatch(w, c, e, subscription, device, kind, routes);
      && InSequence(w, c, subscription, device, kind, routes, engines, ops)
      && engines[0] == e && engines[|routes|] == e'
  {
    engines := [e];
    if routes != [] {
      var n := |routes| - 1;
      var front, r := routes[..n], routes[n];
      assert front + [r] == routes;
      var (e1, ops) := RunBatch(w, c, e, subscription, device, kind, front);
      var (e2, op) := Execute(w, c, e1, NextOperation(c, subscription, device, kind, r));
      engines := BatchInSequence(w, c, e, subscription, device, kind, front);
      InSequenceNext(w, c, subscription, device, kind, front, engines, ops, r, e2, op);
      engines := engines + [e2];
    }
  }

  /** A call logged one operation per linked row of the subscription, executed them one after the other, and left the
      catalogue alone. */
  ghost predicate Scheduled(w: World, s: State, s': State, subscription: nat, device: Option<nat>, kind: OperationKind)
  {
    && s.operations <= s'.operations && s'.catalog == s.catalog
    && var ops := s'.operations[|s.operations|..];
      && OnePerLinkedRow(s.catalog, subscription, device, kind, ops)
      && exists routes, engines: seq<Engine> ::
           && InSequence(w, s.catalog, subscription, device, kind, routes, engines, ops)
           && engines[0] == s.engine && engines[|ops|] == s'.engine
  }

  lemma {:induction false} ScheduleAddresses(w: World, s: State, subscription: nat, device: Option<nat>,
                                             kind: OperationKind)
    requires Wired(s.catalog, s.engine) && subscription < |s.catalog.subscriptions|
    requires device.Some? ==> device.value < |s.catalog.devices|
    ensures var (s', ops) := ScheduleFor(w, s, subscription, device, kind);
      Scheduled(w, s, s', subscription, device, kind) && s'.operations == s.operations + ops
  {
    var c := s.catalog;
    var (s', ops) := ScheduleFor(w, s, subscription, device, kind);
    BatchReachable(c, s.engine, subscription);
    BatchAddressed(w, c, s.engine, subscription, device, kind, BatchRoutes(c, subscription));
    LinkedRowsAddressed(c, subscription, device, kind, ops);
    var engines := BatchInSequence(w, c, s.engine, subscription, device, kind, BatchRoutes(c, subscription));
    assert s'.operations[|s.operations|..] == ops;
  }
}
