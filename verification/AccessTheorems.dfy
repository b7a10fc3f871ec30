/** The promises of the access lifecycle, over every run and every adapter outcome. */
module AccessTheorems {
  import opened Wrappers
  import opened Text
  import opened Tables
  import opened Adapters
  import opened Provisioning
  import opened Lifecycle
  import opened ServerCache
  import opened Operations
  import opened Schedule
  import opened Services
  import opened Access
  import opened AccessRuns
  import Devices
  import Feed
  import Query
  import Reconciled
  import Renewal

  // ----- Revocation -----

  /** Revoking marks the device whatever the adapters answer. */
  lemma {:induction false} RevokeTakesEffect(w: World, s: State, user: nat, d: nat, reason: string)
    requires Consistent(s) && Devices.Live(s.catalog.devices, user, d)
    ensures var s' := Apply(w, s, RevokeStep(user, d, reason));
      d < |s'.catalog.devices| && s'.catalog.devices[d].revokedAt == Some(s.engine.now)
  {
    var devices := s.catalog.devices[d := Devices.RevokeRow(s.catalog.devices[d], s.engine.now, reason)];
    Devices.RevokeKeepsKeys(s.catalog.devices, d, s.engine.now, reason);
    DevicesStep(s, devices);
    ScheduleForUserAdvances(w, WithDevices(s, devices), user, Some(d), RevokeDevice);
  }

  /** Revocation is final: over every later run the device's row is frozen, it gains no binding,
      none of its bindings turns active, and no request resolves to it. */
  lemma {:induction false} RevocationIsFinal(w: World, s: State, steps: seq<Step>, d: nat)
    requires Consistent(s) && d < |s.catalog.devices| && s.catalog.devices[d].revokedAt.Some?
    ensures var s' := Run(w, s, steps); var bs, bs' := s.engine.bindings, s'.engine.bindings;
      && d < |s'.catalog.devices| && s'.catalog.devices[d] == s.catalog.devices[d]
      && (forall i | 0 <= i < |bs'| && bs'[i].device == d ::
            i < |bs| && (bs'[i].status == Active ==> bs[i].status == Active))
      && (forall user, ip, key :: Devices.Resolve(s'.catalog.devices, user, ip, key) != Some(d))
  {
    RunAdvances(w, s, steps);
    var s' := Run(w, s, steps);
    assert DeviceKept(s.catalog.devices[d], s'.catalog.devices[d]);
    assert NoRevival(s.engine.bindings, s'.engine.bindings, d);
    forall user, ip, key ensures Devices.Resolve(s'.catalog.devices, user, ip, key) != Some(d) {
      Devices.ResolvedIsActive(s'.catalog.devices, user, ip, key);
    }
  }

  /** Nor does any public view, and hence any feed, ever show a link of a revoked device. */
  lemma {:induction false} RevokedIsNeverServed(w: World, s: State, steps: seq<Step>, d: nat, k: nat, ip: string,
                                                key: string)
    requires Consistent(s) && d < |s.catalog.devices| && s.catalog.devices[d].revokedAt.Some?
    requires k < |Run(w, s, steps).catalog.subscriptions|
    ensures var s' := Run(w, s, steps);
      && Feed.RowsKnown(s'.catalog, s'.catalog.subscriptions[k].routes)
      && var view := Feed.Snapshot(s'.catalog, s'.engine.bindings, k, ip, key);
        && view.device != Some(d)
        && forall n | 0 <= n < |view.routes| && view.routes[n].isProvisioned ::
             exists i | 0 <= i < |s'.engine.bindings| ::
               s'.engine.bindings[i].url == view.routes[n].url && s'.engine.bindings[i].device != d
  {
    RevocationIsFinal(w, s, steps, d);
    var s' := Run(w, s, steps);
    var view := Feed.Snapshot(s'.catalog, s'.engine.bindings, k, ip, key);
    forall n | 0 <= n < |view.routes| && view.routes[n].isProvisioned
      ensures exists i | 0 <= i < |s'.engine.bindings| ::
        s'.engine.bindings[i].url == view.routes[n].url && s'.engine.bindings[i].device != d
    {
      Feed.ViewsServeActiveDevices(s'.catalog, s'.engine.bindings, k, ip, key, n);
    }
  }

  // ----- Identity -----

  lemma {:induction false} DigitsAvoid(n: nat, c: char)
    requires !IsDigit(c) && c != 'd'
    ensures c !in Decimal(n) && c !in ['d'] + Decimal(n)
  {
  }

  /** The client email determines the subscription, the device and the route code. */
  lemma {:induction false} ClientEmailInjective(s1: nat, d1: nat, c1: string, s2: nat, d2: nat, c2: string)
    requires ClientEmail(s1, d1, c1) == ClientEmail(s2, d2, c2)
    ensures s1 == s2 && d1 == d2 && c1 == c2
  {
    DigitsAvoid(s1, '-');
    DigitsAvoid(s2, '-');
    DigitsAvoid(d1, '-');
    DigitsAvoid(d2, '-');
    var t1, t2 := c1 + EmailSuffix(), c2 + EmailSuffix();
    var m1, m2 := ['d'] + Decimal(d1), ['d'] + Decimal(d2);
    var r1, r2 := m1 + ['-'] + t1, m2 + ['-'] + t2;
    var b1, b2 := Decimal(s1) + ['-'] + r1, Decimal(s2) + ['-'] + r2;
    SamePrefix(EmailPrefix(), Decimal(s1) + ['-'] + (m1 + ['-'] + t1), Decimal(s2) + ['-'] + (m2 + ['-'] + t2));
    SplitUnique(Decimal(s1), Decimal(s2), '-', r1, r2);
    SplitUnique(m1, m2, '-', t1, t2);
    assert m1[1..] == Decimal(d1) && m2[1..] == Decimal(d2);
    SameSuffix(c1, c2, EmailSuffix());
    DecimalRoundTrip(s1);
    DecimalRoundTrip(s2);
    DecimalRoundTrip(d1);
    DecimalRoundTrip(d2);
  }

  lemma {:induction false} SamePrefix<T>(p: seq<T>, a: seq<T>, b: seq<T>)
    requires p + a == p + b
    ensures a == b
  {
    assert a == (p + a)[|p|..] && b == (p + b)[|p|..];
  }

  lemma {:induction false} SameSuffix<T>(a: seq<T>, b: seq<T>, q: seq<T>)
    requires a + q == b + q
    ensures a == b
  {
    assert |a + q| == |b + q|;
    assert a == (a + q)[..|a|] && b == (b + q)[..|b|];
  }

  /** Over every run a binding keeps its device, route, UUID and email, and its first
      provisioning time once set; and no two bindings share an email. */
  lemma {:induction false} IdentityIsStable(w: World, s: State, steps: seq<Step>, i: nat, j: nat)
    requires Consistent(s)
    ensures var bs, bs' := s.engine.bindings, Run(w, s, steps).engine.bindings;
      && |bs| <= |bs'|
      && (i < |bs| ==>
            && bs'[i].device == bs[i].device && bs'[i].route == bs[i].route
            && bs'[i].uuid == bs[i].uuid != "" && bs'[i].email == bs[i].email != ""
            && (bs[i].provisionedAt.Some? ==> bs'[i].provisionedAt == bs[i].provisionedAt))
      && (i < j < |bs'| ==> bs'[i].email != bs'[j].email)
  {
    RunAdvances(w, s, steps);
    var s' := Run(w, s, steps);
    var bs, bs' := s.engine.bindings, s'.engine.bindings;
    if i < |bs| {
      assert RowOk(s.catalog, |s.engine.servers|, s.engine.now, bs[i]) && RowEvolves(bs[i], bs'[i]);
    }
    if i < j < |bs'| {
      EmailsDiffer(s', i, j);
    }
  }

  lemma {:induction false} EmailsDiffer(s: State, i: nat, j: nat)
    requires Consistent(s) && i < j < |s.engine.bindings|
    ensures s.engine.bindings[i].email != s.engine.bindings[j].email
  {
    var c, a, b := s.catalog, s.engine.bindings[i], s.engine.bindings[j];
    assert RowOk(c, |s.engine.servers|, s.engine.now, a) && RowOk(c, |s.engine.servers|, s.engine.now, b);
    var m: nat :| a.email == ClientEmail(m, a.device, c.routes[a.route].code);
    var n: nat :| b.email == ClientEmail(n, b.device, c.routes[b.route].code);
    if a.email == b.email {
      ClientEmailInjective(m, a.device, c.routes[a.route].code, n, b.device, c.routes[b.route].code);
    }
  }

  // ----- Binding lifecycle and operations -----

  /** After every run there is one row per device and route, each row is settled,
      and every logged operation is finished. */
  lemma {:induction false} LifecycleHolds(w: World, s: State, steps: seq<Step>)
    requires Consistent(s)
    ensures var s' := Run(w, s, steps);
      && OneRowPerKey(s'.engine.bindings)
      && (forall i | 0 <= i < |s'.engine.bindings| :: Settled(s'.engine.bindings[i]))
      && AllFinished(s'.operations) && s.operations <= s'.operations
  {
    RunAdvances(w, s, steps);
    var s' := Run(w, s, steps);
    forall i | 0 <= i < |s'.engine.bindings| ensures Settled(s'.engine.bindings[i]) {
      assert RowOk(s'.catalog, |s'.engine.servers|, s'.engine.now, s'.engine.bindings[i]);
    }
  }

  /** Without an explicit health check no server that is down comes back up. */
  lemma {:induction false} DownStaysDown(w: World, s: State, steps: seq<Step>)
    requires Consistent(s) && forall k | 0 <= k < |steps| :: !steps[k].HealthStep?
    ensures StaysDown(s.engine, Run(w, s, steps).engine)
    decreases |steps|
  {
    if steps != [] {
      StepAdvances(w, s, steps[0]);
      DownStaysDown(w, Apply(w, s, steps[0]), steps[1..]);
    }
  }

  /** After every run a server that has snapshots shows the status and heartbeat of the latest one. */
  lemma {:induction false} CacheShowsLatest(w: World, s: State, steps: seq<Step>, server: nat, k: nat)
    requires Consistent(s)
    requires var e := Run(w, s, steps).engine;
      && server < |e.servers| && k < |e.snapshots| && e.snapshots[k].server == server
      && forall m | 0 <= m < |e.snapshots| && e.snapshots[m].server == server ::
           || e.snapshots[m].checkedAt < e.snapshots[k].checkedAt
           || (e.snapshots[m].checkedAt == e.snapshots[k].checkedAt && m <= k)
    ensures var e := Run(w, s, steps).engine;
      e.servers[server].status == e.snapshots[k].status && e.servers[server].lastHeartbeat == e.snapshots[k].checkedAt
  {
    RunAdvances(w, s, steps);
    CacheIsLatest(Run(w, s, steps).engine, server, k);
  }

  // ----- Keys and limits -----

  /** After every run the non-empty keys of a user's active devices are pairwise distinct. */
  lemma {:induction false} KeysStayDistinct(w: World, s: State, steps: seq<Step>)
    requires Consistent(s)
    ensures Devices.KeysDistinct(Run(w, s, steps).catalog.devices)
  {
    RunAdvances(w, s, steps);
  }

  /** No limit of the user's subscription is above the bound now. */
  ghost predicate LimitsBelow(s: State, user: nat, bound: nat) {
    forall k | 0 <= k < |s.catalog.subscriptions| && s.catalog.subscriptions[k].user == user ::
      s.catalog.subscriptions[k].maxDevices <= bound
  }

  /** ... nor at any later point of the run. */
  ghost predicate LimitsBelowThroughout(w: World, s: State, steps: seq<Step>, user: nat, bound: nat)
    requires Wired(s.catalog, s.engine)
    decreases |steps|
  {
    LimitsBelow(s, user, bound)
      && (steps != [] ==> LimitsBelowThroughout(w, Apply(w, s, steps[0]), steps[1..], user, bound))
  }

  lemma {:induction false} StepRespectsLimit(w: World, s: State, step: Step, user: nat, bound: nat)
    requires Consistent(s) && LimitsBelow(s, user, bound) && Devices.ActiveCount(s.catalog.devices, user) <= bound
    ensures Devices.ActiveCount(Apply(w, s, step).catalog.devices, user) <= bound
  {
    StepDevices(w, s, step);
    DevicesRespectLimit(s, step, user, bound);
  }

  lemma {:induction false} DevicesRespectLimit(s: State, step: Step, user: nat, bound: nat)
    requires LimitsBelow(s, user, bound) && Devices.ActiveCount(s.catalog.devices, user) <= bound
    ensures Devices.ActiveCount(DevicesAfter(s, step), user) <= bound
  {
    var devices, now := s.catalog.devices, s.engine.now;
    match step {
      case TouchStep(k, req, pending) =>
        if k < |s.catalog.subscriptions| && Admitted(s, k, pending) {
          var x := s.catalog.subscriptions[k];
          if Devices.TouchDevice(devices, now, x.user, x.maxDevices, req).Ok? {
            Devices.TouchRespectsLimit(devices, now, x.user, x.maxDevices, req, user);
          }
        }
      case RevokeStep(owner, d, reason) =>
        if Devices.Live(devices, owner, d) {
          Devices.RevokeLowersCount(devices, owner, d, now, reason, user);
        }
      case _ =>
    }
  }

  /** Over every run, with any changes of plan, a user's active devices never exceed the largest
      of the starting count and the limits that were in force. */
  lemma {:induction false} LimitNeverExceeded(w: World, s: State, steps: seq<Step>, user: nat, bound: nat)
    requires Consistent(s) && LimitsBelowThroughout(w, s, steps, user, bound)
    requires Devices.ActiveCount(s.catalog.devices, user) <= bound
    ensures Devices.ActiveCount(Run(w, s, steps).catalog.devices, user) <= bound
    decreases |steps|
  {
    if steps != [] {
      StepAdvances(w, s, steps[0]);
      StepRespectsLimit(w, s, steps[0], user, bound);
      LimitNeverExceeded(w, Apply(w, s, steps[0]), steps[1..], user, bound);
    }
  }

  // ----- Renewals -----

  /** The grant a step makes to subscription `k`, if it makes one. */
  function GrantOf(s: State, step: Step, k: nat): seq<Renewal.Grant>
    requires k < |s.catalog.subscriptions|
  {
    match step
    case ActivateStep(user, code) =>
      if user == s.catalog.subscriptions[k].user && FindPlan(code).Some?
      then [Renewal.Grant(Today(s.engine.now), FindPlan(code).value.days)] else []
    case ExtendStep(k', days) => if k' == k && days > 0 then [Renewal.Grant(Today(s.engine.now), days)] else []
    case _ => []
  }

  lemma {:induction false} ActivatedRenews(s: State, user: nat, plan: Plan, k: nat)
    requires Consistent(s) && k < |s.catalog.subscriptions|
    ensures var x, c' := s.catalog.subscriptions[k], Activated(s.catalog, user, plan, Today(s.engine.now));
      && k < |c'.subscriptions| && c'.subscriptions[k].user == x.user
      && c'.subscriptions[k].endsAt ==
           if user == x.user then Renewal.Renew(x.endsAt, Renewal.Grant(Today(s.engine.now), plan.days)) else x.endsAt
  {
    assert SubscriptionOf(s.catalog.subscriptions, s.catalog.subscriptions[k].user) == k;
  }

  lemma {:induction false} RenewOnce(endsAt: int, g: Renewal.Grant)
    ensures Renewal.RenewAll(endsAt, [g]) == Renewal.Renew(endsAt, g)
  {
    assert [g][1..] == [];
  }

  lemma {:induction false} StepRenews(w: World, s: State, step: Step, k: nat)
    requires Consistent(s) && k < |s.catalog.subscriptions|
    ensures var x, c' := s.catalog.subscriptions[k], Apply(w, s, step).catalog;
      && k < |c'.subscriptions| && c'.subscriptions[k].user == x.user
      && c'.subscriptions[k].endsAt == Renewal.RenewAll(x.endsAt, GrantOf(s, step, k))
  {
    var x, grants := s.catalog.subscriptions[k], GrantOf(s, step, k);
    if grants != [] {
      RenewOnce(x.endsAt, grants[0]);
      assert grants == [grants[0]];
    }
    if step.ActivateStep? && FindPlan(step.code).Some? {
      ActivatedRenews(s, step.user, FindPlan(step.code).value, k);
    }
  }

  /** All grants of a run to subscription `k`, each with the day it was made. */
  function GrantsOf(w: World, s: State, steps: seq<Step>, k: nat): seq<Renewal.Grant>
    requires Wired(s.catalog, s.engine)
    decreases |steps|
  {
    if steps == [] || k >= |s.catalog.subscriptions| then []
    else GrantOf(s, steps[0], k) + GrantsOf(w, Apply(w, s, steps[0]), steps[1..], k)
  }

  /** Over every run the end date is the old one renewed by exactly the run's grants, so it obeys
      the closed form: no granted day is lost and it never moves back. */
  lemma {:induction false} EndDateOverRun(w: World, s: State, steps: seq<Step>, k: nat)
    requires Consistent(s) && k < |s.catalog.subscriptions|
    ensures var x, c', grants := s.catalog.subscriptions[k], Run(w, s, steps).catalog, GrantsOf(w, s, steps, k);
      && k < |c'.subscriptions| && c'.subscriptions[k].user == x.user
      && c'.subscriptions[k].endsAt == Renewal.RenewAll(x.endsAt, grants)
      && Renewal.IsCandidate(x.endsAt, grants, c'.subscriptions[k].endsAt)
      && (forall y | Renewal.IsCandidate(x.endsAt, grants, y) :: y <= c'.subscriptions[k].endsAt)
      && c'.subscriptions[k].endsAt >= x.endsAt + Renewal.Total(grants)
  {
    EndDateRenewed(w, s, steps, k);
    Renewal.ClosedForm(s.catalog.subscriptions[k].endsAt, GrantsOf(w, s, steps, k));
    Renewal.NoDayIsLost(s.catalog.subscriptions[k].endsAt, GrantsOf(w, s, steps, k));
  }

  lemma {:induction false} EndDateRenewed(w: World, s: State, steps: seq<Step>, k: nat)
    requires Consistent(s) && k < |s.catalog.subscriptions|
    ensures var x, c' := s.catalog.subscriptions[k], Run(w, s, steps).catalog;
      && k < |c'.subscriptions| && c'.subscriptions[k].user == x.user
      && c'.subscriptions[k].endsAt == Renewal.RenewAll(x.endsAt, GrantsOf(w, s, steps, k))
    decreases |steps|
  {
    if steps != [] {
      var s1 := Apply(w, s, steps[0]);
      StepAdvances(w, s, steps[0]);
      StepRenews(w, s, steps[0], k);
      EndDateRenewed(w, s1, steps[1..], k);
      Renewal.RenewAllSplits(s.catalog.subscriptions[k].endsAt, GrantOf(s, steps[0], k),
        GrantsOf(w, s1, steps[1..], k));
    }
  }

  // ----- Touch, resolve and feed -----

  /** The managed routes come in position order. */
  lemma {:induction false} RowsInPositionOrder(rows: seq<SubscriptionRoute>)
    ensures Query.Ordered(RouteBefore, InOrder(rows)) && multiset(InOrder(rows)) == multiset(rows)
  {
    Query.OrderByOrdered(RouteBefore, rows);
  }

  lemma {:induction false} ManagedHas(rows: seq<SubscriptionRoute>, k: nat) returns (j: nat)
    requires k < |rows| && rows[k].route.Some?
    ensures j < |Managed(rows)| && Managed(rows)[j] == rows[k].route.value
  {
    if k == 0 {
      j := 0;
    } else {
      j := ManagedHas(rows[1..], k - 1);
      if rows[0].route.Some? {
        j := j + 1;
      }
    }
  }

  /** After a touch its normalised key and its address resolve to the touched device. */
  lemma {:induction false} TouchedIsResolved(w: World, s: State, k: nat, req: Devices.TouchRequest, pending: bool)
    requires Consistent(s) && k < |s.catalog.subscriptions| && Touch(w, s, k, req, pending).Ok?
    ensures var reply, user := Touch(w, s, k, req, pending).value, s.catalog.subscriptions[k].user;
      && reply.state.catalog.subscriptions == s.catalog.subscriptions
      && Devices.Resolve(reply.state.catalog.devices, user, req.ip, Devices.NormalizeKey(req.key)) == Some(reply.device)
  {
    var x := s.catalog.subscriptions[k];
    Devices.TouchThenResolve(s.catalog.devices, s.engine.now, x.user, x.maxDevices, req);
  }

  /** Every subscription manages pairwise different routes. */
  lemma {:induction false} RoutesManagedOnce(s: State, k: nat)
    requires Consistent(s) && k < |s.catalog.subscriptions|
    ensures Distinct(BatchRoutes(s.catalog, k))
  {
    assert RoutesOk(s.catalog.subscriptions[k], s.catalog.nextRouteId);
    Reconciled.OrderKeepsApart(s.catalog.subscriptions[k].routes);
    Reconciled.ApartManagesOnce(InOrder(s.catalog.subscriptions[k].routes));
  }

  lemma {:induction false} TouchDelivers(w: World, s: State, k: nat, req: Devices.TouchRequest, pending: bool)
    requires Consistent(s) && k < |s.catalog.subscriptions| && Touch(w, s, k, req, pending).Ok?
    ensures var reply := Touch(w, s, k, req, pending).value;
      && AllDelivered(reply.state.engine.bindings, k, reply.device, BatchRoutes(s.catalog, k), reply.operations)
      && OnePerRoute(k, Some(reply.device), RepairDevice, BatchRoutes(s.catalog, k), reply.operations)
  {
    var x := s.catalog.subscriptions[k];
    var t := Devices.TouchDevice(s.catalog.devices, s.engine.now, x.user, x.maxDevices, req).value;
    TouchDevicesOk(s, k, req);
    Devices.TouchShape(s.catalog.devices, s.engine.now, x.user, x.maxDevices, req);
    DevicesStep(s, t.devices);
    var s1 := WithDevices(s, t.devices);
    BatchReachable(s1.catalog, s1.engine, k);
    RoutesManagedOnce(s, k);
    BatchDelivers(w, s1.catalog, s1.engine, k, t.device, BatchRoutes(s.catalog, k));
    BatchKeeps(w, s1.catalog, s1.engine, k, Some(t.device), RepairDevice, BatchRoutes(s.catalog, k));
  }

  /** The view's entry for a route shows what the operation on that route reported. */
  ghost predicate ShownAs(op: Operation, row: SubscriptionRoute, entry: Feed.RouteView) {
    && op.route == row.route
    && (op.status == Succeeded ==> |op.results| == 1)
    && (op.status == Succeeded && op.results[0].url != "" ==> entry.isProvisioned && entry.url == op.results[0].url)
  }

  lemma {:induction false} DeliveredIsShown(c: Catalog, bs: seq<Binding>, k: nat, d: nat, row: SubscriptionRoute,
                                            op: Operation)
    requires row.route.Some? && row.route.value < |c.routes| && op.route == row.route
    requires Delivered(bs, k, d, row.route.value, op)
    ensures ShownAs(op, row, Feed.ViewOf(c, bs, k, Some(d), row))
  {
  }

  /** The view after a touch: the touched device, and for every managed route an operation of its own whose
      reported link, if it succeeded with one, is shown there and flagged as provisioned. */
  lemma {:induction false} TouchFeedsLinks(w: World, s: State, k: nat, req: Devices.TouchRequest, pending: bool)
    requires Consistent(s) && k < |s.catalog.subscriptions| && Touch(w, s, k, req, pending).Ok?
    ensures var reply := Touch(w, s, k, req, pending).value; var s' := reply.state;
      && k < |s'.catalog.subscriptions| && Feed.RowsKnown(s'.catalog, s'.catalog.subscriptions[k].routes)
      && var view := Feed.Snapshot(s'.catalog, s'.engine.bindings, k, req.ip, Devices.NormalizeKey(req.key));
        var rows := InOrder(s.catalog.subscriptions[k].routes);
        && view.device == Some(reply.device) && |view.routes| == |rows|
        && forall n | 0 <= n < |rows| && rows[n].route.Some? ::
             exists j | 0 <= j < |reply.operations| :: ShownAs(reply.operations[j], rows[n], view.routes[n])
  {
    TouchedIsResolved(w, s, k, req, pending);
    TouchDelivers(w, s, k, req, pending);
    TouchAdvances(w, s, k, req, pending);
    var reply := Touch(w, s, k, req, pending).value;
    var s' := reply.state;
    var c, bs, rows, routes :=
      s'.catalog, s'.engine.bindings, InOrder(s.catalog.subscriptions[k].routes), BatchRoutes(s.catalog, k);
    assert Feed.RowsKnown(c, c.subscriptions[k].routes);
    Feed.InOrderKnown(c, c.subscriptions[k].routes);
    var view := Feed.Snapshot(c, bs, k, req.ip, Devices.NormalizeKey(req.key));
    forall n | 0 <= n < |rows| && rows[n].route.Some?
      ensures exists j | 0 <= j < |reply.operations| :: ShownAs(reply.operations[j], rows[n], view.routes[n])
    {
      var j := ManagedHas(rows, n);
      assert FinishedFor(reply.operations[j], k, Some(reply.device), RepairDevice, routes[j]);
      assert Delivered(bs, k, reply.device, routes[j], reply.operations[j]);
      DeliveredIsShown(c, bs, k, reply.device, rows[n], reply.operations[j]);
      assert view.routes[n] == Feed.ViewOf(c, bs, k, Some(reply.device), rows[n]);
    }
  }

  /** The feed is exactly the view's links, one line each, in position order. */
  lemma {:induction false} FeedListsLinks(c: Catalog, bs: seq<Binding>, k: nat, ip: string, key: string)
    requires k < |c.subscriptions| && Feed.RowsKnown(c, c.subscriptions[k].routes)
    requires forall v | v in Feed.Snapshot(c, bs, k, ip, key).routes :: '\n' !in v.url
    ensures var view := Feed.Snapshot(c, bs, k, ip, key);
      && SplitOn(Feed.PublicFeed(c, bs, k, ip, key), '\n') == Feed.Urls(view.routes) + [""]
      && |view.routes| == |c.subscriptions[k].routes|
      && view.provisioned == |set n | 0 <= n < |view.routes| && view.routes[n].isProvisioned|
  {
    var view := Feed.Snapshot(c, bs, k, ip, key);
    forall n | 0 <= n < |view.routes| ensures '\n' !in Feed.Urls(view.routes)[n] {
      assert view.routes[n] in view.routes;
    }
    Feed.FeedSplits(Feed.Urls(view.routes));
    Feed.FlaggedCounted(view.routes);
  }
}
