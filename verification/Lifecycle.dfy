/** What every provisioning operation keeps true of the bindings, and how faithfully it reports. */
module Lifecycle {
  import opened Wrappers
  import opened Text
  import opened Tables
  import opened Adapters
  import opened Provisioning
  import opened VlessLink

  // ----- The binding invariant -----

  /** One row per device and route. */
  ghost predicate OneRowPerKey(bs: seq<Binding>) {
    forall i, j | 0 <= i < j < |bs| :: !(bs[i].device == bs[j].device && bs[i].route == bs[j].route)
  }

  ghost predicate NotAfter(t: Option<int>, now: int) {
    t.Some? ==> t.value <= now
  }

  /** The panel was told an expiry for the subscription the row belongs to. */
  ghost predicate ToldItsOwn(b: Binding) {
    b.told.Some? && b.subscription == Some(b.told.value.subscription)
  }

  /** No panel was told more than the subscription grants. */
  ghost predicate ToldWithin(c: Catalog, b: Binding) {
    b.told.Some? ==>
      && b.told.value.subscription < |c.subscriptions|
      && b.told.value.endsAt <= c.subscriptions[b.told.value.subscription].endsAt
  }

  /** The panel was told the subscription's present end date. */
  ghost predicate UpToDate(c: Catalog, b: Binding) {
    && b.told.Some? && b.told.value.subscription < |c.subscriptions|
    && b.told.value.endsAt == c.subscriptions[b.told.value.subscription].endsAt
  }

  /** A panel is told nothing but present end dates. */
  ghost predicate TellsTruly(c: Catalog, bs: seq<Binding>, bs': seq<Binding>) {
    && |bs| <= |bs'|
    && (forall i | 0 <= i < |bs| :: bs'[i].told == bs[i].told || UpToDate(c, bs'[i]))
    && (forall i | |bs| <= i < |bs'| :: bs'[i].told.None? || UpToDate(c, bs'[i]))
  }

  /** The lifecycle of one row between operations. */
  ghost predicate Settled(b: Binding) {
    match b.status
    case Active =>
      && b.provisionedAt.Some? && b.lastSyncedAt.Some? && b.provisionedAt.value <= b.lastSyncedAt.value
      && b.revokedAt.None? && b.lastError == NoError
      && (b.adapter == Some(Xui) ==> OwnLink(b.url, b.uuid, b.email) && ToldItsOwn(b))
    case Revoked => b.revokedAt.Some? && b.lastError == NoError
    case Error => b.lastError != NoError
  }

  /** The email was made for this device and this route code. */
  ghost predicate Issued(email: string, device: nat, code: string) {
    exists n: nat :: email == ClientEmail(n, device, code)
  }

  /** A row fit to be handed to an adapter, whatever its status. */
  ghost predicate RowReady(c: Catalog, servers: nat, now: int, b: Binding) {
    && NotAfter(b.provisionedAt, now)
    && b.device < |c.devices| && b.route < |c.routes| && b.server < servers
    && b.uuid != "" && b.email != "" && Issued(b.email, b.device, c.routes[b.route].code)
    && ToldWithin(c, b)
  }

  ghost predicate RowOk(c: Catalog, servers: nat, now: int, b: Binding) {
    Settled(b) && RowReady(c, servers, now, b)
  }

  ghost predicate BindingsOk(c: Catalog, e: Engine) {
    && OneRowPerKey(e.bindings)
    && forall i | 0 <= i < |e.bindings| :: RowOk(c, |e.servers|, e.now, e.bindings[i])
  }

  /** How one row may change: its key and identity never, its first provisioning time at most once. */
  ghost predicate RowEvolves(b: Binding, b': Binding) {
    && b'.device == b.device && b'.route == b.route
    && b'.uuid == b.uuid && b'.email == b.email
    && (b.provisionedAt.Some? ==> b'.provisionedAt == b.provisionedAt)
  }

  ghost predicate Evolves(bs: seq<Binding>, bs': seq<Binding>) {
    && |bs| <= |bs'|
    && forall i | 0 <= i < |bs| :: RowEvolves(bs[i], bs'[i])
  }

  /** Rows outside the given devices and route are neither changed nor added. */
  ghost predicate Confined(bs: seq<Binding>, bs': seq<Binding>, targets: seq<nat>, r: nat) {
    && |bs| <= |bs'|
    && (forall i | 0 <= i < |bs| && !(bs[i].device in targets && bs[i].route == r) :: bs'[i] == bs[i])
    && (forall i | |bs| <= i < |bs'| :: bs'[i].device in targets && bs'[i].route == r)
  }

  // ----- One device -----

  /** What one synchronisation makes of the row it was handed. */
  ghost predicate SyncedOrFailed(c: Catalog, row: Binding, b: Binding, item: ResultItem, now: int) {
    && b.device == row.device && b.route == row.route && b.server == row.server
    && b.subscription == row.subscription && b.uuid == row.uuid && b.email == row.email
    && item.device == row.device
    && if item.status.Succeeded? then
         && b.status == Active && b.lastError == NoError && b.url == item.url && b.revokedAt.None?
         && b.lastSyncedAt == Some(now) && (b.adapter == Some(Xui) ==> OwnLink(b.url, b.uuid, b.email))
         && b.adapter.Some? && b.told == ToldAfter(b.adapter.value, c, row)
         && b.provisionedAt == (if row.provisionedAt.Some? then row.provisionedAt else Some(now))
       else
         && item.status.Failed? && item.error != NoError && b.status == Error && b.lastError == item.error
         && b.provisionedAt == row.provisionedAt && b.revokedAt == row.revokedAt && b.told == row.told
  }

  lemma {:induction false} MarkedSynced(c: Catalog, b: Binding, result: BindingResult, now: int)
    requires result.uuid == b.uuid && result.email == b.email
    requires result.adapter.Xui? ==> OwnLink(result.url, b.uuid, b.email)
    ensures SyncedOrFailed(c, b, b.MarkSynced(result, ToldAfter(result.adapter, c, b), now),
                           ResultItem(b.device, Succeeded, NoError, result.url), now)
  {
  }

  lemma {:induction false} CallFailedShape(c: Catalog, e: Engine, i: nat, kind: AdapterKind, code: RaisedCode)
    requires i < |e.bindings| && e.bindings[i].server < |e.servers|
    ensures var x := CallFailed(e, i, kind, code);
      && x.0.now == e.now && |x.0.bindings| == |e.bindings| && x.0.bindings == e.bindings[i := x.0.bindings[i]]
      && SyncedOrFailed(c, e.bindings[i], x.0.bindings[i], x.1, x.0.now)
  {
  }

  lemma {:induction false} SyncBindingShape(w: World, c: Catalog, e: Engine, i: nat)
    requires i < |e.bindings| && e.bindings[i].server < |e.servers| && e.bindings[i].route < |c.routes|
    requires e.bindings[i].uuid != "" && e.bindings[i].email != ""
    ensures var x := SyncBinding(w, c, e, i);
      && |x.0.bindings| == |e.bindings| && e.now <= x.0.now
      && x.0.bindings == e.bindings[i := x.0.bindings[i]]
      && SyncedOrFailed(c, e.bindings[i], x.0.bindings[i], x.1, x.0.now)
  {
    var b := e.bindings[i];
    var e1 := EnsureProfile(e, b.server);
    var profile, outcome := ProfileOf(e1, b.server), w.sync(e1.calls);
    var e2 := AfterCall(e1, outcome.elapsed);
    match outcome {
      case SyncRaised(_, raised) => CallFailedShape(c, e2, i, profile.adapter, raised);
      case SyncCrashed(_) => CallFailedShape(c, e2, i, profile.adapter, RuntimeError);
      case SyncDone(_, inbound) =>
        var hostname, route := e.servers[b.server].hostname, c.routes[b.route];
        var result := SyncResult(profile, hostname, b, route, inbound);
        SyncKeepsIdentity(profile, hostname, b, route, inbound);
        MarkedSynced(c, b, result, e2.now);
    }
  }

  /** One iteration of the device loop writes exactly one row: the device's row on the route. */
  lemma {:induction false} SyncDeviceShape(w: World, c: Catalog, e: Engine, subscription: nat, d: nat, r: nat)
    requires Reachable(c, e, r) && d < |c.devices|
    ensures var x := SyncDevice(w, c, e, subscription, d, r); var i := Find(e.bindings, d, r);
      && i < |x.0.bindings| && x.0.bindings == Put(e.bindings, i, x.0.bindings[i]) && e.now <= x.0.now
      && SyncedOrFailed(c, EnsuredRow(c, e.bindings, Some(subscription), d, r, w.uuid(e.calls)),
                        x.0.bindings[i], x.1, x.0.now)
  {
    var i := Find(e.bindings, d, r);
    var row := EnsuredRow(c, e.bindings, Some(subscription), d, r, w.uuid(e.calls));
    var e1 := EnsureAccess(c, e, Some(subscription), d, r, w.uuid(e.calls));
    SyncBindingShape(w, c, e1, i);
    PutTwice(e.bindings, i, row, SyncBinding(w, c, e1, i).0.bindings[i]);
  }

  lemma {:induction false} PutTwice(bs: seq<Binding>, i: nat, row: Binding, b: Binding)
    requires i <= |bs|
    ensures Put(bs, i, row)[i := b] == Put(bs, i, b)
  {
  }

  lemma {:induction false} PutKeepsKeys(bs: seq<Binding>, d: nat, r: nat, b: Binding)
    requires OneRowPerKey(bs) && b.Keyed(d, r)
    ensures OneRowPerKey(Put(bs, Find(bs, d, r), b))
  {
  }

  lemma {:induction false} FindPut(bs: seq<Binding>, d: nat, r: nat, b: Binding)
    requires b.Keyed(d, r)
    ensures Find(Put(bs, Find(bs, d, r), b), d, r) == Find(bs, d, r)
  {
    var bs' := Put(bs, Find(bs, d, r), b);
    assert bs'[Find(bs, d, r)].Keyed(d, r);
  }

  /** Another row of the same table keeps its position. */
  lemma {:induction false} FindPutOther(bs: seq<Binding>, d: nat, r: nat, b: Binding, d': nat, r': nat)
    requires b.Keyed(d, r) && !(d == d' && r == r')
    ensures var bs' := Put(bs, Find(bs, d, r), b); var j := Find(bs, d', r');
      if j < |bs| then Find(bs', d', r') == j && bs'[j] == bs[j] else Find(bs', d', r') == |bs'|
  {
    var i := Find(bs, d, r);
    var bs' := Put(bs, i, b);
    var j := Find(bs, d', r');
    assert bs'[i].Keyed(d, r);
    if j < |bs| {
      assert i != j && bs'[j] == bs[j];
    }
    assert forall k | 0 <= k < |bs'| && k != i && k < j :: !bs'[k].Keyed(d', r');
  }

  /** The row handed to an adapter is ready, and an existing one keeps its identity. */
  lemma {:induction false} EnsuredRowReady(c: Catalog, e: Engine, subscription: nat, d: nat, r: nat, uuid: NonEmpty)
    requires Reachable(c, e, r) && d < |c.devices| && BindingsOk(c, e)
    ensures var row, i := EnsuredRow(c, e.bindings, Some(subscription), d, r, uuid), Find(e.bindings, d, r);
      && RowReady(c, |e.servers|, e.now, row)
      && (if i < |e.bindings| then RowEvolves(e.bindings[i], row) && row.told == e.bindings[i].told else row.told.None?)
  {
    var row, i := EnsuredRow(c, e.bindings, Some(subscription), d, r, uuid), Find(e.bindings, d, r);
    if i < |e.bindings| {
      assert RowOk(c, |e.servers|, e.now, e.bindings[i]);
    } else {
      assert row.email == ClientEmail(subscription, d, c.routes[r].code);
    }
  }

  /** Whatever the adapter answers, the row it leaves is in order. */
  lemma {:induction false} SyncedRowOk(c: Catalog, servers: nat, now: int, now': int, row: Binding, b: Binding,
                                       item: ResultItem)
    requires RowReady(c, servers, now, row) && now <= now' && SyncedOrFailed(c, row, b, item, now')
    requires row.subscription.Some? && row.subscription.value < |c.subscriptions|
    ensures RowOk(c, servers, now', b) && RowEvolves(row, b) && (b.told == row.told || UpToDate(c, b))
  {
  }

  /** One iteration keeps the invariant, evolves the rows and stays with its device and route. */
  lemma {:induction false} SyncDeviceKeeps(w: World, c: Catalog, e: Engine, subscription: nat, d: nat, r: nat)
    requires Reachable(c, e, r) && d < |c.devices| && BindingsOk(c, e) && subscription < |c.subscriptions|
    ensures var e' := SyncDevice(w, c, e, subscription, d, r).0;
      && BindingsOk(c, e') && Evolves(e.bindings, e'.bindings) && TellsTruly(c, e.bindings, e'.bindings)
      && Confined(e.bindings, e'.bindings, [d], r)
  {
    var (e', item) := SyncDevice(w, c, e, subscription, d, r);
    SyncDeviceShape(w, c, e, subscription, d, r);
    var row := EnsuredRow(c, e.bindings, Some(subscription), d, r, w.uuid(e.calls));
    var b := e'.bindings[Find(e.bindings, d, r)];
    EnsuredRowReady(c, e, subscription, d, r, w.uuid(e.calls));
    SyncedRowOk(c, |e.servers|, e.now, e'.now, row, b, item);
    RowWritten(c, e, e', d, r, b);
  }

  /** Writing one row in order, under its own key, keeps the whole table in order. */
  lemma {:induction false} RowWritten(c: Catalog, e: Engine, e': Engine, d: nat, r: nat, b: Binding)
    requires BindingsOk(c, e) && |e'.servers| == |e.servers| && e.now <= e'.now
    requires e'.bindings == Put(e.bindings, Find(e.bindings, d, r), b) && b.Keyed(d, r)
    requires RowOk(c, |e.servers|, e'.now, b)
    requires var i := Find(e.bindings, d, r);
      if i < |e.bindings| then RowEvolves(e.bindings[i], b) && (b.told == e.bindings[i].told || UpToDate(c, b))
      else b.told.None? || UpToDate(c, b)
    ensures BindingsOk(c, e') && Evolves(e.bindings, e'.bindings) && TellsTruly(c, e.bindings, e'.bindings)
    ensures Confined(e.bindings, e'.bindings, [d], r)
  {
    var i := Find(e.bindings, d, r);
    PutKeepsKeys(e.bindings, d, r, b);
    forall k | 0 <= k < |e'.bindings| ensures RowOk(c, |e'.servers|, e'.now, e'.bindings[k]) {
      if k != i {
        assert RowOk(c, |e.servers|, e.now, e.bindings[k]);
      }
    }
  }

  // ----- The device loop -----

  lemma {:induction false} RowEvolvesTransitive(a: Binding, b: Binding, c: Binding)
    requires RowEvolves(a, b) && RowEvolves(b, c)
    ensures RowEvolves(a, c)
  {
  }

  lemma {:induction false} EvolvesTransitive(bs: seq<Binding>, bs1: seq<Binding>, bs2: seq<Binding>)
    requires Evolves(bs, bs1) && Evolves(bs1, bs2)
    ensures Evolves(bs, bs2)
  {
    forall i | 0 <= i < |bs| ensures RowEvolves(bs[i], bs2[i]) {
      RowEvolvesTransitive(bs[i], bs1[i], bs2[i]);
    }
  }

  lemma {:induction false} ConfinedTransitive(bs: seq<Binding>, bs1: seq<Binding>, bs2: seq<Binding>,
                                              t1: seq<nat>, t2: seq<nat>, t: seq<nat>, r: nat)
    requires Confined(bs, bs1, t1, r) && Confined(bs1, bs2, t2, r) && Evolves(bs, bs1) && Evolves(bs1, bs2)
    requires (forall d | d in t1 :: d in t) && (forall d | d in t2 :: d in t)
    ensures Confined(bs, bs2, t, r)
  {
    forall i | |bs| <= i < |bs2| ensures bs2[i].device in t && bs2[i].route == r {
      if i < |bs1| {
        assert RowEvolves(bs1[i], bs2[i]);
      }
    }
  }

  lemma {:induction false} TellsTrulyTransitive(c: Catalog, bs: seq<Binding>, bs1: seq<Binding>, bs2: seq<Binding>)
    requires TellsTruly(c, bs, bs1) && TellsTruly(c, bs1, bs2)
    ensures TellsTruly(c, bs, bs2)
  {
  }

  /** The whole loop keeps the invariant and stays with its devices and its route. */
  lemma {:induction false} SyncDevicesKeep(w: World, c: Catalog, e: Engine, subscription: nat, targets: seq<nat>,
                                           r: nat)
    requires Reachable(c, e, r) && Known(c, targets) && BindingsOk(c, e) && subscription < |c.subscriptions|
    ensures var e' := SyncDevices(w, c, e, subscription, targets, r).0;
      && BindingsOk(c, e') && e.now <= e'.now && TellsTruly(c, e.bindings, e'.bindings)
      && Evolves(e.bindings, e'.bindings) && Confined(e.bindings, e'.bindings, targets, r)
  {
    if targets != [] {
      var n := |targets| - 1;
      var front, d := targets[..n], targets[n];
      assert front + [d] == targets;
      SyncDevicesAppend(w, c, e, subscription, front, d, r);
      var e1 := SyncDevices(w, c, e, subscription, front, r).0;
      SyncDevicesKeep(w, c, e, subscription, front, r);
      SyncDeviceKeeps(w, c, e1, subscription, d, r);
      SyncDeviceShape(w, c, e1, subscription, d, r);
      var e2 := SyncDevice(w, c, e1, subscription, d, r).0;
      EvolvesTransitive(e.bindings, e1.bindings, e2.bindings);
      TellsTrulyTransitive(c, e.bindings, e1.bindings, e2.bindings);
      ConfinedTransitive(e.bindings, e1.bindings, e2.bindings, front, [d], targets, r);
    }
  }

  ghost predicate Distinct(xs: seq<nat>) {
    forall i, j | 0 <= i < j < |xs| :: xs[i] != xs[j]
  }

  /** The binding row of a device on a route agrees with the item that was reported for it. */
  ghost predicate Reported(bs: seq<Binding>, subscription: nat, r: nat, d: nat, item: ResultItem) {
    var i := Find(bs, d, r);
    && item.device == d && (item.status.Succeeded? || item.status.Failed?)
    && i < |bs| && bs[i].Keyed(d, r) && bs[i].subscription == Some(subscription)
    && (item.status.Succeeded? ==> bs[i].status == Active && bs[i].url == item.url && bs[i].revokedAt.None?)
    && (item.status.Failed? ==> bs[i].status == Error && bs[i].lastError == item.error != NoError)
  }

  lemma {:induction false} SyncDeviceReports(w: World, c: Catalog, e: Engine, subscription: nat, d: nat, r: nat)
    requires Reachable(c, e, r) && d < |c.devices|
    ensures var x := SyncDevice(w, c, e, subscription, d, r);
      Reported(x.0.bindings, subscription, r, d, x.1)
  {
    SyncDeviceShape(w, c, e, subscription, d, r);
    var x := SyncDevice(w, c, e, subscription, d, r);
    FindPut(e.bindings, d, r, x.0.bindings[Find(e.bindings, d, r)]);
  }

  /** The row of a device and route, or its absence, is the same in both tables. */
  ghost predicate Spared(bs: seq<Binding>, bs': seq<Binding>, d: nat, r: nat) {
    var j := Find(bs, d, r);
    if j < |bs| then Find(bs', d, r) == j < |bs'| && bs'[j] == bs[j] else Find(bs', d, r) == |bs'|
  }

  lemma {:induction false} SparedTransitive(a: seq<Binding>, b: seq<Binding>, c: seq<Binding>, d: nat, r: nat)
    requires Spared(a, b, d, r) && Spared(b, c, d, r)
    ensures Spared(a, c, d, r)
  {
  }

  /** A later iteration for another device does not disturb an earlier report. */
  lemma {:induction false} SyncDeviceSpares(w: World, c: Catalog, e: Engine, subscription: nat, d: nat, r: nat,
                                            d': nat, r': nat)
    requires Reachable(c, e, r) && d < |c.devices| && !(d == d' && r == r')
    ensures Spared(e.bindings, SyncDevice(w, c, e, subscription, d, r).0.bindings, d', r')
  {
    SyncDeviceShape(w, c, e, subscription, d, r);
    var x := SyncDevice(w, c, e, subscription, d, r);
    FindPutOther(e.bindings, d, r, x.0.bindings[Find(e.bindings, d, r)], d', r');
  }

  lemma {:induction false} ReportSurvives(w: World, c: Catalog, e: Engine, subscription: nat, d: nat, r: nat,
                                          d': nat, item: ResultItem)
    requires Reachable(c, e, r) && d < |c.devices| && d != d'
    requires Reported(e.bindings, subscription, r, d', item)
    ensures Reported(SyncDevice(w, c, e, subscription, d, r).0.bindings, subscription, r, d', item)
  {
    SyncDeviceSpares(w, c, e, subscription, d, r, d', r);
  }

  ghost predicate AllReported(bs: seq<Binding>, subscription: nat, r: nat, targets: seq<nat>, items: seq<ResultItem>) {
    && |items| == |targets|
    && forall k | 0 <= k < |targets| :: Reported(bs, subscription, r, targets[k], items[k])
  }

  lemma {:induction false} ReportsSurvive(w: World, c: Catalog, e: Engine, subscription: nat, d: nat, r: nat,
                                          targets: seq<nat>, items: seq<ResultItem>)
    requires Reachable(c, e, r) && d < |c.devices| && d !in targets
    requires AllReported(e.bindings, subscription, r, targets, items)
    ensures AllReported(SyncDevice(w, c, e, subscription, d, r).0.bindings, subscription, r, targets, items)
  {
    forall k | 0 <= k < |targets|
      ensures Reported(SyncDevice(w, c, e, subscription, d, r).0.bindings, subscription, r, targets[k], items[k])
    {
      ReportSurvives(w, c, e, subscription, d, r, targets[k], items[k]);
    }
  }

  lemma {:induction false} ReportsExtend(bs: seq<Binding>, subscription: nat, r: nat, targets: seq<nat>,
                                         items: seq<ResultItem>,
                      d: nat, item: ResultItem)
    requires AllReported(bs, subscription, r, targets, items) && Reported(bs, subscription, r, d, item)
    ensures AllReported(bs, subscription, r, targets + [d], items + [item])
  {
  }

  lemma {:induction false} ReportsGrow(w: World, c: Catalog, e: Engine, subscription: nat, d: nat, r: nat,
                                       targets: seq<nat>, items: seq<ResultItem>)
    requires Reachable(c, e, r) && d < |c.devices| && d !in targets
    requires AllReported(e.bindings, subscription, r, targets, items)
    ensures var x := SyncDevice(w, c, e, subscription, d, r);
      AllReported(x.0.bindings, subscription, r, targets + [d], items + [x.1])
  {
    ReportsSurvive(w, c, e, subscription, d, r, targets, items);
    SyncDeviceReports(w, c, e, subscription, d, r);
    var x := SyncDevice(w, c, e, subscription, d, r);
    ReportsExtend(x.0.bindings, subscription, r, targets, items, d, x.1);
  }

  lemma {:induction false} DistinctFront(front: seq<nat>, d: nat)
    requires Distinct(front + [d])
    ensures Distinct(front) && d !in front
  {
    var xs := front + [d];
    assert xs[|front|] == d && forall i | 0 <= i < |front| :: xs[i] == front[i];
  }

  /** After the loop every target's row is as its item says. */
  lemma {:induction false} SyncDevicesReport(w: World, c: Catalog, e: Engine, subscription: nat, targets: seq<nat>,
                                             r: nat)
    requires Reachable(c, e, r) && Known(c, targets) && Distinct(targets)
    ensures var x := SyncDevices(w, c, e, subscription, targets, r);
      AllReported(x.0.bindings, subscription, r, targets, x.1)
  {
    if targets != [] {
      var n := |targets| - 1;
      var front, d := targets[..n], targets[n];
      assert front + [d] == targets;
      DistinctFront(front, d);
      SyncDevicesReport(w, c, e, subscription, front, r);
      var (e1, items) := SyncDevices(w, c, e, subscription, front, r);
      ReportsGrow(w, c, e1, subscription, d, r, front, items);
    }
  }

  /** A device and route outside the loop keep their row exactly. */
  lemma {:induction false} SyncDevicesSpare(w: World, c: Catalog, e: Engine, subscription: nat, targets: seq<nat>,
                                            r: nat,
                                            d': nat, r': nat)
    requires Reachable(c, e, r) && Known(c, targets) && !(d' in targets && r == r')
    ensures Spared(e.bindings, SyncDevices(w, c, e, subscription, targets, r).0.bindings, d', r')
  {
    if targets != [] {
      var n := |targets| - 1;
      var front, d := targets[..n], targets[n];
      assert front + [d] == targets;
      SyncDevicesAppend(w, c, e, subscription, front, d, r);
      var e1 := SyncDevices(w, c, e, subscription, front, r).0;
      SyncDevicesSpare(w, c, e, subscription, front, r, d', r');
      SyncDeviceSpares(w, c, e1, subscription, d, r, d', r');
      SparedTransitive(e.bindings, e1.bindings, SyncDevice(w, c, e1, subscription, d, r).0.bindings, d', r');
    }
  }

  lemma {:induction false} FirstErrorIsFirst(items: seq<ResultItem>, k: nat)
    requires k < |items| && items[k].status.Failed?
    requires forall j | 0 <= j < k :: !items[j].status.Failed?
    ensures FirstError(items) == items[k].error && AnyFailed(items)
  {
    if k > 0 {
      FirstErrorIsFirst(items[1..], k - 1);
    }
  }
}
