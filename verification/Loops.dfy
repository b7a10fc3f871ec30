/** The loops of the services that touch no table, and the facts about loops that the tables' methods use. */
module Loops {
  import opened Wrappers
  import opened Tables
  import opened Adapters
  import opened Provisioning
  import opened Lifecycle
  import opened Schedule
  import Feed
  import Query

  /** `ORDER BY route_id, last_synced_at DESC, id DESC`. */
  predicate LinkBefore(bs: seq<Binding>, i: nat, j: nat) {
    i < |bs| && j < |bs| &&
    (|| bs[i].route < bs[j].route
     || (bs[i].route == bs[j].route &&
         (|| SyncedLater(bs[i].lastSyncedAt, bs[j].lastSyncedAt)
          || (bs[i].lastSyncedAt == bs[j].lastSyncedAt && i >= j))))
  }

  predicate SyncedLater(a: Option<int>, b: Option<int>) {
    if a.None? then b.Some? else b.Some? && a.value > b.value
  }

  /** The rows a view may use, in query order. */
  function UsableRows(bs: seq<Binding>, subscription: nat, d: nat): seq<nat> {
    Query.OrderBy((i, j) => LinkBefore(bs, i, j), Query.Where(bs, (b: Binding) => Feed.Usable(b, subscription, d)))
  }

  lemma {:induction false} UsableRowsAre(bs: seq<Binding>, subscription: nat, d: nat)
    ensures forall i: nat :: i in UsableRows(bs, subscription, d) <==> i < |bs| && Feed.Usable(bs[i], subscription, d)
    ensures forall m | 0 <= m < |UsableRows(bs, subscription, d)| :: UsableRows(bs, subscription, d)[m] < |bs|
  {
    var usable := Query.Where(bs, (b: Binding) => Feed.Usable(b, subscription, d));
    var ids := UsableRows(bs, subscription, d);
    forall i: nat ensures i in ids <==> i in usable {
      Query.OrderByMember((i, j) => LinkBefore(bs, i, j), usable, i);
    }
    forall m | 0 <= m < |ids| ensures ids[m] < |bs| {
      assert ids[m] in ids;
    }
  }

  /** The dictionary holds a link for the route of each of the first `n` rows, and nothing else. */
  ghost predicate Collected(bs: seq<Binding>, ids: seq<nat>, n: nat, links: map<nat, string>)
    requires n <= |ids| && forall m | 0 <= m < |ids| :: ids[m] < |bs|
  {
    && (forall m | 0 <= m < n :: bs[ids[m]].route in links)
    && (forall r: nat | r in links :: exists m | 0 <= m < n :: bs[ids[m]].route == r && links[r] == bs[ids[m]].url)
  }

  lemma {:induction false} CollectedNext(bs: seq<Binding>, ids: seq<nat>, n: nat, links: map<nat, string>)
    requires n < |ids| && (forall m | 0 <= m < |ids| :: ids[m] < |bs|) && Collected(bs, ids, n, links)
    ensures var b := bs[ids[n]];
      Collected(bs, ids, n + 1, if b.route in links then links else links[b.route := b.url])
  {
    var b := bs[ids[n]];
    var links' := if b.route in links then links else links[b.route := b.url];
    forall r: nat | r in links' ensures exists m | 0 <= m < n + 1 ::
      bs[ids[m]].route == r && links'[r] == bs[ids[m]].url {
      if r in links {
        var m :| 0 <= m < n && bs[ids[m]].route == r && links[r] == bs[ids[m]].url;
      }
    }
  }

  /** The dictionary from routes to links: the first usable row of each route in query order. */
  method CollectLinks(bs: seq<Binding>, subscription: nat, d: nat) returns (links: map<nat, string>)
    requires OneRowPerKey(bs)
    ensures LinksOf(links, bs, subscription, Some(d))
  {
    var ids := UsableRows(bs, subscription, d);
    UsableRowsAre(bs, subscription, d);
    links := map[];
    for n := 0 to |ids|
      invariant Collected(bs, ids, n, links)
    {
      CollectedNext(bs, ids, n, links);
      if bs[ids[n]].route !in links {
        links := links[bs[ids[n]].route := bs[ids[n]].url];
      }
    }
    LinksAreExact(bs, subscription, d, ids, links);
  }

  lemma {:induction false} LinksAreExact(bs: seq<Binding>, subscription: nat, d: nat, ids: seq<nat>,
                                         links: map<nat, string>)
    requires OneRowPerKey(bs)
    requires forall i: nat :: i in ids <==> i < |bs| && Feed.Usable(bs[i], subscription, d)
    requires (forall m | 0 <= m < |ids| :: ids[m] < |bs|) && Collected(bs, ids, |ids|, links)
    ensures LinksOf(links, bs, subscription, Some(d))
  {
    forall r: nat
      ensures r in links <==> Feed.PersonalLink(bs, subscription, Some(d), r).Some?
      ensures r in links ==> Feed.PersonalLink(bs, subscription, Some(d), r) == Some(links[r])
    {
      var i := Find(bs, d, r);
      assert i < |bs| && Feed.Usable(bs[i], subscription, d) ==> i in ids;
      if r in links {
        var m :| 0 <= m < |ids| && bs[ids[m]].route == r && links[r] == bs[ids[m]].url;
        assert ids[m] in ids && bs[ids[m]].Keyed(d, r);
      }
    }
  }

  /** The dictionary holds exactly the personal links of the device. */
  ghost predicate LinksOf(links: map<nat, string>, bs: seq<Binding>, subscription: nat, device: Option<nat>) {
    && (forall r: nat :: r in links <==> Feed.PersonalLink(bs, subscription, device, r).Some?)
    && (forall r: nat | r in links :: Feed.PersonalLink(bs, subscription, device, r) == Some(links[r]))
  }

  /** One entry of a view: the personal link, else the route's public link, else the row's own. */
  method ShowRoute(c: Catalog, ghost bs: seq<Binding>, ghost subscription: nat, ghost device: Option<nat>,
                   row: SubscriptionRoute, links: map<nat, string>) returns (entry: Feed.RouteView)
    requires (row.route.Some? ==> row.route.value < |c.routes|) && LinksOf(links, bs, subscription, device)
    ensures entry == Feed.ViewOf(c, bs, subscription, device, row)
  {
    var url, isProvisioned;
    if row.route.Some? && row.route.value in links {
      url, isProvisioned := links[row.route.value], true;
    } else if row.route.Some? {
      url, isProvisioned := c.routes[row.route.value].endpointUrl, false;
    } else {
      url, isProvisioned := row.url, false;
    }
    var title := if row.route.Some? then c.routes[row.route.value].locationName else row.title;
    entry := Feed.RouteView(row.code, title, url, isProvisioned);
  }

  /** The entries of a view, route by route, and how many show a personal link. */
  method ShowRoutes(c: Catalog, ghost bs: seq<Binding>, ghost subscription: nat, device: Option<nat>,
                    rows: seq<SubscriptionRoute>, links: map<nat, string>) returns (view: Feed.View)
    requires Feed.RowsKnown(c, rows) && LinksOf(links, bs, subscription, device)
    ensures view == Feed.View(device, Feed.Views(c, bs, subscription, device, rows),
                              Feed.CountFlagged(Feed.Views(c, bs, subscription, device, rows)))
  {
    var entries: seq<Feed.RouteView> := [];
    var provisioned := 0;
    for n := 0 to |rows|
      invariant |entries| == n && forall m | 0 <= m < n ::
        entries[m] == Feed.ViewOf(c, bs, subscription, device, rows[m])
      invariant provisioned == Feed.CountFlagged(entries)
    {
      var entry := ShowRoute(c, bs, subscription, device, rows[n], links);
      if entry.isProvisioned {
        provisioned := provisioned + 1;
      }
      assert (entries + [entry])[..n] == entries;
      entries := entries + [entry];
    }
    assert entries == Feed.Views(c, bs, subscription, device, rows);
    view := Feed.View(device, entries, provisioned);
  }

  /** The verdict on a device loop: failed with the first error reported, or succeeded. */
  function Concluded(op: Operation, kind: Option<AdapterKind>, items: seq<ResultItem>, now: int): Operation {
    op.MarkFinished(if AnyFailed(items) then Failed else Succeeded, kind, FirstError(items), items, now)
  }

  /** A sync over the given targets, or a skip when there are none. */
  function SyncOver(w: World, c: Catalog, e: Engine, op: Operation, subscription: nat, targets: seq<nat>, r: nat,
                    kind: Option<AdapterKind>): (Engine, Operation)
    requires Reachable(c, e, r) && Known(c, targets)
  {
    if targets == [] then (e, op.MarkFinished(Skipped, kind, NoError, [], e.now))
    else
      var x := SyncDevices(w, c, e, subscription, targets, r);
      (x.0, Concluded(op, kind, x.1, x.0.now))
  }

  lemma {:induction false} SyncOverIsExecuteSync(w: World, c: Catalog, e: Engine, op: Operation, targets: seq<nat>,
                                                 kind: Option<AdapterKind>)
    requires op.route.Some? && op.server.Some? && op.subscription.Some? && Linked(c, e, op)
    requires targets == Targets(c, op) && Known(c, targets) && kind == Some(ProfileOf(e, op.server.value).adapter)
    ensures ExecuteSync(w, c, e, op) == SyncOver(w, c, e, op, op.subscription.value, targets, op.route.value, kind)
  {
  }

  /** The device loop up to target number `k`. */
  ghost function SyncedSoFar(w: World, c: Catalog, e: Engine, subscription: nat, targets: seq<nat>, r: nat, k: nat)
    : (x: (Engine, seq<ResultItem>))
    requires Reachable(c, e, r) && Known(c, targets) && k <= |targets|
    ensures |x.0.servers| == |e.servers|
  {
    SyncDevices(w, c, e, subscription, targets[..k], r)
  }

  lemma {:induction false} SyncedSoFarNext(w: World, c: Catalog, e: Engine, subscription: nat, targets: seq<nat>,
                                           r: nat, k: nat)
    requires Reachable(c, e, r) && Known(c, targets) && k < |targets|
    ensures var x := SyncedSoFar(w, c, e, subscription, targets, r, k);
      && Reachable(c, x.0, r)
      && var y := SyncDevice(w, c, x.0, subscription, targets[k], r);
        SyncedSoFar(w, c, e, subscription, targets, r, k + 1) == (y.0, x.1 + [y.1])
  {
    SyncDevicesNext(w, c, e, subscription, targets, r, k);
  }

  lemma {:induction false} LogGrows<T>(log: seq<T>, done: seq<T>, next: T)
    ensures log + done + [next] == log + (done + [next])
  {
  }

  /** The batch up to route number `k`. */
  ghost function BatchSoFar(w: World, c: Catalog, e: Engine, subscription: nat, device: Option<nat>,
                            kind: OperationKind,
                            batch: seq<nat>, k: nat): (x: (Engine, seq<Operation>))
    requires AllReachable(c, e, batch) && ServersKnown(e) && subscription < |c.subscriptions| && k <= |batch|
    requires device.Some? ==> device.value < |c.devices|
    ensures |x.0.servers| == |e.servers| && ServersKnown(x.0)
  {
    RunBatch(w, c, e, subscription, device, kind, batch[..k])
  }

  lemma {:induction false} BatchSoFarNext(w: World, c: Catalog, e: Engine, subscription: nat, device: Option<nat>,
                                          kind: OperationKind, batch: seq<nat>, k: nat)
    requires AllReachable(c, e, batch) && ServersKnown(e) && subscription < |c.subscriptions| && k < |batch|
    requires device.Some? ==> device.value < |c.devices|
    ensures var x := BatchSoFar(w, c, e, subscription, device, kind, batch, k);
      && Reachable(c, x.0, batch[k])
      && var y := Execute(w, c, x.0, NextOperation(c, subscription, device, kind, batch[k]));
        BatchSoFar(w, c, e, subscription, device, kind, batch, k + 1) == (y.0, x.1 + [y.1])
  {
    RunBatchNext(w, c, e, subscription, device, kind, batch, k);
  }

  function FailedItems(items: seq<ResultItem>): seq<ResultItem> {
    if items == [] then []
    else
      var n := |items| - 1;
      FailedItems(items[..n]) + if items[n].status.Failed? then [items[n]] else []
  }

  lemma {:induction false} FirstErrorOfFront(items: seq<ResultItem>, x: ResultItem)
    ensures FirstError(items + [x]) ==
      if AnyFailed(items) then FirstError(items) else if x.status.Failed? then x.error else NoError
  {
    if items != [] {
      assert (items + [x])[1..] == items[1..] + [x];
      FirstErrorOfFront(items[1..], x);
      assert AnyFailed(items) <==> items[0].status.Failed? || AnyFailed(items[1..]) by {
        if AnyFailed(items) && !items[0].status.Failed? {
          var k :| 0 <= k < |items| && items[k].status.Failed?;
          assert items[1..][k - 1].status.Failed?;
        }
      }
    } else {
      assert [x][1..] == [];
    }
  }

  /** The list of failures is empty exactly when nothing failed, and begins with the first failure. */
  lemma {:induction false} FailedItemsTell(items: seq<ResultItem>)
    ensures FailedItems(items) == [] <==> !AnyFailed(items)
    ensures FirstError(items) == if FailedItems(items) == [] then NoError else FailedItems(items)[0].error
  {
    if items != [] {
      var n := |items| - 1;
      FailedItemsTell(items[..n]);
      FirstErrorOfFront(items[..n], items[n]);
      assert items == items[..n] + [items[n]];
      assert AnyFailed(items) <==> AnyFailed(items[..n]) || items[n].status.Failed? by {
        if AnyFailed(items) && !items[n].status.Failed? {
          var k :| 0 <= k < |items| && items[k].status.Failed?;
          assert items[..n][k].status.Failed?;
        }
        if AnyFailed(items[..n]) {
          var k :| 0 <= k < n && items[..n][k].status.Failed?;
          assert items[k].status.Failed?;
        }
      }
    }
  }
}
