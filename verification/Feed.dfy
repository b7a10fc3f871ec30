/** The public view of a subscription: which link each route shows, and the plain-text feed. */
module Feed {
  import opened Wrappers
  import opened Text
  import opened Tables
  import opened Provisioning
  import opened Schedule
  import Devices
  import Query

  datatype RouteView = RouteView(code: string, title: string, url: string, isProvisioned: bool)

  datatype View = View(device: Option<nat>, routes: seq<RouteView>, provisioned: nat)

  /** The rows a view may use: synchronised for this subscription, not revoked, with a link. */
  predicate Usable(b: Binding, subscription: nat, d: nat) {
    b.subscription == Some(subscription) && b.device == d && b.status == Active && b.revokedAt.None? && b.url != ""
  }

  /** The personal link of a device on a route, if it has one. */
  function PersonalLink(bs: seq<Binding>, subscription: nat, device: Option<nat>, r: nat): Option<string> {
    if device.None? then None
    else
      var i := Find(bs, device.value, r);
      if i < |bs| && Usable(bs[i], subscription, device.value) then Some(bs[i].url) else None
  }

  /** Rows refer to existing catalogue routes. */
  predicate RowsKnown(c: Catalog, rows: seq<SubscriptionRoute>) {
    forall k | 0 <= k < |rows| :: rows[k].route.Some? ==> rows[k].route.value < |c.routes|
  }

  function ViewOf(c: Catalog, bs: seq<Binding>, subscription: nat, device: Option<nat>,
                  row: SubscriptionRoute): RouteView
    requires row.route.Some? ==> row.route.value < |c.routes|
  {
    match row.route
    case None => RouteView(row.code, row.title, row.url, false)
    case Some(r) =>
      match PersonalLink(bs, subscription, device, r)
      case Some(url) => RouteView(row.code, c.routes[r].locationName, url, true)
      case None => RouteView(row.code, c.routes[r].locationName, c.routes[r].endpointUrl, false)
  }

  function Views(c: Catalog, bs: seq<Binding>, subscription: nat, device: Option<nat>,
                 rows: seq<SubscriptionRoute>): (v: seq<RouteView>)
    requires RowsKnown(c, rows)
    ensures |v| == |rows|
    ensures forall k | 0 <= k < |rows| :: v[k] == ViewOf(c, bs, subscription, device, rows[k])
  {
    if rows == [] then []
    else
      var n := |rows| - 1;
      Views(c, bs, subscription, device, rows[..n]) + [ViewOf(c, bs, subscription, device, rows[n])]
  }

  function CountFlagged(views: seq<RouteView>): nat {
    if views == [] then 0
    else
      var n := |views| - 1;
      CountFlagged(views[..n]) + if views[n].isProvisioned then 1 else 0
  }

  /** The counter is the number of flagged entries. */
  lemma {:induction false} FlaggedCounted(views: seq<RouteView>)
    ensures CountFlagged(views) == |set n | 0 <= n < |views| && views[n].isProvisioned|
  {
    if views != [] {
      var n := |views| - 1;
      var front := views[..n];
      FlaggedCounted(front);
      var before := set k | 0 <= k < |front| && front[k].isProvisioned;
      var all := set k | 0 <= k < |views| && views[k].isProvisioned;
      assert all == if views[n].isProvisioned then before + {n} else before;
    }
  }

  lemma {:induction false} InOrderKnown(c: Catalog, rows: seq<SubscriptionRoute>)
    requires RowsKnown(c, rows)
    ensures RowsKnown(c, InOrder(rows))
  {
    forall k | 0 <= k < |rows| ensures InOrder(rows)[k].route.Some? ==> InOrder(rows)[k].route.value < |c.routes| {
      assert InOrder(rows)[k] in InOrder(rows);
      Query.OrderByMember(RouteBefore, rows, InOrder(rows)[k]);
    }
  }

  /** `build_subscription_route_access_snapshot`. */
  function Snapshot(c: Catalog, bs: seq<Binding>, subscription: nat, ip: string, key: string): View
    requires subscription < |c.subscriptions| && RowsKnown(c, c.subscriptions[subscription].routes)
  {
    var device := Devices.Resolve(c.devices, c.subscriptions[subscription].user, ip, key);
    InOrderKnown(c, c.subscriptions[subscription].routes);
    var views := Views(c, bs, subscription, device, InOrder(c.subscriptions[subscription].routes));
    View(device, views, CountFlagged(views))
  }

  function Urls(views: seq<RouteView>): (u: seq<string>)
    ensures |u| == |views| && forall k | 0 <= k < |u| :: u[k] == views[k].url
  {
    if views == [] then [] else [views[0].url] + Urls(views[1..])
  }

  /** One URL per line, each line ended. */
  function FeedText(urls: seq<string>): string {
    if urls == [] then "" else Join(urls, '\n') + "\n"
  }

  /** `build_public_subscription_feed`. */
  function PublicFeed(c: Catalog, bs: seq<Binding>, subscription: nat, ip: string, key: string): string
    requires subscription < |c.subscriptions| && RowsKnown(c, c.subscriptions[subscription].routes)
  {
    FeedText(Urls(Snapshot(c, bs, subscription, ip, key).routes))
  }

  lemma {:induction false} JoinEnded(urls: seq<string>)
    requires urls != []
    ensures Join(urls + [""], '\n') == Join(urls, '\n') + "\n"
  {
    if |urls| > 1 {
      JoinEnded(urls[1..]);
      assert (urls + [""])[1..] == urls[1..] + [""];
    } else {
      assert (urls + [""])[1..] == [""];
    }
  }

  /** Splitting a feed on newlines gives the URLs back, in order, and nothing after the last newline. */
  lemma {:induction false} FeedSplits(urls: seq<string>)
    requires forall k | 0 <= k < |urls| :: '\n' !in urls[k]
    ensures SplitOn(FeedText(urls), '\n') == urls + [""]
  {
    if urls == [] {
      assert Join([""], '\n') == "";
      SplitJoin([""], '\n');
    } else {
      JoinEnded(urls);
      SplitJoin(urls + [""], '\n');
    }
  }

  /** A personal link always comes from an active row of a device that is not revoked. */
  lemma {:induction false} ViewsServeActiveDevices(c: Catalog, bs: seq<Binding>, subscription: nat, ip: string,
                                                   key: string, k: nat)
    requires subscription < |c.subscriptions| && RowsKnown(c, c.subscriptions[subscription].routes)
    requires k < |Snapshot(c, bs, subscription, ip, key).routes|
    requires Snapshot(c, bs, subscription, ip, key).routes[k].isProvisioned
    ensures exists i | 0 <= i < |bs| ::
      && bs[i].url == Snapshot(c, bs, subscription, ip, key).routes[k].url && bs[i].status == Active
      && bs[i].device < |c.devices| && c.devices[bs[i].device].ActiveFor(c.subscriptions[subscription].user)
  {
    var user := c.subscriptions[subscription].user;
    var device := Devices.Resolve(c.devices, user, ip, key);
    Devices.ResolvedIsActive(c.devices, user, ip, key);
    InOrderKnown(c, c.subscriptions[subscription].routes);
    var row := InOrder(c.subscriptions[subscription].routes)[k];
    assert Snapshot(c, bs, subscription, ip, key).routes[k] == ViewOf(c, bs, subscription, device, row);
    var i := Find(bs, device.value, row.route.value);
    assert bs[i].Keyed(device.value, row.route.value);
  }
}
