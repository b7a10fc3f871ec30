/** What a public view shows, read off from the rows, the catalogue and the request alone. */
module ViewOutcomes {
  import opened Wrappers
  import opened Tables
  import opened Provisioning
  import opened Lifecycle
  import opened Schedule
  import opened BatchOutcomes
  import opened TouchOutcomes
  import Feed

  /** A row with a link the device may use for this subscription. */
  ghost predicate Personal(b: Binding, subscription: nat, d: nat, r: nat) {
    && b.device == d && b.route == r && b.subscription == Some(subscription)
    && b.status == Active && b.revokedAt.None? && b.url != ""
  }

  ghost predicate HasPersonal(bs: seq<Binding>, subscription: nat, device: Option<nat>, r: nat) {
    device.Some? && exists i | 0 <= i < |bs| :: Personal(bs[i], subscription, device.value, r)
  }

  /** An entry shows the device's own link if it has one, the catalogue's link if the row is linked to a route, and the
      row's own link otherwise; only the first kind is flagged. */
  ghost predicate Shows(c: Catalog, bs: seq<Binding>, subscription: nat, device: Option<nat>, row: SubscriptionRoute,
                        entry: Feed.RouteView)
  {
    && entry.code == row.code
    && match row.route
       case None => !entry.isProvisioned && entry.title == row.title && entry.url == row.url
       case Some(r) =>
         && r < |c.routes| && entry.title == c.routes[r].locationName
         && (entry.isProvisioned <==> HasPersonal(bs, subscription, device, r))
         && (entry.isProvisioned ==>
               exists i | 0 <= i < |bs| :: Personal(bs[i], subscription, device.value, r) && entry.url == bs[i].url)
         && (!entry.isProvisioned ==> entry.url == c.routes[r].endpointUrl)
  }

  lemma {:induction false} EntryShows(c: Catalog, bs: seq<Binding>, subscription: nat, device: Option<nat>,
                                      row: SubscriptionRoute)
    requires OneRowPerKey(bs) && (row.route.Some? ==> row.route.value < |c.routes|)
    ensures Shows(c, bs, subscription, device, row, Feed.ViewOf(c, bs, subscription, device, row))
  {
    if row.route.Some? && device.Some? {
      var i := Find(bs, device.value, row.route.value);
      assert i < |bs| ==> bs[i].Keyed(device.value, row.route.value);
      forall j | 0 <= j < |bs| && Personal(bs[j], subscription, device.value, row.route.value) ensures j == i {
        assert bs[j].Keyed(device.value, row.route.value);
      }
    }
  }

  /** A view shows every row of the subscription once, by position, for the device the request belongs to. */
  lemma {:induction false} ViewShows(c: Catalog, bs: seq<Binding>, subscription: nat, ip: string, key: string)
    returns (sorted: seq<SubscriptionRoute>)
    requires subscription < |c.subscriptions| && Feed.RowsKnown(c, c.subscriptions[subscription].routes)
    requires OneRowPerKey(bs)
    ensures SortedRows(c.subscriptions[subscription].routes, sorted)
    ensures var view, user := Feed.Snapshot(c, bs, subscription, ip, key), c.subscriptions[subscription].user;
      && (view.device.Some? <==>
            SomeWithKey(c.devices, user, key) || (ip != "" && SomeAtAddress(c.devices, user, ip)))
      && (view.device.Some? ==> Recognised(c.devices, user, ip, key, view.device.value))
      && |view.routes| == |sorted|
      && (forall n | 0 <= n < |sorted| :: Shows(c, bs, subscription, view.device, sorted[n], view.routes[n]))
      && view.provisioned == |set n | 0 <= n < |view.routes| && view.routes[n].isProvisioned|
  {
    var rows := c.subscriptions[subscription].routes;
    var view := Feed.Snapshot(c, bs, subscription, ip, key);
    sorted := InOrder(rows);
    InOrderSorts(rows);
    ResolveRecognises(c.devices, c.subscriptions[subscription].user, ip, key);
    Feed.InOrderKnown(c, rows);
    forall n | 0 <= n < |sorted| ensures Shows(c, bs, subscription, view.device, sorted[n], view.routes[n]) {
      EntryShows(c, bs, subscription, view.device, sorted[n]);
    }
    Feed.FlaggedCounted(view.routes);
  }
}
