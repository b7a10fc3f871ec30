/** Whose client a served panel link belongs to: reading the link back names the device. */
module ServedLinks {
  import opened Wrappers
  import opened Tables
  import opened Adapters
  import opened Provisioning
  import opened Lifecycle
  import opened Schedule
  import opened Access
  import opened AccessRuns
  import opened AccessTheorems
  import opened VlessLink
  import Devices
  import Feed

  /** The client email in a link's fragment. */
  function LinkEmail(url: string): Option<string> {
    match ReadLink(url, CutFromRight)
    case Some(link) => Some(link.email)
    case None => None
  }

  lemma {:induction false} OwnLinkNamesClient(url: string, uuid: string, email: string)
    requires OwnLink(url, uuid, email)
    ensures LinkEmail(url) == Some(email)
  {
    var inbound: Inbound, host: string :| url == ConnectionUrl(inbound, host, uuid, email);
    BuiltLinkReadsBack(inbound, host, uuid, email);
  }

  /** The row whose link a view shows on its route number `n`. */
  ghost predicate ServedBy(s: State, k: nat, ip: string, key: string, n: nat, i: nat)
    requires k < |s.catalog.subscriptions|
  {
    && Feed.RowsKnown(s.catalog, s.catalog.subscriptions[k].routes)
    && var view := Feed.Snapshot(s.catalog, s.engine.bindings, k, ip, key);
      && n < |view.routes| && view.routes[n].isProvisioned && i < |s.engine.bindings|
      && view.device == Some(s.engine.bindings[i].device) && view.routes[n].url == s.engine.bindings[i].url
      && s.engine.bindings[i].status == Active && s.engine.bindings[i].subscription == Some(k)
  }

  /** Every flagged route is served by such a row of the resolved device. */
  lemma {:induction false} FlaggedIsServed(s: State, k: nat, ip: string, key: string, n: nat) returns (i: nat)
    requires k < |s.catalog.subscriptions| && Feed.RowsKnown(s.catalog, s.catalog.subscriptions[k].routes)
    requires var view := Feed.Snapshot(s.catalog, s.engine.bindings, k, ip, key);
      n < |view.routes| && view.routes[n].isProvisioned
    ensures ServedBy(s, k, ip, key, n, i)
  {
    var c, bs := s.catalog, s.engine.bindings;
    var device := Devices.Resolve(c.devices, c.subscriptions[k].user, ip, key);
    Feed.InOrderKnown(c, c.subscriptions[k].routes);
    var row := InOrder(c.subscriptions[k].routes)[n];
    assert Feed.Snapshot(c, bs, k, ip, key).routes[n] == Feed.ViewOf(c, bs, k, device, row);
    i := Find(bs, device.value, row.route.value);
  }

  /** After every run a served panel link carries the client email of the resolved device, and of no other row. */
  lemma {:induction false} ServedLinkNamesItsDevice(w: World, s: State, steps: seq<Step>, k: nat, ip: string,
                                                    key: string,
                                                    n: nat, i: nat, j: nat)
    requires Consistent(s) && k < |Run(w, s, steps).catalog.subscriptions|
    requires ServedBy(Run(w, s, steps), k, ip, key, n, i)
    requires Run(w, s, steps).engine.bindings[i].adapter == Some(Xui)
    ensures var s' := Run(w, s, steps);
      var email := LinkEmail(Feed.Snapshot(s'.catalog, s'.engine.bindings, k, ip, key).routes[n].url);
      && email == Some(s'.engine.bindings[i].email)
      && (j < |s'.engine.bindings| && email == Some(s'.engine.bindings[j].email) ==> j == i)
  {
    RunAdvances(w, s, steps);
    var s' := Run(w, s, steps);
    var b := s'.engine.bindings[i];
    assert RowOk(s'.catalog, |s'.engine.servers|, s'.engine.now, b);
    OwnLinkNamesClient(b.url, b.uuid, b.email);
    if j < i {
      EmailsDiffer(s', j, i);
    } else if i < j < |s'.engine.bindings| {
      EmailsDiffer(s', i, j);
    }
  }

  /** Once a device is revoked, no panel link that any later view serves carries the email of one of its clients. */
  lemma {:induction false} RevokedClientIsNeverServed(w: World, s: State, steps: seq<Step>, d: nat, k: nat,
                                                      ip: string, key: string,
                                                      n: nat, i: nat, j: nat)
    requires Consistent(s) && d < |s.catalog.devices| && s.catalog.devices[d].revokedAt.Some?
    requires k < |Run(w, s, steps).catalog.subscriptions|
    requires ServedBy(Run(w, s, steps), k, ip, key, n, i)
    requires Run(w, s, steps).engine.bindings[i].adapter == Some(Xui)
    requires j < |Run(w, s, steps).engine.bindings| && Run(w, s, steps).engine.bindings[j].device == d
    ensures var s' := Run(w, s, steps);
      LinkEmail(Feed.Snapshot(s'.catalog, s'.engine.bindings, k, ip, key).routes[n].url)
        != Some(s'.engine.bindings[j].email)
  {
    ServedLinkNamesItsDevice(w, s, steps, k, ip, key, n, i, j);
    RevokedIsNeverServed(w, s, steps, d, k, ip, key);
  }
}
