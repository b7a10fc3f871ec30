/** The status cache on server rows, and what operations may do to it. */
module ServerCache {
  import opened Wrappers
  import opened Tables
  import opened Adapters
  import opened Provisioning

  /** Snapshot `k` is the last one appended for the server. */
  ghost predicate IsLast(log: seq<Snapshot>, server: nat, k: nat) {
    && k < |log| && log[k].server == server
    && forall m | k < m < |log| :: log[m].server != server
  }

  /** Snapshots are logged in time order and every server carries its last one. */
  ghost predicate CacheOk(e: Engine) {
    && (forall k | 0 <= k < |e.snapshots| :: e.snapshots[k].checkedAt <= e.now)
    && (forall k, m | 0 <= k < m < |e.snapshots| :: e.snapshots[k].checkedAt <= e.snapshots[m].checkedAt)
    && (forall server: nat, k: nat | server < |e.servers| && IsLast(e.snapshots, server, k) ::
          && e.servers[server].status == e.snapshots[k].status
          && e.servers[server].lastHeartbeat == e.snapshots[k].checkedAt)
  }

  /** A server that is down stays down. */
  ghost predicate StaysDown(e: Engine, e': Engine) {
    && |e'.servers| == |e.servers|
    && forall j | 0 <= j < |e.servers| && e.servers[j].status.Down() :: e'.servers[j].status.Down()
  }

  /** The two effects together: the cache stays right and nothing comes back up. */
  ghost predicate Sound(e: Engine, e': Engine) {
    && e.now <= e'.now
    && (CacheOk(e) ==> CacheOk(e'))
    && StaysDown(e, e')
  }

  lemma {:induction false} SoundTransitive(e: Engine, e1: Engine, e2: Engine)
    requires Sound(e, e1) && Sound(e1, e2)
    ensures Sound(e, e2)
  {
  }

  lemma {:induction false} RecordKeepsCache(e: Engine, server: nat, status: ServerStatus)
    requires server < |e.servers| && CacheOk(e)
    ensures CacheOk(RecordSnapshot(e, server, status))
  {
    var e' := RecordSnapshot(e, server, status);
    var n := |e.snapshots|;
    forall j: nat, k: nat | j < |e'.servers| && IsLast(e'.snapshots, j, k)
      ensures e'.servers[j].status == e'.snapshots[k].status
      ensures e'.servers[j].lastHeartbeat == e'.snapshots[k].checkedAt
    {
      if j == server {
        assert e'.snapshots[n].server == server;
        assert k == n;
      } else {
        assert k < n;
        assert forall m | 0 <= m < n :: e'.snapshots[m] == e.snapshots[m];
        assert IsLast(e.snapshots, j, k);
      }
    }
  }

  lemma {:induction false} CallKeepsCache(e: Engine, elapsed: nat)
    ensures Sound(e, AfterCall(e, elapsed))
  {
    var e' := AfterCall(e, elapsed);
    if CacheOk(e) {
      assert forall server: nat, k: nat | server < |e'.servers|
        && IsLast(e'.snapshots, server, k) :: IsLast(e.snapshots, server, k);
    }
  }

  lemma {:induction false} ProfileKeepsCache(e: Engine, server: nat)
    ensures Sound(e, EnsureProfile(e, server))
  {
  }

  /** Changing only the binding table leaves the cache alone. */
  lemma {:induction false} BindingsKeepCache(e: Engine, bs: seq<Binding>)
    ensures Sound(e, e.(bindings := bs))
  {
  }

  /** Taking a server down is sound whatever its status was. */
  lemma {:induction false} RecordDownSound(e: Engine, server: nat, status: ServerStatus)
    requires server < |e.servers| && status.Down()
    ensures Sound(e, RecordSnapshot(e, server, status))
  {
    if CacheOk(e) {
      RecordKeepsCache(e, server, status);
    }
  }

  lemma {:induction false} CallFailedSound(e: Engine, i: nat, kind: AdapterKind, code: RaisedCode)
    requires i < |e.bindings| && e.bindings[i].server < |e.servers|
    ensures Sound(e, CallFailed(e, i, kind, code).0)
  {
    var e1 := RecordSnapshot(e, e.bindings[i].server, Offline);
    RecordDownSound(e, e.bindings[i].server, Offline);
    BindingsKeepCache(e1, e1.bindings[i := e1.bindings[i].MarkFailed(kind, code)]);
    SoundTransitive(e, e1, CallFailed(e, i, kind, code).0);
  }

  lemma {:induction false} PreludeSound(e: Engine, server: nat, elapsed: nat)
    ensures Sound(e, AfterCall(EnsureProfile(e, server), elapsed))
  {
    var e1 := EnsureProfile(e, server);
    ProfileKeepsCache(e, server);
    CallKeepsCache(e1, elapsed);
    SoundTransitive(e, e1, AfterCall(e1, elapsed));
  }

  lemma {:induction false} SyncBindingSound(w: World, c: Catalog, e: Engine, i: nat)
    requires i < |e.bindings| && e.bindings[i].server < |e.servers| && e.bindings[i].route < |c.routes|
    ensures Sound(e, SyncBinding(w, c, e, i).0)
  {
    var b := e.bindings[i];
    var e1 := EnsureProfile(e, b.server);
    var profile := ProfileOf(e1, b.server);
    var outcome := w.sync(e1.calls);
    var e2 := AfterCall(e1, outcome.elapsed);
    PreludeSound(e, b.server, outcome.elapsed);
    match outcome {
      case SyncRaised(_, raised) => CallFailedSound(e2, i, profile.adapter, raised);
      case SyncCrashed(_) => CallFailedSound(e2, i, profile.adapter, RuntimeError);
      case SyncDone(_, inbound) => BindingsKeepCache(e2, SyncBinding(w, c, e, i).0.bindings);
    }
    SoundTransitive(e, e2, SyncBinding(w, c, e, i).0);
  }

  lemma {:induction false} RevokeBindingSound(w: World, e: Engine, i: nat)
    requires i < |e.bindings| && e.bindings[i].server < |e.servers|
    ensures Sound(e, RevokeBinding(w, e, i).0)
  {
    var b := e.bindings[i];
    var e1 := EnsureProfile(e, b.server);
    var profile := ProfileOf(e1, b.server);
    var outcome := RevokeAnswer(profile, b, w.revoke(e1.calls));
    var e2 := AfterCall(e1, outcome.elapsed);
    PreludeSound(e, b.server, outcome.elapsed);
    match outcome {
      case RevokeRaised(_, raised) => CallFailedSound(e2, i, profile.adapter, raised);
      case RevokeCrashed(_) => CallFailedSound(e2, i, profile.adapter, RuntimeError);
      case RevokeDone(_) => BindingsKeepCache(e2, RevokeBinding(w, e, i).0.bindings);
    }
    SoundTransitive(e, e2, RevokeBinding(w, e, i).0);
  }

  lemma {:induction false} SyncDeviceSound(w: World, c: Catalog, e: Engine, subscription: nat, d: nat, r: nat)
    requires Reachable(c, e, r) && d < |c.devices|
    ensures Sound(e, SyncDevice(w, c, e, subscription, d, r).0)
  {
    var e1 := EnsureAccess(c, e, Some(subscription), d, r, w.uuid(e.calls));
    BindingsKeepCache(e, e1.bindings);
    SyncBindingSound(w, c, e1, Find(e.bindings, d, r));
    SoundTransitive(e, e1, SyncDevice(w, c, e, subscription, d, r).0);
  }

  lemma {:induction false} SyncDevicesSound(w: World, c: Catalog, e: Engine, subscription: nat, targets: seq<nat>,
                                            r: nat)
    requires Reachable(c, e, r) && Known(c, targets)
    ensures Sound(e, SyncDevices(w, c, e, subscription, targets, r).0)
  {
    if targets != [] {
      var n := |targets| - 1;
      var front, d := targets[..n], targets[n];
      assert front + [d] == targets;
      SyncDevicesAppend(w, c, e, subscription, front, d, r);
      var e1 := SyncDevices(w, c, e, subscription, front, r).0;
      SyncDevicesSound(w, c, e, subscription, front, r);
      SyncDeviceSound(w, c, e1, subscription, d, r);
      SoundTransitive(e, e1, SyncDevice(w, c, e1, subscription, d, r).0);
    }
  }

  /** An explicit health check keeps the cache; it alone may bring a server back up. */
  lemma {:induction false} RefreshKeepsCache(w: World, e: Engine, server: nat)
    requires server < |e.servers|
    ensures var e' := RefreshHealth(w, e, server).0;
      && e.now <= e'.now && (CacheOk(e) ==> CacheOk(e'))
      && |e'.servers| == |e.servers|
        && (forall j | 0 <= j < |e.servers| && j != server :: e'.servers[j] == e.servers[j])
      && e'.servers[server].lastHeartbeat == e'.now
      && e'.bindings == e.bindings
      && (!e'.servers[server].status.Down() ==> server in e'.profiles && e'.profiles[server].isEnabled)
  {
    var e1 := EnsureProfile(e, server);
    ProfileKeepsCache(e, server);
    if ProfileOf(e1, server).isEnabled {
      var e2 := AfterCall(e1, w.health(e1.calls).elapsed);
      CallKeepsCache(e1, w.health(e1.calls).elapsed);
      if CacheOk(e) {
        RecordKeepsCache(e2, server, Running);
        RecordKeepsCache(e2, server, Offline);
      }
    } else if CacheOk(e) {
      RecordKeepsCache(e1, server, Maintenance);
    }
  }

  /** The gates never bring a server back up, and when they open the server is enabled,
      up, and was heard from less than five minutes ago. */
  lemma {:induction false} GatesSound(w: World, e: Engine, op: Operation)
    requires op.server.Some? && op.server.value < |e.servers|
    ensures var (e', gate) := PassGates(w, e, op); var server := op.server.value;
      && Sound(e, e')
      && (gate.Open? ==>
            && server in e'.profiles && e'.profiles[server].isEnabled
            && (e'.servers[server].status.Running? || e'.servers[server].status.Degraded?)
            && e'.now - e'.servers[server].lastHeartbeat < HEARTBEAT_MAX_AGE
            && op.subscription.Some?)
      && (gate.Stop? ==> gate.status.Failed? || gate.status.Skipped?)
  {
    var server := op.server.value;
    var e1 := EnsureProfile(e, server);
    ProfileKeepsCache(e, server);
    if ProfileOf(e1, server).isEnabled && !e1.servers[server].status.Down() && Stale(e1, server) {
      RefreshKeepsCache(w, e1, server);
    }
  }

  /** The cached status and heartbeat are those of the snapshot that sorts first
      under `ORDER BY checked_at DESC, id DESC`. */
  lemma {:induction false} CacheIsLatest(e: Engine, server: nat, k: nat)
    requires CacheOk(e) && server < |e.servers|
    requires k < |e.snapshots| && e.snapshots[k].server == server
    requires forall m | 0 <= m < |e.snapshots| && e.snapshots[m].server == server ::
      || e.snapshots[m].checkedAt < e.snapshots[k].checkedAt
      || (e.snapshots[m].checkedAt == e.snapshots[k].checkedAt && m <= k)
    ensures e.servers[server].status == e.snapshots[k].status
    ensures e.servers[server].lastHeartbeat == e.snapshots[k].checkedAt
  {
    assert IsLast(e.snapshots, server, k);
  }
}
