/** Whole operations: what they report, what they leave alone, and what they can never do. */
module Operations {
  import opened Wrappers
  import opened Tables
  import opened Adapters
  import opened Provisioning
  import opened Lifecycle
  import opened ServerCache
  import Query

  // ----- The revoke branch -----

  lemma {:induction false} RevokeBindingShape(w: World, e: Engine, i: nat)
    requires i < |e.bindings| && e.bindings[i].server < |e.servers|
    ensures var x := RevokeBinding(w, e, i); var b := e.bindings[i]; var b' := x.0.bindings[i];
      && |x.0.bindings| == |e.bindings| && e.now <= x.0.now && x.0.bindings == e.bindings[i := b']
      && RowEvolves(b, b') && b'.server == b.server && b'.subscription == b.subscription
      && b'.provisionedAt == b.provisionedAt && b'.told == b.told
      && (|| (x.1.status == Succeeded && x.1.error == NoError && b'.status == Revoked && b'.lastError == NoError
              && b'.revokedAt == Some(x.0.now))
          || (x.1.status == Failed && x.1.error != NoError && b'.status == Error && b'.lastError == x.1.error
              && b'.revokedAt == b.revokedAt))
  {
  }

  lemma {:induction false} RevokeBindingKeeps(w: World, c: Catalog, e: Engine, i: nat)
    requires i < |e.bindings| && BindingsOk(c, e)
    ensures e.bindings[i].server < |e.servers|
    ensures var e' := RevokeBinding(w, e, i).0;
      BindingsOk(c, e') && Evolves(e.bindings, e'.bindings) && TellsTruly(c, e.bindings, e'.bindings)
  {
    assert RowOk(c, |e.servers|, e.now, e.bindings[i]);
    RevokeBindingShape(w, e, i);
    var e' := RevokeBinding(w, e, i).0;
    OneRowReplaced(c, e, e', i);
  }

  /** Replacing one row by a settled one with the same key, identity and first provisioning time. */
  lemma {:induction false} OneRowReplaced(c: Catalog, e: Engine, e': Engine, i: nat)
    requires BindingsOk(c, e) && i < |e.bindings| == |e'.bindings| && |e'.servers| == |e.servers| && e.now <= e'.now
    requires e'.bindings == e.bindings[i := e'.bindings[i]]
    requires var b, b' := e.bindings[i], e'.bindings[i];
      RowEvolves(b, b') && Settled(b') && b'.server == b.server && b'.provisionedAt == b.provisionedAt
        && b'.told == b.told
    ensures BindingsOk(c, e') && Evolves(e.bindings, e'.bindings) && TellsTruly(c, e.bindings, e'.bindings)
  {
    forall k | 0 <= k < |e'.bindings| ensures RowOk(c, |e'.servers|, e'.now, e'.bindings[k]) {
      assert RowOk(c, |e.servers|, e.now, e.bindings[k]);
    }
  }

  lemma {:induction false} BindingsOkKnown(c: Catalog, e: Engine)
    requires BindingsOk(c, e)
    ensures ServersKnown(e)
  {
    forall i | 0 <= i < |e.bindings| ensures e.bindings[i].server < |e.servers| {
      assert RowOk(c, |e.servers|, e.now, e.bindings[i]);
    }
  }

  /** Time passing and health checks do not disturb the bindings. */
  lemma {:induction false} BindingsOkCarries(c: Catalog, e: Engine, e': Engine)
    requires BindingsOk(c, e) && e'.bindings == e.bindings && e.now <= e'.now && |e.servers| <= |e'.servers|
    ensures BindingsOk(c, e')
  {
    forall i | 0 <= i < |e'.bindings| ensures RowOk(c, |e'.servers|, e'.now, e'.bindings[i]) {
      assert RowOk(c, |e.servers|, e.now, e.bindings[i]);
    }
  }

  // ----- Any operation -----

  /** The bookkeeping every operation ends with: one terminal status and a finishing time. */
  ghost predicate Finished(op: Operation, op': Operation, now: int) {
    && (op'.status.Succeeded? || op'.status.Failed? || op'.status.Skipped?)
    && op'.finishedAt == Some(now)
    && op'.user == op.user && op'.subscription == op.subscription && op'.device == op.device
    && op'.route == op.route && op'.server == op.server && op'.kind == op.kind
  }

  /** Everything an operation keeps: bindings, cache, down servers, and what panels are told. */
  ghost predicate Keeps(c: Catalog, e: Engine, e': Engine) {
    BindingsOk(c, e') && Evolves(e.bindings, e'.bindings) && Sound(e, e') && TellsTruly(c, e.bindings, e'.bindings)
  }

  lemma {:induction false} EvolvesReflexive(bs: seq<Binding>)
    ensures Evolves(bs, bs)
  {
  }

  lemma {:induction false} KeepsTransitive(c: Catalog, e: Engine, e1: Engine, e2: Engine)
    requires Keeps(c, e, e1) && Keeps(c, e1, e2)
    ensures Keeps(c, e, e2)
  {
    EvolvesTransitive(e.bindings, e1.bindings, e2.bindings);
    TellsTrulyTransitive(c, e.bindings, e1.bindings, e2.bindings);
    SoundTransitive(e, e1, e2);
  }

  lemma {:induction false} ExecuteRevokeKeeps(w: World, c: Catalog, e: Engine, op: Operation)
    requires op.route.Some? && op.server.Some? && BindingsOk(c, e)
    ensures ServersKnown(e)
    ensures var x := ExecuteRevoke(w, e, op); Keeps(c, e, x.0) && Finished(op, x.1, x.0.now)
  {
    BindingsOkKnown(c, e);
    EvolvesReflexive(e.bindings);
    if op.device.Some? {
      var i := Find(e.bindings, op.device.value, op.route.value);
      if i < |e.bindings| {
        RevokeBindingKeeps(w, c, e, i);
        RevokeBindingShape(w, e, i);
        RevokeBindingSound(w, e, i);
      }
    }
  }

  lemma {:induction false} ExecuteSyncKeeps(w: World, c: Catalog, e: Engine, op: Operation)
    requires op.route.Some? && op.server.Some? && op.subscription.Some? && Linked(c, e, op) && BindingsOk(c, e)
    ensures var x := ExecuteSync(w, c, e, op); Keeps(c, e, x.0) && Finished(op, x.1, x.0.now)
  {
    var targets := Targets(c, op);
    TargetsKnown(c, c.subscriptions[op.subscription.value].user);
    KeepsReflexive(c, e);
    if targets != [] {
      LoopKeeps(w, c, e, op.subscription.value, targets, op.route.value);
    }
  }

  lemma {:induction false} KeepsReflexive(c: Catalog, e: Engine)
    requires BindingsOk(c, e)
    ensures Keeps(c, e, e)
  {
    EvolvesReflexive(e.bindings);
  }

  lemma {:induction false} LoopKeeps(w: World, c: Catalog, e: Engine, subscription: nat, targets: seq<nat>, r: nat)
    requires Reachable(c, e, r) && Known(c, targets) && BindingsOk(c, e) && subscription < |c.subscriptions|
    ensures Keeps(c, e, SyncDevices(w, c, e, subscription, targets, r).0)
  {
    SyncDevicesKeep(w, c, e, subscription, targets, r);
    SyncDevicesSound(w, c, e, subscription, targets, r);
  }

  lemma {:induction false} GatesKeep(w: World, c: Catalog, e: Engine, op: Operation)
    requires op.server.Some? && op.server.value < |e.servers| && BindingsOk(c, e)
    ensures Keeps(c, e, PassGates(w, e, op).0)
  {
    var e1 := PassGates(w, e, op).0;
    GatesSound(w, e, op);
    BindingsOkCarries(c, e, e1);
    EvolvesReflexive(e.bindings);
  }

  /** Every operation ends in one terminal status with its finishing time, keeps the binding
      invariant, evolves rows lawfully, and never brings a server back up. */
  lemma {:induction false} ExecuteKeeps(w: World, c: Catalog, e: Engine, op: Operation)
    requires Linked(c, e, op) && BindingsOk(c, e)
    ensures ServersKnown(e)
    ensures var x := Execute(w, c, e, op); Keeps(c, e, x.0) && Finished(op, x.1, x.0.now)
  {
    BindingsOkKnown(c, e);
    if op.route.Some? && op.server.Some? {
      var (e1, gate) := PassGates(w, e, op);
      GatesKeep(w, c, e, op);
      GatesSound(w, e, op);
      if gate.Open? {
        if op.kind.RevokeDevice? {
          ExecuteRevokeKeeps(w, c, e1, op);
          KeepsTransitive(c, e, e1, ExecuteRevoke(w, e1, op).0);
        } else {
          ExecuteSyncKeeps(w, c, e1, op);
          KeepsTransitive(c, e, e1, ExecuteSync(w, c, e1, op).0);
        }
      }
    } else {
      EvolvesReflexive(e.bindings);
    }
  }

  // ----- Faithful reports -----

  ghost predicate RowHas(bs: seq<Binding>, d: nat, r: nat, status: AccessStatus) {
    var i := Find(bs, d, r);
    i < |bs| && bs[i].Keyed(d, r) && bs[i].status == status
  }

  lemma {:induction false} AscendingDistinct(xs: seq<nat>)
    requires forall i: nat, j: nat :: i < j < |xs| ==> xs[i] < xs[j]
    ensures forall x :: multiset(xs)[x] <= 1
  {
    if xs != [] {
      var n := |xs| - 1;
      AscendingDistinct(xs[..n]);
      assert xs == xs[..n] + [xs[n]];
      assert xs[n] !in xs[..n];
    }
  }

  lemma {:induction false} SingleOccurrences(xs: seq<nat>)
    requires forall x :: multiset(xs)[x] <= 1
    ensures Distinct(xs)
  {
    forall i, j | 0 <= i < j < |xs| ensures xs[i] != xs[j] {
      var front, back := xs[..j], xs[j..];
      assert xs == front + back;
      assert front[i] in multiset(front) && back[0] in multiset(back);
      assert multiset(xs)[xs[i]] == multiset(front)[xs[i]] + multiset(back)[xs[i]];
    }
  }

  lemma {:induction false} ActiveDevicesDistinct(devices: seq<Device>, user: nat)
    ensures Distinct(ActiveDevices(devices, user))
  {
    var ids := Query.Where(devices, (x: Device) => x.ActiveFor(user));
    AscendingDistinct(ids);
    SingleOccurrences(ActiveDevices(devices, user));
  }

  lemma {:induction false} TargetsDistinct(c: Catalog, op: Operation)
    requires op.subscription.Some? && op.subscription.value < |c.subscriptions|
    ensures Distinct(Targets(c, op))
  {
    ActiveDevicesDistinct(c.devices, c.subscriptions[op.subscription.value].user);
  }

  /** The position of the first failing item. */
  lemma {:induction false} FirstFailure(items: seq<ResultItem>) returns (k: nat)
    requires AnyFailed(items)
    ensures k < |items| && items[k].status.Failed? && FirstError(items) == items[k].error
    ensures forall j | 0 <= j < k :: !items[j].status.Failed?
  {
    k := 0;
    while !items[k].status.Failed?
      invariant k < |items|
      invariant forall j | 0 <= j < k :: !items[j].status.Failed?
      decreases |items| - k
    {
      k := k + 1;
    }
    FirstErrorIsFirst(items, k);
  }

  /** The verdict on a finished sync against the rows it left behind. */
  ghost predicate FaithfulVerdict(bs: seq<Binding>, targets: seq<nat>, r: nat, op: Operation) {
    && (op.status == Succeeded || op.status == Failed)
    && (op.status == Succeeded <==> forall k | 0 <= k < |targets| :: RowHas(bs, targets[k], r, Active))
    && (op.status == Failed ==>
          exists k | 0 <= k < |targets| ::
            && RowHas(bs, targets[k], r, Error) && bs[Find(bs, targets[k], r)].lastError == op.error
            && forall j | 0 <= j < k :: RowHas(bs, targets[j], r, Active))
  }

  lemma {:induction false} VerdictFromReports(bs: seq<Binding>, subscription: nat, r: nat, targets: seq<nat>,
                                              items: seq<ResultItem>, op: Operation)
    requires AllReported(bs, subscription, r, targets, items)
    requires op.status == (if AnyFailed(items) then Failed else Succeeded) && op.error == FirstError(items)
    ensures FaithfulVerdict(bs, targets, r, op)
  {
    forall k | 0 <= k < |targets|
      ensures RowHas(bs, targets[k], r, if items[k].status.Failed? then Error else Active)
    {
      assert Reported(bs, subscription, r, targets[k], items[k]);
    }
    if AnyFailed(items) {
      var k := FirstFailure(items);
      assert Reported(bs, subscription, r, targets[k], items[k]);
      assert RowHas(bs, targets[k], r, Error);
    }
  }

  /** The part after the gates. */
  lemma {:induction false} ExecuteSyncReports(w: World, c: Catalog, e: Engine, op: Operation)
    requires Linked(c, e, op) && op.route.Some? && op.server.Some? && op.subscription.Some?
    ensures var (e', op') := ExecuteSync(w, c, e, op); var targets := Targets(c, op);
      if targets == [] then op'.status == Skipped && e'.bindings == e.bindings
      else FaithfulVerdict(e'.bindings, targets, op.route.value, op')
  {
    var targets, r := Targets(c, op), op.route.value;
    TargetsKnown(c, c.subscriptions[op.subscription.value].user);
    TargetsDistinct(c, op);
    if targets != [] {
      SyncDevicesReport(w, c, e, op.subscription.value, targets, r);
      var (e', items) := SyncDevices(w, c, e, op.subscription.value, targets, r);
      VerdictFromReports(e'.bindings, op.subscription.value, r, targets, items, ExecuteSync(w, c, e, op).1);
    }
  }

  /** Past the gates a sync, provision or repair operation succeeds exactly when the row of every
      target device ends active; otherwise it fails with the error of the first failing device. */
  lemma {:induction false} SyncReportsFaithfully(w: World, c: Catalog, e: Engine, op: Operation)
    requires Linked(c, e, op) && ServersKnown(e) && !op.kind.RevokeDevice?
    requires op.route.Some? && op.server.Some? && PassGates(w, e, op).1.Open?
    ensures op.subscription.Some?
    ensures var (e', op') := Execute(w, c, e, op); var targets := Targets(c, op);
      if targets == [] then op'.status == Skipped && e'.bindings == e.bindings
      else FaithfulVerdict(e'.bindings, targets, op.route.value, op')
  {
    GatesSound(w, e, op);
    var e1 := PassGates(w, e, op).0;
    assert Execute(w, c, e, op) == ExecuteSync(w, c, e1, op) && e1.bindings == e.bindings;
    ExecuteSyncReports(w, c, e1, op);
  }

  /** Past the gates a revoke operation succeeds exactly when the device's row ends revoked; otherwise the row
      shows the operation's error, and without a device or a row there is nothing to do. */
  lemma {:induction false} RevokeReportsFaithfully(w: World, c: Catalog, e: Engine, op: Operation)
    requires Linked(c, e, op) && ServersKnown(e) && op.kind.RevokeDevice?
    requires op.route.Some? && op.server.Some? && PassGates(w, e, op).1.Open?
    ensures var (e', op') := Execute(w, c, e, op);
      if op.device.None? then op'.status == Skipped && op'.error == MissingDevice
      else
        var i := Find(e.bindings, op.device.value, op.route.value);
        if i == |e.bindings| then op'.status == Skipped && op'.error == NoError
        else
          && i < |e'.bindings| && e'.bindings[i].Keyed(op.device.value, op.route.value)
          && (op'.status == Succeeded <==> e'.bindings[i].status == Revoked)
          && (op'.status == Succeeded ==> e'.bindings[i].revokedAt == op'.finishedAt && op'.error == NoError)
          && (op'.status != Succeeded ==> op'.status == Failed && e'.bindings[i].status == Error
                                          && e'.bindings[i].lastError == op'.error != NoError)
  {
    var e1 := PassGates(w, e, op).0;
    if op.device.Some? {
      var i := Find(e.bindings, op.device.value, op.route.value);
      if i < |e.bindings| {
        RevokeBindingShape(w, e1, i);
      }
    }
  }

  /** Stopped at a gate, or skipped for any other reason: no binding changes. */
  lemma {:induction false} StoppedChangesNoBinding(w: World, c: Catalog, e: Engine, op: Operation)
    requires Linked(c, e, op) && BindingsOk(c, e)
    ensures ServersKnown(e)
    ensures var (e', op') := Execute(w, c, e, op);
      (op.route.None? || op.server.None? || PassGates(w, e, op).1.Stop? || op'.status == Skipped)
      ==> e'.bindings == e.bindings
  {
    BindingsOkKnown(c, e);
    if op.route.Some? && op.server.Some? && PassGates(w, e, op).1.Open? {
      if op.kind.RevokeDevice? {
        RevokeSkipsQuietly(w, c, PassGates(w, e, op).0, op);
      } else {
        SyncReportsFaithfully(w, c, e, op);
      }
    }
  }

  lemma {:induction false} RevokeSkipsQuietly(w: World, c: Catalog, e: Engine, op: Operation)
    requires op.route.Some? && op.server.Some? && ServersKnown(e)
    ensures var (e', op') := ExecuteRevoke(w, e, op); op'.status == Skipped ==> e'.bindings == e.bindings
  {
    if op.device.Some? {
      var i := Find(e.bindings, op.device.value, op.route.value);
      if i < |e.bindings| {
        RevokeBindingShape(w, e, i);
      }
    }
  }

  /** The devices whose rows an operation may write. */
  ghost function Writable(c: Catalog, op: Operation): seq<nat>
    requires op.subscription.Some? ==> op.subscription.value < |c.subscriptions|
  {
    if op.kind.RevokeDevice? then (if op.device.Some? then [op.device.value] else [])
    else if op.subscription.Some? then Targets(c, op) else []
  }

  lemma {:induction false} ConfinedReflexive(bs: seq<Binding>, targets: seq<nat>, r: nat)
    ensures Confined(bs, bs, targets, r)
  {
  }

  /** No row of another route or of another device is written or added. */
  lemma {:induction false} ExecuteConfined(w: World, c: Catalog, e: Engine, op: Operation)
    requires Linked(c, e, op) && BindingsOk(c, e) && op.route.Some?
    ensures ServersKnown(e)
    ensures Confined(e.bindings, Execute(w, c, e, op).0.bindings, Writable(c, op), op.route.value)
  {
    BindingsOkKnown(c, e);
    ConfinedReflexive(e.bindings, Writable(c, op), op.route.value);
    if op.server.Some? && PassGates(w, e, op).1.Open? {
      var e1 := PassGates(w, e, op).0;
      GatesKeep(w, c, e, op);
      GatesSound(w, e, op);
      if op.kind.RevokeDevice? {
        RevokeConfined(w, c, e1, op);
      } else {
        SyncConfined(w, c, e1, op);
      }
    }
  }

  lemma {:induction false} RevokeConfined(w: World, c: Catalog, e: Engine, op: Operation)
    requires op.route.Some? && op.server.Some? && ServersKnown(e) && op.kind.RevokeDevice?
    requires op.subscription.Some? ==> op.subscription.value < |c.subscriptions|
    ensures Confined(e.bindings, ExecuteRevoke(w, e, op).0.bindings, Writable(c, op), op.route.value)
  {
    if op.device.Some? {
      var i := Find(e.bindings, op.device.value, op.route.value);
      if i < |e.bindings| {
        RevokeBindingShape(w, e, i);
      }
    }
  }

  lemma {:induction false} SyncConfined(w: World, c: Catalog, e: Engine, op: Operation)
    requires op.route.Some? && op.server.Some? && op.subscription.Some? && !op.kind.RevokeDevice?
    requires Linked(c, e, op) && BindingsOk(c, e)
    ensures Confined(e.bindings, ExecuteSync(w, c, e, op).0.bindings, Writable(c, op), op.route.value)
  {
    var targets := Targets(c, op);
    TargetsKnown(c, c.subscriptions[op.subscription.value].user);
    if targets != [] {
      SyncDevicesKeep(w, c, e, op.subscription.value, targets, op.route.value);
    }
  }

  // ----- Revoked devices -----

  /** A device gains no row, and none of its rows turns active. */
  ghost predicate NoRevival(bs: seq<Binding>, bs': seq<Binding>, d: nat) {
    forall i | 0 <= i < |bs'| && bs'[i].device == d ::
      i < |bs| && (bs'[i].status == Active ==> bs[i].status == Active)
  }

  lemma {:induction false} NoRevivalTransitive(bs: seq<Binding>, bs1: seq<Binding>, bs2: seq<Binding>, d: nat)
    requires NoRevival(bs, bs1, d) && NoRevival(bs1, bs2, d) && Evolves(bs1, bs2)
    ensures NoRevival(bs, bs2, d)
  {
    forall i | 0 <= i < |bs2| && bs2[i].device == d
      ensures i < |bs| && (bs2[i].status == Active ==> bs[i].status == Active)
    {
      assert RowEvolves(bs1[i], bs2[i]);
    }
  }

  lemma {:induction false} ConfinedNoRevival(bs: seq<Binding>, bs': seq<Binding>, targets: seq<nat>, r: nat, d: nat)
    requires Confined(bs, bs', targets, r) && Evolves(bs, bs') && d !in targets
    ensures NoRevival(bs, bs', d)
  {
    forall i | 0 <= i < |bs'| && bs'[i].device == d
      ensures i < |bs| && (bs'[i].status == Active ==> bs[i].status == Active)
    {
      if i < |bs| {
        assert RowEvolves(bs[i], bs'[i]);
      }
    }
  }

  lemma {:induction false} RevokeNoRevival(w: World, e: Engine, op: Operation, d: nat)
    requires op.route.Some? && op.server.Some? && ServersKnown(e)
    ensures NoRevival(e.bindings, ExecuteRevoke(w, e, op).0.bindings, d)
  {
    if op.device.Some? {
      var i := Find(e.bindings, op.device.value, op.route.value);
      if i < |e.bindings| {
        RevokeBindingShape(w, e, i);
      }
    }
  }

  /** No operation revives a revoked device, provided a sync or repair was not aimed at it. */
  lemma {:induction false} ExecuteNoRevival(w: World, c: Catalog, e: Engine, op: Operation, d: nat)
    requires Linked(c, e, op) && BindingsOk(c, e)
    requires d < |c.devices| && c.devices[d].revokedAt.Some?
    requires !op.kind.RevokeDevice? ==> op.device != Some(d)
    ensures ServersKnown(e)
    ensures NoRevival(e.bindings, Execute(w, c, e, op).0.bindings, d)
  {
    BindingsOkKnown(c, e);
    if op.route.Some? {
      if op.kind.RevokeDevice? {
        if op.server.Some? && PassGates(w, e, op).1.Open? {
          GatesKeep(w, c, e, op);
          BindingsOkKnown(c, PassGates(w, e, op).0);
          RevokeNoRevival(w, PassGates(w, e, op).0, op, d);
        }
      } else {
        ExecuteConfined(w, c, e, op);
        ExecuteKeeps(w, c, e, op);
        if op.subscription.Some? {
          TargetsKnown(c, c.subscriptions[op.subscription.value].user);
        }
        ConfinedNoRevival(e.bindings, Execute(w, c, e, op).0.bindings, Writable(c, op), op.route.value, d);
      }
    }
  }
}
