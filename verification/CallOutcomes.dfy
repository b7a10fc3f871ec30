/** What one call to a panel leads to, read off from the panel's answer alone. */
module CallOutcomes {
  import opened Wrappers
  import opened Text
  import opened Tables
  import opened Adapters
  import opened Provisioning
  import opened VlessLink

  /** The profile a server works with: a missing one counts as an enabled mock profile. */
  function ProfileInForce(e: Engine, server: nat): Profile {
    if server in e.profiles then e.profiles[server] else Profile(Mock, true, "")
  }

  predicate Up(status: ServerStatus) {
    status == Running || status == Degraded
  }

  /** Heard from less than 300 seconds ago. */
  predicate HeardRecently(e: Engine, server: nat)
    requires server < |e.servers|
  {
    e.now - e.servers[server].lastHeartbeat < 300_000_000
  }

  // ----- Health checks -----

  predicate Available(answer: HealthOutcome) {
    answer.HealthReport? && answer.available
  }

  function HealthError(answer: HealthOutcome): ErrorCode {
    match answer
    case HealthReport(_, _, _, code) => code
    case HealthRaised(_, raised) => raised
    case HealthCrashed(_) => RuntimeError
  }

  /** A health check puts a server with a disabled profile into maintenance without asking; otherwise the server runs
      exactly if the panel reports itself available, and is offline in every other case. The check is recorded. */
  lemma {:induction false} HealthFollowsAnswer(w: World, e: Engine, server: nat)
    requires server < |e.servers|
    ensures var (e', code) := RefreshHealth(w, e, server);
      var enabled, answer := ProfileInForce(e, server).isEnabled, w.health(e.calls);
      var status := if !enabled then Maintenance else if Available(answer) then Running else Offline;
      && e'.servers == e.servers[server := e.servers[server].(status := status, lastHeartbeat := e'.now)]
      && e'.snapshots == e.snapshots + [Snapshot(server, status, e'.now)] && e'.bindings == e.bindings
      && e'.now == (if enabled then e.now + answer.elapsed else e.now)
      && e'.calls == (if enabled then e.calls + 1 else e.calls)
      && code == (if enabled then HealthError(answer) else ProvisioningDisabled)
  {
  }

  // ----- Gates -----

  /** The reason to stop an operation before anything is done, if there is one. */
  ghost predicate StopsWith(w: World, e: Engine, op: Operation, status: OperationStatus, error: ErrorCode)
    requires op.server.Some? && op.server.value < |e.servers|
  {
    var server, answer := op.server.value, w.health(e.calls);
    if !ProfileInForce(e, server).isEnabled then status == Skipped && error == ProvisioningDisabled
    else if !Up(e.servers[server].status) then status == Failed && error == ServerUnavailable
    else if !HeardRecently(e, server) && !Available(answer) then
      status == Failed && error == if HealthError(answer) == NoError then ServerUnavailable else HealthError(answer)
    else op.subscription.None? && status == Skipped && error == MissingSubscription
  }

  /** The gates open exactly for an enabled profile, a server that is up and was heard from recently or answers now, and
      an operation with a subscription; otherwise they stop it for the first reason that applies. */
  lemma {:induction false} GatesDecide(w: World, e: Engine, op: Operation)
    requires op.server.Some? && op.server.value < |e.servers|
    ensures var (e', gate) := PassGates(w, e, op); var server := op.server.value;
      var asks := ProfileInForce(e, server).isEnabled && Up(e.servers[server].status) && !HeardRecently(e, server);
      && (gate.Open? <==>
            && ProfileInForce(e, server).isEnabled && Up(e.servers[server].status)
            && (HeardRecently(e, server) || Available(w.health(e.calls))) && op.subscription.Some?)
      && (gate.Stop? ==> StopsWith(w, e, op, gate.status, gate.error))
      && e'.calls == e.calls + (if asks then 1 else 0)
      && e'.servers == (if !asks then e.servers
           else
             var status := if Available(w.health(e.calls)) then Running else Offline;
             e.servers[server := e.servers[server].(status := status, lastHeartbeat := e'.now)])
      && ProfileInForce(e', server) == ProfileInForce(e, server)
  {
    if ProfileInForce(e, op.server.value).isEnabled {
      HealthFollowsAnswer(w, EnsureProfile(e, op.server.value), op.server.value);
    }
  }

  // ----- Write-back -----

  /** One row is written, and a failure takes its server offline; nothing else changes. */
  ghost predicate WrittenBack(e: Engine, e': Engine, i: nat, item: ResultItem, elapsed: nat)
    requires i < |e.bindings| && e.bindings[i].server < |e.servers|
  {
    var b, server := e.bindings[i], e.bindings[i].server;
    && e'.now == e.now + elapsed && e'.calls == e.calls + 1
    && |e'.bindings| == |e.bindings| && e'.bindings == e.bindings[i := e'.bindings[i]]
    && item.device == b.device && (item.status == Succeeded || item.status == Failed)
    && (item.status == Succeeded ==> item.error == NoError && e'.servers == e.servers && e'.snapshots == e.snapshots)
    && (item.status == Failed ==>
          && item.error != NoError && item.url == ""
          && e'.servers == e.servers[server := e.servers[server].(status := Offline, lastHeartbeat := e'.now)]
          && e'.snapshots == e.snapshots + [Snapshot(server, Offline, e'.now)]
          && e'.bindings[i] == b.(status := Error, adapter := Some(ProfileInForce(e, server).adapter),
                                  lastError := item.error))
  }

  // ----- Revocations -----

  /** What a revoke reports: the panel is not even asked about a client without an email. */
  function RevokeError(kind: AdapterKind, email: string, answer: RevokeOutcome): ErrorCode {
    if kind == Xui && email == "" then MissingClientEmail
    else
      match answer
      case RevokeDone(_) => NoError
      case RevokeRaised(_, raised) => raised
      case RevokeCrashed(_) => RuntimeError
  }

  /** A revoke succeeds exactly if the panel has an email to go by and answers that it is done; otherwise it reports
      the code raised, or a runtime error for a crash, and takes the row's server offline. */
  lemma {:induction false} RevokeFollowsAnswer(w: World, e: Engine, i: nat)
    requires i < |e.bindings| && e.bindings[i].server < |e.servers|
    ensures var (e', item) := RevokeBinding(w, e, i); var b, answer := e.bindings[i], w.revoke(e.calls);
      var kind := ProfileInForce(e, b.server).adapter;
      && WrittenBack(e, e', i, item, answer.elapsed)
      && (item.status == Succeeded <==> answer.RevokeDone? && !(kind == Xui && b.email == ""))
      && item.error == RevokeError(kind, b.email, answer) && item.url == ""
      && (item.status == Succeeded ==>
            e'.bindings[i] == b.(status := Revoked, adapter := Some(kind), lastError := NoError,
                                 lastSyncedAt := Some(e'.now), revokedAt := Some(e'.now)))
  {
  }

  // ----- Synchronisations -----

  function SyncError(answer: SyncOutcome): ErrorCode {
    match answer
    case SyncDone(_, _) => NoError
    case SyncRaised(_, raised) => raised
    case SyncCrashed(_) => RuntimeError
  }

  /** What a successful answer says: a panel's link is built from the inbound it used and the panel's host, or the
      server's; a mock adapter keeps a stored link or serves the public one; a manual one keeps what is stored. */
  lemma {:induction false} AnswerContents(profile: Profile, hostname: string, b: Binding, route: Route,
                                          inbound: Inbound)
    requires b.uuid != "" && b.email != ""
    ensures var r := SyncResult(profile, hostname, b, route, inbound);
      && r.adapter == profile.adapter && r.uuid == b.uuid && r.email == b.email
      && (profile.adapter == Xui ==> r.inboundId == inbound.id && r.clientId == b.email)
      && (profile.adapter != Xui ==> r.inboundId == b.inboundId)
      && (profile.adapter == Mock ==> r.clientId == b.uuid && r.url == if b.url != "" then b.url else route.endpointUrl)
      && (profile.adapter == Manual ==> r.clientId == b.email && r.url == b.url)
  {
  }

  lemma {:induction false} PanelLink(profile: Profile, hostname: string, b: Binding, route: Route, inbound: Inbound)
    requires profile.adapter == Xui
    ensures SyncResult(profile, hostname, b, route, inbound).url
         == ConnectionUrl(inbound, if profile.panelHost != "" then profile.panelHost else hostname, b.uuid, b.email)
  {
    assert SyncResult(profile, hostname, b, route, inbound)
      == PanelResult(b, OrElse(profile.panelHost, hostname), inbound);
  }

  /** A panel is told the end date of the row's subscription. */
  function ExpiryTold(c: Catalog, b: Binding): Option<Told> {
    match b.subscription
    case Some(k) => if k < |c.subscriptions| then Some(Told(k, c.subscriptions[k].endsAt)) else b.told
    case None => b.told
  }

  /** A synchronisation succeeds exactly if the adapter does; otherwise it reports the code raised, or a runtime error
      for a crash, and takes the row's server offline. */
  lemma {:induction false} SyncFollowsAnswer(w: World, c: Catalog, e: Engine, i: nat)
    requires i < |e.bindings| && e.bindings[i].server < |e.servers| && e.bindings[i].route < |c.routes|
    ensures var (e', item) := SyncBinding(w, c, e, i); var b, answer := e.bindings[i], w.sync(e.calls);
      && WrittenBack(e, e', i, item, answer.elapsed)
      && (item.status == Succeeded <==> answer.SyncDone?) && item.error == SyncError(answer)
      && (answer.SyncDone? ==>
            var profile, b' := ProfileInForce(e, b.server), e'.bindings[i];
            var r := SyncResult(profile, e.servers[b.server].hostname, b, c.routes[b.route], answer.inbound);
            && item.url == r.url
            && b' == b.(status := Active, adapter := Some(r.adapter), uuid := r.uuid, email := r.email,
                        clientId := r.clientId, inboundId := r.inboundId, url := r.url, lastError := NoError,
                        provisionedAt := b'.provisionedAt, lastSyncedAt := Some(e'.now), revokedAt := None,
                        told := b'.told)
            && b'.provisionedAt == (if b.provisionedAt.None? then Some(e'.now) else b.provisionedAt)
            && b'.told == (if profile.adapter == Xui then ExpiryTold(c, b) else b.told))
  {
  }

  // ----- The row before the call -----

  /** A client's email names its subscription, its device and its route. */
  lemma {:induction false} ClientEmailIs(subscription: nat, device: nat, code: string)
    ensures ClientEmail(subscription, device, code)
         == "infinda-s" + Decimal(subscription) + "-d" + Decimal(device) + "-" + code + "@local"
  {
    assert ['-'] + (['d'] + Decimal(device) + ['-'] + (code + EmailSuffix()))
        == "-d" + Decimal(device) + "-" + code + "@local";
  }

  /** The row handed to an adapter: a new one with a fresh UUID and the client's email, or the stored one brought up to
      date, which keeps everything the panel knows the client by. */
  lemma {:induction false} EnsuredRowIs(c: Catalog, bs: seq<Binding>, subscription: nat, d: nat, r: nat, uuid: string)
    requires d < |c.devices| && r < |c.routes| && uuid != ""
    ensures var row, i := EnsuredRow(c, bs, Some(subscription), d, r, uuid), Find(bs, d, r);
      var email := ClientEmail(subscription, d, c.routes[r].code);
      && row.user == c.devices[d].user && row.subscription == Some(subscription) && row.server == c.routes[r].server
      && row.device == d && row.route == r
      && (i == |bs| ==>
            && row.status == Active && row.uuid == uuid && row.email == email && row.url == ""
            && row.lastError == NoError
            && row.provisionedAt.None? && row.lastSyncedAt.None? && row.revokedAt.None? && row.told.None?)
      && (i < |bs| ==>
            row == bs[i].(user := row.user, subscription := row.subscription, server := row.server,
                          uuid := if bs[i].uuid == "" then uuid else bs[i].uuid,
                          email := if bs[i].email == "" then email else bs[i].email))
  {
  }
}
