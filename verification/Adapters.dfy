/** The three panel adapters. Every call may succeed, raise an adapter error or crash. */
module Adapters {
  import opened Wrappers
  import opened Text
  import opened Tables
  import opened VlessLink

  datatype HealthOutcome =
    | HealthReport(elapsed: nat, available: bool, latency: Option<nat>, code: ErrorCode)
    | HealthRaised(elapsed: nat, raised: RaisedCode)
    | HealthCrashed(elapsed: nat)

  datatype SyncOutcome =
    | SyncDone(elapsed: nat, inbound: Inbound)
    | SyncRaised(elapsed: nat, raised: RaisedCode)
    | SyncCrashed(elapsed: nat)

  datatype RevokeOutcome =
    | RevokeDone(elapsed: nat)
    | RevokeRaised(elapsed: nat, raised: RaisedCode)
    | RevokeCrashed(elapsed: nat)

  /** What the outside world answers to the n-th call, and the n-th fresh UUID. */
  datatype World = World(
    health: nat -> HealthOutcome,
    sync: nat -> SyncOutcome,
    revoke: nat -> RevokeOutcome,
    uuid: nat -> NonEmpty)

  function ClientEmailAt(subscription: nat, device: nat, code: string, domain: string): string {
    "infinda-s" + Decimal(subscription) + ['-'] + (['d'] + Decimal(device)) + ['-'] + code + domain
  }

  function MockResult(b: Binding, route: Route): BindingResult {
    var uuid := OrElse(b.uuid, "mock-device-" + Decimal(b.device));
    var email := OrElse(b.email, ClientEmailAt(SubscriptionNumber(b), b.device, route.code, "@mock.local"));
    BindingResult(Mock, uuid, email, uuid, b.inboundId, OrElse(b.url, route.endpointUrl))
  }

  function ManualResult(b: Binding, route: Route): BindingResult {
    var uuid := OrElse(b.uuid, "manual-device-" + Decimal(b.device));
    var email := OrElse(b.email, ClientEmailAt(SubscriptionNumber(b), b.device, route.code, "@manual.local"));
    BindingResult(Manual, uuid, email, email, b.inboundId, b.url)
  }

  function PanelResult(b: Binding, host: string, inbound: Inbound): (r: BindingResult)
    ensures OwnLink(r.url, b.uuid, b.email)
  {
    BindingResult(Xui, b.uuid, b.email, b.email, inbound.id, ConnectionUrl(inbound, host, b.uuid, b.email))
  }

  /** The identity and the link that a successful synchronisation reports. */
  function SyncResult(profile: Profile, hostname: string, b: Binding, route: Route,
                      inbound: Inbound): (r: BindingResult)
    ensures profile.adapter.Xui? ==> OwnLink(r.url, b.uuid, b.email)
  {
    match profile.adapter
    case Mock => MockResult(b, route)
    case Manual => ManualResult(b, route)
    case Xui => PanelResult(b, OrElse(profile.panelHost, hostname), inbound)
  }

  function SubscriptionNumber(b: Binding): nat {
    if b.subscription.Some? then b.subscription.value else 0
  }

  /** A filled-in identity survives every adapter. */
  lemma {:induction false} SyncKeepsIdentity(profile: Profile, hostname: string, b: Binding, route: Route,
                                             inbound: Inbound)
    requires b.uuid != "" && b.email != ""
    ensures SyncResult(profile, hostname, b, route, inbound).uuid == b.uuid
    ensures SyncResult(profile, hostname, b, route, inbound).email == b.email
    ensures SyncResult(profile, hostname, b, route, inbound).adapter == profile.adapter
  {
  }

  /** The panel deletes a client by its email, so a binding without one cannot be revoked there. */
  function RevokeAnswer(profile: Profile, b: Binding, outcome: RevokeOutcome): RevokeOutcome {
    if profile.adapter.Xui? && b.email == "" then
      RevokeRaised(outcome.elapsed, MissingClientEmail)
    else outcome
  }
}
