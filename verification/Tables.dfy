/** The rows the backend stores. A row is identified by its position in its table. */
module Tables {
  import opened Wrappers

  /** Times are microseconds on the server clock; dates are day numbers. */
  const SECOND: int := 1_000_000
  const DAY: int := 86_400 * SECOND

  // ----- Servers -----

  datatype ServerStatus = Running | Degraded | Offline | Maintenance {
    predicate Down() { Offline? || Maintenance? }
  }

  datatype Server = Server(hostname: string, status: ServerStatus, lastHeartbeat: int)

  datatype Snapshot = Snapshot(server: nat, status: ServerStatus, checkedAt: int)

  datatype AdapterKind = Mock | Manual | Xui

  datatype Profile = Profile(adapter: AdapterKind, isEnabled: bool, panelHost: string)

  /** Every error code that provisioning records; `NoError` is the empty code. */
  datatype ErrorCode =
    | NoError
    | MissingRouteOrServer | MissingSubscription | MissingDevice
    | ProvisioningDisabled | ServerUnavailable | RuntimeError
    | AccessExpiryRequired | MissingClientEmail
    | XuiConfigIncomplete | XuiLoginFailed | XuiInboundsUnavailable | XuiInboundNotFound
    | XuiUpdateFailed | XuiAddFailed | XuiDeleteFailed

  /** The codes an adapter raises are never empty. */
  type RaisedCode = c: ErrorCode | c != NoError witness RuntimeError

  // ----- Catalogue -----

  datatype Route = Route(code: string, locationName: string, server: nat, endpointUrl: string)

  datatype Device = Device(
    user: nat,
    name: string,
    platform: string,
    client: string,
    ip: string,
    key: string,
    lastSeen: int,
    createdAt: int,
    revokedAt: Option<int>,
    revokedReason: string)
  {
    predicate ActiveFor(owner: nat) { user == owner && revokedAt.None? }
  }

  datatype SubscriptionRoute = SubscriptionRoute(
    id: nat, code: string, title: string, url: string, route: Option<nat>, position: nat)

  datatype Subscription = Subscription(
    user: nat,
    plan: string,
    startsAt: int,
    endsAt: int,
    maxDevices: nat,
    routes: seq<SubscriptionRoute>)

  /** A route that a kind of subscription comes with: its code and a fallback title. */
  datatype Definition = Definition(code: string, title: string)

  /** The fixed lists of routes for paid and for trial subscriptions. */
  datatype Defaults = Defaults(paid: seq<Definition>, trial: seq<Definition>)

  datatype Catalog = Catalog(
    devices: seq<Device>,
    routes: seq<Route>,
    subscriptions: seq<Subscription>,
    nextRouteId: nat,
    defaults: Defaults)

  // ----- Bindings -----

  datatype AccessStatus = Active | Error | Revoked

  /** What an adapter reports after a successful synchronisation. */
  datatype BindingResult = BindingResult(
    adapter: AdapterKind, uuid: string, email: string, clientId: string, inboundId: nat, url: string)

  /** The expiry a panel was last told for a client: the end date of a subscription. */
  datatype Told = Told(subscription: nat, endsAt: int)

  datatype Binding = Binding(
    user: nat,
    subscription: Option<nat>,
    device: nat,
    route: nat,
    server: nat,
    status: AccessStatus,
    adapter: Option<AdapterKind>,
    uuid: string,
    email: string,
    clientId: string,
    inboundId: nat,
    url: string,
    lastError: ErrorCode,
    provisionedAt: Option<int>,
    lastSyncedAt: Option<int>,
    revokedAt: Option<int>,
    told: Option<Told>)
  {
    predicate Keyed(d: nat, r: nat) { device == d && route == r }

    function MarkFailed(kind: AdapterKind, code: RaisedCode): Binding {
      this.(status := Error, adapter := Some(kind), lastError := code)
    }

    function MarkSynced(result: BindingResult, expiry: Option<Told>, now: int): Binding {
      this.(status := Active, adapter := Some(result.adapter), uuid := result.uuid, email := result.email,
            clientId := result.clientId, inboundId := result.inboundId, url := result.url,
            lastError := NoError,
            provisionedAt := if provisionedAt.Some? then provisionedAt else Some(now),
            lastSyncedAt := Some(now), revokedAt := None, told := expiry)
    }

    function MarkRevoked(kind: AdapterKind, now: int): Binding {
      this.(status := Revoked, adapter := Some(kind), lastError := NoError,
            lastSyncedAt := Some(now), revokedAt := Some(now))
    }
  }

  // ----- Operations -----

  datatype OperationKind = SyncSubscription | ProvisionDevice | RevokeDevice | RepairDevice

  datatype OperationStatus = Pending | Succeeded | Failed | Skipped

  /** The report on one device inside an operation's result. */
  datatype ResultItem = ResultItem(device: nat, status: OperationStatus, error: ErrorCode, url: string)

  datatype Operation = Operation(
    user: nat,
    subscription: Option<nat>,
    device: Option<nat>,
    route: Option<nat>,
    server: Option<nat>,
    kind: OperationKind,
    status: OperationStatus,
    adapter: Option<AdapterKind>,
    error: ErrorCode,
    results: seq<ResultItem>,
    finishedAt: Option<int>)
  {
    function MarkFinished(s: OperationStatus, kind: Option<AdapterKind>, code: ErrorCode,
                          items: seq<ResultItem>, now: int): Operation
    {
      this.(status := s, adapter := kind, error := code, results := items, finishedAt := Some(now))
    }
  }

  /** Everything that provisioning reads and writes; the catalogue is only read. */
  datatype Engine = Engine(
    now: int,
    calls: nat,
    servers: seq<Server>,
    profiles: map<nat, Profile>,
    snapshots: seq<Snapshot>,
    bindings: seq<Binding>)

  datatype State = State(catalog: Catalog, engine: Engine, operations: seq<Operation>)
}
