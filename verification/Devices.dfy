/** Touching, resolving and revoking devices. */
module Devices {
  import opened Wrappers
  import opened Text
  import opened Tables
  import opened VlessLink
  import Provisioning
  import Query

  const KEY_LENGTH: nat := 64
  const NAME_LENGTH: nat := 120

  datatype TouchRequest = TouchRequest(ip: string, key: string, name: string, platform: string, client: string)

  datatype TouchError = IpUnavailable | LimitExceeded | SubscriptionInactive

  datatype Touched = Touched(devices: seq<Device>, device: nat, created: bool)

  function NormalizeKey(key: string): string {
    Take(Strip(key), KEY_LENGTH)
  }

  function NormalizeName(provided: string, platform: string): string {
    if Strip(provided) != "" then Take(Strip(provided), NAME_LENGTH)
    else if Strip(platform) != "" then Take(Strip(platform) + " device", NAME_LENGTH)
    else "Current device"
  }

  // ----- Lookups -----

  function KeyMatches(devices: seq<Device>, user: nat, key: string): seq<nat> {
    Query.Where(devices, (x: Device) => x.ActiveFor(user) && x.key == key)
  }

  function IpMatches(devices: seq<Device>, user: nat, ip: string): seq<nat> {
    Query.Where(devices, (x: Device) => x.ActiveFor(user) && x.ip == ip)
  }

  /** `.order_by("-last_seen", "-created_at").first()`. */
  function Newest(devices: seq<Device>, ids: seq<nat>): (r: Option<nat>)
    ensures r.Some? ==> r.value in ids
  {
    var ordered := Provisioning.NewestFirst(devices, ids);
    if ordered == [] then None
    else
      Query.OrderByMember((a, b) => Provisioning.Newer(devices, a, b), ids, ordered[0]);
      Some(ordered[0])
  }

  function ByKey(devices: seq<Device>, user: nat, key: string): (r: Option<nat>)
    ensures r.Some? ==> r.value < |devices|
  {
    Newest(devices, KeyMatches(devices, user, key))
  }

  function ByIp(devices: seq<Device>, user: nat, ip: string): (r: Option<nat>)
    ensures r.Some? ==> r.value < |devices|
  {
    Newest(devices, IpMatches(devices, user, ip))
  }

  /** `resolve_subscription_device_by_request_ip`; an empty string stands for a missing value. */
  function Resolve(devices: seq<Device>, user: nat, ip: string, key: string): Option<nat> {
    if key != "" && ByKey(devices, user, key).Some? then ByKey(devices, user, key)
    else if ip == "" then None
    else ByIp(devices, user, ip)
  }

  lemma {:induction false} NewestPicks(devices: seq<Device>, ids: seq<nat>)
    requires forall i | i in ids :: i < |devices|
    ensures Newest(devices, ids).None? <==> ids == []
    ensures Newest(devices, ids).Some? ==>
      var d := Newest(devices, ids).value; d in ids && forall i | i in ids :: Provisioning.Newer(devices, d, i)
  {
    var before := (a, b) => Provisioning.Newer(devices, a, b);
    var ordered := Query.OrderBy(before, ids);
    assert ordered == Provisioning.NewestFirst(devices, ids);
    if ids != [] {
      Query.OrderByOrdered(before, ids);
      Query.OrderByMember(before, ids, ordered[0]);
      forall i | i in ids ensures Provisioning.Newer(devices, ordered[0], i) {
        Query.OrderByMember(before, ids, i);
        var k :| 0 <= k < |ordered| && ordered[k] == i;
        if k > 0 {
          assert before(ordered[0], ordered[k]);
        }
      }
    }
  }

  lemma {:induction false} ByKeyPicks(devices: seq<Device>, user: nat, key: string)
    ensures match ByKey(devices, user, key)
      case None => forall i | 0 <= i < |devices| && devices[i].ActiveFor(user) :: devices[i].key != key
      case Some(d) => d < |devices| && devices[d].ActiveFor(user) && devices[d].key == key
  {
    var ids := KeyMatches(devices, user, key);
    NewestPicks(devices, ids);
    assert forall i: nat | i < |devices| && devices[i].ActiveFor(user) && devices[i].key == key :: i in ids;
  }

  lemma {:induction false} ByIpPicks(devices: seq<Device>, user: nat, ip: string)
    ensures match ByIp(devices, user, ip)
      case None => forall i | 0 <= i < |devices| && devices[i].ActiveFor(user) :: devices[i].ip != ip
      case Some(d) =>
        && d < |devices| && devices[d].ActiveFor(user) && devices[d].ip == ip
        && forall i: nat | i < |devices| && devices[i].ActiveFor(user) && devices[i].ip == ip ::
             Provisioning.Newer(devices, d, i)
  {
    var ids := IpMatches(devices, user, ip);
    NewestPicks(devices, ids);
    assert forall i: nat | i < |devices| && devices[i].ActiveFor(user) && devices[i].ip == ip :: i in ids;
  }

  /** A revoked device is never resolved. */
  lemma {:induction false} ResolvedIsActive(devices: seq<Device>, user: nat, ip: string, key: string)
    ensures Resolve(devices, user, ip, key).Some? ==>
      var d := Resolve(devices, user, ip, key).value; d < |devices| && devices[d].ActiveFor(user)
  {
    ByKeyPicks(devices, user, key);
    ByIpPicks(devices, user, ip);
  }

  // ----- Touch -----

  function ActiveCount(devices: seq<Device>, user: nat): nat {
    if devices == [] then 0
    else
      var n := |devices| - 1;
      ActiveCount(devices[..n], user) + if devices[n].ActiveFor(user) then 1 else 0
  }

  function Existing(devices: seq<Device>, user: nat, ip: string, key: string): (r: Option<nat>)
    ensures r.Some? ==> r.value < |devices|
  {
    if key != "" && ByKey(devices, user, key).Some? then ByKey(devices, user, key) else ByIp(devices, user, ip)
  }

  /** The row of a known device after a touch. */
  function TouchedRow(x: Device, now: int, req: TouchRequest): Device {
    var platform := OrElse(Strip(req.platform), "Unknown");
    var client := OrElse(Strip(req.client), "Happ");
    var key := NormalizeKey(req.key);
    x.(lastSeen := now, ip := req.ip, platform := platform, client := client,
       key := if key != "" then key else x.key, name := NormalizeName(req.name, platform))
  }

  function NewRow(user: nat, now: int, req: TouchRequest): Device {
    var platform := OrElse(Strip(req.platform), "Unknown");
    var client := OrElse(Strip(req.client), "Happ");
    Device(user, NormalizeName(req.name, platform), platform, client, req.ip, NormalizeKey(req.key),
           now, now, None, "")
  }

  /** `touch_public_subscription_device`. */
  function TouchDevice(devices: seq<Device>, now: int, user: nat, limit: nat, req: TouchRequest): Result<Touched,
                       TouchError> {
    if req.ip == "" then Err(IpUnavailable)
    else
      match Existing(devices, user, req.ip, NormalizeKey(req.key))
      case Some(d) => Ok(Touched(devices[d := TouchedRow(devices[d], now, req)], d, false))
      case None =>
        if ActiveCount(devices, user) >= limit then Err(LimitExceeded)
        else Ok(Touched(devices + [NewRow(user, now, req)], |devices|, true))
  }

  lemma {:induction false} ExistingPicks(devices: seq<Device>, user: nat, ip: string, key: string)
    ensures match Existing(devices, user, ip, key)
      case Some(d) => d < |devices| && devices[d].ActiveFor(user)
      case None =>
        && (forall i | 0 <= i < |devices| && devices[i].ActiveFor(user) :: devices[i].ip != ip)
        && (key != "" ==> forall i | 0 <= i < |devices| && devices[i].ActiveFor(user) :: devices[i].key != key)
  {
    ByKeyPicks(devices, user, key);
    ByIpPicks(devices, user, ip);
  }

  /** What a successful touch changes: one row, active, seen now at the request's address. */
  lemma {:induction false} TouchShape(devices: seq<Device>, now: int, user: nat, limit: nat, req: TouchRequest)
    requires TouchDevice(devices, now, user, limit, req).Ok?
    ensures var x := TouchDevice(devices, now, user, limit, req).value;
      && |devices| <= |x.devices| <= |devices| + 1 && x.device < |x.devices|
      && x.devices[x.device].ActiveFor(user) && x.devices[x.device].ip == req.ip != ""
      && x.devices[x.device].lastSeen == now
      && (NormalizeKey(req.key) != "" ==> x.devices[x.device].key == NormalizeKey(req.key))
      && (forall i | 0 <= i < |devices| && i != x.device :: x.devices[i] == devices[i])
      && (x.created <==> |x.devices| == |devices| + 1)
      && (x.created ==> x.device == |devices|)
      && (!x.created ==> x.device < |devices| && devices[x.device].ActiveFor(user)
                         && (NormalizeKey(req.key) == "" ==> x.devices[x.device].key == devices[x.device].key))
  {
    ExistingPicks(devices, user, req.ip, NormalizeKey(req.key));
  }

  // ----- Keys -----

  /** Non-empty public keys are pairwise distinct among a user's active devices. */
  ghost predicate KeysDistinct(devices: seq<Device>) {
    forall i, j | 0 <= i < j < |devices| ::
      !(devices[i].user == devices[j].user && devices[i].revokedAt.None? && devices[j].revokedAt.None?
        && devices[i].key != "" && devices[i].key == devices[j].key)
  }

  /** No other active device of the user carries the key that the touch is about to write. */
  lemma {:induction false} TouchKeyIsFree(devices: seq<Device>, now: int, user: nat, limit: nat, req: TouchRequest,
                                          i: nat)
    requires TouchDevice(devices, now, user, limit, req).Ok? && KeysDistinct(devices)
    requires i < |devices| && i != TouchDevice(devices, now, user, limit, req).value.device
    requires devices[i].ActiveFor(user) && NormalizeKey(req.key) != ""
    ensures devices[i].key != NormalizeKey(req.key)
  {
    var key := NormalizeKey(req.key);
    ByKeyPicks(devices, user, key);
    ExistingPicks(devices, user, req.ip, key);
  }

  lemma {:induction false} TouchKeepsKeys(devices: seq<Device>, now: int, user: nat, limit: nat, req: TouchRequest)
    requires TouchDevice(devices, now, user, limit, req).Ok? && KeysDistinct(devices)
    ensures KeysDistinct(TouchDevice(devices, now, user, limit, req).value.devices)
  {
    var x := TouchDevice(devices, now, user, limit, req).value;
    TouchShape(devices, now, user, limit, req);
    if NormalizeKey(req.key) != "" {
      forall i: nat | i < |devices| && i != x.device && devices[i].ActiveFor(user)
        ensures devices[i].key != x.devices[x.device].key
      {
        TouchKeyIsFree(devices, now, user, limit, req, i);
      }
    } else if x.created {
      assert x.devices[x.device].key == "";
    }
  }

  /** Without a key the device just touched is the one found by its address, even on ties. */
  lemma {:induction false} TouchedIsNewestAtItsIp(devices: seq<Device>, now: int, user: nat, limit: nat,
                                                  req: TouchRequest)
    requires TouchDevice(devices, now, user, limit, req).Ok? && NormalizeKey(req.key) == ""
    requires forall i | 0 <= i < |devices| :: devices[i].lastSeen <= now
    ensures var x := TouchDevice(devices, now, user, limit, req).value; ByIp(x.devices, user, req.ip) == Some(x.device)
  {
    var x := TouchDevice(devices, now, user, limit, req).value;
    TouchShape(devices, now, user, limit, req);
    ByIpPicks(x.devices, user, req.ip);
    ByIpPicks(devices, user, req.ip);
    ExistingPicks(devices, user, req.ip, "");
  }

  /** Touch and resolve agree: looking up the normalised key at the same address finds the device just
      touched, even on ties. */
  lemma {:induction false} TouchThenResolve(devices: seq<Device>, now: int, user: nat, limit: nat, req: TouchRequest)
    requires TouchDevice(devices, now, user, limit, req).Ok? && KeysDistinct(devices)
    requires forall i | 0 <= i < |devices| :: devices[i].lastSeen <= now
    ensures var x := TouchDevice(devices, now, user, limit, req).value;
      Resolve(x.devices, user, req.ip, NormalizeKey(req.key)) == Some(x.device)
  {
    var x := TouchDevice(devices, now, user, limit, req).value;
    TouchShape(devices, now, user, limit, req);
    if NormalizeKey(req.key) != "" {
      TouchKeepsKeys(devices, now, user, limit, req);
      ByKeyPicks(x.devices, user, NormalizeKey(req.key));
    } else {
      TouchedIsNewestAtItsIp(devices, now, user, limit, req);
    }
  }

  // ----- Limits -----

  lemma {:induction false} CountUpdate(devices: seq<Device>, user: nat, i: nat, x: Device)
    requires i < |devices|
    ensures ActiveCount(devices[i := x], user)
         == ActiveCount(devices, user) - (if devices[i].ActiveFor(user) then 1 else 0)
            + (if x.ActiveFor(user) then 1 else 0)
  {
    var n := |devices| - 1;
    if i < n {
      CountUpdate(devices[..n], user, i, x);
      assert devices[i := x][..n] == devices[..n][i := x];
    } else {
      assert devices[i := x][..n] == devices[..n];
    }
  }

  lemma {:induction false} CountAppend(devices: seq<Device>, user: nat, x: Device)
    ensures ActiveCount(devices + [x], user) == ActiveCount(devices, user) + (if x.ActiveFor(user) then 1 else 0)
  {
    assert (devices + [x])[..|devices|] == devices;
  }

  function Max(a: nat, b: nat): nat { if a > b then a else b }

  /** A touch never takes the user past both the old count and the limit, nor touches another user's count. */
  lemma {:induction false} TouchRespectsLimit(devices: seq<Device>, now: int, user: nat, limit: nat,
                                              req: TouchRequest, other: nat)
    requires TouchDevice(devices, now, user, limit, req).Ok?
    ensures var x := TouchDevice(devices, now, user, limit, req).value;
      && ActiveCount(x.devices, user) <= Max(ActiveCount(devices, user), limit)
      && (other != user ==> ActiveCount(x.devices, other) == ActiveCount(devices, other))
  {
    var x := TouchDevice(devices, now, user, limit, req).value;
    ExistingPicks(devices, user, req.ip, NormalizeKey(req.key));
    if x.created {
      CountAppend(devices, user, NewRow(user, now, req));
      CountAppend(devices, other, NewRow(user, now, req));
    } else {
      CountUpdate(devices, user, x.device, TouchedRow(devices[x.device], now, req));
      CountUpdate(devices, other, x.device, TouchedRow(devices[x.device], now, req));
    }
  }

  // ----- Revoke and repair -----

  /** The device a user may still revoke or repair; `None` is a 404 or a validation error. */
  predicate Live(devices: seq<Device>, user: nat, d: nat) {
    d < |devices| && devices[d].ActiveFor(user)
  }

  function RevokeRow(x: Device, now: int, reason: string): Device {
    x.(revokedAt := Some(now), revokedReason := Strip(reason))
  }

  lemma {:induction false} RevokeKeepsKeys(devices: seq<Device>, d: nat, now: int, reason: string)
    requires d < |devices| && KeysDistinct(devices)
    ensures KeysDistinct(devices[d := RevokeRow(devices[d], now, reason)])
  {
  }

  lemma {:induction false} RevokeLowersCount(devices: seq<Device>, user: nat, d: nat, now: int, reason: string,
                                             other: nat)
    requires Live(devices, user, d)
    ensures var devices' := devices[d := RevokeRow(devices[d], now, reason)];
      && ActiveCount(devices', user) + 1 == ActiveCount(devices, user)
      && (other != user ==> ActiveCount(devices', other) == ActiveCount(devices, other))
  {
    CountUpdate(devices, user, d, RevokeRow(devices[d], now, reason));
    CountUpdate(devices, other, d, RevokeRow(devices[d], now, reason));
  }
}
