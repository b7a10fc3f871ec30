/** What a touch comes to, read off from the device table and the request alone. */
module TouchOutcomes {
  import opened Wrappers
  import opened Text
  import opened Tables
  import opened Provisioning
  import opened OperationOutcomes
  import Devices

  // ----- Known devices -----

  ghost predicate Held(devices: seq<Device>, user: nat, d: nat) {
    d < |devices| && devices[d].user == user && devices[d].revokedAt.None?
  }

  ghost predicate WithKey(devices: seq<Device>, user: nat, key: string, d: nat) {
    Held(devices, user, d) && key != "" && devices[d].key == key
  }

  ghost predicate AtAddress(devices: seq<Device>, user: nat, ip: string, d: nat) {
    Held(devices, user, d) && devices[d].ip == ip
  }

  ghost predicate SomeWithKey(devices: seq<Device>, user: nat, key: string) {
    exists d: nat :: WithKey(devices, user, key, d)
  }

  ghost predicate SomeAtAddress(devices: seq<Device>, user: nat, ip: string) {
    exists d: nat :: AtAddress(devices, user, ip, d)
  }

  /** The device a request belongs to: the newest one with its key, or else the newest one at its address. */
  ghost predicate Recognised(devices: seq<Device>, user: nat, ip: string, key: string, d: nat) {
    if SomeWithKey(devices, user, key) then
      WithKey(devices, user, key, d)
        && forall k: nat | WithKey(devices, user, key, k) && k != d :: Ahead(devices, d, k)
    else
      AtAddress(devices, user, ip, d)
        && forall k: nat | AtAddress(devices, user, ip, k) && k != d :: Ahead(devices, d, k)
  }

  lemma {:induction false} NewerIsAhead(devices: seq<Device>, a: nat, b: nat)
    ensures a != b ==> (Newer(devices, a, b) <==> Ahead(devices, a, b))
  {
  }

  lemma {:induction false} ByKeyRecognises(devices: seq<Device>, user: nat, key: string)
    requires key != ""
    ensures var r := Devices.ByKey(devices, user, key);
      && (r.Some? <==> SomeWithKey(devices, user, key))
      && (r.Some? ==>
            && WithKey(devices, user, key, r.value)
            && forall k: nat | WithKey(devices, user, key, k) && k != r.value :: Ahead(devices, r.value, k))
  {
    Devices.ByKeyPicks(devices, user, key);
    var r, ids := Devices.ByKey(devices, user, key), Devices.KeyMatches(devices, user, key);
    Devices.NewestPicks(devices, ids);
    if r.Some? {
      assert WithKey(devices, user, key, r.value);
      forall k: nat | WithKey(devices, user, key, k) && k != r.value ensures Ahead(devices, r.value, k) {
        assert k in ids;
      }
    }
  }

  lemma {:induction false} ByIpRecognises(devices: seq<Device>, user: nat, ip: string)
    ensures var r := Devices.ByIp(devices, user, ip);
      && (r.Some? <==> SomeAtAddress(devices, user, ip))
      && (r.Some? ==>
            && AtAddress(devices, user, ip, r.value)
            && forall k: nat | AtAddress(devices, user, ip, k) && k != r.value :: Ahead(devices, r.value, k))
  {
    Devices.ByIpPicks(devices, user, ip);
    var r := Devices.ByIp(devices, user, ip);
    if r.Some? {
      assert AtAddress(devices, user, ip, r.value);
    }
  }

  lemma {:induction false} ExistingRecognised(devices: seq<Device>, user: nat, ip: string, key: string)
    ensures var r := Devices.Existing(devices, user, ip, key);
      && (r.Some? <==> SomeWithKey(devices, user, key) || SomeAtAddress(devices, user, ip))
      && (r.Some? ==> Recognised(devices, user, ip, key, r.value))
  {
    if key != "" {
      ByKeyRecognises(devices, user, key);
    }
    ByIpRecognises(devices, user, ip);
  }

  /** A public request is resolved to the device it belongs to; without an address only its key can tell. */
  lemma {:induction false} ResolveRecognises(devices: seq<Device>, user: nat, ip: string, key: string)
    ensures var r := Devices.Resolve(devices, user, ip, key);
      && (r.Some? <==> SomeWithKey(devices, user, key) || (ip != "" && SomeAtAddress(devices, user, ip)))
      && (r.Some? ==> Recognised(devices, user, ip, key, r.value))
  {
    if key != "" {
      ByKeyRecognises(devices, user, key);
    }
    ByIpRecognises(devices, user, ip);
  }

  // ----- Refusals -----

  ghost function HeldBy(devices: seq<Device>, user: nat): (ds: set<nat>)
    ensures forall d: nat :: d in ds <==> Held(devices, user, d)
  {
    set d: nat | d < |devices| && devices[d].user == user && devices[d].revokedAt.None?
  }

  lemma {:induction false} HeldCounted(devices: seq<Device>, user: nat)
    ensures Devices.ActiveCount(devices, user) == |HeldBy(devices, user)|
  {
    if devices != [] {
      var n := |devices| - 1;
      var front := devices[..n];
      HeldCounted(front, user);
      assert HeldBy(devices, user) == if Held(devices, user, n) then HeldBy(front, user) + {n} else HeldBy(front, user);
    }
  }

  /** A touch is refused without an address, and otherwise exactly if no device of the user has the key or the address
      and the user already holds as many devices as the plan allows. */
  lemma {:induction false} TouchRefusedExactly(devices: seq<Device>, now: int, user: nat, limit: nat,
                                               req: Devices.TouchRequest)
    ensures var t, key := Devices.TouchDevice(devices, now, user, limit, req), Devices.NormalizeKey(req.key);
      && (t == Err(Devices.IpUnavailable) <==> req.ip == "")
      && (t == Err(Devices.LimitExceeded) <==>
            && req.ip != "" && !SomeWithKey(devices, user, key) && !SomeAtAddress(devices, user, req.ip)
            && |HeldBy(devices, user)| >= limit)
      && t != Err(Devices.SubscriptionInactive)
  {
    ExistingRecognised(devices, user, req.ip, Devices.NormalizeKey(req.key));
    HeldCounted(devices, user);
  }

  // ----- Accepted touches -----

  /** The row carries the request's data: trimmed, with defaults for what is blank. */
  ghost predicate Describes(x: Device, now: int, req: Devices.TouchRequest) {
    && x.lastSeen == now && x.ip == req.ip
    && x.platform == (if Strip(req.platform) == "" then "Unknown" else Strip(req.platform))
    && x.client == (if Strip(req.client) == "" then "Happ" else Strip(req.client))
    && x.name == (if Strip(req.name) == "" then Take(x.platform + " device", 120) else Take(Strip(req.name), 120))
  }

  /** The row of the device the request belongs to is written, or a row is added exactly if there is none. */
  ghost predicate Writes(devices: seq<Device>, now: int, user: nat, req: Devices.TouchRequest, t: Devices.Touched) {
    var key, d := Devices.NormalizeKey(req.key), t.device;
    && d < |t.devices| && Describes(t.devices[d], now, req)
    && (t.created <==> !SomeWithKey(devices, user, key) && !SomeAtAddress(devices, user, req.ip))
    && (t.created ==>
          var x := t.devices[d];
          d == |devices| && t.devices == devices + [x]
            && x.user == user && x.key == key && x.createdAt == now && x.revokedAt.None? && x.revokedReason == "")
    && (!t.created ==>
          && d < |devices| && Recognised(devices, user, req.ip, key, d) && t.devices == devices[d := t.devices[d]]
          && var x, x' := devices[d], t.devices[d];
             && x'.user == x.user && x'.createdAt == x.createdAt && x'.revokedAt == x.revokedAt
             && x'.revokedReason == x.revokedReason && x'.key == if key == "" then x.key else key)
  }

  lemma {:induction false} TouchWritesItsDevice(devices: seq<Device>, now: int, user: nat, limit: nat,
                                                req: Devices.TouchRequest)
    requires Devices.TouchDevice(devices, now, user, limit, req).Ok?
    ensures Writes(devices, now, user, req, Devices.TouchDevice(devices, now, user, limit, req).value)
  {
    var key := Devices.NormalizeKey(req.key);
    ExistingRecognised(devices, user, req.ip, key);
    var t := Devices.TouchDevice(devices, now, user, limit, req).value;
    if t.created {
      DescribedNew(user, now, req);
    } else {
      DescribedTouched(devices[t.device], now, req);
    }
  }

  lemma {:induction false} NameFollows(provided: string, platform: string)
    requires platform == Strip(platform) != ""
    ensures Devices.NormalizeName(provided, platform)
      == if Strip(provided) == "" then Take(platform + " device", 120) else Take(Strip(provided), 120)
  {
  }

  lemma {:induction false} PlatformTrimmed(platform: string)
    ensures var p := if Strip(platform) == "" then "Unknown" else Strip(platform); p == Strip(p) != ""
  {
    StripIdempotent(platform);
    assert Strip("Unknown") == "Unknown";
  }

  lemma {:induction false} DescribedTouched(x: Device, now: int, req: Devices.TouchRequest)
    ensures Describes(Devices.TouchedRow(x, now, req), now, req)
  {
    PlatformTrimmed(req.platform);
    NameFollows(req.name, Devices.TouchedRow(x, now, req).platform);
  }

  lemma {:induction false} DescribedNew(user: nat, now: int, req: Devices.TouchRequest)
    ensures Describes(Devices.NewRow(user, now, req), now, req)
  {
    PlatformTrimmed(req.platform);
    NameFollows(req.name, Devices.NewRow(user, now, req).platform);
  }

  /** The key that counts is the trimmed one, cut to 64 characters. */
  lemma {:induction false} KeyNormalised(raw: string) returns (left: string, trimmed: string, right: string)
    ensures raw == left + trimmed + right && Blank(left) && Blank(right)
    ensures trimmed != "" ==> !IsSpace(trimmed[0]) && !IsSpace(trimmed[|trimmed| - 1])
    ensures Devices.NormalizeKey(raw) == if |trimmed| <= 64 then trimmed else trimmed[..64]
  {
    left, right := StripCutsBlanks(raw);
    trimmed := Strip(raw);
  }
}
