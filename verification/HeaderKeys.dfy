/** The device key a request carries in its header, and when it can find its device again. */
module HeaderKeys {
  import opened Wrappers
  import opened Text
  import opened Tables
  import opened Devices
  import opened Access
  import opened AccessRuns
  import opened Adapters

  /** `get_request_device_key`: trimmed first, cut afterwards; the empty string stands for no key. */
  function RequestKey(header: string): string {
    Take(Strip(header), KEY_LENGTH)
  }

  /** The cut does not leave a blank at the end. */
  predicate CutsCleanly(header: string) {
    |Strip(header)| > KEY_LENGTH ==> !IsSpace(Strip(header)[KEY_LENGTH - 1])
  }

  ghost predicate KeysTrimmed(devices: seq<Device>) {
    forall i | 0 <= i < |devices| :: Strip(devices[i].key) == devices[i].key
  }

  lemma {:induction false} TrimmedIsFixed(s: string)
    requires s == "" || (!IsSpace(s[0]) && !IsSpace(s[|s| - 1]))
    ensures Strip(s) == s
  {
  }

  lemma {:induction false} TrimmingKeepsFirst(s: string)
    requires s != "" && !IsSpace(s[0])
    ensures StripRight(s) != ""
  {
    if IsSpace(s[|s| - 1]) {
      TrimmingKeepsFirst(s[..|s| - 1]);
    }
  }

  /** The touch stores the key that was sent exactly when the cut was clean. */
  lemma {:induction false} NormalizedIffClean(header: string)
    ensures NormalizeKey(RequestKey(header)) == RequestKey(header) <==> CutsCleanly(header)
    ensures Strip(NormalizeKey(RequestKey(header))) == NormalizeKey(RequestKey(header))
    ensures RequestKey(header) != "" ==> NormalizeKey(RequestKey(header)) != ""
  {
    var s, k := Strip(header), RequestKey(header);
    StripIdempotent(k);
    if CutsCleanly(header) {
      TrimmedIsFixed(k);
    } else {
      assert k == s[..KEY_LENGTH] && IsSpace(k[|k| - 1]) && !IsSpace(k[0]);
      assert StripLeft(k) == k;
      TrimmingKeepsFirst(k);
    }
  }

  /** After a touch the touched device carries the normalised key, alone among the user's active
      devices, and every stored key stays trimmed. */
  lemma {:induction false} TouchStoresKey(devices: seq<Device>, now: int, user: nat, limit: nat, req: TouchRequest,
                                          header: string)
    requires req.key == RequestKey(header) != ""
    requires TouchDevice(devices, now, user, limit, req).Ok? && KeysDistinct(devices) && KeysTrimmed(devices)
    ensures var x := TouchDevice(devices, now, user, limit, req).value;
      && KeysTrimmed(x.devices) && KeysDistinct(x.devices)
      && x.device < |x.devices| && x.devices[x.device].ActiveFor(user)
        && x.devices[x.device].key == NormalizeKey(req.key)
  {
    var x := TouchDevice(devices, now, user, limit, req).value;
    NormalizedIffClean(header);
    TouchShape(devices, now, user, limit, req);
    TouchKeepsKeys(devices, now, user, limit, req);
    forall i | 0 <= i < |x.devices| ensures Strip(x.devices[i].key) == x.devices[i].key {
      if i != x.device {
        assert x.devices[i] == devices[i];
      }
    }
  }

  /** After a touch, requests with the same header find the touched device from every address if and
      only if the header's key was cut cleanly. */
  lemma {:induction false} KeyFollowsDevice(devices: seq<Device>, now: int, user: nat, limit: nat, req: TouchRequest,
                                            header: string)
    requires req.key == RequestKey(header) != ""
    requires TouchDevice(devices, now, user, limit, req).Ok? && KeysDistinct(devices) && KeysTrimmed(devices)
    ensures var x := TouchDevice(devices, now, user, limit, req).value;
      (forall ip :: Resolve(x.devices, user, ip, req.key) == Some(x.device)) <==> CutsCleanly(header)
  {
    var x := TouchDevice(devices, now, user, limit, req).value;
    NormalizedIffClean(header);
    TouchStoresKey(devices, now, user, limit, req, header);
    KeyDecides(x.devices, user, x.device, req.key);
    if !CutsCleanly(header) {
      NotTrimmed(header);
      assert Resolve(x.devices, user, "", req.key) == None;
    }
  }

  /** A key that is not trimmed is never found: the address alone decides. */
  lemma {:induction false} KeyDecides(devices: seq<Device>, user: nat, d: nat, key: string)
    requires KeysDistinct(devices) && KeysTrimmed(devices) && key != ""
    requires d < |devices| && devices[d].ActiveFor(user)
    ensures devices[d].key == key ==> forall ip :: Resolve(devices, user, ip, key) == Some(d)
    ensures Strip(key) != key ==>
      forall ip :: Resolve(devices, user, ip, key) == if ip == "" then None else ByIp(devices, user, ip)
  {
    ByKeyPicks(devices, user, key);
  }

  lemma {:induction false} NotTrimmed(header: string)
    requires !CutsCleanly(header)
    ensures Strip(RequestKey(header)) != RequestKey(header)
  {
    assert RequestKey(header)[KEY_LENGTH - 1] == Strip(header)[KEY_LENGTH - 1];
  }

  // ----- Runs -----

  /** Every touch of the run carries a key taken from a header. */
  ghost predicate KeysFromHeaders(steps: seq<Step>) {
    forall i | 0 <= i < |steps| && steps[i].TouchStep? :: exists header :: steps[i].req.key == RequestKey(header)
  }

  lemma {:induction false} KeylessTouchWritesNoKey(devices: seq<Device>, now: int, user: nat, limit: nat,
                                                   req: TouchRequest)
    requires NormalizeKey(req.key) == "" && TouchDevice(devices, now, user, limit, req).Ok?
    ensures var x := TouchDevice(devices, now, user, limit, req).value;
      && |devices| <= |x.devices|
      && forall i | 0 <= i < |x.devices| :: x.devices[i].key == if i < |devices| then devices[i].key else ""
  {
  }

  lemma {:induction false} TouchKeepsTrimmed(devices: seq<Device>, now: int, user: nat, limit: nat,
                                             req: TouchRequest, header: string)
    requires req.key == RequestKey(header)
    requires TouchDevice(devices, now, user, limit, req).Ok? && KeysDistinct(devices) && KeysTrimmed(devices)
    ensures KeysTrimmed(TouchDevice(devices, now, user, limit, req).value.devices)
  {
    if req.key != "" {
      TouchStoresKey(devices, now, user, limit, req, header);
    } else {
      KeylessTouchWritesNoKey(devices, now, user, limit, req);
      assert Strip("") == "";
    }
  }

  lemma {:induction false} StepKeepsTrimmed(w: World, s: State, step: Step)
    requires Consistent(s) && KeysTrimmed(s.catalog.devices)
    requires step.TouchStep? ==> exists header :: step.req.key == RequestKey(header)
    ensures KeysTrimmed(Apply(w, s, step).catalog.devices)
  {
    StepDevices(w, s, step);
    if step.TouchStep? && step.subscription < |s.catalog.subscriptions|
      && Admitted(s, step.subscription, step.pending) {
      var header :| step.req.key == RequestKey(header);
      var x := s.catalog.subscriptions[step.subscription];
      if TouchDevice(s.catalog.devices, s.engine.now, x.user, x.maxDevices, step.req).Ok? {
        TouchKeepsTrimmed(s.catalog.devices, s.engine.now, x.user, x.maxDevices, step.req, header);
      }
    }
  }

  /** Over every run whose touches take their keys from headers the stored keys stay trimmed. */
  lemma {:induction false} KeysStayTrimmed(w: World, s: State, steps: seq<Step>)
    requires Consistent(s) && KeysTrimmed(s.catalog.devices) && KeysFromHeaders(steps)
    ensures KeysTrimmed(Run(w, s, steps).catalog.devices)
    decreases |steps|
  {
    if steps != [] {
      var rest := steps[1..];
      assert forall i | 0 <= i < |rest| :: rest[i] == steps[i + 1];
      StepKeepsTrimmed(w, s, steps[0]);
      StepAdvances(w, s, steps[0]);
      KeysStayTrimmed(w, Apply(w, s, steps[0]), rest);
    }
  }

  /** After every such run, for instance from an empty database, the next accepted touch with a header key is found
      by that key from every address if and only if the key was cut cleanly. */
  lemma {:induction false} KeyFollowsDeviceAfterRun(w: World, s: State, steps: seq<Step>, user: nat, limit: nat,
                                                    req: TouchRequest, header: string)
    requires Consistent(s) && KeysTrimmed(s.catalog.devices) && KeysFromHeaders(steps)
    requires req.key == RequestKey(header) != ""
    requires var s' := Run(w, s, steps); TouchDevice(s'.catalog.devices, s'.engine.now, user, limit, req).Ok?
    ensures var s' := Run(w, s, steps); var x := TouchDevice(s'.catalog.devices, s'.engine.now, user, limit, req).value;
      (forall ip :: Resolve(x.devices, user, ip, req.key) == Some(x.device)) <==> CutsCleanly(header)
  {
    var s' := Run(w, s, steps);
    KeysStayTrimmed(w, s, steps);
    RunAdvances(w, s, steps);
    KeyFollowsDevice(s'.catalog.devices, s'.engine.now, user, limit, req, header);
  }

  // ----- An instance -----

  /** Sixty-three letters, a blank and one more letter. */
  function LongHeader(): string {
    seq(KEY_LENGTH - 1, _ => 'a') + [' ', 'b']
  }

  /** With such a header the touched device cannot be found again by its key alone. */
  lemma {:induction false} LongHeaderLosesItsDevice(now: int, user: nat, limit: nat, req: TouchRequest)
    requires limit > 0 && req.ip != "" && req.key == RequestKey(LongHeader())
    ensures TouchDevice([], now, user, limit, req).Ok?
    ensures Resolve(TouchDevice([], now, user, limit, req).value.devices, user, "", req.key) == None
  {
    var header := LongHeader();
    TrimmedIsFixed(header);
    assert !CutsCleanly(header);
    NotTrimmed(header);
    NormalizedIffClean(header);
    ExistingPicks([], user, req.ip, NormalizeKey(req.key));
    var x := TouchDevice([], now, user, limit, req).value;
    ByKeyPicks(x.devices, user, req.key);
    assert x.devices == [NewRow(user, now, req)];
  }
}
