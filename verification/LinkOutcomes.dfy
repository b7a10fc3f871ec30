/** What a connection link says, read off from the panel's inbound alone. */
module LinkOutcomes {
  import opened Wrappers
  import opened Text
  import opened VlessLink

  // ----- Values -----

  /** A value under the reality settings: a direct text that is not blank, or else what the nested settings say, the
      first item that is not blank if they list several. Values are trimmed. */
  ghost predicate RealityIs(inbound: Inbound, key: string, value: string) {
    if key in inbound.reality && inbound.reality[key].Single? && !Blank(inbound.reality[key].text) then
      value == Strip(inbound.reality[key].text)
    else if key !in inbound.nested then value == ""
    else
      match inbound.nested[key]
      case Absent => value == ""
      case Single(text) => value == Strip(text)
      case Several(items) => FirstGiven(items, value)
  }

  ghost predicate FirstGiven(items: seq<string>, value: string) {
    if exists k :: 0 <= k < |items| && !Blank(items[k]) then
      exists k | 0 <= k < |items| ::
        !Blank(items[k]) && value == Strip(items[k]) && forall j | 0 <= j < k :: Blank(items[j])
    else value == ""
  }

  lemma {:induction false} BlankIff(s: string)
    ensures Blank(s) <==> Strip(s) == ""
  {
    var left, right := StripCutsBlanks(s);
  }

  lemma {:induction false} FirstPresentIs(items: seq<string>)
    ensures FirstGiven(items, FirstPresent(items))
  {
    if items != [] {
      var rest := items[1..];
      BlankIff(items[0]);
      if Blank(items[0]) {
        FirstPresentIs(rest);
        FirstGivenLater(items, FirstPresent(rest));
      }
    }
  }

  lemma {:induction false} FirstGivenLater(items: seq<string>, value: string)
    requires items != [] && Blank(items[0]) && FirstGiven(items[1..], value)
    ensures FirstGiven(items, value)
  {
    var rest := items[1..];
    assert forall k | 0 < k < |items| :: items[k] == rest[k - 1];
    if k :| 0 <= k < |items| && !Blank(items[k]) {
      assert !Blank(rest[k - 1]);
      var m :| 0 <= m < |rest| && !Blank(rest[m]) && value == Strip(rest[m]) && forall j | 0 <= j < m :: Blank(rest[j]);
      assert items[m + 1] == rest[m];
      assert forall j | 0 <= j < m + 1 :: Blank(items[j]);
    } else {
      assert forall k | 0 <= k < |rest| :: rest[k] == items[k + 1];
    }
  }

  lemma {:induction false} RealityValueIs(inbound: Inbound, key: string)
    ensures RealityIs(inbound, key, RealityValue(inbound, key))
  {
    if key in inbound.reality && inbound.reality[key].Single? {
      BlankIff(inbound.reality[key].text);
    }
    if key in inbound.nested && inbound.nested[key].Several? {
      FirstPresentIs(inbound.nested[key].items);
    }
  }

  /** A setting with a default for a blank one. */
  function Given(text: string, default: string): string {
    if Strip(text) == "" then default else Strip(text)
  }

  lemma {:induction false} TransportIs(inbound: Inbound)
    ensures Network(inbound) == Given(inbound.network, "tcp") && Security(inbound) == Given(inbound.security, "reality")
    ensures var key := Given(inbound.network, "tcp") + "Settings";
      Path(inbound) ==
        if key !in inbound.transports then ""
        else if inbound.transports[key].path == "" then Strip(inbound.transports[key].serviceName)
        else Strip(inbound.transports[key].path)
  {
    assert Strip("tcp") == "tcp" && Strip("reality") == "reality" && Strip("") == "";
  }

  // ----- The parameters -----

  function Keys(): seq<string> {
    ["type", "security", "fp", "pbk", "sni", "sid", "path"]
  }

  /** The pairs are the keys with their values, in order, without the keys whose value is empty. */
  ghost predicate Filled(keys: seq<string>, values: seq<string>, pairs: seq<Pair>)
    requires |keys| == |values|
  {
    if keys == [] then pairs == []
    else
      var n, m := |keys| - 1, |pairs| - 1;
      if values[n] == "" then Filled(keys[..n], values[..n], pairs)
      else pairs != [] && pairs[m] == (keys[n], values[n]) && Filled(keys[..n], values[..n], pairs[..m])
  }

  ghost predicate Trimmed(values: seq<string>) {
    forall i | 0 <= i < |values| :: values[i] == Strip(values[i])
  }

  lemma {:induction false} FilledNext(keys: seq<string>, values: seq<string>, pairs: seq<Pair>, key: string,
                                      value: string)
    requires |keys| == |values| && Filled(keys, values, pairs) && AllGiven(pairs) && value == Strip(value)
    ensures Filled(keys + [key], values + [value], Add(pairs, key, value))
  {
    var n, pairs' := |keys|, Add(pairs, key, value);
    assert (keys + [key])[..n] == keys && (values + [value])[..n] == values;
    assert value != "" ==> pairs'[..|pairs|] == pairs;
  }

  ghost function Values(inbound: Inbound, fingerprint: string, publicKey: string, serverName: string,
                        shortId: string): (r: seq<string>)
    ensures |r| == |Keys()| == 7
  {
    var network := Given(inbound.network, "tcp");
    var key := network + "Settings";
    var path :=
      if key !in inbound.transports then ""
      else Strip(if inbound.transports[key].path == "" then inbound.transports[key].serviceName
                 else inbound.transports[key].path);
    [network, Given(inbound.security, "reality"), if fingerprint == "" then "chrome" else fingerprint, publicKey,
     serverName, shortId, path]
  }

  /** The values of the four reality settings, and the parameters they and the transport lead to. */
  ghost predicate SaysWith(inbound: Inbound, fingerprint: string, publicKey: string, serverName: string,
                           shortId: string, pairs: seq<Pair>)
  {
    && RealityIs(inbound, "fingerprint", fingerprint) && RealityIs(inbound, "publicKey", publicKey)
    && RealityIs(inbound, "serverNames", serverName) && RealityIs(inbound, "shortIds", shortId)
    && Filled(Keys(), Values(inbound, fingerprint, publicKey, serverName, shortId), pairs)
  }

  /** A built link reads back as the port of the inbound, or 443 for none, and the seven parameters under their keys. */
  ghost predicate Says(inbound: Inbound, link: Link) {
    && link.port == (if inbound.port == 0 then 443 else inbound.port)
    && exists fingerprint, publicKey, serverName, shortId ::
         SaysWith(inbound, fingerprint, publicKey, serverName, shortId, link.parameters)
  }

  lemma {:induction false} PrefixNext(k: seq<string>, v: seq<string>, n: nat, pairs: seq<Pair>)
    requires n < |k| == |v| && Trimmed(v) && AllGiven(pairs) && Filled(k[..n], v[..n], pairs)
    ensures Filled(k[..n + 1], v[..n + 1], Add(pairs, k[n], v[n]))
  {
    FilledNext(k[..n], v[..n], pairs, k[n], v[n]);
    assert k[..n + 1] == k[..n] + [k[n]] && v[..n + 1] == v[..n] + [v[n]];
  }

  lemma {:induction false} TwoMore(k: seq<string>, v: seq<string>, n: nat, pairs: seq<Pair>)
    requires n + 2 <= |k| == |v| && Trimmed(v) && AllGiven(pairs) && Filled(k[..n], v[..n], pairs)
    ensures Filled(k[..n + 2], v[..n + 2], Add(Add(pairs, k[n], v[n]), k[n + 1], v[n + 1]))
  {
    PrefixNext(k, v, n, pairs);
    PrefixNext(k, v, n + 1, Add(pairs, k[n], v[n]));
  }

  lemma {:induction false} FillFirst(k: seq<string>, v: seq<string>)
    requires |k| == |v| && k != [] && Trimmed(v)
    ensures Filled(k[..1], v[..1], Add([], k[0], v[0]))
  {
    FilledNext([], [], [], k[0], v[0]);
    assert [] + [k[0]] == k[..1] && [] + [v[0]] == v[..1];
  }

  lemma {:induction false} FillThree(k: seq<string>, v: seq<string>)
    requires |k| == |v| && |k| >= 3 && Trimmed(v)
    ensures Filled(k[..3], v[..3], Add(Add(Add([], k[0], v[0]), k[1], v[1]), k[2], v[2]))
  {
    FillFirst(k, v);
    TwoMore(k, v, 1, Add([], k[0], v[0]));
  }

  lemma {:induction false} FillFourMore(k: seq<string>, v: seq<string>, pairs: seq<Pair>)
    requires |k| == |v| == 7 && Trimmed(v) && AllGiven(pairs) && Filled(k[..3], v[..3], pairs)
    ensures Filled(k, v, Add(Add(Add(Add(pairs, k[3], v[3]), k[4], v[4]), k[5], v[5]), k[6], v[6]))
  {
    var five := Add(Add(pairs, k[3], v[3]), k[4], v[4]);
    PrefixNext(k, v, 3, pairs);
    PrefixNext(k, v, 4, Add(pairs, k[3], v[3]));
    PrefixNext(k, v, 5, five);
    PrefixNext(k, v, 6, Add(five, k[5], v[5]));
    assert k[..7] == k && v[..7] == v;
  }

  lemma {:induction false} SevenTrimmed(v: seq<string>)
    requires |v| == 7 && v[0] == Strip(v[0]) && v[1] == Strip(v[1]) && v[2] == Strip(v[2]) && v[3] == Strip(v[3])
    requires v[4] == Strip(v[4]) && v[5] == Strip(v[5]) && v[6] == Strip(v[6])
    ensures Trimmed(v)
  {
  }

  lemma {:induction false} ValuesAre(inbound: Inbound)
    ensures Values(inbound, RealityValue(inbound, "fingerprint"), RealityValue(inbound, "publicKey"),
                   RealityValue(inbound, "serverNames"), RealityValue(inbound, "shortIds"))
      == [Network(inbound), Security(inbound), Fingerprint(inbound), RealityValue(inbound, "publicKey"),
          RealityValue(inbound, "serverNames"), RealityValue(inbound, "shortIds"), Path(inbound)]
  {
    TransportIs(inbound);
  }

  lemma {:induction false} ParametersFilled(inbound: Inbound)
    ensures Filled(Keys(), [Network(inbound), Security(inbound), Fingerprint(inbound),
                            RealityValue(inbound, "publicKey"), RealityValue(inbound, "serverNames"),
                            RealityValue(inbound, "shortIds"), Path(inbound)], Parameters(inbound))
  {
    var v := [Network(inbound), Security(inbound), Fingerprint(inbound), RealityValue(inbound, "publicKey"),
              RealityValue(inbound, "serverNames"), RealityValue(inbound, "shortIds"), Path(inbound)];
    SevenTrimmed(v);
    FillThree(Keys(), v);
    FillFourMore(Keys(), v, Add(Add(Add([], "type", v[0]), "security", v[1]), "fp", v[2]));
  }

  lemma {:induction false} ParametersSay(inbound: Inbound)
    ensures SaysWith(inbound, RealityValue(inbound, "fingerprint"), RealityValue(inbound, "publicKey"),
                     RealityValue(inbound, "serverNames"), RealityValue(inbound, "shortIds"), Parameters(inbound))
  {
    RealityValueIs(inbound, "fingerprint");
    RealityValueIs(inbound, "publicKey");
    RealityValueIs(inbound, "serverNames");
    RealityValueIs(inbound, "shortIds");
    ValuesAre(inbound);
    ParametersFilled(inbound);
  }

  /** Read back, a built link is addressed to the client at the host, carries the client's email, and says what the
      inbound says. */
  lemma {:induction false} BuiltLinkSays(inbound: Inbound, host: string, uuid: string, email: string)
    ensures "vless://" <= ConnectionUrl(inbound, host, uuid, email)
    ensures var link := ReadLink(ConnectionUrl(inbound, host, uuid, email), CutFromRight);
      && link.Some? && link.value.authority == uuid + "@" + host && link.value.email == email
      && Says(inbound, link.value)
  {
    BuiltLinkReadsBack(inbound, host, uuid, email);
    ParametersSay(inbound);
  }
}
