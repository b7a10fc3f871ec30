/** The connection link that the 3x-ui adapter builds for a client, and how a client reads it back. */
module VlessLink {
  import opened Wrappers
  import opened Text
  import opened Quoting

  /** A value under the panel's reality settings; `Absent` also stands for any other JSON type. */
  datatype Setting = Absent | Single(text: string) | Several(items: seq<string>)

  datatype Transport = Transport(path: string, serviceName: string)

  /** The parts of a panel inbound that the link depends on. */
  datatype Inbound = Inbound(
    id: nat,
    port: nat,
    network: string,
    security: string,
    reality: map<string, Setting>,
    nested: map<string, Setting>,
    transports: map<string, Transport>)

  const DEFAULT_PORT: nat := 443

  function OrElse(s: string, default: string): string {
    if s == "" then default else s
  }

  function Lookup(settings: map<string, Setting>, key: string): Setting {
    if key in settings then settings[key] else Absent
  }

  function FirstPresent(items: seq<string>): (r: string)
    ensures r == Strip(r)
  {
    if items == [] then ""
    else if Strip(items[0]) != "" then StripIdempotent(items[0]); Strip(items[0])
    else FirstPresent(items[1..])
  }

  /** A direct string wins; otherwise the nested string, or the first nested item that is not blank. */
  function RealityValue(inbound: Inbound, key: string): (r: string)
    ensures r == Strip(r)
  {
    var direct := Lookup(inbound.reality, key);
    if direct.Single? && Strip(direct.text) != "" then StripIdempotent(direct.text); Strip(direct.text)
    else
      match Lookup(inbound.nested, key)
      case Single(text) => StripIdempotent(text); Strip(text)
      case Several(items) => FirstPresent(items)
      case Absent => ""
  }

  function Network(inbound: Inbound): (r: string)
    ensures r != "" && r == Strip(r)
  {
    StripIdempotent(OrElse(inbound.network, "tcp"));
    OrElse(Strip(OrElse(inbound.network, "tcp")), "tcp")
  }

  function Security(inbound: Inbound): (r: string)
    ensures r != "" && r == Strip(r)
  {
    StripIdempotent(OrElse(inbound.security, "reality"));
    OrElse(Strip(OrElse(inbound.security, "reality")), "reality")
  }

  function Path(inbound: Inbound): (r: string)
    ensures r == Strip(r)
  {
    var key := Network(inbound) + "Settings";
    if key in inbound.transports then
      var t := inbound.transports[key];
      StripIdempotent(OrElse(t.path, t.serviceName));
      Strip(OrElse(t.path, t.serviceName))
    else ""
  }

  function Port(inbound: Inbound): nat {
    if inbound.port == 0 then DEFAULT_PORT else inbound.port
  }

  type Pair = (string, string)

  ghost predicate AllGiven(pairs: seq<Pair>) {
    forall p | p in pairs :: Strip(p.1) != ""
  }

  /** Adds a parameter unless its value is empty. */
  function Add(pairs: seq<Pair>, key: string, value: string): (r: seq<Pair>)
    requires AllGiven(pairs) && value == Strip(value)
    ensures AllGiven(r) && |pairs| <= |r|
  {
    if value == "" then pairs else pairs + [(key, value)]
  }

  /** The query parameters of a link, in order: three that are always there, four that may be. */
  function Parameters(inbound: Inbound): (r: seq<Pair>)
    ensures AllGiven(r) && r != []
  {
    var always := Add(Add(Add([], "type", Network(inbound)), "security", Security(inbound)),
                      "fp", Fingerprint(inbound));
    Add(Add(Add(Add(always, "pbk", RealityValue(inbound, "publicKey")),
                "sni", RealityValue(inbound, "serverNames")),
            "sid", RealityValue(inbound, "shortIds")),
        "path", Path(inbound))
  }

  function Fingerprint(inbound: Inbound): (r: string)
    ensures r != "" && r == Strip(r)
  {
    assert Strip("chrome") == "chrome";
    OrElse(RealityValue(inbound, "fingerprint"), "chrome")
  }

  function Item(p: Pair): string {
    Quote(p.0) + "=" + Quote(p.1)
  }

  function Items(pairs: seq<Pair>): (r: seq<string>)
    ensures |r| == |pairs|
    ensures forall i :: 0 <= i < |r| ==> r[i] == Item(pairs[i])
  {
    seq(|pairs|, i requires 0 <= i < |pairs| => Item(pairs[i]))
  }

  function QueryString(pairs: seq<Pair>): string {
    if pairs == [] then "" else Join(Items(pairs), '&')
  }

  function Authority(uuid: string, host: string): string {
    uuid + "@" + host
  }

  function Scheme(): string { "vless://" }

  function Head(authority: string, port: nat): string {
    authority + [':'] + Decimal(port)
  }

  function Body(authority: string, port: nat, pairs: seq<Pair>, email: string): string {
    Head(authority, port) + ['?'] + QueryString(pairs) + ['#'] + Quote(email)
  }

  function ConnectionUrl(inbound: Inbound, host: string, uuid: string, email: string): (url: string)
    ensures url != ""
  {
    Scheme() + Body(Authority(uuid, host), Port(inbound), Parameters(inbound), email)
  }

  /** The link was built for this client. */
  ghost predicate OwnLink(url: string, uuid: string, email: string) {
    exists inbound: Inbound, host: string :: url == ConnectionUrl(inbound, host, uuid, email)
  }

  /** The query dictionary, filled one key at a time. */
  method BuildParameters(inbound: Inbound) returns (query: seq<Pair>)
    ensures query == Parameters(inbound)
  {
    var network, security, fingerprint := Network(inbound), Security(inbound), Fingerprint(inbound);
    query := [("type", network)];
    query := query + [("security", security)];
    query := query + [("fp", fingerprint)];
    assert query == Add(Add(Add([], "type", network), "security", security), "fp", fingerprint);
    var publicKey := RealityValue(inbound, "publicKey");
    if publicKey != "" { query := query + [("pbk", publicKey)]; }
    var serverName := RealityValue(inbound, "serverNames");
    if serverName != "" { query := query + [("sni", serverName)]; }
    var shortId := RealityValue(inbound, "shortIds");
    if shortId != "" { query := query + [("sid", shortId)]; }
    var path := Path(inbound);
    if path != "" { query := query + [("path", path)]; }
  }

  /** The pairs whose value is not blank. */
  function GivenOnly(pairs: seq<Pair>): (r: seq<Pair>)
    ensures AllGiven(r)
    ensures AllGiven(pairs) ==> r == pairs
  {
    if pairs == [] then []
    else
      var n := |pairs| - 1;
      var front := pairs[..n];
      assert pairs == front + [pairs[n]];
      assert pairs[n] in pairs && forall p | p in front :: p in pairs;
      if Strip(pairs[n].1) != "" then GivenOnly(front) + [pairs[n]] else GivenOnly(front)
  }

  /** The final join, which skips blank values; the parameters of a link have none. */
  method JoinParameters(query: seq<Pair>) returns (s: string)
    ensures s == QueryString(GivenOnly(query))
    ensures AllGiven(query) ==> s == QueryString(query)
  {
    var items: seq<string> := [];
    for i := 0 to |query|
      invariant items == Items(GivenOnly(query[..i]))
    {
      assert query[..i + 1][..i] == query[..i];
      if Strip(query[i].1) != "" {
        items := items + [Quote(query[i].0) + "=" + Quote(query[i].1)];
      }
    }
    assert query[..|query|] == query;
    s := if items == [] then "" else Join(items, '&');
  }

  method BuildConnectionUrl(inbound: Inbound, host: string, uuid: string, email: string) returns (url: string)
    ensures url == ConnectionUrl(inbound, host, uuid, email)
  {
    var query := BuildParameters(inbound);
    var queryString := JoinParameters(query);
    var head := uuid + "@" + host + [':'] + Decimal(Port(inbound));
    url := Scheme() + (head + ['?'] + queryString + ['#'] + Quote(email));
  }

  // ----- Reading a link back -----

  datatype Link = Link(authority: string, port: nat, parameters: seq<Pair>, email: string)

  function ReadItem(s: string): Option<Pair> {
    var i := IndexOf(s, '=');
    if i == |s| then None
    else
      match (Unquote(s[..i]), Unquote(s[i + 1..]))
      case (Some(key), Some(value)) => Some((key, value))
      case _ => None
  }

  function ReadItems(items: seq<string>): Option<seq<Pair>> {
    if items == [] then Some([])
    else
      match (ReadItem(items[0]), ReadItems(items[1..]))
      case (Some(pair), Some(rest)) => Some([pair] + rest)
      case _ => None
  }

  predicate Digits(s: string) {
    s != "" && forall i :: 0 <= i < |s| ==> IsDigit(s[i])
  }

  /** Reads authority, query and fragment once the two delimiters are found. */
  function ReadParts(head: string, query: string, fragment: string): Option<Link> {
    var c := LastIndexOf(head, ':');
    if c == |head| || !Digits(head[c + 1..]) then None
    else
      match (ReadItems(SplitOn(query, '&')), Unquote(fragment))
      case (Some(pairs), Some(email)) => Some(Link(head[..c], ParseDecimal(head[c + 1..]), pairs, email))
      case _ => None
  }

  /** Cuts at the last `#`, then at the last `?` before it. */
  function CutFromRight(s: string): Option<(string, string, string)> {
    var f := LastIndexOf(s, '#');
    var q := LastIndexOf(s[..f], '?');
    if f == |s| || q == f then None else Some((s[..q], s[q + 1..f], s[f + 1..]))
  }

  /** Cuts at the first `#`, then at the first `?` before it (section 3 of RFC 3986). */
  function CutFromLeft(s: string): Option<(string, string, string)> {
    var f := IndexOf(s, '#');
    var q := IndexOf(s[..f], '?');
    if f == |s| || q == f then None else Some((s[..q], s[q + 1..f], s[f + 1..]))
  }

  function ReadBody(s: string, cut: string -> Option<(string, string, string)>): Option<Link> {
    match cut(s)
    case None => None
    case Some((head, query, fragment)) => ReadParts(head, query, fragment)
  }

  function ReadLink(url: string, cut: string -> Option<(string, string, string)>): Option<Link> {
    if Scheme() <= url then ReadBody(url[|Scheme()|..], cut) else None
  }

  lemma {:induction false} ReadItemWritten(p: Pair)
    ensures ReadItem(Item(p)) == Some(p)
    ensures forall c | c in Item(p) :: QuotedChar(c) || c == '='
  {
    QuoteAlphabet(p.0);
    QuoteAlphabet(p.1);
    UnquoteQuoted(p.0);
    UnquoteQuoted(p.1);
    IndexOfAfter(Quote(p.0), '=', Quote(p.1));
    var s := Item(p);
    assert s == Quote(p.0) + ['='] + Quote(p.1);
    assert s[..|Quote(p.0)|] == Quote(p.0) && s[|Quote(p.0)| + 1..] == Quote(p.1);
  }

  lemma {:induction false} ReadItemsWritten(pairs: seq<Pair>)
    ensures ReadItems(Items(pairs)) == Some(pairs)
  {
    if pairs != [] {
      ReadItemWritten(pairs[0]);
      assert Items(pairs)[1..] == Items(pairs[1..]);
      ReadItemsWritten(pairs[1..]);
      assert [pairs[0]] + pairs[1..] == pairs;
    }
  }

  lemma {:induction false} ItemAvoids(p: Pair, c: char)
    requires !QuotedChar(c) && c != '='
    ensures c !in Item(p)
  {
    ReadItemWritten(p);
  }

  lemma {:induction false} QueryStringAvoids(pairs: seq<Pair>, c: char)
    requires pairs != [] && !QuotedChar(c) && c != '=' && c != '&'
    ensures c !in QueryString(pairs)
  {
    forall i | 0 <= i < |pairs| ensures c !in Items(pairs)[i] {
      ItemAvoids(pairs[i], c);
    }
    JoinAvoids(Items(pairs), '&', c);
  }

  lemma {:induction false} QueryStringReads(pairs: seq<Pair>)
    requires pairs != []
    ensures ReadItems(SplitOn(QueryString(pairs), '&')) == Some(pairs)
  {
    forall i | 0 <= i < |pairs| ensures '&' !in Items(pairs)[i] {
      ItemAvoids(pairs[i], '&');
    }
    SplitJoin(Items(pairs), '&');
    ReadItemsWritten(pairs);
  }

  lemma {:induction false} QuoteAvoids(s: string, c: char)
    requires !QuotedChar(c)
    ensures c !in Quote(s)
  {
    QuoteAlphabet(s);
  }

  lemma {:induction false} DecimalAvoids(n: nat, c: char)
    requires !IsDigit(c)
    ensures c !in Decimal(n)
  {
  }

  /** What reading the three parts of a built link gives. */
  lemma {:induction false} ReadPartsBuilt(authority: string, port: nat, pairs: seq<Pair>, email: string)
    requires pairs != []
    ensures ReadParts(Head(authority, port), QueryString(pairs), Quote(email))
         == Some(Link(authority, port, pairs, email))
  {
    var d := Decimal(port);
    var head := Head(authority, port);
    DecimalAvoids(port, ':');
    LastIndexOfBefore(authority, ':', d);
    assert head[..|authority|] == authority && head[|authority| + 1..] == d;
    DecimalRoundTrip(port);
    QueryStringReads(pairs);
    UnquoteQuoted(email);
  }

  lemma {:induction false} CutGluedFromRight(head: string, query: string, fragment: string)
    requires '#' !in fragment && '?' !in query
    ensures CutFromRight(head + ['?'] + query + ['#'] + fragment) == Some((head, query, fragment))
  {
    var front := head + ['?'] + query;
    var s := front + ['#'] + fragment;
    LastIndexOfBefore(front, '#', fragment);
    assert s[..|front|] == front && s[|front| + 1..] == fragment;
    LastIndexOfBefore(head, '?', query);
    assert s[..|head|] == head && s[|head| + 1..|front|] == query;
  }

  lemma {:induction false} CutGluedFromLeft(head: string, query: string, fragment: string)
    requires '#' !in head && '#' !in query && '?' !in head
    ensures CutFromLeft(head + ['?'] + query + ['#'] + fragment) == Some((head, query, fragment))
  {
    var front := head + ['?'] + query;
    var s := front + ['#'] + fragment;
    IndexOfAfter(front, '#', fragment);
    assert s[..|front|] == front && s[|front| + 1..] == fragment;
    IndexOfAfter(head, '?', query);
    assert s[..|head|] == head && s[|head| + 1..|front|] == query;
  }

  lemma {:induction false} DropPrefix<T>(a: seq<T>, b: seq<T>)
    ensures a <= a + b && (a + b)[|a|..] == b
  {
  }

  lemma {:induction false} BodyReadsFromRight(authority: string, port: nat, pairs: seq<Pair>, email: string)
    requires pairs != []
    ensures ReadBody(Body(authority, port, pairs, email), CutFromRight)
         == Some(Link(authority, port, pairs, email))
  {
    QueryStringAvoids(pairs, '?');
    QuoteAvoids(email, '#');
    CutGluedFromRight(Head(authority, port), QueryString(pairs), Quote(email));
    ReadPartsBuilt(authority, port, pairs, email);
  }

  lemma {:induction false} BodyReadsFromLeft(authority: string, port: nat, pairs: seq<Pair>, email: string)
    requires pairs != [] && '?' !in authority && '#' !in authority
    ensures ReadBody(Body(authority, port, pairs, email), CutFromLeft)
         == Some(Link(authority, port, pairs, email))
  {
    DecimalAvoids(port, '?');
    DecimalAvoids(port, '#');
    QueryStringAvoids(pairs, '#');
    CutGluedFromLeft(Head(authority, port), QueryString(pairs), Quote(email));
    ReadPartsBuilt(authority, port, pairs, email);
  }

  lemma {:induction false} BodyIsOneLine(authority: string, port: nat, pairs: seq<Pair>, email: string)
    requires pairs != []
    ensures '\n' in Body(authority, port, pairs, email) <==> '\n' in authority
  {
    DecimalAvoids(port, '\n');
    QueryStringAvoids(pairs, '\n');
    QuoteAvoids(email, '\n');
    assert '\n' in Head(authority, port) <==> '\n' in authority;
  }

  /** The builder is invertible: whatever the inbound, the client id, the host and the email are,
      the ordered query parameters, the port and the email come back exactly. */
  lemma {:induction false} BuiltLinkReadsBack(inbound: Inbound, host: string, uuid: string, email: string)
    ensures ReadLink(ConnectionUrl(inbound, host, uuid, email), CutFromRight)
         == Some(Link(Authority(uuid, host), Port(inbound), Parameters(inbound), email))
  {
    var pairs := Parameters(inbound);
    BodyReadsFromRight(Authority(uuid, host), Port(inbound), pairs, email);
    DropPrefix(Scheme(), Body(Authority(uuid, host), Port(inbound), pairs, email));
  }

  /** The standard left-to-right reading gives the same, given that neither delimiter
      occurs before the query: true of every UUID and of every host of a parsed URL. */
  lemma {:induction false} BuiltLinkReadsLeftToRight(inbound: Inbound, host: string, uuid: string, email: string)
    requires '?' !in Authority(uuid, host) && '#' !in Authority(uuid, host)
    ensures ReadLink(ConnectionUrl(inbound, host, uuid, email), CutFromLeft)
         == Some(Link(Authority(uuid, host), Port(inbound), Parameters(inbound), email))
  {
    var pairs := Parameters(inbound);
    BodyReadsFromLeft(Authority(uuid, host), Port(inbound), pairs, email);
    DropPrefix(Scheme(), Body(Authority(uuid, host), Port(inbound), pairs, email));
  }

  lemma {:induction false} InConcat<T>(x: T, a: seq<T>, b: seq<T>)
    ensures x in a + b <==> x in a || x in b
  {
  }

  lemma {:induction false} SchemeIsOneLine(body: string)
    ensures '\n' in Scheme() + body <==> '\n' in body
  {
    assert '\n' !in Scheme();
    InConcat('\n', Scheme(), body);
  }

  lemma {:induction false} AuthorityIsOneLine(uuid: string, host: string)
    ensures '\n' in Authority(uuid, host) <==> '\n' in uuid || '\n' in host
  {
    InConcat('\n', uuid + "@", host);
    InConcat('\n', uuid, "@");
  }

  /** A link is one line of a feed unless the host or the client id already breaks the line. */
  lemma {:induction false} BuiltLinkIsOneLine(inbound: Inbound, host: string, uuid: string, email: string)
    ensures '\n' in ConnectionUrl(inbound, host, uuid, email) <==> '\n' in uuid || '\n' in host
  {
    SchemeIsOneLine(Body(Authority(uuid, host), Port(inbound), Parameters(inbound), email));
    BodyIsOneLine(Authority(uuid, host), Port(inbound), Parameters(inbound), email);
    AuthorityIsOneLine(uuid, host);
  }
}
