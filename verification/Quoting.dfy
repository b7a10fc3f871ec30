/** Percent-encoding (section 2.1 of RFC 3986) of the UTF-8 form of a string. */
module Quoting {
  import opened Wrappers

  type Byte = n: int | 0 <= n < 256

  /** The UTF-8 bytes of one character (section 3 of RFC 3629). */
  function EncodeChar(c: char): (b: seq<Byte>)
    ensures b != []
  {
    var n := c as int;
    if n < 0x80 then [n]
    else if n < 0x800 then [0xC0 + n / 64, 0x80 + n % 64]
    else if n < 0x10000 then [0xE0 + n / 4096, 0x80 + n / 64 % 64, 0x80 + n % 64]
    else [0xF0 + n / 262144, 0x80 + n / 4096 % 64, 0x80 + n / 64 % 64, 0x80 + n % 64]
  }

  function Encode(s: string): seq<Byte> {
    if s == "" then [] else EncodeChar(s[0]) + Encode(s[1..])
  }

  predicate Continues(b: seq<Byte>, count: nat) {
    count < |b| && forall i :: 1 <= i <= count ==> 0x80 <= b[i] < 0xC0
  }

  function ToChar(n: int): Option<char> {
    if 0 <= n < 0xD800 || 0xE000 <= n < 0x11_0000 then Some(n as char) else None
  }

  /** The payload of a byte whose marker bits are worth `marker`. */
  function Payload(b: Byte, marker: int): int {
    b - marker
  }

  /** The code point that the first bytes spell, and how many bytes it takes. */
  function CodePoint(b: seq<Byte>): (r: (int, nat))
    requires b != []
    ensures 0 < r.1 <= |b|
  {
    if b[0] < 0x80 then (b[0], 1)
    else if 0xC0 <= b[0] < 0xE0 && Continues(b, 1) then
      (Payload(b[0], 0xC0) * 64 + Payload(b[1], 0x80), 2)
    else if 0xE0 <= b[0] < 0xF0 && Continues(b, 2) then
      (Payload(b[0], 0xE0) * 4096 + Payload(b[1], 0x80) * 64 + Payload(b[2], 0x80), 3)
    else if 0xF0 <= b[0] < 0xF8 && Continues(b, 3) then
      (Payload(b[0], 0xF0) * 262144 + Payload(b[1], 0x80) * 4096
       + Payload(b[2], 0x80) * 64 + Payload(b[3], 0x80), 4)
    else (-1, 1)
  }

  /** The first character of a byte string and the number of bytes it takes. */
  function DecodeChar(b: seq<Byte>): (r: Option<(char, nat)>)
    ensures r.Some? ==> 0 < r.value.1 <= |b|
  {
    if b == [] then None
    else
      var (n, size) := CodePoint(b);
      match ToChar(n)
      case Some(c) => Some((c, size))
      case None => None
  }

  function Decode(b: seq<Byte>): Option<string>
    decreases |b|
  {
    if b == [] then Some("")
    else
      match DecodeChar(b)
      case None => None
      case Some((c, size)) =>
        match Decode(b[size..])
        case None => None
        case Some(rest) => Some([c] + rest)
  }

  lemma {:induction false} TwoBytes(n: int, rest: seq<Byte>)
    requires 0x80 <= n < 0x800
    ensures CodePoint([0xC0 + n / 64, 0x80 + n % 64] + rest) == (n, 2)
  {
    var b: seq<Byte> := [0xC0 + n / 64, 0x80 + n % 64] + rest;
    assert Continues(b, 1);
  }

  lemma {:induction false} ThreeBytes(n: int, rest: seq<Byte>)
    requires 0x800 <= n < 0x10000
    ensures CodePoint([0xE0 + n / 4096, 0x80 + n / 64 % 64, 0x80 + n % 64] + rest) == (n, 3)
  {
    var b: seq<Byte> := [0xE0 + n / 4096, 0x80 + n / 64 % 64, 0x80 + n % 64] + rest;
    assert Continues(b, 2);
    assert n == (n / 4096) * 4096 + (n / 64 % 64) * 64 + n % 64;
  }

  lemma {:induction false} FourBytes(n: int, rest: seq<Byte>)
    requires 0x10000 <= n < 0x11_0000
    ensures CodePoint([0xF0 + n / 262144, 0x80 + n / 4096 % 64, 0x80 + n / 64 % 64, 0x80 + n % 64] + rest) == (n, 4)
  {
    var b: seq<Byte> := [0xF0 + n / 262144, 0x80 + n / 4096 % 64, 0x80 + n / 64 % 64, 0x80 + n % 64] + rest;
    assert Continues(b, 3);
    assert n == (n / 262144) * 262144 + (n / 4096 % 64) * 4096 + (n / 64 % 64) * 64 + n % 64;
  }

  lemma {:induction false} DecodeCharEncoded(c: char, rest: seq<Byte>)
    ensures DecodeChar(EncodeChar(c) + rest) == Some((c, |EncodeChar(c)|))
  {
    var n := c as int;
    assert n < 0x11_0000;
    if n >= 0x10000 {
      FourBytes(n, rest);
    } else if n >= 0x800 {
      ThreeBytes(n, rest);
    } else if n >= 0x80 {
      TwoBytes(n, rest);
    }
  }

  lemma {:induction false} DecodeEncoded(s: string)
    ensures Decode(Encode(s)) == Some(s)
  {
    if s != "" {
      var b := Encode(s);
      DecodeCharEncoded(s[0], Encode(s[1..]));
      assert b[|EncodeChar(s[0])|..] == Encode(s[1..]);
      DecodeEncoded(s[1..]);
      assert [s[0]] + s[1..] == s;
    }
  }

  /** Section 2.3 of RFC 3986. */
  predicate Unreserved(b: Byte) {
    var c := b as char;
    'A' <= c <= 'Z' || 'a' <= c <= 'z' || '0' <= c <= '9' || c in "-._~"
  }

  function HexDigit(n: int): (c: char)
    requires 0 <= n < 16
  {
    if n < 10 then ('0' as int + n) as char else ('A' as int + n - 10) as char
  }

  function HexValue(c: char): Option<int> {
    if '0' <= c <= '9' then Some(c as int - '0' as int)
    else if 'A' <= c <= 'F' then Some(c as int - 'A' as int + 10)
    else if 'a' <= c <= 'f' then Some(c as int - 'a' as int + 10)
    else None
  }

  function QuoteByte(b: Byte): (s: string)
    ensures s != ""
  {
    if Unreserved(b) then [b as char] else ['%', HexDigit(b / 16), HexDigit(b % 16)]
  }

  function QuoteBytes(b: seq<Byte>): string {
    if b == [] then "" else QuoteByte(b[0]) + QuoteBytes(b[1..])
  }

  /** `urllib.parse.quote(s, safe='')`. */
  function Quote(s: string): string {
    QuoteBytes(Encode(s))
  }

  function UnquoteBytes(s: string): (r: Option<seq<Byte>>)
    decreases |s|
  {
    if s == "" then Some([])
    else if s[0] == '%' then
      if |s| < 3 || HexValue(s[1]).None? || HexValue(s[2]).None? then None
      else
        match UnquoteBytes(s[3..])
        case None => None
        case Some(rest) => Some([16 * HexValue(s[1]).value + HexValue(s[2]).value] + rest)
    else
      match UnquoteBytes(s[1..])
      case None => None
      case Some(rest) => Some(EncodeChar(s[0]) + rest)
  }

  /** Percent-decoding followed by UTF-8 decoding. */
  function Unquote(s: string): Option<string> {
    match UnquoteBytes(s)
    case None => None
    case Some(b) => Decode(b)
  }

  lemma {:induction false} HexDigitValue(n: int)
    requires 0 <= n < 16
    ensures HexValue(HexDigit(n)) == Some(n)
  {
  }

  lemma {:induction false} UnquoteQuotedByte(b: Byte, rest: string)
    ensures UnquoteBytes(QuoteByte(b) + rest)
         == match UnquoteBytes(rest) case None => None case Some(bytes) => Some([b] + bytes)
  {
    var s := QuoteByte(b) + rest;
    if Unreserved(b) {
      assert s[1..] == rest;
      assert s[0] as int == b && EncodeChar(s[0]) == [b];
    } else {
      HexDigitValue(b / 16);
      HexDigitValue(b % 16);
      assert s[0] == '%' && s[1] == HexDigit(b / 16) && s[2] == HexDigit(b % 16);
      assert s[3..] == rest;
    }
  }

  lemma {:induction false} UnquoteQuotedBytes(b: seq<Byte>)
    ensures UnquoteBytes(QuoteBytes(b)) == Some(b)
  {
    if b != [] {
      UnquoteQuotedByte(b[0], QuoteBytes(b[1..]));
      UnquoteQuotedBytes(b[1..]);
      assert [b[0]] + b[1..] == b;
    }
  }

  /** Decoding gives back the string, whatever characters it contains. */
  lemma {:induction false} UnquoteQuoted(s: string)
    ensures Unquote(Quote(s)) == Some(s)
  {
    UnquoteQuotedBytes(Encode(s));
    DecodeEncoded(s);
  }

  /** The only characters a quoted string is made of. */
  predicate QuotedChar(c: char) {
    c == '%' || 'A' <= c <= 'Z' || 'a' <= c <= 'z' || '0' <= c <= '9' || c in "-._~"
  }

  lemma {:induction false} QuoteBytesAlphabet(b: seq<Byte>)
    ensures forall c | c in QuoteBytes(b) :: QuotedChar(c)
  {
    if b != [] {
      QuoteBytesAlphabet(b[1..]);
    }
  }

  lemma {:induction false} QuoteAlphabet(s: string)
    ensures forall c | c in Quote(s) :: QuotedChar(c)
  {
    QuoteBytesAlphabet(Encode(s));
  }

  /** A string of unreserved characters is left as it is. */
  lemma {:induction false} UnreservedIsKept(s: string)
    requires forall c | c in s :: QuotedChar(c) && c != '%'
    ensures Quote(s) == s
  {
    if s != "" {
      assert s[0] in s;
      UnreservedIsKept(s[1..]);
      var b := Encode(s);
      assert b == [s[0] as int] + Encode(s[1..]) && b[1..] == Encode(s[1..]);
      assert s == [s[0]] + s[1..];
    }
  }
}
