/** encodeURIComponent of ECMA-262 (section 19.2.6, URI Handling Functions):
    every code point outside the unreserved set is written as the UTF-8 octets
    of the code point, each as `%` followed by two upper-case hexadecimal
    digits. PercentDecode, after decodeURIComponent, is the inverse used to
    show that the encoding loses nothing. */
module UriEncoding {
  import opened Wrappers

  type Byte = b: int | 0 <= b < 256

  /** uriAlpha, DecimalDigit and uriMark: left as they are by encodeURIComponent. */
  predicate IsUnreserved(c: char) {
    || ('A' <= c <= 'Z') || ('a' <= c <= 'z') || ('0' <= c <= '9')
    || c == '-' || c == '_' || c == '.' || c == '!' || c == '~'
    || c == '*' || c == '\'' || c == '(' || c == ')'
  }

  /** The upper-case hexadecimal digit for `d`. */
  function HexDigit(d: int): (c: char)
    requires 0 <= d < 16
    ensures IsUpperHex(c)
  {
    if d < 10 then ('0' as int + d) as char else ('A' as int + d - 10) as char
  }

  predicate IsUpperHex(c: char) {
    ('0' <= c <= '9') || ('A' <= c <= 'F')
  }

  /** The characters an encoded string is made of: the unreserved ones
      (which include the upper-case hexadecimal digits) and `%`. */
  predicate IsEncodedChar(c: char) {
    IsUnreserved(c) || c == '%'
  }

  /** The UTF-8 octets of one code point (1 to 4 of them). */
  function Utf8(c: char): (bs: seq<Byte>)
    ensures 1 <= |bs| <= 4
  {
    var n := c as int;
    if n < 0x80 then [n]
    else if n < 0x800 then [0xC0 + n / 64, 0x80 + n % 64]
    else if n < 0x10000 then [0xE0 + n / 4096, 0x80 + n / 64 % 64, 0x80 + n % 64]
    else [0xF0 + n / 262144, 0x80 + n / 4096 % 64, 0x80 + n / 64 % 64, 0x80 + n % 64]
  }

  /** One octet as `%XY`. */
  function EscapeOctet(b: Byte): (r: string)
    ensures |r| == 3 && r[0] == '%' && IsUpperHex(r[1]) && IsUpperHex(r[2])
  {
    ['%', HexDigit(b / 16), HexDigit(b % 16)]
  }

  function EscapeOctets(bs: seq<Byte>): (r: string)
    ensures |r| == 3 * |bs|
    ensures forall k :: 0 <= k < |r| ==> r[k] == '%' || IsUpperHex(r[k])
  {
    if bs == [] then [] else EscapeOctet(bs[0]) + EscapeOctets(bs[1..])
  }

  function EncodeChar(c: char): string {
    if IsUnreserved(c) then [c] else EscapeOctets(Utf8(c))
  }

  /** encodeURIComponent. Its output uses only unreserved characters, `%` and
      upper-case hexadecimal digits, and a string of unreserved characters is
      left as it is. */
  function EncodeUriComponent(s: string): (r: string)
    ensures forall k :: 0 <= k < |r| ==> IsEncodedChar(r[k])
    ensures (forall k :: 0 <= k < |s| ==> IsUnreserved(s[k])) ==> r == s
  {
    if s == [] then []
    else
      var head := EncodeChar(s[0]);
      var tail := EncodeUriComponent(s[1..]);
      assert forall k :: 0 <= k < |head| ==> IsEncodedChar(head[k]);
      assert (forall k :: 0 <= k < |s| ==> IsUnreserved(s[k])) ==> head == [s[0]];
      assert (forall k :: 0 <= k < |s| ==> IsUnreserved(s[k])) ==> s == [s[0]] + s[1..];
      head + tail
  }

  // ---- Decoding -----------------------------------------------------------

  function HexValue(c: char): (r: Option<nat>)
    ensures r.Some? ==> r.value < 16
  {
    if '0' <= c <= '9' then Some(c as int - '0' as int)
    else if 'A' <= c <= 'F' then Some(c as int - 'A' as int + 10)
    else if 'a' <= c <= 'f' then Some(c as int - 'a' as int + 10)
    else None
  }

  /** Reads one `%XY` at the start of `s`. */
  function ParseOctet(s: string): Option<Byte> {
    if |s| >= 3 && s[0] == '%' && HexValue(s[1]).Some? && HexValue(s[2]).Some?
    then Some(16 * HexValue(s[1]).value + HexValue(s[2]).value)
    else None
  }

  /** Reads `k` consecutive `%XY` at the start of `s`. */
  function ParseOctets(s: string, k: nat): (r: Option<seq<Byte>>)
    ensures r.Some? ==> |r.value| == k && 3 * k <= |s|
  {
    if k == 0 then Some([])
    else match ParseOctet(s)
      case None => None
      case Some(b) =>
        match ParseOctets(s[3..], k - 1)
        case None => None
        case Some(bs) => Some([b] + bs)
  }

  /** How many octets the UTF-8 sequence led by `lead` has; 0 if `lead`
      cannot start one. */
  function Utf8Width(lead: Byte): nat {
    if lead < 0x80 then 1
    else if 0xC0 <= lead < 0xE0 then 2
    else if 0xE0 <= lead < 0xF0 then 3
    else if 0xF0 <= lead < 0xF8 then 4
    else 0
  }

  predicate IsContinuation(b: Byte) {
    0x80 <= b < 0xC0
  }

  predicate IsScalarValue(n: int) {
    (0 <= n < 0xD800) || (0xE000 <= n < 0x11_0000)
  }

  /** The code point a well-formed, shortest-form UTF-8 sequence stands for. */
  function Utf8Decode(bs: seq<Byte>): Option<char> {
    if |bs| == 1 && bs[0] < 0x80 then Some(bs[0] as char)
    else if |bs| == 2 && 0xC0 <= bs[0] < 0xE0 && IsContinuation(bs[1]) then
      var n := (bs[0] as int - 0xC0) * 64 + (bs[1] as int - 0x80);
      if 0x80 <= n then Some(n as char) else None
    else if |bs| == 3 && 0xE0 <= bs[0] < 0xF0 && IsContinuation(bs[1]) && IsContinuation(bs[2]) then
      var n := (bs[0] as int - 0xE0) * 4096 + (bs[1] as int - 0x80) * 64 + (bs[2] as int - 0x80);
      if 0x800 <= n && IsScalarValue(n) then Some(n as char) else None
    else if |bs| == 4 && 0xF0 <= bs[0] < 0xF8 && IsContinuation(bs[1]) && IsContinuation(bs[2])
            && IsContinuation(bs[3]) then
      var n := (bs[0] as int - 0xF0) * 262144 + (bs[1] as int - 0x80) * 4096
               + (bs[2] as int - 0x80) * 64 + (bs[3] as int - 0x80);
      if 0x1_0000 <= n && IsScalarValue(n) then Some(n as char) else None
    else None
  }

  /** decodeURIComponent: `None` where it throws URIError. */
  function PercentDecode(s: string): Option<string>
    decreases |s|
  {
    if s == [] then Some([])
    else if s[0] != '%' then
      match PercentDecode(s[1..])
      case None => None
      case Some(t) => Some([s[0]] + t)
    else
      match ParseOctet(s)
      case None => None
      case Some(lead) =>
        var w := Utf8Width(lead);
        if w == 0 then None
        else match ParseOctets(s, w)
          case None => None
          case Some(bs) =>
            match Utf8Decode(bs)
            case None => None
            case Some(c) =>
              match PercentDecode(s[3 * w..])
              case None => None
              case Some(t) => Some([c] + t)
  }

  // ---- Round trip ---------------------------------------------------------

  lemma HexDigitValue(d: int)
    requires 0 <= d < 16
    ensures HexValue(HexDigit(d)) == Some(d)
  {
  }

  lemma ParseEscapedOctet(b: Byte, t: string)
    ensures ParseOctet(EscapeOctet(b) + t) == Some(b)
  {
    var e := EscapeOctet(b);
    var s := e + t;
    HexDigitValue(b / 16);
    HexDigitValue(b % 16);
    assert s[0] == '%' && s[1] == HexDigit(b / 16) && s[2] == HexDigit(b % 16);
  }

  /** Splitting after the first part of a three-part concatenation. */
  lemma Regroup(a: string, b: string, c: string)
    ensures (a + b) + c == a + (b + c)
    ensures ((a + b) + c)[|a|..] == b + c
  {
  }

  lemma {:induction false} ParseEscapedOctets(bs: seq<Byte>, t: string)
    ensures ParseOctets(EscapeOctets(bs) + t, |bs|) == Some(bs)
  {
    if bs != [] {
      var head := EscapeOctet(bs[0]);
      var rest := EscapeOctets(bs[1..]) + t;
      Regroup(head, EscapeOctets(bs[1..]), t);
      ParseEscapedOctet(bs[0], rest);
      ParseEscapedOctets(bs[1..], t);
      assert [bs[0]] + bs[1..] == bs;
    }
  }

  lemma Utf8RoundTrip(c: char)
    ensures Utf8Width(Utf8(c)[0]) == |Utf8(c)|
    ensures Utf8Decode(Utf8(c)) == Some(c)
  {
    var n := c as int;
    if n < 0x80 {
    } else if n < 0x800 {
      assert (n / 64) * 64 + n % 64 == n;
    } else if n < 0x1_0000 {
      Utf8Three(n);
    } else {
      Utf8Four(n);
    }
  }

  lemma Utf8Three(n: int)
    requires 0x800 <= n < 0x1_0000
    ensures n / 4096 * 4096 + n / 64 % 64 * 64 + n % 64 == n
  {
    var q := n / 64;
    assert q * 64 + n % 64 == n;
    assert q / 64 == n / 4096;
    assert (q / 64) * 64 + q % 64 == q;
  }

  lemma Utf8Four(n: int)
    requires 0x1_0000 <= n < 0x11_0000
    ensures n / 262144 * 262144 + n / 4096 % 64 * 4096 + n / 64 % 64 * 64 + n % 64 == n
  {
    var q := n / 64;
    var p := q / 64;
    assert q * 64 + n % 64 == n;
    assert p * 64 + q % 64 == q;
    assert p == n / 4096;
    assert p / 64 == n / 262144;
    assert (p / 64) * 64 + p % 64 == p;
  }

  /** Decoding the encoding of one character, followed by anything, yields
      that character followed by the decoding of the rest. */
  lemma DecodeEncodedChar(c: char, t: string)
    ensures PercentDecode(EncodeChar(c) + t)
         == match PercentDecode(t) case None => None case Some(u) => Some([c] + u)
  {
    if IsUnreserved(c) {
      var s := [c] + t;
      assert s[0] == c && s[1..] == t;
    } else {
      DecodeEscapedChar(c, t);
    }
  }

  lemma DecodeEscapedChar(c: char, t: string)
    requires !IsUnreserved(c)
    ensures PercentDecode(EscapeOctets(Utf8(c)) + t)
         == match PercentDecode(t) case None => None case Some(u) => Some([c] + u)
  {
    var bs := Utf8(c);
    var s := EscapeOctets(bs) + t;
    assert s == EscapeOctet(bs[0]) + (EscapeOctets(bs[1..]) + t);
    assert s[0] == '%';
    ParseEscapedOctet(bs[0], EscapeOctets(bs[1..]) + t);
    Utf8RoundTrip(c);
    ParseEscapedOctets(bs, t);
    assert s[3 * |bs|..] == t;
  }

  /** decodeURIComponent inverts encodeURIComponent: nothing is lost. */
  lemma {:induction false} DecodeEncode(s: string)
    ensures PercentDecode(EncodeUriComponent(s)) == Some(s)
  {
    if s != [] {
      DecodeEncode(s[1..]);
      DecodeEncodedChar(s[0], EncodeUriComponent(s[1..]));
      assert [s[0]] + s[1..] == s;
    }
  }

  /** So two strings with the same encoding are equal. */
  lemma EncodeInjective(s: string, t: string)
    requires EncodeUriComponent(s) == EncodeUriComponent(t)
    ensures s == t
  {
    DecodeEncode(s);
    DecodeEncode(t);
  }
}
