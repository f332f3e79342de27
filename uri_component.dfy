/**
 * Percent-encoding of a URI component (section 2.1 of RFC 3986) as the
 * ECMAScript functions `encodeURIComponent` and `decodeURIComponent` do it:
 * every character outside `A-Z a-z 0-9 - _ . ! ~ * ' ( )` is written as the
 * UTF-8 bytes of its code point, each byte as `%` and two upper-case hex
 * digits. A `char` here is a Unicode scalar value.
 */
module UriComponent {
  import opened Wrappers

  type Byte = b: int | 0 <= b < 256

  /** The characters `encodeURIComponent` leaves as they are. */
  predicate IsUnreserved(c: char) {
    || ('A' <= c <= 'Z')
    || ('a' <= c <= 'z')
    || ('0' <= c <= '9')
    || c in "-_.!~*'()"
  }

  /** An upper-case hexadecimal digit. */
  function HexDigit(n: int): (c: char)
    requires 0 <= n < 16
    ensures IsUnreserved(c) && c != '%'
  {
    if n < 10 then (48 + n) as char else (55 + n) as char
  }

  /** The value of a hexadecimal digit of either case. */
  function HexValue(c: char): (r: Option<int>)
    ensures r.Some? ==> 0 <= r.value < 16
  {
    if '0' <= c <= '9' then Some(c as int - 48)
    else if 'A' <= c <= 'F' then Some(c as int - 55)
    else if 'a' <= c <= 'f' then Some(c as int - 87)
    else None
  }

  /** The UTF-8 encoding of one scalar value (section 3 of RFC 3629). */
  function Utf8(c: char): (bytes: seq<Byte>)
    ensures 1 <= |bytes| <= 4
  {
    var n := c as int;
    if n < 0x80 then [n]
    else if n < 0x800 then [0xC0 + n / 64, 0x80 + n % 64]
    else if n < 0x10000 then [0xE0 + n / 4096, 0x80 + (n / 64) % 64, 0x80 + n % 64]
    else [0xF0 + n / 262144, 0x80 + (n / 4096) % 64, 0x80 + (n / 64) % 64, 0x80 + n % 64]
  }

  /** `%XY` for one byte. */
  function Escape(b: Byte): string {
    ['%', HexDigit(b / 16), HexDigit(b % 16)]
  }

  function EscapeAll(bytes: seq<Byte>): (s: string)
    ensures |s| == 3 * |bytes|
    ensures forall c :: c in s ==> IsUnreserved(c) || c == '%'
  {
    if bytes == [] then [] else Escape(bytes[0]) + EscapeAll(bytes[1..])
  }

  function EncodeChar(c: char): string {
    if IsUnreserved(c) then [c] else EscapeAll(Utf8(c))
  }

  /**
   * `encodeURIComponent(s)`. Its output holds nothing but unreserved
   * characters and `%`, and a string of unreserved characters is its own
   * encoding.
   */
  function Encode(s: string): (r: string)
    ensures forall c :: c in r ==> IsUnreserved(c) || c == '%'
    ensures (forall i :: 0 <= i < |s| ==> IsUnreserved(s[i])) ==> r == s
  {
    if s == [] then [] else EncodeChar(s[0]) + Encode(s[1..])
  }

  /** Reads `n` consecutive `%XY` escapes at the start of `s`. */
  function ReadEscapes(s: string, n: nat): (r: Option<seq<Byte>>)
    ensures r.Some? ==> |r.value| == n && 3 * n <= |s|
  {
    if n == 0 then Some([])
    else if |s| < 3 || s[0] != '%' then None
    else
      match (HexValue(s[1]), HexValue(s[2]))
      case (Some(hi), Some(lo)) =>
        (match ReadEscapes(s[3..], n - 1)
         case Some(rest) => Some([16 * hi + lo] + rest)
         case None => None)
      case _ => None
  }

  /**
   * The length of the UTF-8 sequence a lead byte starts (its count of leading
   * one bits), or 0 when the byte cannot start a sequence.
   */
  function SequenceLength(b: Byte): (n: nat)
    ensures n <= 4
  {
    if b < 0x80 then 1
    else if b < 0xC0 then 0
    else if b < 0xE0 then 2
    else if b < 0xF0 then 3
    else if b < 0xF8 then 4
    else 0
  }

  predicate IsContinuation(b: Byte) {
    0x80 <= b < 0xC0
  }

  /** A valid scalar value: not a surrogate and at most U+10FFFF. */
  predicate IsScalar(n: int) {
    (0 <= n < 0xD800) || (0xE000 <= n < 0x110000)
  }

  /** The number a well-formed UTF-8 sequence of one to four bytes carries. */
  function CodePoint(bytes: seq<Byte>): int
    requires 1 <= |bytes| <= 4
  {
    var b: seq<int> := bytes;
    if |b| == 1 then b[0]
    else if |b| == 2 then (b[0] - 0xC0) * 64 + (b[1] - 0x80)
    else if |b| == 3 then (b[0] - 0xE0) * 4096 + (b[1] - 0x80) * 64 + (b[2] - 0x80)
    else (b[0] - 0xF0) * 262144 + (b[1] - 0x80) * 4096 + (b[2] - 0x80) * 64 + (b[3] - 0x80)
  }

  /** The least code point a sequence of `len` bytes may carry (shorter forms are overlong). */
  function LeastCodePoint(len: int): int {
    if len == 1 then 0 else if len == 2 then 0x80 else if len == 3 then 0x800 else 0x10000
  }

  /**
   * The code point a UTF-8 sequence denotes, or None for an overlong form,
   * a surrogate, a value above U+10FFFF or a malformed sequence.
   */
  function Utf8Decode(bytes: seq<Byte>): (r: Option<char>)
  {
    if |bytes| == 0 || SequenceLength(bytes[0]) != |bytes| then None
    else if exists k :: 1 <= k < |bytes| && !IsContinuation(bytes[k]) then None
    else
      var n := CodePoint(bytes);
      if LeastCodePoint(|bytes|) <= n && IsScalar(n) then Some(n as char) else None
  }

  /**
   * Decodes the escaped character at the start of `s` (which begins with
   * `%`): its character and the number of input characters it used.
   */
  function DecodeEscaped(s: string): (r: Option<(char, nat)>)
    ensures r.Some? ==> 3 <= r.value.1 <= |s|
  {
    match ReadEscapes(s, 1)
    case None => None
    case Some(lead) =>
      var n := SequenceLength(lead[0]);
      if n == 0 then None
      else
        match ReadEscapes(s, n)
        case None => None
        case Some(bytes) =>
          match Utf8Decode(bytes)
          case None => None
          case Some(c) => Some((c, 3 * n))
  }

  /** `decodeURIComponent(s)`; None where it throws a URIError. */
  function Decode(s: string): (r: Option<string>)
    decreases |s|
  {
    if s == [] then Some([])
    else if s[0] != '%' then
      match Decode(s[1..])
      case None => None
      case Some(t) => Some([s[0]] + t)
    else
      match DecodeEscaped(s)
      case None => None
      case Some((c, used)) =>
        match Decode(s[used..])
        case None => None
        case Some(t) => Some([c] + t)
  }

  lemma HexRoundTrip(n: int)
    requires 0 <= n < 16
    ensures HexValue(HexDigit(n)) == Some(n)
  {
  }

  /** Escaped bytes read back as the same bytes, and the rest of the input is untouched. */
  lemma {:induction false} ReadEscapesOfEscapeAll(bytes: seq<Byte>, rest: string)
    ensures ReadEscapes(EscapeAll(bytes) + rest, |bytes|) == Some(bytes)
  {
    if bytes != [] {
      var s := EscapeAll(bytes) + rest;
      var b := bytes[0];
      HexRoundTrip(b / 16);
      HexRoundTrip(b % 16);
      assert s[..3] == Escape(b);
      assert s[3..] == EscapeAll(bytes[1..]) + rest;
      ReadEscapesOfEscapeAll(bytes[1..], rest);
      assert [b] + bytes[1..] == bytes;
    }
  }

  lemma Utf8TwoBytes(n: int)
    requires 0x80 <= n < 0x800
    ensures CodePoint([0xC0 + n / 64, 0x80 + n % 64]) == n
  {
  }

  lemma Utf8ThreeBytes(n: int)
    requires 0x800 <= n < 0x10000
    ensures CodePoint([0xE0 + n / 4096, 0x80 + (n / 64) % 64, 0x80 + n % 64]) == n
  {
  }

  lemma Utf8FourBytes(n: int)
    requires 0x10000 <= n < 0x110000
    ensures CodePoint([0xF0 + n / 262144, 0x80 + (n / 4096) % 64, 0x80 + (n / 64) % 64, 0x80 + n % 64]) == n
  {
    assert n / 64 == (n / 4096) * 64 + (n / 64) % 64;
    assert n / 4096 == (n / 262144) * 64 + (n / 4096) % 64;
  }

  /** UTF-8 encoding is undone by UTF-8 decoding. */
  lemma Utf8RoundTrip(c: char)
    ensures SequenceLength(Utf8(c)[0]) == |Utf8(c)|
    ensures Utf8Decode(Utf8(c)) == Some(c)
  {
    var n := c as int;
    var bytes := Utf8(c);
    if n < 0x80 {
    } else if n < 0x800 {
      Utf8TwoBytes(n);
    } else if n < 0x10000 {
      Utf8ThreeBytes(n);
    } else {
      Utf8FourBytes(n);
    }
    assert CodePoint(bytes) == n;
  }

  /** The escapes of one character's UTF-8 bytes decode to that character. */
  lemma DecodeEscapedOfEncoding(c: char, rest: string)
    ensures DecodeEscaped(EscapeAll(Utf8(c)) + rest) == Some((c, 3 * |Utf8(c)|))
  {
    var bytes := Utf8(c);
    var s := EscapeAll(bytes) + rest;
    Utf8RoundTrip(c);
    ReadEscapesOfEscapeAll(bytes, rest);
    assert EscapeAll(bytes) == Escape(bytes[0]) + EscapeAll(bytes[1..]);
    assert s == EscapeAll([bytes[0]]) + (EscapeAll(bytes[1..]) + rest);
    ReadEscapesOfEscapeAll([bytes[0]], EscapeAll(bytes[1..]) + rest);
  }

  /** Decoding the encoding of one character yields that character first. */
  lemma DecodeEncodeChar(c: char, rest: string)
    ensures Decode(EncodeChar(c) + rest) == (match Decode(rest) case None => None case Some(t) => Some([c] + t))
  {
    var s := EncodeChar(c) + rest;
    if IsUnreserved(c) {
      assert s[0] == c && s[1..] == rest;
    } else {
      var bytes := Utf8(c);
      DecodeEscapedOfEncoding(c, rest);
      assert s[0] == '%';
      assert s[3 * |bytes|..] == rest;
    }
  }

  /** Percent-decoding undoes percent-encoding, for every string. */
  lemma {:induction false} DecodeEncode(s: string)
    ensures Decode(Encode(s)) == Some(s)
  {
    if s != [] {
      DecodeEncodeChar(s[0], Encode(s[1..]));
      DecodeEncode(s[1..]);
      assert [s[0]] + s[1..] == s;
    }
  }
}
