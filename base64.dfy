/**
 * Base 64 encoding as RFC 4648 defines it: the standard alphabet with `=`
 * padding (section 4, what `btoa` produces from a byte string) and the URL- and
 * filename-safe alphabet (section 5), here without padding, which is the
 * encoding section 4.2 of RFC 7636 prescribes for the S256 code challenge.
 */
module Base64 {
  import opened Wrappers

  type byte = x: int | 0 <= x < 256

  /** A 6-bit group: the index of one character in a base 64 alphabet. */
  type sextet = x: int | 0 <= x < 64

  /**
   * The 6-bit groups of `data`: four for every full 3-byte group and, for a
   * final group of 1 or 2 bytes, 2 or 3 groups whose missing bits are zero.
   */
  function Sextets(data: seq<byte>): (s: seq<sextet>)
    ensures |s| == 4 * (|data| / 3) + (if |data| % 3 == 0 then 0 else |data| % 3 + 1)
    decreases |data|
  {
    if |data| == 0 then []
    else if |data| == 1 then [data[0] / 4, (data[0] % 4) * 16]
    else if |data| == 2 then [data[0] / 4, (data[0] % 4) * 16 + data[1] / 16, (data[1] % 16) * 4]
    else
      [data[0] / 4, (data[0] % 4) * 16 + data[1] / 16, (data[1] % 16) * 4 + data[2] / 64, data[2] % 64]
      + Sextets(data[3..])
  }

  /** The standard alphabet of RFC 4648, Table 1. */
  function StdChar(v: sextet): char {
    if v < 26 then ('A' as int + v) as char
    else if v < 52 then ('a' as int + v - 26) as char
    else if v < 62 then ('0' as int + v - 52) as char
    else if v == 62 then '+'
    else '/'
  }

  /** The URL- and filename-safe alphabet of RFC 4648, Table 2. */
  function UrlChar(v: sextet): char {
    if v < 62 then StdChar(v) else if v == 62 then '-' else '_'
  }

  /** A character of the URL-safe alphabet. */
  predicate IsUrlSafeChar(c: char) {
    'A' <= c <= 'Z' || 'a' <= c <= 'z' || '0' <= c <= '9' || c == '-' || c == '_'
  }

  /** The `=` characters that complete the last 4-character group. */
  function Padding(length: nat): (pad: string)
    ensures |pad| == (3 - length % 3) % 3
    ensures forall i :: 0 <= i < |pad| ==> pad[i] == '='
  {
    if length % 3 == 1 then "==" else if length % 3 == 2 then "=" else ""
  }

  /** Section 4 of RFC 4648: `btoa(String.fromCharCode(...data))`. */
  function Encode(data: seq<byte>): (text: string)
  {
    var s := Sextets(data);
    seq(|s|, i requires 0 <= i < |s| => StdChar(s[i])) + Padding(|data|)
  }

  /** Section 5 of RFC 4648 without padding. */
  function EncodeUrl(data: seq<byte>): (text: string)
    ensures forall i :: 0 <= i < |text| ==> IsUrlSafeChar(text[i])
  {
    var s := Sextets(data);
    seq(|s|, i requires 0 <= i < |s| => UrlChar(s[i]))
  }

  /** The standard encoding of `n` bytes has 4 characters per started 3-byte group. */
  lemma EncodeLength(data: seq<byte>)
    ensures |Encode(data)| == 4 * ((|data| + 2) / 3)
    ensures |EncodeUrl(data)| == |Encode(data)| - (3 - |data| % 3) % 3
  {
  }

  // ---------------------------------------------------------------------------
  // Decoding, the left inverse of EncodeUrl
  // ---------------------------------------------------------------------------

  /** The index of a URL-safe character, if it is one. */
  function UrlValue(c: char): (v: Option<sextet>)
    ensures v.Some? <==> IsUrlSafeChar(c)
  {
    if 'A' <= c <= 'Z' then Some(c as int - 'A' as int)
    else if 'a' <= c <= 'z' then Some(c as int - 'a' as int + 26)
    else if '0' <= c <= '9' then Some(c as int - '0' as int + 52)
    else if c == '-' then Some(62)
    else if c == '_' then Some(63)
    else None
  }

  function UrlValues(text: string): Option<seq<sextet>>
    decreases |text|
  {
    if |text| == 0 then Some([])
    else match (UrlValue(text[0]), UrlValues(text[1..]))
      case (Some(v), Some(rest)) => Some([v] + rest)
      case _ => None
  }

  /** Regroups 6-bit groups into bytes; a dangling single group is malformed. */
  function BytesOf(s: seq<sextet>): Option<seq<byte>>
    decreases |s|
  {
    if |s| == 0 then Some([])
    else if |s| == 1 then None
    else
      var b0: byte := s[0] as int * 4 + s[1] as int / 16;
      if |s| == 2 then Some([b0])
      else
        var b1: byte := (s[1] as int % 16) * 16 + s[2] as int / 4;
        if |s| == 3 then Some([b0, b1])
        else
          var b2: byte := (s[2] as int % 4) * 64 + s[3] as int;
          match BytesOf(s[4..])
          case None => None
          case Some(rest) => Some([b0, b1, b2] + rest)
  }

  /** Unpadded base64url text back to bytes; `None` for text that is not such an encoding. */
  function DecodeUrl(text: string): Option<seq<byte>> {
    match UrlValues(text)
    case None => None
    case Some(s) => BytesOf(s)
  }

  lemma UrlValueOfUrlChar(v: sextet)
    ensures UrlValue(UrlChar(v)) == Some(v)
  {
  }

  lemma {:induction false} UrlValuesOfEncoding(s: seq<sextet>)
    ensures UrlValues(seq(|s|, i requires 0 <= i < |s| => UrlChar(s[i]))) == Some(s)
    decreases |s|
  {
    var text := seq(|s|, i requires 0 <= i < |s| => UrlChar(s[i]));
    if |s| > 0 {
      UrlValueOfUrlChar(s[0]);
      assert text[1..] == seq(|s[1..]|, i requires 0 <= i < |s[1..]| => UrlChar(s[1..][i]));
      UrlValuesOfEncoding(s[1..]);
      assert [s[0]] + s[1..] == s;
    }
  }

  /** Splitting a byte into its high 6 bits and low 2 bits, and so on, loses nothing. */
  lemma RegroupBytes(a: byte, b: byte, c: byte)
    ensures (a / 4) * 4 + ((a % 4) * 16 + b / 16) / 16 == a
    ensures (((a % 4) * 16 + b / 16) % 16) * 16 + ((b % 16) * 4 + c / 64) / 4 == b
    ensures (((b % 16) * 4 + c / 64) % 4) * 64 + c % 64 == c
  {
    assert ((a % 4) * 16 + b / 16) / 16 == a % 4;
    assert ((a % 4) * 16 + b / 16) % 16 == b / 16;
    assert ((b % 16) * 4 + c / 64) / 4 == b % 16;
    assert ((b % 16) * 4 + c / 64) % 4 == c / 64;
  }

  /** A final single byte survives its two groups. */
  lemma BytesOfOne(a: byte)
    ensures BytesOf(Sextets([a])) == Some([a])
  {
    var s: seq<sextet> := [a / 4, (a % 4) * 16];
    assert Sextets([a]) == s;
    assert (a / 4) * 4 + a % 4 == a;
  }

  /** A final pair of bytes survives its three groups. */
  lemma BytesOfTwo(a: byte, b: byte)
    ensures BytesOf(Sextets([a, b])) == Some([a, b])
  {
    RegroupBytes(a, b, 0);
    var s: seq<sextet> := [a / 4, (a % 4) * 16 + b / 16, (b % 16) * 4];
    assert Sextets([a, b]) == s;
    assert ((b % 16) * 4) / 4 == b % 16;
    assert (b / 16) * 16 + b % 16 == b;
  }

  /** A full group of three bytes survives its four groups, whatever follows. */
  lemma BytesOfGroup(a: byte, b: byte, c: byte, rest: seq<sextet>, tail: seq<byte>)
    requires BytesOf(rest) == Some(tail)
    ensures BytesOf([a / 4, (a % 4) * 16 + b / 16, (b % 16) * 4 + c / 64, c % 64] + rest) == Some([a, b, c] + tail)
  {
    RegroupBytes(a, b, c);
    var s0: sextet, s1: sextet, s2: sextet, s3: sextet := a / 4, (a % 4) * 16 + b / 16, (b % 16) * 4 + c / 64, c % 64;
    assert s0 as int * 4 + s1 as int / 16 == a;
    assert (s1 as int % 16) * 16 + s2 as int / 4 == b;
    assert (s2 as int % 4) * 64 + s3 as int == c;
    var s := [s0, s1, s2, s3] + rest;
    assert s[0] == s0 && s[1] == s1 && s[2] == s2 && s[3] == s3;
    assert s[4..] == rest;
  }

  lemma {:induction false} BytesOfSextets(data: seq<byte>)
    ensures BytesOf(Sextets(data)) == Some(data)
    decreases |data|
  {
    if |data| == 1 {
      assert data == [data[0]];
      BytesOfOne(data[0]);
    } else if |data| == 2 {
      assert data == [data[0], data[1]];
      BytesOfTwo(data[0], data[1]);
    } else if |data| >= 3 {
      var a, b, c, tail := data[0], data[1], data[2], data[3..];
      assert Sextets(data) == [a / 4, (a % 4) * 16 + b / 16, (b % 16) * 4 + c / 64, c % 64] + Sextets(tail);
      BytesOfSextets(tail);
      BytesOfGroup(a, b, c, Sextets(tail), tail);
      assert data == [a, b, c] + tail;
    }
  }

  /** Decoding undoes the URL-safe encoding. */
  lemma DecodeEncodeUrl(data: seq<byte>)
    ensures DecodeUrl(EncodeUrl(data)) == Some(data)
  {
    UrlValuesOfEncoding(Sextets(data));
    BytesOfSextets(data);
  }
}
