/** Base64 with the standard alphabet and `=` padding (section 4 of RFC 4648),
    as `btoa` produces it from a string of Latin-1 characters. */
module Base64 {
  import opened Wrappers

  type Byte = x: int | 0 <= x < 256
  type Sextet = x: int | 0 <= x < 64

  /** The character for a 6-bit value: `A`-`Z`, `a`-`z`, `0`-`9`, `+`, `/`. */
  function CharOf(v: Sextet): char {
    if v < 26 then ('A' as int + v) as char
    else if v < 52 then ('a' as int + v - 26) as char
    else if v < 62 then ('0' as int + v - 52) as char
    else if v == 62 then '+'
    else '/'
  }

  /** The 6-bit value of an alphabet character, if it is one. */
  function ValueOf(c: char): (r: Option<Sextet>)
    ensures r.Some? ==> CharOf(r.value) == c
  {
    if 'A' <= c <= 'Z' then Some(c as int - 'A' as int)
    else if 'a' <= c <= 'z' then Some(c as int - 'a' as int + 26)
    else if '0' <= c <= '9' then Some(c as int - '0' as int + 52)
    else if c == '+' then Some(62)
    else if c == '/' then Some(63)
    else None
  }

  lemma ValueOfCharOf(v: Sextet)
    ensures ValueOf(CharOf(v)) == Some(v)
  {
  }

  /** Three bytes as four characters. */
  function EncodeTriple(a: Byte, b: Byte, c: Byte): string {
    [CharOf(a / 4), CharOf((a % 4) * 16 + b / 16), CharOf((b % 16) * 4 + c / 64), CharOf(c % 64)]
  }

  /** Two bytes as three characters and one `=`. */
  function EncodePair(a: Byte, b: Byte): string {
    [CharOf(a / 4), CharOf((a % 4) * 16 + b / 16), CharOf((b % 16) * 4), '=']
  }

  /** One byte as two characters and two `=`. */
  function EncodeSingle(a: Byte): string {
    [CharOf(a / 4), CharOf((a % 4) * 16), '=', '=']
  }

  /** `btoa` on bytes: groups of three, the last group padded with `=`. */
  function Encode(bytes: seq<Byte>): (r: string)
    ensures |r| % 4 == 0
  {
    if |bytes| == 0 then ""
    else if |bytes| == 1 then EncodeSingle(bytes[0])
    else if |bytes| == 2 then EncodePair(bytes[0], bytes[1])
    else
      EncodeTriple(bytes[0], bytes[1], bytes[2]) + Encode(bytes[3..])
  }

  /** Decoding of four characters, the last one or two of which may be
      padding in the final group. */
  function DecodeQuad(q: string, last: bool): Option<seq<Byte>>
    requires |q| == 4
  {
    var v0, v1, v2, v3 := ValueOf(q[0]), ValueOf(q[1]), ValueOf(q[2]), ValueOf(q[3]);
    if v0.None? || v1.None? then None
    else
      var a := v0.value * 4 + v1.value / 16;
      if last && q[2] == '=' && q[3] == '=' then
        Some([a])
      else if v2.None? then None
      else
        var b := (v1.value % 16) * 16 + v2.value / 4;
        if last && q[3] == '=' then Some([a, b])
        else if v3.None? then None
        else Some([a, b, (v2.value % 4) * 64 + v3.value])
  }

  /** Inverse of `Encode` on well-formed input. */
  function Decode(s: string): Option<seq<Byte>>
    decreases |s|
  {
    if s == "" then Some([])
    else if |s| < 4 then None
    else
      match DecodeQuad(s[..4], |s| == 4)
      case None => None
      case Some(g) =>
        match Decode(s[4..])
        case None => None
        case Some(rest) => Some(g + rest)
  }

  lemma TripleRoundTrip(a: Byte, b: Byte, c: Byte)
    ensures DecodeQuad(EncodeTriple(a, b, c), false) == Some([a, b, c])
  {
    var v1, v2 := (a % 4) * 16 + b / 16, (b % 16) * 4 + c / 64;
    ValueOfCharOf(a / 4);
    ValueOfCharOf(v1);
    ValueOfCharOf(v2);
    ValueOfCharOf(c % 64);
    assert v1 / 16 == a % 4 && v1 % 16 == b / 16;
    assert v2 / 4 == b % 16 && v2 % 4 == c / 64;
  }

  lemma PairRoundTrip(a: Byte, b: Byte)
    ensures DecodeQuad(EncodePair(a, b), true) == Some([a, b])
  {
    var v1, v2 := (a % 4) * 16 + b / 16, (b % 16) * 4;
    ValueOfCharOf(a / 4);
    ValueOfCharOf(v1);
    ValueOfCharOf(v2);
    assert v1 / 16 == a % 4 && v1 % 16 == b / 16;
    assert v2 / 4 == b % 16;
  }

  lemma SingleRoundTrip(a: Byte)
    ensures DecodeQuad(EncodeSingle(a), true) == Some([a])
  {
    ValueOfCharOf(a / 4);
    ValueOfCharOf((a % 4) * 16);
  }

  lemma LastGroup(q: string, g: seq<Byte>)
    requires |q| == 4 && DecodeQuad(q, true) == Some(g)
    ensures Decode(q) == Some(g)
  {
    assert q[..4] == q && q[4..] == "";
    assert Decode(q[4..]) == Some([]);
    assert g + [] == g;
  }

  lemma SingleEncoding(a: Byte)
    ensures Decode(Encode([a])) == Some([a])
  {
    var e := EncodeSingle(a);
    assert Encode([a]) == e;
    SingleRoundTrip(a);
    LastGroup(e, [a]);
  }

  lemma PairEncoding(a: Byte, b: Byte)
    ensures Decode(Encode([a, b])) == Some([a, b])
  {
    var e := EncodePair(a, b);
    assert Encode([a, b]) == e;
    PairRoundTrip(a, b);
    LastGroup(e, [a, b]);
  }

  /** Decoding an encoding gives back the bytes: the credentials in an HTTP
      Basic header can be recovered exactly. */
  lemma {:induction false} DecodeEncode(bytes: seq<Byte>)
    ensures Decode(Encode(bytes)) == Some(bytes)
  {
    if |bytes| == 1 {
      SingleEncoding(bytes[0]);
      assert [bytes[0]] == bytes;
    } else if |bytes| == 2 {
      PairEncoding(bytes[0], bytes[1]);
      assert [bytes[0], bytes[1]] == bytes;
    } else if |bytes| > 2 {
      var g := [bytes[0], bytes[1], bytes[2]];
      var t := EncodeTriple(bytes[0], bytes[1], bytes[2]);
      var rest := Encode(bytes[3..]);
      TripleRoundTrip(bytes[0], bytes[1], bytes[2]);
      DecodeEncode(bytes[3..]);
      if rest == "" {
        TripleIsFull(bytes[0], bytes[1], bytes[2]);
      }
      PrependGroup(t, rest, g, bytes[3..]);
      assert bytes == g + bytes[3..];
    }
  }

  /** A full group decodes the same whether or not it is the last one. */
  lemma TripleIsFull(a: Byte, b: Byte, c: Byte)
    ensures DecodeQuad(EncodeTriple(a, b, c), true) == DecodeQuad(EncodeTriple(a, b, c), false)
  {
  }

  lemma PrependGroup(t: string, rest: string, g: seq<Byte>, r: seq<Byte>)
    requires |t| == 4 && DecodeQuad(t, rest == "") == Some(g) && Decode(rest) == Some(r)
    ensures Decode(t + rest) == Some(g + r)
  {
    assert (t + rest)[..4] == t;
    assert (t + rest)[4..] == rest;
  }
}
