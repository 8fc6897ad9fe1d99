/**
 * Base64 as Node's `Buffer` speaks it: `buf.toString("base64")` is the
 * encoding of section 4 of RFC 4648 (alphabet `A-Z a-z 0-9 + /`, `=` padding),
 * and `Buffer.from(s, "base64")` is a lenient decoder: it also reads the URL
 * and filename safe alphabet of section 5 (`-` for 62, `_` for 63), skips any
 * other character, stops at the first `=`, and turns a trailing group of two
 * or three characters into one or two bytes.
 */
module Base64 {
  import opened Wrappers

  newtype byte = b: int | 0 <= b < 256

  /** A six-bit value: what one base64 character stands for. */
  type Sextet = v: int | 0 <= v < 64

  /** The character the encoder writes for a six-bit value; the decoder reads it back. */
  function CharOf(v: Sextet): (c: char)
    ensures c != '=' && ValueOf(c) == Some(v)
  {
    if v < 26 then ('A' as int + v) as char
    else if v < 52 then ('a' as int + (v - 26)) as char
    else if v < 62 then ('0' as int + (v - 52)) as char
    else if v == 62 then '+'
    else '/'
  }

  /** The value of a character to the decoder; `None` for a character it skips (and for `=`). */
  function ValueOf(c: char): (r: Option<Sextet>)
    ensures r.Some? ==> c != '='
  {
    if 'A' <= c <= 'Z' then Some(c as int - 'A' as int)
    else if 'a' <= c <= 'z' then Some(c as int - 'a' as int + 26)
    else if '0' <= c <= '9' then Some(c as int - '0' as int + 52)
    else if c == '+' || c == '-' then Some(62)
    else if c == '/' || c == '_' then Some(63)
    else None
  }

  /**
   * The six-bit values the encoder writes for `bytes`: four for every three
   * bytes, then two for a last single byte or three for a last pair, the
   * missing low bits filled with zeros.
   */
  function ToSextets(bytes: seq<byte>): (v: seq<Sextet>)
    ensures |v| == |bytes| / 3 * 4 + (if |bytes| % 3 == 0 then 0 else |bytes| % 3 + 1)
  {
    if |bytes| == 0 then []
    else
      var x := bytes[0] as int;
      if |bytes| == 1 then [x / 4, (x % 4) * 16]
      else
        var y := bytes[1] as int;
        if |bytes| == 2 then [x / 4, (x % 4) * 16 + y / 16, (y % 16) * 4]
        else
          var z := bytes[2] as int;
          [x / 4, (x % 4) * 16 + y / 16, (y % 16) * 4 + z / 64, z % 64] + ToSextets(bytes[3..])
  }

  /** The characters for a sequence of six-bit values. */
  function Chars(v: seq<Sextet>): (s: string)
    ensures |s| == |v| && '=' !in s
  {
    if v == [] then [] else [CharOf(v[0])] + Chars(v[1..])
  }

  /** The `=` padding that brings the output to a multiple of four characters. */
  function Padding(n: nat): string {
    if n % 3 == 1 then "==" else if n % 3 == 2 then "=" else ""
  }

  /** `Buffer.from(bytes).toString("base64")`. */
  function Encode(bytes: seq<byte>): (s: string)
    ensures |s| == 4 * ((|bytes| + 2) / 3)
    ensures s == [] <==> bytes == []
  {
    Chars(ToSextets(bytes)) + Padding(|bytes|)
  }

  /** The values of the characters before the first `=`, with skipped characters left out. */
  function Sextets(s: string): seq<Sextet> {
    if s == [] || s[0] == '=' then []
    else match ValueOf(s[0])
      case None => Sextets(s[1..])
      case Some(v) => [v] + Sextets(s[1..])
  }

  /** Groups of four sextets make three bytes; a trailing two make one, a trailing three make two. */
  function DecodeSextets(v: seq<Sextet>): seq<byte> {
    if |v| < 2 then []
    else
      var a, b := v[0] as int, v[1] as int;
      if |v| == 2 then [(a * 4 + b / 16) as byte]
      else
        var c := v[2] as int;
        if |v| == 3 then [(a * 4 + b / 16) as byte, ((b % 16) * 16 + c / 4) as byte]
        else
          var d := v[3] as int;
          [(a * 4 + b / 16) as byte, ((b % 16) * 16 + c / 4) as byte, ((c % 4) * 64 + d) as byte]
          + DecodeSextets(v[4..])
  }

  /** `Buffer.from(s, "base64")`: defined for every string, never fails. */
  function Decode(s: string): seq<byte> {
    DecodeSextets(Sextets(s))
  }

  /** A character the encoder writes contributes its value and reading goes on. */
  lemma SextetsCons(v: Sextet, rest: string)
    ensures Sextets([CharOf(v)] + rest) == [v] + Sextets(rest)
  {
    assert ([CharOf(v)] + rest)[1..] == rest;
  }

  /** Reading the encoder's characters, up to its padding, gives back the values written. */
  lemma {:induction false} SextetsOfChars(v: seq<Sextet>, padding: string)
    requires padding == [] || padding[0] == '='
    ensures Sextets(Chars(v) + padding) == v
  {
    if v != [] {
      assert Chars(v) + padding == [CharOf(v[0])] + (Chars(v[1..]) + padding);
      SextetsCons(v[0], Chars(v[1..]) + padding);
      SextetsOfChars(v[1..], padding);
    }
  }

  /** The arithmetic of one full group: three bytes to four sextets and back. */
  lemma GroupRoundTrip(x: int, y: int, z: int)
    requires 0 <= x < 256 && 0 <= y < 256 && 0 <= z < 256
    ensures var s0, s1, s2, s3 := x / 4, (x % 4) * 16 + y / 16, (y % 16) * 4 + z / 64, z % 64;
            && s0 * 4 + s1 / 16 == x
            && (s1 % 16) * 16 + s2 / 4 == y
            && (s2 % 4) * 64 + s3 == z
  {
  }

  /** The four values the encoder writes for a full group decode to its three bytes, and decoding goes on after them. */
  lemma {:induction false} DecodeGroup(x: byte, y: byte, z: byte, rest: seq<Sextet>)
    ensures var a, b, c := x as int, y as int, z as int;
            DecodeSextets([a / 4, (a % 4) * 16 + b / 16, (b % 16) * 4 + c / 64, c % 64] + rest)
            == [x, y, z] + DecodeSextets(rest)
  {
    var a, b, c := x as int, y as int, z as int;
    var group: seq<Sextet> := [a / 4, (a % 4) * 16 + b / 16, (b % 16) * 4 + c / 64, c % 64];
    GroupRoundTrip(a, b, c);
    assert (group + rest)[4..] == rest;
  }

  /** A last single byte or pair decodes from the two or three values written for it. */
  lemma {:induction false} DecodeTail(bytes: seq<byte>)
    requires 1 <= |bytes| <= 2
    ensures DecodeSextets(ToSextets(bytes)) == bytes
  {
    if |bytes| == 1 {
      GroupRoundTrip(bytes[0] as int, 0, 0);
    } else {
      GroupRoundTrip(bytes[0] as int, bytes[1] as int, 0);
    }
  }

  /** Decoding the values the encoder wrote gives back the bytes. */
  lemma {:induction false} DecodeToSextets(bytes: seq<byte>)
    ensures DecodeSextets(ToSextets(bytes)) == bytes
    decreases |bytes|
  {
    if 1 <= |bytes| <= 2 {
      DecodeTail(bytes);
    } else if |bytes| >= 3 {
      var x, y, z := bytes[0] as int, bytes[1] as int, bytes[2] as int;
      var rest := ToSextets(bytes[3..]);
      assert ToSextets(bytes) == [x / 4, (x % 4) * 16 + y / 16, (y % 16) * 4 + z / 64, z % 64] + rest;
      DecodeGroup(bytes[0], bytes[1], bytes[2], rest);
      DecodeToSextets(bytes[3..]);
      assert bytes == [bytes[0], bytes[1], bytes[2]] + bytes[3..];
    }
  }

  /** Decoding undoes encoding, for every byte sequence, the empty one included. */
  lemma DecodeEncode(bytes: seq<byte>)
    ensures Decode(Encode(bytes)) == bytes
  {
    SextetsOfChars(ToSextets(bytes), Padding(|bytes|));
    DecodeToSextets(bytes);
  }
}
