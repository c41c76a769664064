/** Unpadded base64url, section 5 of RFC 4648, for any number of bytes. */
module Base64Url {
  import opened Basics
  import opened Text

  type Byte = b: nat | b < 256
  type Sextet = d: nat | d < 64

  // A-Z, a-z, 0-9, minus, underscore.
  function Digit(d: Sextet): char {
    if d < 26 then 'A' + d as char
    else if d < 52 then 'a' + (d - 26) as char
    else if d < 62 then '0' + (d - 52) as char
    else if d == 62 then '-' else '_'
  }

  function Value(c: char): Option<Sextet> {
    if 'A' <= c <= 'Z' then Some(c as int - 'A' as int)
    else if 'a' <= c <= 'z' then Some(c as int - 'a' as int + 26)
    else if '0' <= c <= '9' then Some(c as int - '0' as int + 52)
    else if c == '-' then Some(62) else if c == '_' then Some(63) else None
  }

  // The four sextets of three bytes, most significant first.
  function Sextets(x: Byte, y: Byte, z: Byte): (Sextet, Sextet, Sextet, Sextet) {
    (x / 4, x % 4 * 16 + y / 16, y % 16 * 4 + z / 64, z % 64)
  }

  function Bytes(a: Sextet, b: Sextet, c: Sextet, d: Sextet): (Byte, Byte, Byte) {
    (a * 4 + b / 16, b % 16 * 16 + c / 4, c % 4 * 64 + d)
  }

  // A short final group is completed with zero bits and written with as few digits as it needs.
  function Encode(bytes: seq<Byte>): string {
    if |bytes| == 0 then ""
    else if |bytes| == 1 then
      var g := Sextets(bytes[0], 0, 0);
      [Digit(g.0), Digit(g.1)]
    else if |bytes| == 2 then
      var g := Sextets(bytes[0], bytes[1], 0);
      [Digit(g.0), Digit(g.1), Digit(g.2)]
    else
      var g := Sextets(bytes[0], bytes[1], bytes[2]);
      [Digit(g.0), Digit(g.1), Digit(g.2), Digit(g.3)] + Encode(bytes[3..])
  }

  function Values(s: string): Option<seq<Sextet>> {
    if s == "" then Some([])
    else
      var first, rest := Value(s[0]), Values(s[1..]);
      if first.None? || rest.None? then None else Some([first.value] + rest.value)
  }

  function Regroup(v: seq<Sextet>): Option<seq<Byte>> {
    if |v| == 0 then Some([])
    else if |v| == 1 then None
    else if |v| == 2 then Some([Bytes(v[0], v[1], 0, 0).0])
    else if |v| == 3 then
      var g := Bytes(v[0], v[1], v[2], 0);
      Some([g.0, g.1])
    else
      var g, rest := Bytes(v[0], v[1], v[2], v[3]), Regroup(v[4..]);
      if rest.None? then None else Some([g.0, g.1, g.2] + rest.value)
  }

  function Decode(s: string): Option<seq<Byte>> {
    if Values(s).None? then None else Regroup(Values(s).value)
  }

  lemma DigitRoundTrip(d: Sextet)
    ensures Value(Digit(d)) == Some(d) && !IsSpace(Digit(d))
  {
  }

  lemma {:induction false} EncodedLength(bytes: seq<Byte>)
    ensures |Encode(bytes)| == (4 * |bytes| + 2) / 3
    ensures forall c :: c in Encode(bytes) ==> Value(c).Some? && !IsSpace(c)
  {
    forall d: Sextet ensures Value(Digit(d)).Some? && !IsSpace(Digit(d)) { DigitRoundTrip(d); }
    if |bytes| >= 3 {
      EncodedLength(bytes[3..]);
    }
  }

  lemma GroupRoundTrip(x: Byte, y: Byte, z: Byte)
    ensures var g := Sextets(x, y, z); Bytes(g.0, g.1, g.2, g.3) == (x, y, z)
  {
    var a, b, c, d, e, f := x / 4, x % 4, y / 16, y % 16, z / 64, z % 64;
    assert x == 4 * a + b && y == 16 * c + d && z == 64 * e + f;
    assert (b * 16 + c) / 16 == b && (b * 16 + c) % 16 == c;
    assert (d * 4 + e) / 4 == d && (d * 4 + e) % 4 == e;
  }

  lemma DigitsDecode(a: Sextet, b: Sextet, rest: string)
    requires Values(rest).Some?
    ensures Values([Digit(a), Digit(b)] + rest) == Some([a, b] + Values(rest).value)
  {
    DigitRoundTrip(a);
    DigitRoundTrip(b);
    var s := [Digit(a), Digit(b)] + rest;
    assert s[1..] == [Digit(b)] + rest && s[1..][1..] == rest;
    assert [a, b] + Values(rest).value == [a] + ([b] + Values(rest).value);
  }

  lemma FullGroupDecodes(x: Byte, y: Byte, z: Byte, text: string, bytes: seq<Byte>)
    requires Decode(text) == Some(bytes)
    ensures var g := Sextets(x, y, z);
            Decode([Digit(g.0), Digit(g.1), Digit(g.2), Digit(g.3)] + text) == Some([x, y, z] + bytes)
  {
    var g, v := Sextets(x, y, z), Values(text).value;
    GroupRoundTrip(x, y, z);
    DigitsDecode(g.2, g.3, text);
    DigitsDecode(g.0, g.1, [Digit(g.2), Digit(g.3)] + text);
    assert [Digit(g.0), Digit(g.1), Digit(g.2), Digit(g.3)] + text ==
           [Digit(g.0), Digit(g.1)] + ([Digit(g.2), Digit(g.3)] + text);
    var w := [g.0, g.1] + ([g.2, g.3] + v);
    assert w[4..] == v;
  }

  lemma TwoBytesDecode(x: Byte, y: Byte)
    ensures Decode(Encode([x, y])) == Some([x, y])
  {
    var g := Sextets(x, y, 0);
    GroupRoundTrip(x, y, 0);
    DigitRoundTrip(g.2);
    DigitsDecode(g.0, g.1, [Digit(g.2)]);
    assert Encode([x, y]) == [Digit(g.0), Digit(g.1)] + [Digit(g.2)];
    assert [Digit(g.2)][1..] == "";
    assert Values([Digit(g.2)]) == Some([g.2] + []);
    assert [g.0, g.1] + [g.2] == [g.0, g.1, g.2];
    assert g.3 == 0;
  }

  lemma OneByteDecodes(x: Byte)
    ensures Decode(Encode([x])) == Some([x])
  {
    var g := Sextets(x, 0, 0);
    GroupRoundTrip(x, 0, 0);
    DigitsDecode(g.0, g.1, "");
    assert Encode([x]) == [Digit(g.0), Digit(g.1)] + "";
    assert [g.0, g.1] + [] == [g.0, g.1];
  }

  lemma {:induction false} DecodeEncode(bytes: seq<Byte>)
    ensures Decode(Encode(bytes)) == Some(bytes)
  {
    if |bytes| == 1 {
      OneByteDecodes(bytes[0]);
      assert bytes == [bytes[0]];
    } else if |bytes| == 2 {
      TwoBytesDecode(bytes[0], bytes[1]);
      assert bytes == [bytes[0], bytes[1]];
    } else if |bytes| >= 3 {
      DecodeEncode(bytes[3..]);
      FullGroupDecodes(bytes[0], bytes[1], bytes[2], Encode(bytes[3..]), bytes[3..]);
      assert bytes == [bytes[0], bytes[1], bytes[2]] + bytes[3..];
    }
  }

  // Different bytes give different text.
  lemma EncodeIsInjective(a: seq<Byte>, b: seq<Byte>)
    requires Encode(a) == Encode(b)
    ensures a == b
  {
    DecodeEncode(a);
    DecodeEncode(b);
  }

  // A 32-byte credential is 43 characters and never blank.
  lemma SecretShape(bytes: seq<Byte>)
    requires |bytes| == 32
    ensures |Encode(bytes)| == 43 && TrimSpace(Encode(bytes)) == Encode(bytes) != ""
  {
    EncodedLength(bytes);
    var s := Encode(bytes);
    assert s[0] in s && s[42] in s;
  }

  /* ---- What the text is ---- */

  // The table of section 5: four runs of consecutive characters, given by their ends, and two more.
  lemma DigitsAreTheTable(d: Sextet)
    ensures Digit(0) == 'A' && Digit(25) == 'Z' && Digit(26) == 'a' && Digit(51) == 'z' && Digit(52) == '0' && Digit(61) == '9'
    ensures d < 61 && d != 25 && d != 51 ==> Digit(d + 1) as int == Digit(d) as int + 1
    ensures Digit(62) == '-' && Digit(63) == '_'
  {
  }

  // The byte at `i`, zero after the end.
  function At(bytes: seq<Byte>, i: nat): Byte {
    if i < |bytes| then bytes[i] else 0
  }

  // The value of the digit at `j`, zero after the end.
  function DigitAt(s: string, j: nat): Sextet {
    if j < |s| && Value(s[j]).Some? then Value(s[j]).value else 0
  }

  function ByteNumber(bytes: seq<Byte>, i: nat): nat {
    (At(bytes, i) * 256 + At(bytes, i + 1)) * 256 + At(bytes, i + 2)
  }

  function DigitNumber(s: string, j: nat): nat {
    ((DigitAt(s, j) * 64 + DigitAt(s, j + 1)) * 64 + DigitAt(s, j + 2)) * 64 + DigitAt(s, j + 3)
  }

  lemma SextetsAreTheSameNumber(x: Byte, y: Byte, z: Byte)
    ensures var g := Sextets(x, y, z); (x * 256 + y) * 256 + z == ((g.0 * 64 + g.1) * 64 + g.2) * 64 + g.3
  {
    assert x == 4 * (x / 4) + x % 4 && y == 16 * (y / 16) + y % 16 && z == 64 * (z / 64) + z % 64;
  }

  lemma FirstCharacters(bytes: seq<Byte>)
    ensures var s, g := Encode(bytes), Sextets(At(bytes, 0), At(bytes, 1), At(bytes, 2));
            DigitAt(s, 0) == g.0 && DigitAt(s, 1) == g.1 && DigitAt(s, 2) == g.2 && DigitAt(s, 3) == g.3
  {
    var g := Sextets(At(bytes, 0), At(bytes, 1), At(bytes, 2));
    DigitRoundTrip(g.0);
    DigitRoundTrip(g.1);
    DigitRoundTrip(g.2);
    DigitRoundTrip(g.3);
  }

  lemma LaterCharacters(bytes: seq<Byte>, j: nat)
    requires |bytes| >= 3
    ensures DigitAt(Encode(bytes), j + 4) == DigitAt(Encode(bytes[3..]), j) && At(bytes, j + 3) == At(bytes[3..], j)
  {
  }

  lemma LaterBytes(bytes: seq<Byte>, i: nat)
    requires |bytes| >= 3
    ensures ByteNumber(bytes, i + 3) == ByteNumber(bytes[3..], i)
  {
    LaterCharacters(bytes, i);
    LaterCharacters(bytes, i + 1);
    LaterCharacters(bytes, i + 2);
  }

  lemma LaterDigits(bytes: seq<Byte>, j: nat)
    requires |bytes| >= 3
    ensures DigitNumber(Encode(bytes), j + 4) == DigitNumber(Encode(bytes[3..]), j)
  {
    LaterCharacters(bytes, j);
    LaterCharacters(bytes, j + 1);
    LaterCharacters(bytes, j + 2);
    LaterCharacters(bytes, j + 3);
  }

  lemma NumbersOf(bytes: seq<Byte>, s: string, x: Byte, y: Byte, z: Byte, a: Sextet, b: Sextet, c: Sextet, d: Sextet)
    requires At(bytes, 0) == x && At(bytes, 1) == y && At(bytes, 2) == z
    requires DigitAt(s, 0) == a && DigitAt(s, 1) == b && DigitAt(s, 2) == c && DigitAt(s, 3) == d
    requires (x * 256 + y) * 256 + z == ((a * 64 + b) * 64 + c) * 64 + d
    ensures ByteNumber(bytes, 0) == DigitNumber(s, 0)
  {
  }

  lemma FirstGroup(bytes: seq<Byte>)
    ensures ByteNumber(bytes, 0) == DigitNumber(Encode(bytes), 0)
  {
    var x, y, z := At(bytes, 0), At(bytes, 1), At(bytes, 2);
    var g := Sextets(x, y, z);
    FirstCharacters(bytes);
    SextetsAreTheSameNumber(x, y, z);
    NumbersOf(bytes, Encode(bytes), x, y, z, g.0, g.1, g.2, g.3);
  }

  lemma NoLaterGroup(bytes: seq<Byte>, k: nat)
    requires |bytes| < 3 && k > 0
    ensures ByteNumber(bytes, 3 * k) == 0 && DigitNumber(Encode(bytes), 4 * k) == 0
  {
    assert |Encode(bytes)| <= 4 && 3 <= 3 * k && 4 <= 4 * k;
  }

  // Whatever the bytes: the k-th group of four digits is the same number as the k-th group of three
  // bytes, each completed with zeros.
  lemma {:induction false} EncodeWritesTheNumbers(bytes: seq<Byte>, k: nat)
    ensures ByteNumber(bytes, 3 * k) == DigitNumber(Encode(bytes), 4 * k)
  {
    if k == 0 {
      FirstGroup(bytes);
    } else if |bytes| < 3 {
      NoLaterGroup(bytes, k);
    } else {
      EncodeWritesTheNumbers(bytes[3..], k - 1);
      LaterBytes(bytes, 3 * (k - 1));
      LaterDigits(bytes, 4 * (k - 1));
      assert 3 * (k - 1) + 3 == 3 * k && 4 * (k - 1) + 4 == 4 * k;
    }
  }
}
