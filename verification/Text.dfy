/**
 Text as the server's strings.TrimSpace, the agent's str::trim and the schema's CHECKs see it.
 A string is a sequence of Unicode scalar values; its Go length is that of its UTF-8 encoding.
 */
module Text {
  // White space of Go's unicode.IsSpace, which is also that of Rust's char::is_whitespace.
  predicate IsSpace(c: char) {
    || '\t' <= c <= '\r' || c == ' ' || c == '\U{85}' || c == '\U{A0}' || c == '\U{1680}'
    || '\U{2000}' <= c <= '\U{200A}' || c == '\U{2028}' || c == '\U{2029}' || c == '\U{202F}'
    || c == '\U{205F}' || c == '\U{3000}'
  }

  // The 25 code points with the property White_Space.
  const WHITE_SPACE := [9, 10, 11, 12, 13, 32, 0x85, 0xA0, 0x1680, 0x2000, 0x2001, 0x2002, 0x2003, 0x2004, 0x2005, 0x2006,
                        0x2007, 0x2008, 0x2009, 0x200A, 0x2028, 0x2029, 0x202F, 0x205F, 0x3000]

  lemma SpacesAreWhiteSpace(c: char)
    ensures IsSpace(c) <==> c as int in WHITE_SPACE
  {
    assert WHITE_SPACE == [9, 10, 11, 12, 13, 32, 0x85, 0xA0, 0x1680] +
                          [0x2000, 0x2001, 0x2002, 0x2003, 0x2004, 0x2005, 0x2006, 0x2007, 0x2008, 0x2009, 0x200A] +
                          [0x2028, 0x2029, 0x202F, 0x205F, 0x3000];
  }

  // SQL trim() takes off spaces only.
  datatype Blanks = UnicodeSpace | SpaceOnly

  predicate Blank(c: char, blanks: Blanks) {
    if blanks == SpaceOnly then c == ' ' else IsSpace(c)
  }

  // The first position from `i` on that is not blank.
  function SkipBlanks(s: string, blanks: Blanks, i: nat): (lo: nat)
    requires i <= |s|
    ensures i <= lo <= |s|
    decreases |s| - i
  {
    if i < |s| && Blank(s[i], blanks) then SkipBlanks(s, blanks, i + 1) else i
  }

  // The end of the text before `j` when the blanks between `lo` and `j` are left out.
  function DropBlanks(s: string, blanks: Blanks, lo: nat, j: nat): (hi: nat)
    requires lo <= j <= |s|
    ensures lo <= hi <= j
    decreases j
  {
    if lo < j && Blank(s[j - 1], blanks) then DropBlanks(s, blanks, lo, j - 1) else j
  }

  function Trim(s: string, blanks: Blanks): string {
    var lo := SkipBlanks(s, blanks, 0);
    s[lo..DropBlanks(s, blanks, lo, |s|)]
  }

  function TrimSpace(s: string): string {
    Trim(s, UnicodeSpace)
  }

  function SqlTrim(s: string): string {
    Trim(s, SpaceOnly)
  }

  lemma {:induction false} SkipBlanksStops(s: string, blanks: Blanks, i: nat)
    requires i <= |s|
    ensures var lo := SkipBlanks(s, blanks, i);
            (lo < |s| ==> !Blank(s[lo], blanks)) && forall k :: i <= k < lo ==> Blank(s[k], blanks)
    decreases |s| - i
  {
    if i < |s| && Blank(s[i], blanks) {
      SkipBlanksStops(s, blanks, i + 1);
    }
  }

  lemma {:induction false} DropBlanksStops(s: string, blanks: Blanks, lo: nat, j: nat)
    requires lo <= j <= |s|
    ensures var hi := DropBlanks(s, blanks, lo, j);
            (lo < hi ==> !Blank(s[hi - 1], blanks)) && forall k :: hi <= k < j ==> Blank(s[k], blanks)
    decreases j
  {
    if lo < j && Blank(s[j - 1], blanks) {
      DropBlanksStops(s, blanks, lo, j - 1);
    }
  }

  // Trimming takes the blanks off both ends and nothing else.
  lemma TrimRemovesExactlyTheBlankEnds(s: string, blanks: Blanks) returns (lo: nat, hi: nat)
    ensures lo <= hi <= |s| && Trim(s, blanks) == s[lo..hi]
    ensures forall k :: 0 <= k < lo ==> Blank(s[k], blanks)
    ensures forall k :: hi <= k < |s| ==> Blank(s[k], blanks)
    ensures lo < hi ==> !Blank(s[lo], blanks) && !Blank(s[hi - 1], blanks)
  {
    lo := SkipBlanks(s, blanks, 0);
    hi := DropBlanks(s, blanks, lo, |s|);
    SkipBlanksStops(s, blanks, 0);
    DropBlanksStops(s, blanks, lo, |s|);
  }

  // strings.TrimSpace takes white space off both ends, leaves none there, and takes nothing else.
  lemma TrimSpaceIsExact(s: string) returns (a: string, b: string)
    ensures s == a + TrimSpace(s) + b
    ensures (forall k :: 0 <= k < |a| ==> IsSpace(a[k])) && (forall k :: 0 <= k < |b| ==> IsSpace(b[k]))
    ensures TrimSpace(s) != "" ==> !IsSpace(TrimSpace(s)[0]) && !IsSpace(TrimSpace(s)[|TrimSpace(s)| - 1])
  {
    var lo, hi := TrimRemovesExactlyTheBlankEnds(s, UnicodeSpace);
    a, b := s[..lo], s[hi..];
  }

  // trim() does the same with spaces.
  lemma SqlTrimIsExact(s: string) returns (a: string, b: string)
    ensures s == a + SqlTrim(s) + b && (forall k :: 0 <= k < |a| ==> a[k] == ' ') && (forall k :: 0 <= k < |b| ==> b[k] == ' ')
    ensures SqlTrim(s) != "" ==> SqlTrim(s)[0] != ' ' && SqlTrim(s)[|SqlTrim(s)| - 1] != ' '
  {
    var lo, hi := TrimRemovesExactlyTheBlankEnds(s, SpaceOnly);
    a, b := s[..lo], s[hi..];
  }

  lemma NothingToTrim(s: string, blanks: Blanks)
    requires s != "" ==> !Blank(s[0], blanks) && !Blank(s[|s| - 1], blanks)
    ensures Trim(s, blanks) == s
  {
  }

  lemma TrimmedIsFixed(s: string)
    ensures TrimSpace(TrimSpace(s)) == TrimSpace(s)
    ensures SqlTrim(TrimSpace(s)) == TrimSpace(s)
  {
    var lo, hi := TrimRemovesExactlyTheBlankEnds(s, UnicodeSpace);
    NothingToTrim(TrimSpace(s), UnicodeSpace);
    NothingToTrim(TrimSpace(s), SpaceOnly);
  }

  // Section 3 of RFC 3629.
  function Utf8Width(c: char): (n: nat)
    ensures 1 <= n <= 4
  {
    if c < '\U{80}' then 1 else if c < '\U{800}' then 2 else if c < '\U{10000}' then 3 else 4
  }

  // len(s) in Go; length(s) in SQL is |s|.
  function ByteLength(s: string): (n: nat)
    ensures |s| <= n <= 4 * |s|
  {
    if s == "" then 0 else Utf8Width(s[0]) + ByteLength(s[1..])
  }

  // The octets of a character, section 3 of RFC 3629: six bits in each that follows the first.
  function Utf8(c: char): seq<int> {
    var n := c as int;
    if n < 0x80 then [n]
    else if n < 0x800 then [0xC0 + n / 64, 0x80 + n % 64]
    else if n < 0x10000 then [0xE0 + n / 64 / 64, 0x80 + n / 64 % 64, 0x80 + n % 64]
    else [0xF0 + n / 64 / 64 / 64, 0x80 + n / 64 / 64 % 64, 0x80 + n / 64 % 64, 0x80 + n % 64]
  }

  function Utf8Text(s: string): seq<int> {
    if s == "" then [] else Utf8(s[0]) + Utf8Text(s[1..])
  }

  // The number in the octets: what the first leaves free, and six bits of each that follows.
  function CodePoint(octets: seq<int>): int
    requires 1 <= |octets| <= 4
  {
    match |octets|
    case 1 => octets[0]
    case 2 => (octets[0] - 0xC0) * 64 + (octets[1] - 0x80)
    case 3 => ((octets[0] - 0xE0) * 64 + (octets[1] - 0x80)) * 64 + (octets[2] - 0x80)
    case _ => (((octets[0] - 0xF0) * 64 + (octets[1] - 0x80)) * 64 + (octets[2] - 0x80)) * 64 + (octets[3] - 0x80)
  }

  // A character takes as many bytes as its encoding has octets, and these give the character back.
  lemma WidthIsThatOfTheEncoding(c: char)
    ensures |Utf8(c)| == Utf8Width(c)
    ensures forall k :: 0 <= k < |Utf8(c)| ==> 0 <= Utf8(c)[k] < 256 && (k > 0 ==> 0x80 <= Utf8(c)[k] < 0xC0)
    ensures CodePoint(Utf8(c)) == c as int
  {
    var n := c as int;
    var a := n / 64;
    var b := a / 64;
    assert n == a * 64 + n % 64 && a == b * 64 + a % 64 && b == b / 64 * 64 + b % 64;
  }

  lemma {:induction false} ByteLengthCountsOctets(s: string)
    ensures ByteLength(s) == |Utf8Text(s)|
  {
    if s != "" {
      WidthIsThatOfTheEncoding(s[0]);
      ByteLengthCountsOctets(s[1..]);
    }
  }
}
