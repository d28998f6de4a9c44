/** UUIDs and their canonical text, as github.com/google/uuid prints and reads them. */
module Uuids {
  import opened Base

  type Byte = x: int | 0 <= x < 256

  type Uuid = b: seq<Byte> | |b| == 16 witness seq(16, i => 0)

  /** Text without dots and line breaks. */
  predicate Plain(s: string) {
    forall i :: 0 <= i < |s| ==> s[i] != '.' && s[i] != '\r' && s[i] != '\n'
  }

  function HexDigit(n: nat): (c: char)
    requires n < 16
    ensures HexValue(c) == Some(n) && c != '-' && c != '.' && c != '\r' && c != '\n'
  {
    if n < 10 then ('0' as int + n) as char else ('a' as int + n - 10) as char
  }

  function HexValue(c: char): Option<nat> {
    if '0' <= c <= '9' then Some(c as int - '0' as int)
    else if 'a' <= c <= 'f' then Some(c as int - 'a' as int + 10)
    else if 'A' <= c <= 'F' then Some(c as int - 'A' as int + 10)
    else None
  }

  function HexPair(b: Byte): string {
    [HexDigit(b / 16), HexDigit(b % 16)]
  }

  function Hex(bytes: seq<Byte>): string {
    if bytes == [] then "" else HexPair(bytes[0]) + Hex(bytes[1..])
  }

  function UnHex(s: string): Option<seq<Byte>> {
    if |s| == 0 then Some([])
    else if |s| == 1 || HexValue(s[0]).None? || HexValue(s[1]).None? then None
    else
      match UnHex(s[2..])
      case None => None
      case Some(rest) => Some([16 * HexValue(s[0]).value + HexValue(s[1]).value] + rest)
  }

  lemma {:induction false} HexText(bytes: seq<Byte>)
    ensures |Hex(bytes)| == 2 * |bytes| && UnHex(Hex(bytes)) == Some(bytes)
    ensures Plain(Hex(bytes))
  {
    if bytes != [] {
      HexText(bytes[1..]);
      assert Hex(bytes)[2..] == Hex(bytes[1..]);
      assert [bytes[0]] + bytes[1..] == bytes;
    }
  }

  /** uuid.UUID.String: 8-4-4-4-12 lower-case hex digits. */
  function FormatUuid(u: Uuid): string {
    Hex(u[..4]) + "-" + Hex(u[4..6]) + "-" + Hex(u[6..8]) + "-" + Hex(u[8..10]) + "-" + Hex(u[10..])
  }

  function LowerAscii(c: char): char {
    if 'A' <= c <= 'Z' then (c as int + 32) as char else c
  }

  /** uuid.Parse brings its four accepted forms to the canonical one; braces are not looked at. */
  function Canonical(s: string): (r: Option<string>)
    ensures r.Some? ==> |r.value| == 36
    ensures |s| == 36 ==> r == Some(s)
  {
    if |s| == 36 then Some(s)
    else if |s| == 45 then
      if (forall i :: 0 <= i < 9 ==> LowerAscii(s[i]) == "urn:uuid:"[i]) then Some(s[9..]) else None
    else if |s| == 38 then Some(s[1..37])
    else if |s| == 32 then Some(s[..8] + "-" + s[8..12] + "-" + s[12..16] + "-" + s[16..20] + "-" + s[20..])
    else None
  }

  function ParseUuid(s: string): Option<Uuid> {
    match Canonical(s)
    case None => None
    case Some(c) =>
      if c[8] != '-' || c[13] != '-' || c[18] != '-' || c[23] != '-' then None
      else
        match UnHex(c[..8] + c[9..13] + c[14..18] + c[19..23] + c[24..])
        case None => None
        case Some(bytes) => if |bytes| == 16 then Some(bytes) else None
  }

  lemma {:induction false} HexConcat(a: seq<Byte>, b: seq<Byte>)
    ensures Hex(a + b) == Hex(a) + Hex(b)
  {
    if a == [] {
      assert a + b == b;
    } else {
      assert (a + b)[1..] == a[1..] + b;
      HexConcat(a[1..], b);
    }
  }

  /** The five groups side by side. */
  lemma HexGroups(u: Uuid)
    ensures Hex(u[..4]) + Hex(u[4..6]) + Hex(u[6..8]) + Hex(u[8..10]) + Hex(u[10..]) == Hex(u)
  {
    HexConcat(u[..4], u[4..6]);
    HexConcat(u[..4] + u[4..6], u[6..8]);
    HexConcat(u[..4] + u[4..6] + u[6..8], u[8..10]);
    HexConcat(u[..4] + u[4..6] + u[6..8] + u[8..10], u[10..]);
    assert u[..4] + u[4..6] + u[6..8] + u[8..10] + u[10..] == u;
  }

  lemma Groups(s: string, a: string, b: string, c: string, d: string, e: string)
    requires |a| == 8 && |b| == 4 && |c| == 4 && |d| == 4 && |e| == 12
    requires s == a + "-" + b + "-" + c + "-" + d + "-" + e
    ensures |s| == 36 && s[8] == '-' && s[13] == '-' && s[18] == '-' && s[23] == '-'
    ensures s[..8] == a && s[9..13] == b && s[14..18] == c && s[19..23] == d && s[24..] == e
  {
  }

  /** Reading back printed text gives the UUID. */
  lemma FormatThenParse(u: Uuid)
    ensures ParseUuid(FormatUuid(u)) == Some(u)
  {
    HexText(u[..4]);
    HexText(u[4..6]);
    HexText(u[6..8]);
    HexText(u[8..10]);
    HexText(u[10..]);
    Groups(FormatUuid(u), Hex(u[..4]), Hex(u[4..6]), Hex(u[6..8]), Hex(u[8..10]), Hex(u[10..]));
    HexGroups(u);
    HexText(u);
  }

  /** Printed UUIDs have neither dots nor line breaks. */
  lemma FormatIsPlain(u: Uuid)
    ensures Plain(FormatUuid(u))
  {
    HexText(u[..4]);
    HexText(u[4..6]);
    HexText(u[6..8]);
    HexText(u[8..10]);
    HexText(u[10..]);
    var a, b, c, d, e := Hex(u[..4]), Hex(u[4..6]), Hex(u[6..8]), Hex(u[8..10]), Hex(u[10..]);
    PlainConcat(a, "-");
    PlainConcat(a + "-", b);
    PlainConcat(a + "-" + b, "-");
    PlainConcat(a + "-" + b + "-", c);
    PlainConcat(a + "-" + b + "-" + c, "-");
    PlainConcat(a + "-" + b + "-" + c + "-", d);
    PlainConcat(a + "-" + b + "-" + c + "-" + d, "-");
    PlainConcat(a + "-" + b + "-" + c + "-" + d + "-", e);
  }

  lemma PlainConcat(a: string, b: string)
    requires Plain(a) && Plain(b)
    ensures Plain(a + b)
  {
  }

  /** The three other forms are read as well: with a URN prefix, in braces, and without hyphens. */
  lemma OtherFormsParse(u: Uuid)
    ensures ParseUuid("urn:uuid:" + FormatUuid(u)) == Some(u)
    ensures ParseUuid("{" + FormatUuid(u) + "}") == Some(u)
    ensures ParseUuid(Hex(u)) == Some(u)
  {
    FormatThenParse(u);
    FormatLength(u);
    UrnIsCanonical("urn:uuid:", FormatUuid(u));
    BracesAreCanonical("{", FormatUuid(u), "}");
    HyphensComeBack(u);
    CanonicalParses("urn:uuid:" + FormatUuid(u), FormatUuid(u));
    CanonicalParses("{" + FormatUuid(u) + "}", FormatUuid(u));
    CanonicalParses(Hex(u), FormatUuid(u));
  }

  lemma CanonicalParses(s: string, c: string)
    requires Canonical(s) == Some(c) && |c| == 36
    ensures ParseUuid(s) == ParseUuid(c)
  {
  }

  lemma UrnIsCanonical(prefix: string, s: string)
    requires prefix == "urn:uuid:" && |s| == 36
    ensures Canonical(prefix + s) == Some(s)
  {
    PrefixIsLower(prefix, s);
    assert (prefix + s)[9..] == s;
  }

  lemma BracesAreCanonical(before: string, s: string, after: string)
    requires |before| == 1 && |s| == 36 && |after| == 1
    ensures Canonical(before + s + after) == Some(s)
  {
    assert (before + s + after)[1..37] == s;
  }

  lemma PrefixIsLower(prefix: string, s: string)
    requires prefix == "urn:uuid:"
    ensures forall i :: 0 <= i < 9 ==> LowerAscii((prefix + s)[i]) == prefix[i]
  {
    forall i | 0 <= i < 9 ensures LowerAscii((prefix + s)[i]) == prefix[i] {
      assert (prefix + s)[i] == prefix[i];
    }
  }

  lemma FormatLength(u: Uuid)
    ensures |FormatUuid(u)| == 36
  {
    HexText(u[..4]);
    HexText(u[4..6]);
    HexText(u[6..8]);
    HexText(u[8..10]);
    HexText(u[10..]);
  }

  lemma HyphensComeBack(u: Uuid)
    ensures var h := Hex(u);
            |h| == 32 && h[..8] + "-" + h[8..12] + "-" + h[12..16] + "-" + h[16..20] + "-" + h[20..] == FormatUuid(u)
  {
    HexText(u[..4]);
    HexText(u[4..6]);
    HexText(u[6..8]);
    HexText(u[8..10]);
    HexText(u[10..]);
    HexGroups(u);
    FiveParts(Hex(u[..4]), Hex(u[4..6]), Hex(u[6..8]), Hex(u[8..10]), Hex(u[10..]), Hex(u));
  }

  lemma FiveParts(a: string, b: string, c: string, d: string, e: string, h: string)
    requires |a| == 8 && |b| == 4 && |c| == 4 && |d| == 4 && |e| == 12 && h == a + b + c + d + e
    ensures h[..8] == a && h[8..12] == b && h[12..16] == c && h[16..20] == d && h[20..] == e
  {
  }

  /** Nothing else is an id: text of these lengths, of hex digits but for hyphens, prefix and braces. */
  lemma OnlyThoseForms(s: string)
    requires ParseUuid(s).Some?
    ensures |s| == 36 || |s| == 45 || |s| == 38 || |s| == 32
    ensures |s| == 36 ==> s[8] == '-' && s[13] == '-' && s[18] == '-' && s[23] == '-'
    ensures |s| == 45 ==> forall i :: 0 <= i < 9 ==> LowerAscii(s[i]) == "urn:uuid:"[i]
  {
  }
}
