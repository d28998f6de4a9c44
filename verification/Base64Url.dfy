/** Unpadded base64url, section 5 of RFC 4648, as Go's base64.RawURLEncoding prints and reads it. */
module Base64Url {
  import opened Base
  import opened Uuids

  function Symbol(n: nat): (c: char)
    requires n < 64
    ensures SymbolValue(c) == Some(n) && c != '.' && c != '\r' && c != '\n'
  {
    if n < 26 then ('A' as int + n) as char
    else if n < 52 then ('a' as int + n - 26) as char
    else if n < 62 then ('0' as int + n - 52) as char
    else if n == 62 then '-'
    else '_'
  }

  function SymbolValue(c: char): (r: Option<nat>)
    ensures r.Some? ==> r.value < 64
  {
    if 'A' <= c <= 'Z' then Some(c as int - 'A' as int)
    else if 'a' <= c <= 'z' then Some(c as int - 'a' as int + 26)
    else if '0' <= c <= '9' then Some(c as int - '0' as int + 52)
    else if c == '-' then Some(62)
    else if c == '_' then Some(63)
    else None
  }

  /** Three bytes as four symbols; one or two bytes at the end as two or three. */
  function Encode(bytes: seq<Byte>): string {
    if bytes == [] then ""
    else if |bytes| == 1 then [Symbol(bytes[0] / 4), Symbol(bytes[0] % 4 * 16)]
    else if |bytes| == 2 then
      [Symbol(bytes[0] / 4), Symbol(bytes[0] % 4 * 16 + bytes[1] / 16), Symbol(bytes[1] % 16 * 4)]
    else
      [Symbol(bytes[0] / 4), Symbol(bytes[0] % 4 * 16 + bytes[1] / 16), Symbol(bytes[1] % 16 * 4 + bytes[2] / 64),
       Symbol(bytes[2] % 64)]
      + Encode(bytes[3..])
  }

  /** The decoder skips line breaks. */
  function WithoutBreaks(s: string): string {
    if s == "" then "" else (if s[0] == '\r' || s[0] == '\n' then "" else s[..1]) + WithoutBreaks(s[1..])
  }

  function Decode(s: string): Option<seq<Byte>> {
    DecodeGroups(WithoutBreaks(s))
  }

  /** Four symbols as three bytes; a rest of two or three symbols as one or two, whatever its spare bits. */
  function DecodeGroups(s: string): Option<seq<Byte>> {
    if s == "" then Some([])
    else if |s| == 1 || SymbolValue(s[0]).None? || SymbolValue(s[1]).None? then None
    else
      var n0, n1 := SymbolValue(s[0]).value, SymbolValue(s[1]).value;
      var b0 := n0 * 4 + n1 / 16;
      if |s| == 2 then Some([b0])
      else if SymbolValue(s[2]).None? then None
      else
        var n2 := SymbolValue(s[2]).value;
        var b1 := n1 % 16 * 16 + n2 / 4;
        if |s| == 3 then Some([b0, b1])
        else if SymbolValue(s[3]).None? then None
        else
          match DecodeGroups(s[4..])
          case None => None
          case Some(rest) => Some([b0, b1, n2 % 4 * 64 + SymbolValue(s[3]).value] + rest)
  }

  lemma {:induction false} EncodeAlphabet(bytes: seq<Byte>)
    ensures forall i :: 0 <= i < |Encode(bytes)| ==> SymbolValue(Encode(bytes)[i]).Some?
  {
    if |bytes| >= 3 {
      EncodeAlphabet(bytes[3..]);
    }
  }

  lemma {:induction false} NothingToSkip(s: string)
    requires forall i :: 0 <= i < |s| ==> SymbolValue(s[i]).Some?
    ensures WithoutBreaks(s) == s
  {
    if s != "" {
      NothingToSkip(s[1..]);
    }
  }

  /** The bits of three bytes survive the regrouping. */
  lemma Regrouped(a: Byte, b: Byte, c: Byte)
    ensures a / 4 * 4 + (a % 4 * 16 + b / 16) / 16 == a
    ensures (a % 4 * 16 + b / 16) % 16 * 16 + (b % 16 * 4 + c / 64) / 4 == b
    ensures (b % 16 * 4 + c / 64) % 4 * 64 + c % 64 == c
  {
  }

  lemma EncodedShort(a: Byte, b: Byte)
    ensures Encode([a]) == [Symbol(a / 4), Symbol(a % 4 * 16)]
    ensures Encode([a, b]) == [Symbol(a / 4), Symbol(a % 4 * 16 + b / 16), Symbol(b % 16 * 4)]
  {
  }

  lemma DecodeOne(a: Byte)
    ensures DecodeGroups(Encode([a])) == Some([a])
  {
    EncodedShort(a, 0);
    Regrouped(a, 0, 0);
  }

  lemma DecodeTwo(a: Byte, b: Byte)
    ensures DecodeGroups(Encode([a, b])) == Some([a, b])
  {
    EncodedShort(a, b);
    Regrouped(a, b, 0);
  }

  lemma DecodeFirst(a: Byte, b: Byte, c: Byte, tail: string)
    ensures DecodeGroups(
              [Symbol(a / 4), Symbol(a % 4 * 16 + b / 16), Symbol(b % 16 * 4 + c / 64), Symbol(c % 64)] + tail)
         == match DecodeGroups(tail) case None => None case Some(rest) => Some([a, b, c] + rest)
  {
    DecodeFour(a / 4, a % 4 * 16 + b / 16, b % 16 * 4 + c / 64, c % 64, tail);
    Sextets(a, b, c, a / 4, a % 4 * 16 + b / 16, b % 16 * 4 + c / 64, c % 64);
  }

  lemma Sextets(a: Byte, b: Byte, c: Byte, n0: nat, n1: nat, n2: nat, n3: nat)
    requires n0 == a / 4 && n1 == a % 4 * 16 + b / 16 && n2 == b % 16 * 4 + c / 64 && n3 == c % 64
    ensures n0 * 4 + n1 / 16 == a && n1 % 16 * 16 + n2 / 4 == b && n2 % 4 * 64 + n3 == c
  {
    Regrouped(a, b, c);
  }

  lemma DecodeFour(n0: nat, n1: nat, n2: nat, n3: nat, tail: string)
    requires n0 < 64 && n1 < 64 && n2 < 64 && n3 < 64
    ensures DecodeGroups([Symbol(n0), Symbol(n1), Symbol(n2), Symbol(n3)] + tail)
         == match DecodeGroups(tail)
            case None => None
            case Some(rest) => Some([n0 * 4 + n1 / 16, n1 % 16 * 16 + n2 / 4, n2 % 4 * 64 + n3] + rest)
  {
    var s := [Symbol(n0), Symbol(n1), Symbol(n2), Symbol(n3)] + tail;
    assert s[4..] == tail;
  }

  lemma DecodeLast(bytes: seq<Byte>)
    requires |bytes| < 3
    ensures DecodeGroups(Encode(bytes)) == Some(bytes)
  {
    if |bytes| == 1 {
      assert bytes == [bytes[0]];
      DecodeOne(bytes[0]);
    } else if |bytes| == 2 {
      assert bytes == [bytes[0], bytes[1]];
      DecodeTwo(bytes[0], bytes[1]);
    }
  }

  lemma {:induction false} DecodeEncoded(bytes: seq<Byte>)
    ensures DecodeGroups(Encode(bytes)) == Some(bytes)
  {
    if |bytes| < 3 {
      DecodeLast(bytes);
    } else {
      DecodeFirst(bytes[0], bytes[1], bytes[2], Encode(bytes[3..]));
      DecodeEncoded(bytes[3..]);
      assert bytes == [bytes[0], bytes[1], bytes[2]] + bytes[3..];
    }
  }

  /** Decoding gives back every byte string. */
  lemma EncodeThenDecode(bytes: seq<Byte>)
    ensures Decode(Encode(bytes)) == Some(bytes)
  {
    EncodeAlphabet(bytes);
    NothingToSkip(Encode(bytes));
    DecodeEncoded(bytes);
  }

  lemma EncodedIsPlain(bytes: seq<Byte>)
    ensures Plain(Encode(bytes))
  {
    EncodeAlphabet(bytes);
  }

  // ----- The format itself -----

  /** Table 2 of RFC 4648: upper-case letters, lower-case letters, digits, minus and underline, and no other symbol. */
  lemma SymbolsAreTheTable()
    ensures Symbol(0) == 'A' && Symbol(26) == 'a' && Symbol(52) == '0' && Symbol(62) == '-' && Symbol(63) == '_'
    ensures forall n: nat | n < 61 && n != 25 && n != 51 :: Symbol(n + 1) as int == Symbol(n) as int + 1
    ensures forall c :: SymbolValue(c).Some? ==> Symbol(SymbolValue(c).value) == c
  {
  }

  /** The bytes read as one number, most significant first. */
  function Number(bytes: seq<Byte>): int {
    if bytes == [] then 0
    else
      var last: int := bytes[|bytes| - 1];
      256 * Number(bytes[..|bytes| - 1]) + last
  }

  /** The symbols read as one number of six bits each. */
  function SymbolNumber(s: string): int {
    if s == "" then 0 else 64 * SymbolNumber(s[..|s| - 1]) + Value(s[|s| - 1])
  }

  function Value(c: char): int {
    if SymbolValue(c).Some? then SymbolValue(c).value else 0
  }

  lemma FewBytes(a: Byte, b: Byte, c: Byte)
    ensures var x: int := a; var y: int := b; var z: int := c;
            Number([a]) == x && Number([a, b]) == 256 * x + y && Number([a, b, c]) == 65536 * x + 256 * y + z
  {
    assert [a][..0] == [] && [a, b][..1] == [a] && [a, b, c][..2] == [a, b];
  }

  lemma FewSymbols(p: char, q: char, r: char, t: char)
    ensures SymbolNumber([p, q]) == 64 * Value(p) + Value(q)
    ensures SymbolNumber([p, q, r]) == 4096 * Value(p) + 64 * Value(q) + Value(r)
    ensures SymbolNumber([p, q, r, t]) == 262144 * Value(p) + 4096 * Value(q) + 64 * Value(r) + Value(t)
  {
    assert [p][..0] == [] && [p, q][..1] == [p] && [p, q, r][..2] == [p, q] && [p, q, r, t][..3] == [p, q, r];
    assert SymbolNumber([p]) == Value(p);
  }

  /** Three bytes are the four symbols of the same number; two and one are padded with zero bits. */
  lemma GroupsAreNumbers(a: Byte, b: Byte, c: Byte, rest: seq<Byte>)
    ensures SymbolNumber(Encode([a])) == 16 * Number([a]) && SymbolNumber(Encode([a, b])) == 4 * Number([a, b])
    ensures SymbolNumber(Encode([a, b, c])) == Number([a, b, c])
    ensures |Encode([a])| == 2 && |Encode([a, b])| == 3 && |Encode([a, b, c])| == 4
    ensures Encode([a, b, c] + rest) == Encode([a, b, c]) + Encode(rest)
  {
    EncodedShort(a, b);
    EncodedThree(a, b, c, []);
    EncodedThree(a, b, c, rest);
    assert [a, b, c] + [] == [a, b, c] && Encode([]) == "";
    assert Encode([a, b, c]) ==
           [Symbol(a / 4), Symbol(a % 4 * 16 + b / 16), Symbol(b % 16 * 4 + c / 64), Symbol(c % 64)];
    FewBytes(a, b, c);
    ThreeAsSymbols(a, b, c);
    OneAndTwoAsSymbols(a, b);
  }

  lemma EncodedThree(a: Byte, b: Byte, c: Byte, rest: seq<Byte>)
    ensures Encode([a, b, c] + rest) ==
            [Symbol(a / 4), Symbol(a % 4 * 16 + b / 16), Symbol(b % 16 * 4 + c / 64), Symbol(c % 64)] + Encode(rest)
  {
    assert ([a, b, c] + rest)[3..] == rest;
  }

  lemma ThreeAsSymbols(a: Byte, b: Byte, c: Byte)
    ensures var x: int := a; var y: int := b; var z: int := c;
            SymbolNumber([Symbol(a / 4), Symbol(a % 4 * 16 + b / 16), Symbol(b % 16 * 4 + c / 64), Symbol(c % 64)])
            == 65536 * x + 256 * y + z
  {
    FewSymbols(Symbol(a / 4), Symbol(a % 4 * 16 + b / 16), Symbol(b % 16 * 4 + c / 64), Symbol(c % 64));
  }

  lemma OneAndTwoAsSymbols(a: Byte, b: Byte)
    ensures var x: int := a;
            SymbolNumber([Symbol(a / 4), Symbol(a % 4 * 16)]) == 16 * x
    ensures var x: int := a; var y: int := b;
            SymbolNumber([Symbol(a / 4), Symbol(a % 4 * 16 + b / 16), Symbol(b % 16 * 4)]) == 4 * (256 * x + y)
  {
    FewSymbols(Symbol(a / 4), Symbol(a % 4 * 16), 'A', 'A');
    FewSymbols(Symbol(a / 4), Symbol(a % 4 * 16 + b / 16), Symbol(b % 16 * 4), 'A');
  }

  /** Text decodes exactly if, line breaks aside, it has symbols of the table only and no single one is left over. */
  lemma DecodesIff(s: string)
    ensures Decode(s).Some? <==> |WithoutBreaks(s)| % 4 != 1 && AllSymbols(WithoutBreaks(s))
  {
    GroupsDecodeIff(WithoutBreaks(s));
  }

  lemma {:induction false} GroupsDecodeIff(s: string)
    ensures DecodeGroups(s).Some? <==> |s| % 4 != 1 && AllSymbols(s)
  {
    if |s| >= 4 {
      GroupsDecodeIff(s[4..]);
      FourAndRest(s);
    }
  }

  predicate AllSymbols(s: string) {
    forall i :: 0 <= i < |s| ==> SymbolValue(s[i]).Some?
  }

  lemma FourAndRest(s: string)
    requires |s| >= 4
    ensures AllSymbols(s) <==> IsGroup(s[0], s[1], s[2], s[3]) && AllSymbols(s[4..])
    ensures DecodeGroups(s).Some? <==> IsGroup(s[0], s[1], s[2], s[3]) && DecodeGroups(s[4..]).Some?
    ensures |s| % 4 == |s[4..]| % 4
  {
    assert s == [s[0], s[1], s[2], s[3]] + s[4..];
    SymbolsOfGroup(s[0], s[1], s[2], s[3], s[4..]);
    GroupDecodes(s[0], s[1], s[2], s[3], s[4..]);
  }

  lemma SymbolsOfGroup(a: char, b: char, c: char, d: char, rest: string)
    ensures AllSymbols([a, b, c, d] + rest) <==> IsGroup(a, b, c, d) && AllSymbols(rest)
  {
    var s := [a, b, c, d] + rest;
    assert s[0] == a && s[1] == b && s[2] == c && s[3] == d;
    assert forall i :: 0 <= i < |rest| ==> s[i + 4] == rest[i];
  }

  lemma GroupDecodes(a: char, b: char, c: char, d: char, rest: string)
    ensures DecodeGroups([a, b, c, d] + rest).Some? <==> IsGroup(a, b, c, d) && DecodeGroups(rest).Some?
  {
    assert ([a, b, c, d] + rest)[4..] == rest;
  }

  predicate IsGroup(a: char, b: char, c: char, d: char) {
    SymbolValue(a).Some? && SymbolValue(b).Some? && SymbolValue(c).Some? && SymbolValue(d).Some?
  }
}
