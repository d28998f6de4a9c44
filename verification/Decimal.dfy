/** Decimal text of integers, as strconv.FormatInt writes it and strconv.ParseInt(s, 10, 64) reads it. */
module Decimal {
  import opened Base

  const MIN_INT64: int := -0x8000_0000_0000_0000
  const MAX_INT64: int := 0x7FFF_FFFF_FFFF_FFFF

  predicate IsInt64(n: int) {
    MIN_INT64 <= n <= MAX_INT64
  }

  predicate IsDigit(c: char) {
    '0' <= c <= '9'
  }

  function Digit(d: nat): (c: char)
    requires d < 10
    ensures IsDigit(c) && c as int - '0' as int == d
  {
    ('0' as int + d) as char
  }

  function FormatNat(n: nat): string {
    if n < 10 then [Digit(n)] else FormatNat(n / 10) + [Digit(n % 10)]
  }

  function FormatInt(n: int): string {
    if n < 0 then "-" + FormatNat(-n) else FormatNat(n)
  }

  /** One digit or more, most significant first. */
  function ParseNat(s: string): Option<nat> {
    if s == "" || !IsDigit(s[|s| - 1]) then None
    else
      var d := s[|s| - 1] as int - '0' as int;
      if |s| == 1 then Some(d)
      else
        match ParseNat(s[..|s| - 1])
        case None => None
        case Some(front) => Some(10 * front + d)
  }

  /** An optional sign, then digits; anything outside 64 bits is an error. */
  function ParseInt(s: string): Option<int> {
    if s == "" then None
    else
      var signed := s[0] == '-' || s[0] == '+';
      match ParseNat(if signed then s[1..] else s)
      case None => None
      case Some(n) =>
        var value: int := if s[0] == '-' then 0 - n else n;
        if IsInt64(value) then Some(value) else None
  }

  lemma {:induction false} FormatNatText(n: nat)
    ensures FormatNat(n) != "" && forall i :: 0 <= i < |FormatNat(n)| ==> IsDigit(FormatNat(n)[i])
    ensures ParseNat(FormatNat(n)) == Some(n)
  {
    if n >= 10 {
      FormatNatText(n / 10);
      var s := FormatNat(n);
      assert s[..|s| - 1] == FormatNat(n / 10) && s[|s| - 1] == Digit(n % 10);
    }
  }

  /** Reading back what was written gives the number exactly if it fits in 64 bits. */
  lemma FormatThenParse(n: int)
    ensures ParseInt(FormatInt(n)) == if IsInt64(n) then Some(n) else None
  {
    var m: nat := if n < 0 then 0 - n else n;
    FormatNatText(m);
    assert FormatNat(m)[0] != '-' && FormatNat(m)[0] != '+';
    if n < 0 {
      assert FormatInt(n)[1..] == FormatNat(m);
    }
  }

  lemma FormatIsInjective(m: int, n: int)
    requires FormatInt(m) == FormatInt(n)
    ensures m == n
  {
    FormatNatText(if m < 0 then -m else m);
    FormatNatText(if n < 0 then -n else n);
    assert m < 0 ==> FormatInt(m)[1..] == FormatNat(-m);
    assert n < 0 ==> FormatInt(n)[1..] == FormatNat(-n);
    assert (m < 0) == (FormatInt(m)[0] == '-') && (n < 0) == (FormatInt(n)[0] == '-');
  }

  /** Decimal text consists of digits and a sign. */
  lemma FormatAlphabet(n: int)
    ensures FormatInt(n) != ""
    ensures forall i :: 0 <= i < |FormatInt(n)| ==> IsDigit(FormatInt(n)[i]) || FormatInt(n)[i] == '-'
  {
    FormatNatText(if n < 0 then -n else n);
  }

  /** What is read is an optional sign and digits, and a number that fits. */
  lemma ParsedIsDecimal(s: string)
    ensures ParseInt(s).Some? ==>
              && IsInt64(ParseInt(s).value)
              && SignLength(s) < |s| && forall i :: SignLength(s) <= i < |s| ==> IsDigit(s[i])
  {
    if ParseInt(s).Some? {
      var k := SignLength(s);
      NatIsDigits(s[k..]);
      forall i | k <= i < |s| ensures IsDigit(s[i]) {
        assert s[k..][i - k] == s[i];
      }
    }
  }

  function SignLength(s: string): nat {
    if s != "" && (s[0] == '-' || s[0] == '+') then 1 else 0
  }

  lemma {:induction false} NatIsDigits(s: string)
    ensures ParseNat(s).Some? <==> s != "" && forall i :: 0 <= i < |s| ==> IsDigit(s[i])
  {
    if |s| > 1 {
      NatIsDigits(s[..|s| - 1]);
    }
  }
}
