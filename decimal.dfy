/** Decimal rendering of integers, as Go's `fmt.Sprintf("%d", v)` writes
    them, together with the parser that inverts it. */
module Decimal {

  predicate IsDigit(c: char) {
    '0' <= c <= '9'
  }

  function DigitChar(n: nat): (c: char)
    requires n < 10
    ensures IsDigit(c)
  {
    (48 + n) as char
  }

  function DigitValue(c: char): (n: nat)
    requires IsDigit(c)
    ensures n < 10
  {
    c as int - 48
  }

  /** The shortest decimal digits of `n`: no leading zero except "0" itself. */
  function NatToString(n: nat): (s: string)
    ensures |s| >= 1
    ensures forall i :: 0 <= i < |s| ==> IsDigit(s[i])
    ensures |s| > 1 ==> s[0] != '0'
    ensures n < 10 <==> |s| == 1
    decreases n
  {
    if n < 10 then [DigitChar(n)] else NatToString(n / 10) + [DigitChar(n % 10)]
  }

  /** Text `ParseInt` accepts: an optional minus sign, then digits. */
  predicate IsDecimalText(s: string) {
    && |s| >= 1
    && (forall i :: 0 < i < |s| ==> IsDigit(s[i]))
    && (s[0] != '-' ==> IsDigit(s[0]))
  }

  /** `%d`: a leading minus sign for negatives, then the digits, with no
      leading zero except in "0" itself. */
  function IntToString(v: int): (s: string)
    ensures |s| >= 1
    ensures s[0] == '-' <==> v < 0
    ensures IsDecimalText(s)
    ensures s[0] != '-' && |s| > 1 ==> s[0] != '0'
    ensures s[0] == '-' ==> |s| >= 2 && s[1] != '0'
  {
    if v < 0 then "-" + NatToString(-v) else NatToString(v)
  }

  /** The value of a string of decimal digits, read most significant first. */
  function ParseNat(s: string): nat
    requires forall i :: 0 <= i < |s| ==> IsDigit(s[i])
  {
    if s == [] then 0 else ParseNat(s[..|s| - 1]) * 10 + DigitValue(s[|s| - 1])
  }

  function ParseInt(s: string): int
    requires IsDecimalText(s)
  {
    if s[0] == '-' then -(ParseNat(s[1..]) as int) else ParseNat(s)
  }

  lemma {:induction false} ParseNatToString(n: nat)
    ensures ParseNat(NatToString(n)) == n
    decreases n
  {
    if n >= 10 {
      var s := NatToString(n / 10);
      ParseNatToString(n / 10);
      assert (s + [DigitChar(n % 10)])[..|s|] == s;
    }
  }

  /** Reading back what `%d` wrote gives the number: the rendering loses
      nothing, so distinct integers render differently. */
  lemma {:induction false} ParseIntToString(v: int)
    ensures ParseInt(IntToString(v)) == v
  {
    if v < 0 {
      ParseNatToString(-v);
      assert IntToString(v)[1..] == NatToString(-v);
    } else {
      ParseNatToString(v);
    }
  }

  lemma IntToStringInjective(v: int, u: int)
    ensures IntToString(v) == IntToString(u) <==> v == u
  {
    ParseIntToString(v);
    ParseIntToString(u);
  }

  lemma IntToStringExamples()
    ensures IntToString(7) == "7"
    ensures IntToString(-42) == "-42"
    ensures NatToString(16) == "16"
  {
  }
}
