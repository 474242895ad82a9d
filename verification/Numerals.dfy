/** Decimal numerals, as far as form values use them. */
module Numerals {

  predicate IsDigit(c: char) {
    '0' <= c <= '9'
  }

  function Digit(d: nat): (c: char)
    requires d < 10
    ensures IsDigit(c)
  {
    ('0' as int + d) as char
  }

  function PrintNat(n: nat): (s: string)
    ensures s != "" && forall i :: 0 <= i < |s| ==> IsDigit(s[i])
    ensures s[0] == '0' ==> n == 0 && s == "0"
  {
    if n < 10 then [Digit(n)] else PrintNat(n / 10) + [Digit(n % 10)]
  }

  function PrintInt(n: int): string {
    if n < 0 then "-" + PrintNat(-n) else PrintNat(n)
  }

  /** A decimal numeral without a leading zero. */
  predicate Canonical(s: string) {
    s != "" && (forall i :: 0 <= i < |s| ==> IsDigit(s[i])) && (s[0] == '0' ==> s == "0")
  }

  function Value(s: string): nat
    requires forall i :: 0 <= i < |s| ==> IsDigit(s[i])
  {
    if s == "" then 0
    else
      var last := s[|s| - 1];
      assert IsDigit(last);
      10 * Value(s[..|s| - 1]) + (last as int - '0' as int)
  }

  const INT64_MIN := -0x8000_0000_0000_0000
  const INT64_MAX := 0x7FFF_FFFF_FFFF_FFFF

  predicate FitsInt64(n: int) {
    INT64_MIN <= n <= INT64_MAX
  }

  function Clip(n: int): int {
    if FitsInt64(n) then n else 0
  }

  /** A form value as an integer: decimal numerals that fit 64 bits count, everything else is 0. */
  function ParseInt(s: string): int {
    if Canonical(s) then Clip(Value(s))
    else if s != "" && s[0] == '-' && Canonical(s[1..]) then Clip(0 - Value(s[1..]))
    else 0
  }

  /** Reading is positional, with the last digit the least: each further digit counts once, the others ten times. */
  lemma ValueIsDecimal(s: string, d: char)
    requires IsDigit(d) && forall i :: 0 <= i < |s| ==> IsDigit(s[i])
    ensures Value("") == 0 && Value(s + [d]) == 10 * Value(s) + (d as int - '0' as int)
  {
    assert (s + [d])[..|s|] == s;
  }

  lemma {:induction false} ValueOfPrinted(n: nat)
    ensures Value(PrintNat(n)) == n
  {
    var s := PrintNat(n);
    if n < 10 {
      assert s[..|s| - 1] == "";
    } else {
      assert s[..|s| - 1] == PrintNat(n / 10);
      ValueOfPrinted(n / 10);
    }
  }

  lemma PrintedIsCanonical(n: nat)
    ensures Canonical(PrintNat(n)) && Value(PrintNat(n)) == n
  {
    ValueOfPrinted(n);
    hide PrintNat, Value;
  }

  lemma ParsePrinted(n: int)
    requires FitsInt64(n)
    ensures ParseInt(PrintInt(n)) == n
  {
    hide PrintNat, Value;
    if n < 0 {
      PrintedIsCanonical(-n);
      var s := PrintInt(n);
      assert s[0] == '-' && s[1..] == PrintNat(-n);
      assert !Canonical(s) by { assert !IsDigit(s[0]); }
      hide Canonical;
    } else {
      PrintedIsCanonical(n);
      hide Canonical;
    }
  }

  lemma PrintInjective(m: nat, n: nat)
    requires PrintNat(m) == PrintNat(n)
    ensures m == n
  {
    ValueOfPrinted(m);
    ValueOfPrinted(n);
  }
}
