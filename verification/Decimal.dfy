/** Printing and parsing of integers, as str and int do it on ASCII text. */
module Decimal {
  import opened Wrappers

  predicate IsDigit(c: char) {
    '0' <= c <= '9'
  }

  function DigitValue(c: char): nat
    requires IsDigit(c)
  {
    c as int - '0' as int
  }

  function DigitChar(d: nat): char
    requires d < 10
  {
    (d + '0' as int) as char
  }

  function PrintNat(n: nat): string {
    (if n < 10 then "" else PrintNat(n / 10)) + [DigitChar(n % 10)]
  }

  function PrintInt(n: int): string {
    if n < 0 then "-" + PrintNat(-n) else PrintNat(n)
  }

  /** Digits, possibly with single underscores between them. */
  function ParseNat(s: string): Option<nat> {
    if s == "" || !IsDigit(s[|s| - 1]) then None
    else
      var d, front := DigitValue(s[|s| - 1]), s[..|s| - 1];
      if front == "" then Some(d)
      else
        match ParseNat(if front[|front| - 1] == '_' then front[..|front| - 1] else front)
        case Some(n) => Some(10 * n + d)
        case None => None
  }

  predicate IsSpace(c: char) {
    c == ' ' || '\t' <= c <= '\r'
  }

  function StripSpace(s: string): string {
    if s != "" && IsSpace(s[0]) then StripSpace(s[1..])
    else if s != "" && IsSpace(s[|s| - 1]) then StripSpace(s[..|s| - 1])
    else s
  }

  function ParseInt(text: string): Option<int> {
    var s := StripSpace(text);
    if s != "" && s[0] == '-' then
      var parsed: Option<int> := ParseNat(s[1..]);
      if parsed.Some? then Some(-parsed.value) else None
    else ParseNat(if s != "" && s[0] == '+' then s[1..] else s)
  }

  predicate IsDecimal(s: string) {
    s != "" && forall i :: 0 <= i < |s| ==> IsDigit(s[i])
  }

  lemma {:induction false} PrintNatDigits(n: nat)
    ensures IsDecimal(PrintNat(n)) && ParseNat(PrintNat(n)) == Some(n)
  {
    var s := PrintNat(n);
    if n >= 10 {
      PrintNatDigits(n / 10);
      assert s[..|s| - 1] == PrintNat(n / 10);
    }
  }

  lemma StripSpaceFixed(s: string)
    requires s != "" && !IsSpace(s[0]) && !IsSpace(s[|s| - 1])
    ensures StripSpace(s) == s
  {
  }

  /** Parsing a printed integer gives it back. */
  lemma ParsePrinted(n: int)
    ensures ParseInt(PrintInt(n)) == Some(n)
  {
    var m := if n < 0 then -n else n;
    PrintNatDigits(m);
    var s := PrintInt(n);
    if n < 0 { assert s[1..] == PrintNat(m); }
    StripSpaceFixed(s);
  }

  lemma PrintNatInjective(m: nat, n: nat)
    ensures PrintNat(m) == PrintNat(n) <==> m == n
  {
    PrintNatDigits(m);
    PrintNatDigits(n);
  }

  function Pow10(k: nat): nat {
    if k == 0 then 1 else 10 * Pow10(k - 1)
  }

  lemma {:induction false} PrintNatLength(n: nat, k: nat)
    requires 1 <= k && n < Pow10(k)
    ensures |PrintNat(n)| <= k
  {
    if n >= 10 {
      assert k > 1;
      PrintNatLength(n / 10, k - 1);
    }
  }

  /** Plain digits parse, to a number with as many digits. */
  lemma {:induction false} ParseDigits(s: string)
    requires IsDecimal(s)
    ensures ParseNat(s).Some? && ParseNat(s).value < Pow10(|s|)
    ensures s[0] != '0' ==> Pow10(|s| - 1) <= ParseNat(s).value
  {
    if |s| > 1 {
      ParseDigits(s[..|s| - 1]);
    }
  }

  lemma ParseIntDigits(s: string)
    requires IsDecimal(s)
    ensures ParseInt(s) == ParseNat(s)
  {
  }

  /** A number below ten million prints in at most seven characters. */
  lemma ShortNumber(n: nat)
    requires n < 10_000_000
    ensures |PrintNat(n)| < 8
  {
    assert Pow10(7) == 10_000_000;
    PrintNatLength(n, 7);
  }
}
