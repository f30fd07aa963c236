/** The decimal text Rust's `to_string` and `format!("{}")` give an unsigned integer. */
module Decimal {
  predicate IsDigit(c: char)
  {
    '0' <= c <= '9'
  }

  predicate AllDigits(s: string)
  {
    forall i :: 0 <= i < |s| ==> IsDigit(s[i])
  }

  function DigitChar(d: int): (c: char)
    requires 0 <= d < 10
    ensures IsDigit(c) && c as int - '0' as int == d
  {
    ('0' as int + d) as char
  }

  /** Reads a string of digits back as a number (the inverse of DecimalString). */
  function ParseDecimal(s: string): nat
    requires AllDigits(s)
  {
    if s == [] then 0 else ParseDecimal(s[..|s| - 1]) * 10 + (s[|s| - 1] as int - '0' as int)
  }

  /** Shortest decimal representation of n, most significant digit first. */
  function DecimalString(n: nat): (s: string)
    ensures 1 <= |s|
    ensures AllDigits(s)
    ensures ParseDecimal(s) == n
    ensures |s| > 1 ==> s[0] != '0'
  {
    if n < 10 then [DigitChar(n)]
    else
      var s := DecimalString(n / 10) + [DigitChar(n % 10)];
      assert s[..|s| - 1] == DecimalString(n / 10);
      s
  }

  /** Distinct numbers never share a decimal text. */
  lemma DecimalStringInjective(a: nat, b: nat)
    ensures DecimalString(a) == DecimalString(b) <==> a == b
  {
  }

  /** A digit string followed by a non-digit separator can be split back at that separator. */
  lemma SplitAtSeparator(a: string, b: string, x: string, y: string, sep: char)
    requires AllDigits(a) && AllDigits(x) && !IsDigit(sep)
    requires a + [sep] + b == x + [sep] + y
    ensures a == x && b == y
  {
    var s := a + [sep] + b;
    // the separator is the first non-digit, on either reading
    assert !IsDigit(s[|a|]) && forall i :: 0 <= i < |x| ==> s[i] == x[i];
    assert !IsDigit(s[|x|]) && forall i :: 0 <= i < |a| ==> s[i] == a[i];
    assert a == s[..|a|] && x == s[..|x|];
    assert b == s[|a| + 1..] && y == s[|x| + 1..];
  }
}
