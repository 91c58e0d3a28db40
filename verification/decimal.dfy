/**
 Decimal numerals: Python's `str(n)` for integers and the part of `int(s)` the
 library relies on (an optional sign followed by ASCII digits).
 */
module Decimal {
  import opened Errors

  predicate IsDigit(c: char) {
    '0' <= c <= '9'
  }

  function DigitValue(c: char): nat
    requires IsDigit(c)
  {
    c as int - '0' as int
  }

  function DigitChar(d: nat): (c: char)
    requires d < 10
    ensures IsDigit(c) && DigitValue(c) == d
  {
    ('0' as int + d) as char
  }

  /** The value of a string of digits, most significant first. */
  function DigitsValue(s: string): nat
    requires forall i :: 0 <= i < |s| ==> IsDigit(s[i])
  {
    if |s| == 0 then 0 else 10 * DigitsValue(s[..|s| - 1]) + DigitValue(s[|s| - 1])
  }

  /** `str(n)` for `n >= 0`: no leading zeros, "0" for zero. */
  function NatToString(n: nat): (s: string)
    ensures |s| > 0
    ensures forall i :: 0 <= i < |s| ==> IsDigit(s[i])
    ensures DigitsValue(s) == n
    ensures |s| > 1 ==> s[0] != '0'
  {
    if n < 10 then [DigitChar(n)]
    else
      var s := NatToString(n / 10) + [DigitChar(n % 10)];
      assert s[..|s| - 1] == NatToString(n / 10);
      s
  }

  /** `str(n)` for any integer. */
  function IntToString(n: int): (s: string)
    ensures |s| > 0
  {
    if n < 0 then "-" + NatToString(-n) else NatToString(n)
  }

  /** `int(s)` restricted to an optional `+`/`-` sign followed by one or more ASCII digits. */
  function ParseInt(s: string): (r: Result<int>)
    ensures r.Ok? <==> WellFormedNumeral(s)
  {
    var sign := if |s| > 0 && (s[0] == '-' || s[0] == '+') then 1 else 0;
    var digits := s[sign..];
    if |digits| == 0 || exists i :: 0 <= i < |digits| && !IsDigit(digits[i]) then
      Err(ValueError("invalid literal for int() with base 10"))
    else if sign == 1 && s[0] == '-' then Ok(-(DigitsValue(digits) as int))
    else Ok(DigitsValue(digits))
  }

  /** What `ParseInt` accepts, stated without reference to how it splits the sign off. */
  ghost predicate WellFormedNumeral(s: string) {
    && |s| > 0
    && (IsDigit(s[0]) || (s[0] in {'-', '+'} && |s| > 1))
    && forall i :: 1 <= i < |s| ==> IsDigit(s[i])
  }

  /** `int(str(n)) == n` for every integer. */
  lemma {:induction false} ParseIntOfString(n: int)
    ensures ParseInt(IntToString(n)) == Ok(n)
  {
    var s := IntToString(n);
    if n < 0 {
      assert s == "-" + NatToString(-n);
      assert s[1..] == NatToString(-n);
    } else {
      assert s[0..] == s;
    }
  }
}
