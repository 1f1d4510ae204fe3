/**
 * The Java number conversions the handler relies on: `Integer.parseInt`
 * and `Long.valueOf` for numeric envelope fields, and `String.valueOf(int)`
 * for the countdown's tick text. Only ASCII digits are modelled.
 */
module JavaNumbers {
  import opened Wrappers

  const INT_MIN: int := -0x8000_0000
  const INT_MAX: int := 0x7fff_ffff
  const LONG_MIN: int := -0x8000_0000_0000_0000
  const LONG_MAX: int := 0x7fff_ffff_ffff_ffff

  predicate IsDigit(c: char) { '0' <= c <= '9' }

  predicate AllDigits(s: string) { forall i :: 0 <= i < |s| ==> IsDigit(s[i]) }

  /** The value of a run of decimal digits, most significant first. */
  function DigitsValue(s: string): nat
    requires AllDigits(s)
  {
    if s == [] then 0
    else 10 * DigitsValue(s[..|s| - 1]) + (s[|s| - 1] as int - '0' as int)
  }

  /**
   * A signed decimal in [lo, hi]: an optional '+' or '-', then at least one
   * digit. Anything else is the `NumberFormatException` path (None).
   */
  function ParseSigned(s: string, lo: int, hi: int): (r: Option<int>)
    ensures r.Some? ==> lo <= r.value <= hi
    ensures r.Some? ==> |s| > 0 && IsDigit(s[|s| - 1])
  {
    if |s| == 0 then None
    else
      var signed := s[0] == '-' || s[0] == '+';
      var digits := if signed then s[1..] else s;
      if |digits| == 0 || !AllDigits(digits) then None
      else
        var v: int := if s[0] == '-' then -(DigitsValue(digits) as int) else DigitsValue(digits);
        if lo <= v <= hi then Some(v) else None
  }

  /** `Integer.parseInt(s)`, where a null `s` also throws. */
  function ParseInt(s: Option<string>): (r: Option<int>)
    ensures r.Some? ==> s.Some? && INT_MIN <= r.value <= INT_MAX
  {
    if s.None? then None else ParseSigned(s.value, INT_MIN, INT_MAX)
  }

  /** `Long.valueOf(s)`, where a null `s` also throws. */
  function ParseLong(s: Option<string>): (r: Option<int>)
    ensures r.Some? ==> s.Some? && LONG_MIN <= r.value <= LONG_MAX
  {
    if s.None? then None else ParseSigned(s.value, LONG_MIN, LONG_MAX)
  }

  function DigitChar(d: nat): (c: char)
    requires d < 10
    ensures IsDigit(c) && c as int - '0' as int == d
  {
    ('0' as int + d) as char
  }

  /** The shortest decimal digits of `n`; reading them back gives `n`. */
  function NatDigits(n: nat): (s: string)
    ensures |s| > 0 && AllDigits(s)
    ensures DigitsValue(s) == n
    ensures n > 0 ==> s[0] != '0'
  {
    if n < 10 then [DigitChar(n)]
    else
      var init := NatDigits(n / 10);
      var s := init + [DigitChar(n % 10)];
      assert s[..|s| - 1] == init;
      s
  }

  /** `String.valueOf(int)`: a '-' for negative values, then the digits of the magnitude. */
  function DecimalString(n: int): (s: string)
    ensures |s| > 0
    ensures n >= 0 <==> IsDigit(s[0])
  {
    if n < 0 then "-" + NatDigits(-n) else NatDigits(n)
  }

  /** `Integer.parseInt(String.valueOf(n)) == n` for every int, and likewise for long. */
  lemma {:induction false} ParseDecimalString(n: int, lo: int, hi: int)
    requires lo <= n <= hi
    ensures ParseSigned(DecimalString(n), lo, hi) == Some(n)
  {
    var s := DecimalString(n);
    if n < 0 {
      assert s[1..] == NatDigits(-n);
    } else {
      assert s[0] != '-' && s[0] != '+';
    }
  }
}
