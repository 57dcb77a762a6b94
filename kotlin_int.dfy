/** Kotlin's `String.toInt()` on decimal text: an optional leading `-` or
    `+`, then at least one digit, and a value that fits a 32-bit `Int`.
    Anything else throws NumberFormatException, modelled as `None`. */
module KotlinInt {
  import opened Wrappers

  const INT_MIN: int := -0x8000_0000
  const INT_MAX: int := 0x7fff_ffff

  predicate IsDigit(c: char) {
    '0' <= c <= '9'
  }

  predicate AllDigits(s: string) {
    forall i :: 0 <= i < |s| ==> IsDigit(s[i])
  }

  function DigitValue(c: char): nat
    requires IsDigit(c)
  {
    c as int - '0' as int
  }

  /** The value of a run of decimal digits, most significant first. */
  function DigitsValue(s: string): nat
    requires AllDigits(s)
  {
    if |s| == 0 then 0 else DigitsValue(s[..|s| - 1]) * 10 + DigitValue(s[|s| - 1])
  }

  function ToInt(s: string): (r: Option<int>)
    ensures r.Some? ==> INT_MIN <= r.value <= INT_MAX
    ensures r.Some? ==> |s| > 0 && (IsDigit(s[0]) || s[0] == '-' || s[0] == '+')
  {
    if |s| == 0 then None
    else
      var signed := s[0] == '-' || s[0] == '+';
      var digits := if signed then s[1..] else s;
      if |digits| == 0 || !AllDigits(digits) then None
      else
        var magnitude: int := DigitsValue(digits);
        var v := if s[0] == '-' then -magnitude else magnitude;
        if INT_MIN <= v <= INT_MAX then Some(v) else None
  }

  function DigitChar(d: nat): (c: char)
    requires d < 10
    ensures IsDigit(c) && DigitValue(c) == d
  {
    ('0' as int + d) as char
  }

  /** The shortest decimal text of `n`, as a settings screen stores it. */
  function DecimalString(n: nat): string
    decreases n
  {
    if n < 10 then [DigitChar(n)] else DecimalString(n / 10) + [DigitChar(n % 10)]
  }

  lemma {:induction false} DecimalStringValue(n: nat)
    ensures |DecimalString(n)| > 0 && AllDigits(DecimalString(n))
    ensures DigitsValue(DecimalString(n)) == n
    decreases n
  {
    if n >= 10 {
      DecimalStringValue(n / 10);
      var s := DecimalString(n / 10);
      var t := s + [DigitChar(n % 10)];
      assert t[..|t| - 1] == s;
    }
  }

  /** Decimal text of any non-negative `Int` parses back to it. */
  lemma ToIntDecimal(n: nat)
    requires n <= INT_MAX
    ensures ToInt(DecimalString(n)) == Some(n)
  {
    DecimalStringValue(n);
  }

  /** A leading minus sign negates, down to the least `Int`. */
  lemma ToIntNegativeDecimal(n: nat)
    requires n <= -INT_MIN
    ensures ToInt("-" + DecimalString(n)) == Some(-(n as int))
  {
    DecimalStringValue(n);
    assert ("-" + DecimalString(n))[1..] == DecimalString(n);
  }

  /** Decimal text of a number beyond the largest `Int` does not parse,
      with or without a plus sign. */
  lemma ToIntOverflow(n: nat)
    requires n > INT_MAX
    ensures ToInt(DecimalString(n)) == None
    ensures ToInt("+" + DecimalString(n)) == None
  {
    DecimalStringValue(n);
    assert ("+" + DecimalString(n))[1..] == DecimalString(n);
  }

  /** A sign alone, or a character other than a digit after the optional
      sign, throws. */
  lemma ToIntRejects(s: string, i: nat)
    requires 0 < i < |s| && !IsDigit(s[i])
    ensures ToInt(s) == None
    ensures ToInt("-") == None && ToInt("+") == None && ToInt("") == None
  {
    var digits := if s[0] == '-' || s[0] == '+' then s[1..] else s;
    if s[0] == '-' || s[0] == '+' {
      assert digits[i - 1] == s[i];
    }
  }
}
