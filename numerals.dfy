/**
 * Decimal numerals: Python's `int(s)` on a string and `str.isdigit()`,
 * restricted to ASCII digits with an optional leading sign, and the
 * zero-padded rendering that checkpoint directory names use.
 */
module Numerals {
  import opened Wrappers

  predicate IsDigit(c: char) {
    '0' <= c <= '9'
  }

  /** `s.isdigit()` for ASCII: non-empty and every character a digit. */
  predicate IsDigitString(s: string) {
    |s| > 0 && forall i :: 0 <= i < |s| ==> IsDigit(s[i])
  }

  predicate AllDigits(s: string) {
    forall i :: 0 <= i < |s| ==> IsDigit(s[i])
  }

  function DigitValue(c: char): (d: nat)
    requires IsDigit(c)
    ensures d < 10
  {
    c as int - '0' as int
  }

  function DigitChar(d: nat): (c: char)
    requires d < 10
    ensures IsDigit(c) && DigitValue(c) == d
  {
    ('0' as int + d) as char
  }

  /** The value of a digit string read in base ten, most significant digit first. */
  function DecimalValue(s: string): nat
    requires AllDigits(s)
    decreases |s|
  {
    if s == [] then 0 else 10 * DecimalValue(s[..|s| - 1]) + DigitValue(s[|s| - 1])
  }

  /**
   * `int(s)`: an optional `+` or `-` followed by one or more digits, or
   * `None` where Python raises `ValueError`.
   */
  function ParseInt(s: string): (r: Option<int>)
    ensures r.Some? <==> (IsDigitString(s) || (|s| > 1 && (s[0] == '+' || s[0] == '-') && IsDigitString(s[1..])))
  {
    if |s| > 0 && (s[0] == '+' || s[0] == '-') then
      var d := s[1..];
      if !IsDigitString(d) then None else
      var v: int := DecimalValue(d);
      Some(if s[0] == '-' then -v else v)
    else if IsDigitString(s) then Some(DecimalValue(s))
    else None
  }

  /** `str(n)` for a natural number: its digits, with no leading zero. */
  function ShowNat(n: nat): (s: string)
    ensures IsDigitString(s)
    ensures |s| > 1 ==> s[0] != '0'
    decreases n
  {
    if n < 10 then [DigitChar(n)] else ShowNat(n / 10) + [DigitChar(n % 10)]
  }

  function Zeros(k: nat): (s: string)
    ensures |s| == k && forall i :: 0 <= i < k ==> s[i] == '0'
  {
    seq(k, _ => '0')
  }

  /** `f"{n:0{width}d}"`: `n` padded on the left with zeros to at least `width` characters. */
  function ZeroPadded(n: nat, width: nat): (s: string)
    ensures IsDigitString(s) && |s| >= width
  {
    var digits := ShowNat(n);
    if |digits| < width then Zeros(width - |digits|) + digits else digits
  }

  /** Reading back what `ShowNat` wrote yields the number. */
  lemma {:induction false} DecimalValueOfShowNat(n: nat)
    ensures DecimalValue(ShowNat(n)) == n
    decreases n
  {
    var s := ShowNat(n);
    if n >= 10 {
      DecimalValueOfShowNat(n / 10);
      assert s[..|s| - 1] == ShowNat(n / 10);
    }
  }

  /** A string of zeros reads as 0. */
  lemma {:induction false} DecimalValueOfZeros(k: nat)
    ensures DecimalValue(Zeros(k)) == 0
  {
    if k > 0 {
      assert Zeros(k)[..k - 1] == Zeros(k - 1);
      DecimalValueOfZeros(k - 1);
    }
  }

  /** Leading zeros do not change the value of a digit string (`int('0002000') == 2000`). */
  lemma {:induction false} DecimalValueIgnoresLeadingZeros(k: nat, d: string)
    requires AllDigits(d)
    ensures AllDigits(Zeros(k) + d) && DecimalValue(Zeros(k) + d) == DecimalValue(d)
    decreases |d|
  {
    var s := Zeros(k) + d;
    if d == [] {
      assert s == Zeros(k);
      DecimalValueOfZeros(k);
    } else {
      assert s[..|s| - 1] == Zeros(k) + d[..|d| - 1];
      DecimalValueIgnoresLeadingZeros(k, d[..|d| - 1]);
    }
  }

  /** A zero-padded rendering reads back as the number it renders. */
  lemma ParseZeroPadded(n: nat, width: nat)
    ensures ParseInt(ZeroPadded(n, width)) == Some(n)
  {
    var digits := ShowNat(n);
    DecimalValueOfShowNat(n);
    if |digits| < width {
      DecimalValueIgnoresLeadingZeros(width - |digits|, digits);
    }
  }
}
