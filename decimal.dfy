/** Python's `float(s)` on decimal text, computed exactly: an optional
    sign, digits with an optional fractional part, and an optional
    exponent. */
module Decimal {
  import opened Text
  import opened Values

  predicate IsDigit(c: char) {
    '0' <= c <= '9'
  }

  /** The end of the run of digits that starts at `i`. */
  function DigitRun(s: string, i: nat): (j: nat)
    requires i <= |s|
    ensures i <= j <= |s|
    ensures forall k :: i <= k < j ==> IsDigit(s[k])
    ensures j == |s| || !IsDigit(s[j])
    decreases |s| - i
  {
    if i < |s| && IsDigit(s[i]) then DigitRun(s, i + 1) else i
  }

  function Pow10(n: nat): (r: nat)
    ensures r >= 1
  {
    if n == 0 then 1 else 10 * Pow10(n - 1)
  }

  /** `x` times ten to the power `e`. */
  function Scale(x: real, e: int): real {
    if e >= 0 then x * Pow10(e) as real else x / Pow10(-e) as real
  }

  /** The value of the digits `s[i..j]`. */
  function RunValue(s: string, i: nat, j: nat): nat
    requires i <= j <= |s|
    requires forall k :: i <= k < j ==> IsDigit(s[k])
  {
    assert forall k :: 0 <= k < j - i ==> '0' <= s[i..j][k] <= '9' by {
      forall k | 0 <= k < j - i ensures '0' <= s[i..j][k] <= '9' {
        assert IsDigit(s[i + k]);
      }
    }
    DigitsValue(s[i..j])
  }

  /** The position after an optional sign at `i`, and whether it was '-'. */
  function SignAt(s: string, i: nat): (r: (bool, nat))
    requires i <= |s|
    ensures i <= r.1 <= |s|
  {
    if i < |s| && (s[i] == '+' || s[i] == '-') then (s[i] == '-', i + 1) else (false, i)
  }

  /** The value of `s`, or None where `float(s)` raises ValueError. */
  function ParseFloat(s: string): Option<real> {
    var (negative, a) := SignAt(s, 0);
    var b := DigitRun(s, a);
    var c := if b < |s| && s[b] == '.' then b + 1 else b;
    var d := if c > b then DigitRun(s, c) else c;
    if b == a && d == c then None
    else
      var mantissa := (RunValue(s, a, b) * Pow10(d - c) + RunValue(s, c, d)) as real;
      var sign := if negative then -1.0 else 1.0;
      if d == |s| then Some(sign * Scale(mantissa, -(d - c)))
      else if s[d] != 'e' && s[d] != 'E' then None
      else
        var (expNegative, f) := SignAt(s, d + 1);
        var g := DigitRun(s, f);
        if g == f || g < |s| then None
        else
          var e: int := RunValue(s, f, g);
          Some(sign * Scale(mantissa, (if expNegative then -e else e) - (d - c)))
  }

  /** The decimal rendering of a natural number reads back as that number. */
  lemma ParseNatural(n: nat)
    ensures ParseFloat(NatToString(n)) == Some(n as real)
  {
    DigitsParse(NatToString(n));
    NatToStringRoundTrip(n);
  }

  /** A run of digits alone reads as its value. */
  lemma DigitsParse(s: string)
    requires |s| >= 1 && forall k :: 0 <= k < |s| ==> '0' <= s[k] <= '9'
    ensures ParseFloat(s) == Some(DigitsValue(s) as real)
  {
    assert SignAt(s, 0) == (false, 0);
    assert DigitRun(s, 0) == |s|;
    assert s[0..|s|] == s;
    assert RunValue(s, 0, |s|) == DigitsValue(s);
    assert RunValue(s, |s|, |s|) == 0;
    var v := DigitsValue(s);
    assert Pow10(0) == 1;
    assert (v * Pow10(0) + 0) as real == v as real;
    assert Scale(v as real, -0) == v as real;
  }

  /** `a` plus `b` tenths to the `n`: the value of `n` fractional digits
      worth `b` after a whole part `a`. */
  function Fraction(a: nat, b: nat, n: nat): real {
    a as real + b as real / Pow10(n) as real
  }

  /** Digits, a point at `b` and digits read as the whole part plus the
      fraction: the digits after the point over ten to their number. */
  lemma DecimalParse(s: string, b: nat)
    requires b < |s| && s[b] == '.' && |s| >= 2
    requires forall k :: 0 <= k < |s| && k != b ==> '0' <= s[k] <= '9'
    ensures ParseFloat(s) == Some(Fraction(DigitsValue(s[..b]), DigitsValue(s[b + 1..]), |s| - b - 1))
  {
    RunTo(s, 0, b);
    RunTo(s, b + 1, |s|);
    PointMantissa(s, b);
    FractionValue(RunValue(s, 0, b), RunValue(s, b + 1, |s|), |s| - b - 1);
    assert s[0..b] == s[..b] && s[b + 1..|s|] == s[b + 1..];
    assert RunValue(s, 0, b) == DigitsValue(s[..b]);
    assert RunValue(s, b + 1, |s|) == DigitsValue(s[b + 1..]);
  }

  /** The digits `a`, a point and the `n` digits valued `c`, read as one
      mantissa and scaled down by ten to the `n`. */
  function PointValue(a: nat, c: nat, n: nat): real {
    1.0 * Scale((a * Pow10(n) + c) as real, -(n as int))
  }

  /** Text that is digits, a point and digits up to its end reads as its
      digits without the point, scaled down. */
  lemma PointMantissa(s: string, b: nat)
    requires b < |s| && s[b] == '.' && (b > 0 || |s| > b + 1)
    requires forall k :: 0 <= k < b ==> IsDigit(s[k])
    requires DigitRun(s, 0) == b && DigitRun(s, b + 1) == |s|
    ensures ParseFloat(s) == Some(PointValue(RunValue(s, 0, b), RunValue(s, b + 1, |s|), |s| - b - 1))
  {
    assert SignAt(s, 0) == (false, 0) by {
      if b > 0 {
        assert IsDigit(s[0]);
      }
    }
  }

  /** The digit run from `i` ends at `j` when `s[i..j]` is digits followed
      by the end or a non-digit. */
  lemma {:induction false} RunTo(s: string, i: nat, j: nat)
    requires i <= j <= |s|
    requires forall k :: i <= k < j ==> IsDigit(s[k])
    requires j == |s| || !IsDigit(s[j])
    ensures DigitRun(s, i) == j
    decreases j - i
  {
    if i < j {
      RunTo(s, i + 1, j);
    }
  }

  /** Scaling the mantissa of `a` and the `n` digits valued `b` down by
      ten to the `n`. */
  lemma FractionValue(a: nat, b: nat, n: nat)
    ensures PointValue(a, b, n) == Fraction(a, b, n)
  {
    var p := Pow10(n);
    assert (a * p + b) as real == a as real * p as real + b as real;
    if n == 0 {
      assert p == 1;
    } else {
      DivideSum(a as real, p as real, b as real);
    }
  }

  lemma DivideSum(x: real, p: real, y: real)
    requires p > 0.0
    ensures (x * p + y) / p == x + y / p
  {
  }

  /** Text without any digit is not a number. */
  lemma NoDigitsNoNumber(s: string)
    requires forall k :: 0 <= k < |s| ==> !IsDigit(s[k])
    ensures ParseFloat(s) == None
  {
  }

  lemma ExampleFraction()
    ensures ParseFloat("0.85") == Some(0.85)
  {
    assert Pow10(2) == 100;
  }

  lemma ExampleLeadingDot()
    ensures ParseFloat(".5") == Some(0.5)
  {
  }

  lemma ExampleTrailingDot()
    ensures ParseFloat("1.") == Some(1.0)
  {
  }

  lemma ExampleExponent()
    ensures ParseFloat("-2.5e1") == Some(-25.0)
  {
  }

  lemma ExampleLoneDot()
    ensures ParseFloat(".") == None
  {
  }

  lemma ExampleBareExponent()
    ensures ParseFloat("1e") == None
  {
  }

  lemma ExampleInnerSpace()
    ensures ParseFloat("85 %") == None
  {
  }
}
