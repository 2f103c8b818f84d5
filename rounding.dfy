/** Exact-real stand-ins for Python's numeric conversions: int() truncation,
    the ".3f" format, and round(x, 2). Prices are exact reals here, so the
    binary-float representation error of the source is not modelled. */
module Rounding {
  import opened Results
  import opened Decimal

  /** int(x): truncation toward zero. */
  function Truncate(x: real): (i: int)
    ensures 0.0 <= x ==> i as real <= x < i as real + 1.0
    ensures x < 0.0 ==> i as real - 1.0 < x <= i as real
  {
    if x >= 0.0 then x.Floor else -((-x).Floor)
  }

  /** The integer nearest to x, ties going to the even neighbour. */
  function RoundHalfEven(x: real): (n: int)
    ensures -0.5 <= n as real - x <= 0.5
    ensures n as real - x == 0.5 || x - n as real == 0.5 ==> n % 2 == 0
  {
    var f := x.Floor;
    var frac := x - f as real;
    if frac < 0.5 then f
    else if frac > 0.5 then f + 1
    else if f % 2 == 0 then f
    else f + 1
  }

  lemma RoundHalfEvenOfInt(k: int)
    ensures RoundHalfEven(k as real) == k
  {
  }

  lemma RoundHalfEvenMonotone(x: real, y: real)
    requires x <= y
    ensures RoundHalfEven(x) <= RoundHalfEven(y)
  {
    var fx, fy := x.Floor, y.Floor;
    if fx == fy {
      assert x - fx as real <= y - fy as real;
    } else {
      assert fx < fy;
      assert RoundHalfEven(x) <= fx + 1 <= fy <= RoundHalfEven(y);
    }
  }

  /** f"{x:.3f}": sign, whole part, a point and three rounded decimals. */
  function FormatFixed3(x: real): (s: string)
    ensures |s| >= 5
    decreases if x < 0.0 then 1 else 0
  {
    if x < 0.0 then "-" + FormatFixed3(-x)
    else
      var t := RoundHalfEven(x * 1000.0);
      NatToString(t / 1000) + "." + Pad3(t % 1000)
  }

  /** For y >= 0 the text is the whole part and three decimals of y's nearest
      thousandth t: t / 1000 before the point and t % 1000 after it. */
  lemma FormatFixed3Digits(y: real)
    requires 0.0 <= y
    ensures var s := FormatFixed3(y);
      var t := RoundHalfEven(y * 1000.0);
      && |s| >= 5 && s[|s| - 4] == '.'
      && ParseNat(s[..|s| - 4]) == Some(t / 1000)
      && AllDigits(s[|s| - 3..]) && DigitsValue(s[|s| - 3..]) == t % 1000
  {
    var t := RoundHalfEven(y * 1000.0);
    var whole, fraction := NatToString(t / 1000), Pad3(t % 1000);
    var s := FormatFixed3(y);
    assert s == whole + "." + fraction;
    assert s[..|s| - 4] == whole;
    assert s[|s| - 3..] == fraction;
    ParseNatToString(t / 1000);
    Pad3Value(t % 1000);
  }

  /** The text is the value rounded to three decimals: a sign exactly for
      negative values, then the text FormatFixed3Digits gives the magnitude. */
  lemma FormatFixed3Value(x: real)
    ensures var s := FormatFixed3(x);
      && ((s[0] == '-') <==> x < 0.0)
      && (x < 0.0 ==> s[1..] == FormatFixed3(-x))
  {
    if x < 0.0 {
      assert FormatFixed3(x)[1..] == FormatFixed3(-x);
    }
  }

  /** x is a whole number of cents: a value that round(., 2) leaves as it is. */
  predicate IsCent(x: real) {
    (x * 100.0).Floor as real == x * 100.0
  }

  /** What round(., 2) promises, up to the choice made at a tie: the result is
      a whole number of cents, at most half a cent away from the argument, and
      rounding never reverses the order of two prices. */
  ghost predicate IsCentRounding(round: real -> real) {
    && (forall x :: IsCent(round(x)) && -0.005 <= round(x) - x <= 0.005)
    && (forall x, y :: x <= y ==> round(x) <= round(y))
  }

  /** A cent value is its own rounding: two distinct cent values are at least a cent apart. */
  lemma CentRoundingFixesCents(round: real -> real, x: real)
    requires IsCentRounding(round)
    requires IsCent(x)
    ensures round(x) == x
  {
    var r := round(x);
    assert IsCent(r) && -0.005 <= r - x <= 0.005;
    var a, b := (r * 100.0).Floor, (x * 100.0).Floor;
    assert a as real - b as real == (r - x) * 100.0;
    assert -1 < a - b < 1;
  }

  /** round(x, 2) on exact reals, ties to even (Python's rule for ties). */
  function RoundCents(x: real): real {
    RoundHalfEven(x * 100.0) as real / 100.0
  }

  /** RoundCents is a cent rounding, so the contract IsCentRounding can be met. */
  lemma RoundCentsIsCentRounding()
    ensures IsCentRounding(RoundCents)
  {
    forall x
      ensures IsCent(RoundCents(x)) && -0.005 <= RoundCents(x) - x <= 0.005
    {
      var n := RoundHalfEven(x * 100.0);
      assert RoundCents(x) * 100.0 == n as real;
      RoundHalfEvenOfInt(n);
    }
    forall x, y | x <= y
      ensures RoundCents(x) <= RoundCents(y)
    {
      RoundHalfEvenMonotone(x * 100.0, y * 100.0);
    }
  }
}
