/** Fibonacci retracement and extension levels of a price history
    (src/app/processor.py). The bar history is a frame of (High, Low) rows
    whose column set may lack a column; prices are exact reals and round(., 2)
    is a parameter constrained by Rounding.IsCentRounding. */
module Processor {
  import opened Results
  import opened Decimal
  import opened Rounding

  /** The method used when the caller names none. */
  const DEFAULT_METHOD := "retracement"

  /** The retracement ratios, in table order. */
  const RETRACEMENT_LEVELS: seq<real> := [0.236, 0.382, 0.5, 0.618, 0.786]
  /** The extension ratios, in table order. */
  const EXTENSION_LEVELS: seq<real> := [1.272, 1.618, 2.0, 2.618]

  /** One row of the history: only its High and Low are read. */
  datatype Bar = Bar(high: real, low: real)

  /** The history as a data frame: the column names it carries and its rows. */
  datatype Frame = Frame(columns: set<string>, bars: seq<Bar>)

  datatype Kind = Retracement | Extension

  /** The swing bounds the levels are measured from. */
  datatype Swing = Swing(high: real, low: real)

  /** The method names the calculator accepts. */
  function KindOf(name: string): (k: Option<Kind>)
    ensures k == Some(Retracement) <==> name == "retracement"
    ensures k == Some(Extension) <==> name == "extension"
  {
    if name == "retracement" then Some(Retracement)
    else if name == "extension" then Some(Extension)
    else None
  }

  function Ratios(k: Kind): seq<real> {
    match k
    case Retracement => RETRACEMENT_LEVELS
    case Extension => EXTENSION_LEVELS
  }

  /** A retracement label: the ratio as a percentage truncated to an integer. */
  function RetracementLabel(r: real): string {
    IntToString(Truncate(r * 100.0)) + "%"
  }

  /** A retracement label is the decimal text of int(r * 100) followed by "%". */
  lemma RetracementLabelValue(r: real)
    requires 0.0 <= r
    ensures var s := RetracementLabel(r);
      |s| >= 2 && s[|s| - 1] == '%' && ParseNat(s[..|s| - 1]) == Some(Truncate(r * 100.0))
  {
    var digits := IntToString(Truncate(r * 100.0));
    IntToStringValue(Truncate(r * 100.0));
    assert RetracementLabel(r)[..|digits|] == digits;
  }

  /** An extension label: the ratio with three decimals and an "x". */
  function ExtensionLabel(r: real): string {
    FormatFixed3(r) + "x"
  }

  /** An extension label is r rounded to the nearest thousandth t, written
      as t / 1000, a point, t % 1000 in three digits, then "x". */
  lemma ExtensionLabelValue(r: real)
    requires 0.0 <= r
    ensures var s := ExtensionLabel(r);
      var t := RoundHalfEven(r * 1000.0);
      && |s| >= 6 && s[|s| - 1] == 'x' && s[|s| - 5] == '.'
      && ParseNat(s[..|s| - 5]) == Some(t / 1000)
      && AllDigits(s[|s| - 4..|s| - 1]) && DigitsValue(s[|s| - 4..|s| - 1]) == t % 1000
  {
    var text := FormatFixed3(r);
    FormatFixed3Digits(r);
    assert ExtensionLabel(r)[..|text| - 4] == text[..|text| - 4];
    assert ExtensionLabel(r)[|text| - 3..|text|] == text[|text| - 3..];
  }

  function Label(k: Kind, r: real): string {
    match k
    case Retracement => RetracementLabel(r)
    case Extension => ExtensionLabel(r)
  }

  /** The unrounded retracement price: ratio r of the range back down from the high. */
  function RetracementPrice(high: real, low: real, r: real): (p: real)
    ensures r == 0.0 ==> p == high
    ensures r == 1.0 ==> p == low
  {
    high - (high - low) * r
  }

  /** The unrounded extension price: ratio r - 1 of the range beyond the high. */
  function ExtensionPrice(high: real, low: real, r: real): (p: real)
    ensures r == 1.0 ==> p == high
    ensures r == 2.0 ==> p == high + (high - low)
  {
    high + (high - low) * (r - 1.0)
  }

  function Price(k: Kind, high: real, low: real, r: real): real {
    match k
    case Retracement => RetracementPrice(high, low, r)
    case Extension => ExtensionPrice(high, low, r)
  }

  /** The label-to-price map built by inserting the ratios in order. */
  function Tabulate(k: Kind, ratios: seq<real>, high: real, low: real, round: real -> real): map<string, real>
    decreases |ratios|
  {
    if ratios == [] then map[]
    else
      var r := ratios[|ratios| - 1];
      Tabulate(k, ratios[..|ratios| - 1], high, low, round)[Label(k, r) := round(Price(k, high, low, r))]
  }

  /** One more ratio inserts one more entry. */
  lemma TabulateStep(k: Kind, ratios: seq<real>, i: nat, high: real, low: real, round: real -> real)
    requires i < |ratios|
    ensures Tabulate(k, ratios[..i + 1], high, low, round)
         == Tabulate(k, ratios[..i], high, low, round)[Label(k, ratios[i]) := round(Price(k, high, low, ratios[i]))]
  {
    assert ratios[..i + 1][..i] == ratios[..i];
  }

  /** The largest value of a non-empty column (pandas Series.max). */
  function ColumnMax(xs: seq<real>): (m: real)
    requires |xs| > 0
    ensures m in xs
    ensures forall i :: 0 <= i < |xs| ==> xs[i] <= m
    decreases |xs|
  {
    if |xs| == 1 then xs[0]
    else
      var rest := ColumnMax(xs[1..]);
      assert forall i :: 1 <= i < |xs| ==> xs[i] == xs[1..][i - 1];
      if xs[0] >= rest then xs[0] else rest
  }

  /** The smallest value of a non-empty column (pandas Series.min). */
  function ColumnMin(xs: seq<real>): (m: real)
    requires |xs| > 0
    ensures m in xs
    ensures forall i :: 0 <= i < |xs| ==> m <= xs[i]
    decreases |xs|
  {
    if |xs| == 1 then xs[0]
    else
      var rest := ColumnMin(xs[1..]);
      assert forall i :: 1 <= i < |xs| ==> xs[i] == xs[1..][i - 1];
      if xs[0] <= rest then xs[0] else rest
  }

  function Highs(bars: seq<Bar>): (hs: seq<real>)
    ensures |hs| == |bars| && forall i :: 0 <= i < |bars| ==> hs[i] == bars[i].high
  {
    seq(|bars|, i requires 0 <= i < |bars| => bars[i].high)
  }

  function Lows(bars: seq<Bar>): (ls: seq<real>)
    ensures |ls| == |bars| && forall i :: 0 <= i < |bars| ==> ls[i] == bars[i].low
  {
    seq(|bars|, i requires 0 <= i < |bars| => bars[i].low)
  }

  /** A column the calculator falls back to is never empty: the maximum of an
      empty column is NaN, which exact reals cannot express. */
  predicate SwingDefined(data: Frame, swingHigh: Option<real>, swingLow: Option<real>) {
    && (swingHigh.None? && "High" in data.columns ==> |data.bars| > 0)
    && (swingLow.None? && "Low" in data.columns ==> |data.bars| > 0)
  }

  /** The swing bounds: each explicit value as given, each absent one from its
      column; a missing column is the KeyError that makes the call return {}. */
  function ResolveSwing(data: Frame, swingHigh: Option<real>, swingLow: Option<real>): (r: Result<Swing, string>)
    requires SwingDefined(data, swingHigh, swingLow)
    ensures r.Failure? <==> (swingHigh.None? && "High" !in data.columns) || (swingLow.None? && "Low" !in data.columns)
    ensures r.Success? && swingHigh.Some? ==> r.value.high == swingHigh.value
    ensures r.Success? && swingLow.Some? ==> r.value.low == swingLow.value
  {
    if swingHigh.None? && "High" !in data.columns then Failure("High")
    else if swingLow.None? && "Low" !in data.columns then Failure("Low")
    else
      var high := if swingHigh.Some? then swingHigh.value else ColumnMax(Highs(data.bars));
      var low := if swingLow.Some? then swingLow.value else ColumnMin(Lows(data.bars));
      Success(Swing(high, low))
  }

  /** calculate_fibonacci_levels: the levels of the named method, or the empty
      map for an unknown method or a failed computation. */
  function FibonacciLevels(data: Frame, name: string, swingHigh: Option<real>, swingLow: Option<real>,
                           round: real -> real): (levels: map<string, real>)
    requires SwingDefined(data, swingHigh, swingLow)
    ensures levels != map[] ==> KindOf(name).Some? && ResolveSwing(data, swingHigh, swingLow).Success?
  {
    match ResolveSwing(data, swingHigh, swingLow)
    case Failure(_) => map[]
    case Success(s) =>
      match KindOf(name)
      case None => map[]
      case Some(k) => Tabulate(k, Ratios(k), s.high, s.low, round)
  }

  /** Once the swing is resolved and the method recognised, the levels are that method's table. */
  lemma LevelsOfSwing(data: Frame, name: string, swingHigh: Option<real>, swingLow: Option<real>,
                      round: real -> real, s: Swing, k: Kind)
    requires SwingDefined(data, swingHigh, swingLow)
    requires ResolveSwing(data, swingHigh, swingLow) == Success(s)
    requires KindOf(name) == Some(k)
    ensures FibonacciLevels(data, name, swingHigh, swingLow, round) == Tabulate(k, Ratios(k), s.high, s.low, round)
  {
  }

  /** The calculator as the source runs it: resolve the swing, then fill the
      map one ratio at a time. */
  method CalculateFibonacciLevels(data: Frame, name: string, swingHigh: Option<real>, swingLow: Option<real>,
                                  round: real -> real) returns (levels: map<string, real>)
    requires SwingDefined(data, swingHigh, swingLow)
    ensures levels == FibonacciLevels(data, name, swingHigh, swingLow, round)
  {
    var high: real, low: real;
    if swingHigh.None? {
      if "High" !in data.columns {
        return map[];
      }
      high := ColumnMax(Highs(data.bars));
    } else {
      high := swingHigh.value;
    }
    if swingLow.None? {
      if "Low" !in data.columns {
        return map[];
      }
      low := ColumnMin(Lows(data.bars));
    } else {
      low := swingLow.value;
    }
    ghost var swing := Swing(high, low);
    assert ResolveSwing(data, swingHigh, swingLow) == Success(swing);

    levels := map[];
    if name == "retracement" {
      for i := 0 to |RETRACEMENT_LEVELS|
        invariant levels == Tabulate(Retracement, RETRACEMENT_LEVELS[..i], high, low, round)
      {
        var level := RETRACEMENT_LEVELS[i];
        var price := RetracementPrice(high, low, level);
        TabulateStep(Retracement, RETRACEMENT_LEVELS, i, high, low, round);
        levels := levels[RetracementLabel(level) := round(price)];
      }
      assert RETRACEMENT_LEVELS[..|RETRACEMENT_LEVELS|] == RETRACEMENT_LEVELS;
      LevelsOfSwing(data, name, swingHigh, swingLow, round, swing, Retracement);
    } else if name == "extension" {
      for i := 0 to |EXTENSION_LEVELS|
        invariant levels == Tabulate(Extension, EXTENSION_LEVELS[..i], high, low, round)
      {
        var level := EXTENSION_LEVELS[i];
        var price := ExtensionPrice(high, low, level);
        TabulateStep(Extension, EXTENSION_LEVELS, i, high, low, round);
        levels := levels[ExtensionLabel(level) := round(price)];
      }
      assert EXTENSION_LEVELS[..|EXTENSION_LEVELS|] == EXTENSION_LEVELS;
      LevelsOfSwing(data, name, swingHigh, swingLow, round, swing, Extension);
    } else {
      return map[];
    }
  }
}
