/** What the Fibonacci calculator of src/app/processor.py promises: the exact
    label sets and formulas, where the levels lie relative to the swing before
    and after rounding, the error returns, and a worked example. */
module ProcessorProperties {
  import opened Results
  import opened Decimal
  import opened Rounding
  import opened Processor

  /** Truncation, not rounding, picks the retracement labels (0.786 is "78%"). */
  lemma RetracementLabels()
    ensures RetracementLabel(0.236) == "23%" && RetracementLabel(0.382) == "38%"
    ensures RetracementLabel(0.5) == "50%" && RetracementLabel(0.618) == "61%"
    ensures RetracementLabel(0.786) == "78%"
  {
    assert Truncate(0.236 * 100.0) == 23 && Truncate(0.382 * 100.0) == 38;
    assert Truncate(0.5 * 100.0) == 50 && Truncate(0.618 * 100.0) == 61;
    assert Truncate(0.786 * 100.0) == 78;
  }

  lemma ExtensionLabels()
    ensures ExtensionLabel(1.272) == "1.272x" && ExtensionLabel(1.618) == "1.618x"
    ensures ExtensionLabel(2.0) == "2.000x" && ExtensionLabel(2.618) == "2.618x"
  {
    assert RoundHalfEven(1.272 * 1000.0) == 1272 && RoundHalfEven(1.618 * 1000.0) == 1618;
    assert RoundHalfEven(2.0 * 1000.0) == 2000 && RoundHalfEven(2.618 * 1000.0) == 2618;
    assert Pad3(0) == "000";
  }

  /** The retracement table as Tabulate builds it, each price still in terms
      of RetracementPrice. RetracementTable below writes the prices out; the
      two steps are kept apart so that each proof stays small. */
  lemma RetracementTableByPrice(high: real, low: real, round: real -> real)
    ensures Tabulate(Retracement, RETRACEMENT_LEVELS, high, low, round) == map[
      "23%" := round(RetracementPrice(high, low, 0.236)),
      "38%" := round(RetracementPrice(high, low, 0.382)),
      "50%" := round(RetracementPrice(high, low, 0.5)),
      "61%" := round(RetracementPrice(high, low, 0.618)),
      "78%" := round(RetracementPrice(high, low, 0.786))]
  {
    var t := RETRACEMENT_LEVELS;
    RetracementLabels();
    assert t[..0] == [];
    TabulateStep(Retracement, t, 0, high, low, round);
    TabulateStep(Retracement, t, 1, high, low, round);
    TabulateStep(Retracement, t, 2, high, low, round);
    TabulateStep(Retracement, t, 3, high, low, round);
    TabulateStep(Retracement, t, 4, high, low, round);
    assert t[..5] == t;
  }

  /** The retracement table: exactly five levels, each the rounded price
      high - (high - low) * r of its ratio r. */
  lemma RetracementTable(h: real, l: real, round: real -> real)
    ensures Tabulate(Retracement, RETRACEMENT_LEVELS, h, l, round) == map[
      "23%" := round(h - (h - l) * 0.236),
      "38%" := round(h - (h - l) * 0.382),
      "50%" := round(h - (h - l) * 0.5),
      "61%" := round(h - (h - l) * 0.618),
      "78%" := round(h - (h - l) * 0.786)]
  {
    RetracementTableByPrice(h, l, round);
  }

  /** The extension table: exactly four levels, each the rounded price
      high + (high - low) * (r - 1) of its ratio r; "2.000x" is the high plus
      the whole range. */
  lemma ExtensionTable(h: real, l: real, round: real -> real)
    ensures Tabulate(Extension, EXTENSION_LEVELS, h, l, round) == map[
      "1.272x" := round(h + (h - l) * 0.272),
      "1.618x" := round(h + (h - l) * 0.618),
      "2.000x" := round(h + (h - l)),
      "2.618x" := round(h + (h - l) * 1.618)]
  {
    assert ExtensionPrice(h, l, 1.272) == h + (h - l) * 0.272;
    assert ExtensionPrice(h, l, 1.618) == h + (h - l) * 0.618;
    assert ExtensionPrice(h, l, 2.0) == h + (h - l);
    assert ExtensionPrice(h, l, 2.618) == h + (h - l) * 1.618;
    var t := EXTENSION_LEVELS;
    ExtensionLabels();
    assert t[..0] == [];
    TabulateStep(Extension, t, 0, h, l, round);
    TabulateStep(Extension, t, 1, h, l, round);
    TabulateStep(Extension, t, 2, h, l, round);
    TabulateStep(Extension, t, 3, h, l, round);
    assert t[..4] == t;
  }

  /** An absent swing high is the highest High of the history and an absent
      swing low the lowest Low, each decided without looking at the other. */
  lemma DefaultSwingIsExtreme(data: Frame, swingHigh: Option<real>, swingLow: Option<real>)
    requires SwingDefined(data, swingHigh, swingLow)
    requires ResolveSwing(data, swingHigh, swingLow).Success?
    ensures var s := ResolveSwing(data, swingHigh, swingLow).value;
      && (swingHigh.None? ==>
            (exists i :: 0 <= i < |data.bars| && data.bars[i].high == s.high) &&
            (forall i :: 0 <= i < |data.bars| ==> data.bars[i].high <= s.high))
      && (swingLow.None? ==>
            (exists i :: 0 <= i < |data.bars| && data.bars[i].low == s.low) &&
            (forall i :: 0 <= i < |data.bars| ==> s.low <= data.bars[i].low))
  {
    var s := ResolveSwing(data, swingHigh, swingLow).value;
    if swingHigh.None? {
      var hs := Highs(data.bars);
      var k :| 0 <= k < |hs| && hs[k] == s.high;
      assert data.bars[k].high == s.high;
    }
    if swingLow.None? {
      var ls := Lows(data.bars);
      var k :| 0 <= k < |ls| && ls[k] == s.low;
      assert data.bars[k].low == s.low;
    }
  }

  /** Every retracement ratio lies strictly between 0 and 1, and the table is strictly increasing. */
  lemma RetracementRatios(i: nat, j: nat)
    requires i < j < |RETRACEMENT_LEVELS|
    ensures 0.0 < RETRACEMENT_LEVELS[i] < RETRACEMENT_LEVELS[j] < 1.0
  {
  }

  /** Every extension ratio exceeds 1, and the table is strictly increasing. */
  lemma ExtensionRatios(i: nat, j: nat)
    requires i < j < |EXTENSION_LEVELS|
    ensures 1.0 < EXTENSION_LEVELS[i] < EXTENSION_LEVELS[j]
  {
  }

  /** A wider ratio of a positive range is a wider distance. */
  lemma ScaleMonotone(d: real, r: real, q: real)
    requires d > 0.0 && r < q
    ensures d * r < d * q
  {
    assert d * q - d * r == d * (q - r);
    assert d * (q - r) > 0.0;
  }

  /** With high > low, every unrounded retracement price lies strictly inside
      the swing, and the prices strictly decrease in table order; with
      high == low every level is the high. */
  lemma RetracementWithinSwing(high: real, low: real, i: nat, j: nat)
    requires i < j < |RETRACEMENT_LEVELS|
    ensures var pi, pj := RetracementPrice(high, low, RETRACEMENT_LEVELS[i]), RetracementPrice(high, low, RETRACEMENT_LEVELS[j]);
      (high > low ==> low < pj < pi < high) &&
      (high == low ==> pi == high && pj == high)
  {
    RetracementRatios(i, j);
    var ri, rj := RETRACEMENT_LEVELS[i], RETRACEMENT_LEVELS[j];
    if high > low {
      var d := high - low;
      ScaleMonotone(d, 0.0, ri);
      ScaleMonotone(d, ri, rj);
      ScaleMonotone(d, rj, 1.0);
    }
  }

  /** With high > low, every unrounded extension price lies strictly above the
      high, and the prices strictly increase in table order. */
  lemma ExtensionAboveSwing(high: real, low: real, i: nat, j: nat)
    requires i < j < |EXTENSION_LEVELS|
    ensures var pi, pj := ExtensionPrice(high, low, EXTENSION_LEVELS[i]), ExtensionPrice(high, low, EXTENSION_LEVELS[j]);
      (high > low ==> high < pi < pj) &&
      (high == low ==> pi == high && pj == high)
  {
    ExtensionRatios(i, j);
    var ri, rj := EXTENSION_LEVELS[i], EXTENSION_LEVELS[j];
    if high > low {
      var d := high - low;
      ScaleMonotone(d, 0.0, ri - 1.0);
      ScaleMonotone(d, ri - 1.0, rj - 1.0);
    }
  }

  /** The calculator returns no levels exactly when the method is unknown or a
      column it needed is missing; a successful call is never empty. */
  lemma EmptyExactlyOnError(data: Frame, name: string, swingHigh: Option<real>, swingLow: Option<real>,
                            round: real -> real)
    requires SwingDefined(data, swingHigh, swingLow)
    ensures FibonacciLevels(data, name, swingHigh, swingLow, round) == map[] <==>
      KindOf(name).None? || ResolveSwing(data, swingHigh, swingLow).Failure?
  {
    var r := ResolveSwing(data, swingHigh, swingLow);
    if r.Success? && KindOf(name).Some? {
      var k := KindOf(name).value;
      LevelsOfSwing(data, name, swingHigh, swingLow, round, r.value, k);
      TableNonEmpty(k, r.value.high, r.value.low, round);
    }
  }

  lemma TableNonEmpty(k: Kind, high: real, low: real, round: real -> real)
    ensures Tabulate(k, Ratios(k), high, low, round) != map[]
  {
    match k
    case Retracement =>
      RetracementTable(high, low, round);
      assert "23%" in Tabulate(k, Ratios(k), high, low, round);
    case Extension =>
      ExtensionTable(high, low, round);
      assert "1.272x" in Tabulate(k, Ratios(k), high, low, round);
  }

  /** After rounding, the retracement levels of a swing with high >= low lie
      between the rounded low and the rounded high, and between low and high
      themselves when those are whole cents. */
  lemma RoundedRetracementWithinSwing(high: real, low: real, round: real -> real)
    requires IsCentRounding(round)
    requires high >= low
    ensures var m := Tabulate(Retracement, RETRACEMENT_LEVELS, high, low, round);
      (forall key | key in m :: round(low) <= m[key] <= round(high)) &&
      (IsCent(low) && IsCent(high) ==> forall key | key in m :: low <= m[key] <= high)
  {
    var m := Tabulate(Retracement, RETRACEMENT_LEVELS, high, low, round);
    RetracementTable(high, low, round);
    var d := high - low;
    forall r | r in RETRACEMENT_LEVELS
      ensures round(low) <= round(high - d * r) <= round(high)
    {
      assert 0.0 <= r <= 1.0;
      assert 0.0 <= d * r <= d by {
        if d > 0.0 {
          ScaleMonotone(d, 0.0, r);
          ScaleMonotone(d, r, 1.0);
        }
      }
    }
    assert forall key | key in m :: round(low) <= m[key] <= round(high);
    if IsCent(low) && IsCent(high) {
      CentRoundingFixesCents(round, low);
      CentRoundingFixesCents(round, high);
    }
  }

  /** After rounding, the extension levels of a swing with high >= low are at
      least the rounded high, and at least the high itself when it is whole cents. */
  lemma RoundedExtensionAboveSwing(high: real, low: real, round: real -> real)
    requires IsCentRounding(round)
    requires high >= low
    ensures var m := Tabulate(Extension, EXTENSION_LEVELS, high, low, round);
      (forall key | key in m :: round(high) <= m[key]) &&
      (IsCent(high) ==> forall key | key in m :: high <= m[key])
  {
    var m := Tabulate(Extension, EXTENSION_LEVELS, high, low, round);
    ExtensionTable(high, low, round);
    var d := high - low;
    if d > 0.0 {
      ScaleMonotone(d, 0.0, 0.272);
    }
    assert forall key | key in m :: round(high) <= m[key];
    if IsCent(high) {
      CentRoundingFixesCents(round, high);
    }
  }

  /** The history of the worked example: bars (110, 95) and (105, 90). */
  function ExampleFrame(): Frame {
    Frame({"High", "Low"}, [Bar(110.0, 95.0), Bar(105.0, 90.0)])
  }

  /** Its swing is 110 / 90, taken from the columns. */
  lemma ExampleSwing()
    ensures ResolveSwing(ExampleFrame(), None, None) == Success(Swing(110.0, 90.0))
  {
    assert Highs(ExampleFrame().bars) == [110.0, 105.0];
    assert Lows(ExampleFrame().bars) == [95.0, 90.0];
  }

  /** The worked example, retracement: the "61%" level is 110 - 20 * 0.618 = 97.64. */
  lemma WorkedRetracement(round: real -> real)
    requires IsCentRounding(round)
    ensures var retracement := FibonacciLevels(ExampleFrame(), "retracement", None, None, round);
      "61%" in retracement && retracement["61%"] == 97.64
  {
    var m := FibonacciLevels(ExampleFrame(), "retracement", None, None, round);
    ExampleSwing();
    LevelsOfSwing(ExampleFrame(), "retracement", None, None, round, Swing(110.0, 90.0), Retracement);
    assert "61%" in m && m["61%"] == round(97.64) by {
      RetracementTable(110.0, 90.0, round);
    }
    assert IsCent(97.64);
    CentRoundingFixesCents(round, 97.64);
  }

  /** The extension table of the example swing holds "1.618x" at 122.36.
      This is the table-level step of WorkedExtension, which adds the swing
      resolution; keeping the two apart keeps each proof small. */
  lemma ExampleExtensionTable(round: real -> real)
    requires IsCentRounding(round)
    ensures var m := Tabulate(Extension, Ratios(Extension), 110.0, 90.0, round);
      "1.618x" in m && m["1.618x"] == 122.36
  {
    ExtensionTable(110.0, 90.0, round);
    assert IsCent(122.36);
    CentRoundingFixesCents(round, 122.36);
  }

  /** The worked example, extension: the "1.618x" level is 110 + 20 * 0.618 = 122.36. */
  lemma WorkedExtension(round: real -> real)
    requires IsCentRounding(round)
    ensures var extension := FibonacciLevels(ExampleFrame(), "extension", None, None, round);
      "1.618x" in extension && extension["1.618x"] == 122.36
  {
    ExampleSwing();
    LevelsOfSwing(ExampleFrame(), "extension", None, None, round, Swing(110.0, 90.0), Extension);
    ExampleExtensionTable(round);
  }
}
