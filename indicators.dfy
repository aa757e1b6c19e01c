/**
 * The indicator calculator (`calc_indicators`): from a series of daily bars
 * to one row of derived values per bar. Every column is a whole-series
 * expression; an undefined entry (pandas NaN) is None.
 */
module Indicators {
  import opened Wrappers
  import opened Series

  /** One daily bar; the screener reads only its close and its volume. */
  datatype Bar = Bar(close: real, volume: real)

  /** The derived columns at one bar. */
  datatype Row = Row(
    sma5: Option<real>,
    sma20: Option<real>,
    rsi: Option<real>,
    volumeMa5: Option<real>,
    volumeMa20: Option<real>,
    return5d: Option<real>)

  const FAST_WINDOW: nat := 5
  const SLOW_WINDOW: nat := 20
  const RSI_WINDOW: nat := 14
  const RETURN_PERIOD: nat := 5

  function Closes(bars: seq<Bar>): (c: seq<real>)
    ensures |c| == |bars|
    ensures forall i :: 0 <= i < |bars| ==> c[i] == bars[i].close
  {
    seq(|bars|, i requires 0 <= i < |bars| => bars[i].close)
  }

  function Volumes(bars: seq<Bar>): (v: seq<real>)
    ensures |v| == |bars|
    ensures forall i :: 0 <= i < |bars| ==> v[i] == bars[i].volume
  {
    seq(|bars|, i requires 0 <= i < |bars| => bars[i].volume)
  }

  /** `diff()`: the change from the previous close, undefined at the first bar. */
  function Delta(c: seq<real>): (d: seq<Option<real>>)
    ensures |d| == |c|
    ensures forall i :: 0 <= i < |c| ==> d[i] == if i == 0 then None else Some(c[i] - c[i - 1])
  {
    seq(|c|, i requires 0 <= i < |c| => if i == 0 then None else Some(c[i] - c[i - 1]))
  }

  /** `clip(lower=0)` of one step: its rise, the larger of the step and zero; an undefined step stays undefined. */
  function GainOf(d: Option<real>): (g: Option<real>)
    ensures g.Some? <==> d.Some?
    ensures g.Some? ==> g.value >= 0.0 && g.value >= d.value && (g.value == 0.0 || g.value == d.value)
  {
    match d
    case None => None
    case Some(x) => Some(if x > 0.0 then x else 0.0)
  }

  /** `-clip(upper=0)` of one step: its fall, the larger of the negated step and zero. */
  function LossOf(d: Option<real>): (l: Option<real>)
    ensures l.Some? <==> d.Some?
    ensures l.Some? ==> l.value >= 0.0 && l.value >= -d.value && (l.value == 0.0 || l.value == -d.value)
  {
    match d
    case None => None
    case Some(x) => Some(if x < 0.0 then -x else 0.0)
  }

  /** A step splits into a gain and a loss that are both non-negative, at most one of them non-zero. */
  lemma GainLossSplit(d: Option<real>)
    ensures GainOf(d).Some? == d.Some? && LossOf(d).Some? == d.Some?
    ensures d.Some? ==> GainOf(d).value >= 0.0 && LossOf(d).value >= 0.0
    ensures d.Some? ==> GainOf(d).value - LossOf(d).value == d.value
    ensures d.Some? && d.value > 0.0 ==> LossOf(d).value == 0.0
    ensures d.Some? && d.value < 0.0 ==> GainOf(d).value == 0.0
  {
  }

  function Gains(c: seq<real>): (g: seq<Option<real>>)
    ensures |g| == |c|
    ensures forall i :: 0 <= i < |c| ==> g[i] == GainOf(Delta(c)[i])
  {
    var d := Delta(c);
    seq(|c|, i requires 0 <= i < |c| => GainOf(d[i]))
  }

  function Losses(c: seq<real>): (l: seq<Option<real>>)
    ensures |l| == |c|
    ensures forall i :: 0 <= i < |c| ==> l[i] == LossOf(Delta(c)[i])
  {
    var d := Delta(c);
    seq(|c|, i requires 0 <= i < |c| => LossOf(d[i]))
  }

  /** `gain.rolling(14).mean()`: never negative where defined. */
  function AverageGain(c: seq<real>): (a: seq<Option<real>>)
    ensures |a| == |c|
    ensures forall i :: 0 <= i < |c| && a[i].Some? ==> a[i].value >= 0.0
  {
    RollingNonNegative(Gains(c), RSI_WINDOW);
    Rolling(Gains(c), RSI_WINDOW)
  }

  /** `loss.rolling(14).mean()`: never negative where defined. */
  function AverageLoss(c: seq<real>): (a: seq<Option<real>>)
    ensures |a| == |c|
    ensures forall i :: 0 <= i < |c| && a[i].Some? ==> a[i].value >= 0.0
  {
    RollingNonNegative(Losses(c), RSI_WINDOW);
    Rolling(Losses(c), RSI_WINDOW)
  }

  /**
   * `100 - 100 / (1 + avgGain / avgLoss)` with the floating-point edge cases
   * written out: an undefined average gives NaN; a zero average loss with a
   * positive average gain gives +inf for the ratio and so exactly 100; both
   * averages zero give 0/0, that is NaN.
   */
  function RsiOf(avgGain: Option<real>, avgLoss: Option<real>): (r: Option<real>)
    requires avgGain.Some? ==> avgGain.value >= 0.0
    requires avgLoss.Some? ==> avgLoss.value >= 0.0
    ensures r.Some? <==> avgGain.Some? && avgLoss.Some? && (avgGain.value > 0.0 || avgLoss.value > 0.0)
    ensures r.Some? ==> 0.0 <= r.value <= 100.0
    ensures r.Some? && avgLoss.value > 0.0 ==>
      r.value < 100.0 && r.value == 100.0 * avgGain.value / (avgGain.value + avgLoss.value)
    ensures r.Some? && avgLoss.value == 0.0 ==> r.value == 100.0
  {
    if avgGain.None? || avgLoss.None? then None
    else
      var g, l := avgGain.value, avgLoss.value;
      if l > 0.0 then
        var rsi := 100.0 - 100.0 / (1.0 + g / l);
        assert rsi == 100.0 * g / (g + l) by {
          var d := 1.0 + g / l;
          assert (g / l) * l == g;
          assert d * l == g + l;
          var q := 100.0 / d;
          assert q * d == 100.0;
          assert q * (g + l) == (q * d) * l;
          assert (100.0 - q) * (g + l) == 100.0 * g;
        }
        assert 100.0 * g / (g + l) < 100.0 by {
          assert 100.0 * g < 100.0 * (g + l);
        }
        Some(rsi)
      else if g > 0.0 then Some(100.0)
      else None
  }

  /** The RSI column. */
  function RsiSeries(c: seq<real>): (r: seq<Option<real>>)
    ensures |r| == |c|
    ensures forall i :: 0 <= i < |c| ==> r[i] == RsiOf(AverageGain(c)[i], AverageLoss(c)[i])
  {
    var g, l := AverageGain(c), AverageLoss(c);
    seq(|c|, i requires 0 <= i < |c| => RsiOf(g[i], l[i]))
  }

  /** The RSI column: undefined until the fourteenth step, and within [0, 100] wherever defined. */
  lemma RsiColumnBounds(c: seq<real>, i: nat)
    requires i < |c|
    ensures i < RSI_WINDOW ==> RsiSeries(c)[i].None?
    ensures RsiSeries(c)[i].Some? ==> 0.0 <= RsiSeries(c)[i].value <= 100.0
  {
    if i == RSI_WINDOW - 1 {
      assert Gains(c)[0].None?;
    }
  }

  /**
   * `pct_change(n) * 100` at index i. Before n bars exist the shifted close
   * is NaN. A zero base close divides by zero (an infinity or NaN in the
   * source, never inside a finite band); the model has no value there.
   */
  function ReturnAt(c: seq<real>, n: nat, i: nat): (r: Option<real>)
    requires i < |c|
    ensures r.Some? <==> n <= i && c[i - n] != 0.0
    ensures r.Some? ==> c[i - n] * (1.0 + r.value / 100.0) == c[i]
  {
    if i < n || c[i - n] == 0.0 then None
    else
      var b := c[i - n];
      var r := (c[i] / b - 1.0) * 100.0;
      assert b * (1.0 + r / 100.0) == c[i] by {
        assert 1.0 + r / 100.0 == c[i] / b;
      }
      Some(r)
  }

  function Returns(c: seq<real>, n: nat): (r: seq<Option<real>>)
    ensures |r| == |c|
    ensures forall i :: 0 <= i < |c| ==> r[i] == ReturnAt(c, n, i)
  {
    seq(|c|, i requires 0 <= i < |c| => ReturnAt(c, n, i))
  }

  /** The row of `calc_indicators` at bar i: each column read at i. */
  function RowAt(bars: seq<Bar>, i: nat): Row
    requires i < |bars|
  {
    var c, v := Closes(bars), Volumes(bars);
    Row(
      Rolling(Lift(c), FAST_WINDOW)[i], Rolling(Lift(c), SLOW_WINDOW)[i],
      RsiSeries(c)[i],
      Rolling(Lift(v), FAST_WINDOW)[i], Rolling(Lift(v), SLOW_WINDOW)[i],
      Returns(c, RETURN_PERIOD)[i])
  }

  /** `calc_indicators`: all six columns, one row per bar. */
  function CalcIndicators(bars: seq<Bar>): (rows: seq<Row>)
    ensures |rows| == |bars|
  {
    seq(|bars|, i requires 0 <= i < |bars| => RowAt(bars, i))
  }

  /** On a positive base close the return is positive exactly when the close rose. */
  lemma ReturnSign(c: seq<real>, n: nat, i: nat)
    requires i < |c| && n <= i && c[i - n] > 0.0
    ensures ReturnAt(c, n, i).Some?
    ensures ReturnAt(c, n, i).value > 0.0 <==> c[i] > c[i - n]
  {
    var b, r := c[i - n], ReturnAt(c, n, i).value;
    assert 1.0 + r / 100.0 == c[i] / b;
    assert c[i] / b > 1.0 <==> c[i] > b by {
      assert c[i] == (c[i] / b) * b;
    }
  }

  lemma {:induction false} SumOfSteps(c: seq<real>, steps: seq<real>, i: nat)
    requires i < |c| && |steps| == i
    requires forall k :: 0 <= k < i ==> steps[k] == c[k + 1] - c[k]
    ensures Sum(steps) == c[i] - c[0]
  {
    if i > 0 {
      SumOfSteps(c, steps[..i - 1], i - 1);
    }
  }

  /** The steps of the closes add up to the change since the first bar: `diff()` loses only the first close. */
  lemma DeltaTelescopes(c: seq<real>, i: nat)
    requires i < |c|
    ensures Delta(c)[0] == None
    ensures Values(Delta(c)[1 .. i + 1]).Some?
    ensures c[i] == c[0] + Sum(Values(Delta(c)[1 .. i + 1]).value)
  {
    var window := Delta(c)[1 .. i + 1];
    assert forall k :: 0 <= k < i ==> window[k] == Some(c[k + 1] - c[k]);
    SumOfSteps(c, Values(window).value, i);
  }

  /**
   * The gain and loss columns: undefined at the first bar, and at every later
   * bar two non-negative amounts whose difference is the step of the close,
   * one of them zero.
   */
  lemma GainLossColumns(c: seq<real>, i: nat)
    requires i < |c|
    ensures i == 0 ==> Gains(c)[i].None? && Losses(c)[i].None?
    ensures i > 0 ==> Gains(c)[i].Some? && Losses(c)[i].Some?
    ensures i > 0 ==> Gains(c)[i].value >= 0.0 && Losses(c)[i].value >= 0.0
    ensures i > 0 ==> Gains(c)[i].value - Losses(c)[i].value == c[i] - c[i - 1]
    ensures i > 0 ==> Gains(c)[i].value == 0.0 || Losses(c)[i].value == 0.0
  {
    GainLossSplit(Delta(c)[i]);
  }

  function Scale(c: seq<real>, k: real): (s: seq<real>)
    ensures |s| == |c|
    ensures forall i :: 0 <= i < |c| ==> s[i] == k * c[i]
  {
    seq(|c|, i requires 0 <= i < |c| => k * c[i])
  }

  /** Scaling every close by one positive constant leaves the return unchanged. */
  lemma ReturnScaleInvariant(c: seq<real>, k: real, n: nat, i: nat)
    requires k > 0.0 && i < |c|
    ensures ReturnAt(Scale(c, k), n, i) == ReturnAt(c, n, i)
  {
    if n <= i && c[i - n] != 0.0 {
      var s := Scale(c, k);
      assert s[i - n] != 0.0;
      assert s[i] / s[i - n] == c[i] / c[i - n] by {
        assert s[i] == k * c[i] && s[i - n] == k * c[i - n];
        assert (k * c[i]) / (k * c[i - n]) == c[i] / c[i - n];
      }
    }
  }

  /** Closes lo..hi move by zero at every step exactly when they all equal the close at hi. */
  lemma {:induction false} StepsFlatIffConstant(c: seq<real>, lo: nat, hi: nat)
    requires lo <= hi < |c|
    ensures (forall k :: lo < k <= hi ==> c[k] == c[k - 1]) <==> (forall k :: lo <= k <= hi ==> c[k] == c[hi])
    decreases hi - lo
  {
    if lo < hi {
      StepsFlatIffConstant(c, lo + 1, hi);
      if forall k :: lo < k <= hi ==> c[k] == c[k - 1] {
        assert c[lo + 1] == c[lo];
      }
      if forall k :: lo <= k <= hi ==> c[k] == c[hi] {
        forall k | lo < k <= hi
          ensures c[k] == c[k - 1]
        {
          assert c[k] == c[hi] && c[k - 1] == c[hi];
        }
      }
    }
  }

  /**
   * RSI at a bar with a full window is undefined exactly when the last
   * fifteen closes are all the same (no gain and no loss over 14 steps).
   */
  lemma RsiUndefinedIffFlat(c: seq<real>, i: nat)
    requires RSI_WINDOW <= i < |c|
    ensures RsiSeries(c)[i].None? <==> forall k :: i - 14 <= k <= i ==> c[k] == c[i]
  {
    var g, l := Gains(c), Losses(c);
    RollingMeanZeroIff(g, RSI_WINDOW, i);
    RollingMeanZeroIff(l, RSI_WINDOW, i);
    assert RsiSeries(c)[i].None? <==>
      (forall k :: i - 13 <= k <= i ==> g[k].value == 0.0) && (forall k :: i - 13 <= k <= i ==> l[k].value == 0.0);
    assert (forall k :: i - 13 <= k <= i ==> g[k].value == 0.0) && (forall k :: i - 13 <= k <= i ==> l[k].value == 0.0)
      <==> forall k :: i - 14 < k <= i ==> c[k] == c[k - 1];
    StepsFlatIffConstant(c, i - 14, i);
  }

  /** Where each column becomes defined, bar by bar. */
  lemma IndicatorsDefinedness(bars: seq<Bar>, i: nat)
    requires i < |bars|
    ensures var row := CalcIndicators(bars)[i];
      && (row.sma5.Some? <==> i >= 4)
      && (row.sma20.Some? <==> i >= 19)
      && (row.volumeMa5.Some? <==> i >= 4)
      && (row.volumeMa20.Some? <==> i >= 19)
      && (row.return5d.Some? <==> i >= 5 && bars[i - 5].close != 0.0)
      && (i < 14 ==> row.rsi.None?)
      && (i >= 14 ==> (row.rsi.None? <==> forall k :: i - 14 <= k <= i ==> bars[k].close == bars[i].close))
  {
    var c := Closes(bars);
    if i == 13 {
      assert Gains(c)[0].None?;
    }
    if i >= 14 {
      RsiUndefinedIffFlat(c, i);
    }
  }

  /**
   * A series of at least 30 bars has every indicator the scoring reads
   * defined at its last bar, except a return on a zero base close and the
   * RSI of a flat stretch.
   */
  lemma GuardedLastRow(bars: seq<Bar>)
    requires |bars| >= 30
    ensures var n := |bars|; var last := CalcIndicators(bars)[n - 1];
      && last.sma5.Some? && last.sma20.Some?
      && last.volumeMa5.Some? && last.volumeMa20.Some?
      && (last.return5d.Some? <==> bars[n - 6].close != 0.0)
      && (last.rsi.None? <==> forall k :: n - 15 <= k < n ==> bars[k].close == bars[n - 1].close)
  {
    IndicatorsDefinedness(bars, |bars| - 1);
  }

  /** Every close is strictly above all earlier ones. */
  predicate StrictlyRising(c: seq<real>)
  {
    forall j, k :: 0 <= j < k < |c| ==> c[j] < c[k]
  }

  lemma RisingSeriesCross(c: seq<real>)
    requires |c| >= SLOW_WINDOW && StrictlyRising(c)
    ensures Mean(c[|c| - 5 .. |c|]) > Mean(c[|c| - 20 .. |c|])
  {
    var n := |c|;
    var p, q := c[n - 20 .. n - 5], c[n - 5 .. n];
    assert c[n - 20 .. n] == p + q;
    assert forall k :: 0 <= k < |p| ==> p[k] == c[n - 20 + k];
    assert forall k :: 0 <= k < |q| ==> q[k] == c[n - 5 + k];
    MeanBelowTailMean(p, q, c[n - 5]);
  }

  lemma RisingLossesVanish(c: seq<real>)
    requires |c| > RSI_WINDOW && StrictlyRising(c)
    ensures AverageLoss(c)[|c| - 1] == Some(0.0)
  {
    var n, l := |c|, Losses(c);
    forall k | n - 14 <= k <= n - 1
      ensures l[k] == Some(0.0)
    {
      assert c[k - 1] < c[k];
    }
    RollingMeanZeroIff(l, RSI_WINDOW, n - 1);
  }

  lemma RisingGainsPositive(c: seq<real>)
    requires |c| > RSI_WINDOW && StrictlyRising(c)
    ensures AverageGain(c)[|c| - 1].Some? && AverageGain(c)[|c| - 1].value > 0.0
  {
    var n, g := |c|, Gains(c);
    RollingMeanZeroIff(g, RSI_WINDOW, n - 1);
    assert c[n - 2] < c[n - 1];
    assert g[n - 1].value > 0.0;
  }

  lemma RisingSeriesRsi(c: seq<real>)
    requires |c| > RSI_WINDOW && StrictlyRising(c)
    ensures RsiSeries(c)[|c| - 1] == Some(100.0)
  {
    RisingLossesVanish(c);
    RisingGainsPositive(c);
  }

  /** The price columns of the last row once the slow window is full. */
  lemma LastRowPriceColumns(bars: seq<Bar>)
    requires |bars| >= SLOW_WINDOW
    ensures var c, n := Closes(bars), |bars|; var last := CalcIndicators(bars)[n - 1];
      && last.sma5 == Some(Mean(c[n - 5 .. n]))
      && last.sma20 == Some(Mean(c[n - 20 .. n]))
      && last.rsi == RsiSeries(c)[n - 1]
  {
    var c, n := Closes(bars), |bars|;
    var last := CalcIndicators(bars)[n - 1];
    assert last.sma5 == Some(Mean(c[n - 5 .. n])) by {
      assert last.sma5 == Rolling(Lift(c), FAST_WINDOW)[n - 1];
      RollingMeanOfValues(c, FAST_WINDOW, n - 1);
    }
    assert last.sma20 == Some(Mean(c[n - 20 .. n])) by {
      assert last.sma20 == Rolling(Lift(c), SLOW_WINDOW)[n - 1];
      RollingMeanOfValues(c, SLOW_WINDOW, n - 1);
    }
  }

  /** On a strictly rising series the fast average is above the slow one and RSI saturates at 100. */
  lemma RisingSeries(bars: seq<Bar>)
    requires |bars| >= SLOW_WINDOW && StrictlyRising(Closes(bars))
    ensures var last := CalcIndicators(bars)[|bars| - 1];
      && last.sma5.Some? && last.sma20.Some?
      && last.sma5.value > last.sma20.value
      && last.rsi == Some(100.0)
  {
    LastRowPriceColumns(bars);
    RisingSeriesCross(Closes(bars));
    RisingSeriesRsi(Closes(bars));
  }

  lemma LiftedRollingPrefix(s: seq<real>, w: nat, m: nat, i: nat)
    requires 0 < w && i < m <= |s|
    ensures Rolling(Lift(s[..m]), w)[i] == Rolling(Lift(s), w)[i]
  {
    assert Lift(s[..m]) == Lift(s)[..m];
    RollingPrefix(Lift(s), w, m, i);
  }

  lemma AveragesPrefix(c: seq<real>, m: nat, i: nat)
    requires i < m <= |c|
    ensures AverageGain(c[..m])[i] == AverageGain(c)[i]
    ensures AverageLoss(c[..m])[i] == AverageLoss(c)[i]
  {
    assert Delta(c[..m]) == Delta(c)[..m];
    assert Gains(c[..m]) == Gains(c)[..m];
    assert Losses(c[..m]) == Losses(c)[..m];
    RollingPrefix(Gains(c), RSI_WINDOW, m, i);
    RollingPrefix(Losses(c), RSI_WINDOW, m, i);
  }

  lemma RsiPrefix(c: seq<real>, m: nat, i: nat)
    requires i < m <= |c|
    ensures RsiSeries(c[..m])[i] == RsiSeries(c)[i]
  {
    AveragesPrefix(c, m, i);
  }

  /** Both moving averages of a series at bar i read nothing beyond bar i. */
  lemma AveragesOfValuesPrefix(s: seq<real>, m: nat, i: nat)
    requires i < m <= |s|
    ensures Rolling(Lift(s[..m]), FAST_WINDOW)[i] == Rolling(Lift(s), FAST_WINDOW)[i]
    ensures Rolling(Lift(s[..m]), SLOW_WINDOW)[i] == Rolling(Lift(s), SLOW_WINDOW)[i]
  {
    LiftedRollingPrefix(s, FAST_WINDOW, m, i);
    LiftedRollingPrefix(s, SLOW_WINDOW, m, i);
  }

  lemma BarColumnsPrefix(bars: seq<Bar>, m: nat)
    requires m <= |bars|
    ensures Closes(bars[..m]) == Closes(bars)[..m]
    ensures Volumes(bars[..m]) == Volumes(bars)[..m]
  {
  }

  lemma ReturnsPrefix(c: seq<real>, m: nat, i: nat)
    requires i < m <= |c|
    ensures Returns(c[..m], RETURN_PERIOD)[i] == Returns(c, RETURN_PERIOD)[i]
  {
  }

  lemma RowAtPrefix(bars: seq<Bar>, m: nat, i: nat)
    requires i < m <= |bars|
    ensures RowAt(bars[..m], i) == RowAt(bars, i)
  {
    var c, v := Closes(bars), Volumes(bars);
    BarColumnsPrefix(bars, m);
    AveragesOfValuesPrefix(c, m, i);
    AveragesOfValuesPrefix(v, m, i);
    RsiPrefix(c, m, i);
    ReturnsPrefix(c, m, i);
  }

  /** Nothing at bar i depends on a later bar: computing on any prefix that holds bar i gives the same row. */
  lemma NoLookAhead(bars: seq<Bar>, m: nat, i: nat)
    requires i < m <= |bars|
    ensures CalcIndicators(bars[..m])[i] == CalcIndicators(bars)[i]
  {
    RowAtPrefix(bars, m, i);
  }
}
