/**
 * The scoring engine (`score_stock`): four fixed threshold rules read on the
 * last row of indicators, worth 2, 2, 1 and 1 points. A rule that compares an
 * undefined value fails, as every comparison with NaN is false.
 */
module Scoring {
  import opened Wrappers
  import opened Indicators

  /** `a > b` on floats: false when either side is NaN. */
  predicate Greater(a: Option<real>, b: Option<real>)
    ensures Greater(a, b) ==> a.Some? && b.Some?
  {
    a.Some? && b.Some? && a.value > b.value
  }

  /** `lo <= x <= hi` on floats: false when x is NaN. */
  predicate Within(lo: real, x: Option<real>, hi: real)
    ensures Within(lo, x, hi) ==> x.Some? && lo <= hi
  {
    x.Some? && lo <= x.value && x.value <= hi
  }

  datatype Rule = SmaCross | RsiBand | VolumeTrend | QuietReturn

  /** The rule table, in the order the source tests the rules. */
  const RULES: seq<Rule> := [SmaCross, RsiBand, VolumeTrend, QuietReturn]

  function Weight(rule: Rule): nat
  {
    match rule
    case SmaCross => 2
    case RsiBand => 2
    case VolumeTrend => 1
    case QuietReturn => 1
  }

  predicate Holds(rule: Rule, row: Row)
  {
    match rule
    case SmaCross => Greater(row.sma5, row.sma20)
    case RsiBand => Within(40.0, row.rsi, 60.0)
    case VolumeTrend => Greater(row.volumeMa5, row.volumeMa20)
    case QuietReturn => Within(-5.0, row.return5d, 5.0)
  }

  /** The points one rule awards a row. */
  function Award(rule: Rule, row: Row): nat
  {
    if Holds(rule, row) then Weight(rule) else 0
  }

  function Tally(rules: seq<Rule>, row: Row): nat
  {
    if rules == [] then 0 else Award(rules[0], row) + Tally(rules[1..], row)
  }

  /** The score of a row: the points of every rule of the table that holds, each rule on its own. */
  function Score(row: Row): (s: nat)
    ensures s == Award(SmaCross, row) + Award(RsiBand, row) + Award(VolumeTrend, row) + Award(QuietReturn, row)
  {
    var r3, r2, r1 := [RsiBand, VolumeTrend, QuietReturn], [VolumeTrend, QuietReturn], [QuietReturn];
    assert RULES[1..] == r3 && r3[1..] == r2 && r2[1..] == r1 && r1[1..] == [];
    assert Tally(r1, row) == Award(QuietReturn, row);
    assert Tally(r2, row) == Award(VolumeTrend, row) + Tally(r1, row);
    assert Tally(r3, row) == Award(RsiBand, row) + Tally(r2, row);
    Tally(RULES, row)
  }

  lemma ScoreRange(row: Row)
    ensures 0 <= Score(row) <= 6
  {
  }

  /**
   * Two rows on which every rule but one gives the same verdict differ in
   * score by exactly what that one rule awards them.
   */
  lemma RuleIndependence(row: Row, other: Row, rule: Rule)
    requires forall r: Rule :: r != rule ==> Holds(r, row) == Holds(r, other)
    ensures Score(row) - Score(other) == Award(rule, row) - Award(rule, other)
    ensures Holds(rule, row) && !Holds(rule, other) ==> Score(row) == Score(other) + Weight(rule)
    ensures Holds(rule, row) == Holds(rule, other) ==> Score(row) == Score(other)
  {
    assert Holds(SmaCross, row) == Holds(SmaCross, other) || rule == SmaCross;
    assert Holds(RsiBand, row) == Holds(RsiBand, other) || rule == RsiBand;
    assert Holds(VolumeTrend, row) == Holds(VolumeTrend, other) || rule == VolumeTrend;
    assert Holds(QuietReturn, row) == Holds(QuietReturn, other) || rule == QuietReturn;
  }

  /** A rule that reads an undefined indicator awards nothing. */
  lemma UndefinedAwardsNothing(row: Row)
    ensures row.sma5.None? || row.sma20.None? ==> Award(SmaCross, row) == 0
    ensures row.rsi.None? ==> Award(RsiBand, row) == 0
    ensures row.volumeMa5.None? || row.volumeMa20.None? ==> Award(VolumeTrend, row) == 0
    ensures row.return5d.None? ==> Award(QuietReturn, row) == 0
  {
  }

  /** Reaching three points takes a two-point rule and at least one more rule. */
  lemma ReachesThreeIff(row: Row)
    ensures Score(row) >= 3 <==>
      (Holds(SmaCross, row) && Holds(RsiBand, row)) ||
      ((Holds(SmaCross, row) || Holds(RsiBand, row)) && (Holds(VolumeTrend, row) || Holds(QuietReturn, row)))
  {
  }

  /** A strictly rising series earns the crossover points and misses the RSI band, whose RSI is 100. */
  lemma RisingSeriesRules(bars: seq<Bar>)
    requires |bars| >= SLOW_WINDOW && StrictlyRising(Closes(bars))
    ensures Holds(SmaCross, CalcIndicators(bars)[|bars| - 1])
    ensures !Holds(RsiBand, CalcIndicators(bars)[|bars| - 1])
  {
    RisingSeries(bars);
  }

  /** `iloc[-1]`: the latest row of the indicator frame. */
  function Latest(rows: seq<Row>): Row
    requires |rows| > 0
  {
    rows[|rows| - 1]
  }

  /** `score_stock`: an accumulator that each rule, in turn, may raise. */
  method ScoreStock(rows: seq<Row>) returns (score: nat)
    requires |rows| > 0
    ensures score == Score(Latest(rows))
    ensures score <= 6
  {
    var last := Latest(rows);
    score := 0;
    if Greater(last.sma5, last.sma20) {
      score := score + 2;
    }
    if Within(40.0, last.rsi, 60.0) {
      score := score + 2;
    }
    if Greater(last.volumeMa5, last.volumeMa20) {
      score := score + 1;
    }
    if Within(-5.0, last.return5d, 5.0) {
      score := score + 1;
    }
  }
}
