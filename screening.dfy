/**
 * The ranking reducer (the main loop of the screener): every ticker of the
 * universe is fetched, a series shorter than 30 bars is skipped, a ticker
 * whose score is below 3 is dropped, and the kept results are ordered by
 * score, highest first.
 */
module Screening {
  import opened Wrappers
  import opened Indicators
  import opened Scoring

  /** Fewer bars than this and the ticker is skipped. */
  const MIN_ROWS: nat := 30

  /** The lowest score that keeps a ticker in the ranking. */
  const SCORE_FLOOR: nat := 3

  /** The screened universe, in the order the loop visits it. */
  const TICKERS: seq<string> := [
    "AAPL", "MSFT", "GOOGL", "AMZN", "META",
    "NVDA", "AMD", "INTC", "TSM", "ASML",
    "TSLA", "NFLX", "ADBE", "CRM", "ORCL",
    "PYPL", "SQ", "COIN", "SOFI",
    "SHOP", "UBER", "ABNB", "DASH",
    "PLTR", "SNOW", "RBLX"]

  /** One appended result: the ticker, its score and the RSI and return it was scored on. */
  datatype Entry = Entry(ticker: string, score: nat, rsi: Option<real>, return5d: Option<real>)

  /** The fate of one ticker: skipped or dropped (None), or kept. */
  function Evaluate(ticker: string, bars: seq<Bar>): (e: Option<Entry>)
    ensures e.Some? <==> |bars| >= MIN_ROWS && Score(Latest(CalcIndicators(bars))) >= SCORE_FLOOR
    ensures e.Some? ==> e.value.ticker == ticker && SCORE_FLOOR <= e.value.score <= 6
    ensures e.Some? ==> var last := Latest(CalcIndicators(bars));
      e.value.score == Score(last) && e.value.rsi == last.rsi && e.value.return5d == last.return5d
  {
    if |bars| < MIN_ROWS then None
    else
      var last := Latest(CalcIndicators(bars));
      ScoreRange(last);
      if Score(last) >= SCORE_FLOOR then Some(Entry(ticker, Score(last), last.rsi, last.return5d))
      else None
  }

  lemma EvaluateScored(ticker: string, bars: seq<Bar>, score: nat)
    requires |bars| >= MIN_ROWS && score == Score(Latest(CalcIndicators(bars)))
    ensures var last := Latest(CalcIndicators(bars));
      Evaluate(ticker, bars) == if score >= SCORE_FLOOR then Some(Entry(ticker, score, last.rsi, last.return5d)) else None
  {
  }

  /** The fate of every ticker, in visiting order. */
  function Outcomes(tickers: seq<string>, fetch: string -> seq<Bar>): (os: seq<Option<Entry>>)
    ensures |os| == |tickers|
    ensures forall k :: 0 <= k < |tickers| ==> os[k] == Evaluate(tickers[k], fetch(tickers[k]))
  {
    seq(|tickers|, k requires 0 <= k < |tickers| => Evaluate(tickers[k], fetch(tickers[k])))
  }

  /** The kept entries of a list of outcomes, in order. */
  function Kept(os: seq<Option<Entry>>): seq<Entry>
  {
    if os == [] then []
    else
      var front := Kept(os[..|os| - 1]);
      match os[|os| - 1]
      case None => front
      case Some(e) => front + [e]
  }

  /** The results list the loop appends to. */
  function Qualifying(tickers: seq<string>, fetch: string -> seq<Bar>): seq<Entry>
  {
    Kept(Outcomes(tickers, fetch))
  }

  /** An entry is kept exactly when some outcome is that entry. */
  lemma {:induction false} KeptMembers(os: seq<Option<Entry>>, e: Entry)
    ensures e in Kept(os) <==> exists k :: 0 <= k < |os| && os[k] == Some(e)
  {
    if os != [] {
      var front := os[..|os| - 1];
      KeptMembers(front, e);
      assert forall k :: 0 <= k < |front| ==> front[k] == os[k];
      if exists k :: 0 <= k < |os| && os[k] == Some(e) {
        var k :| 0 <= k < |os| && os[k] == Some(e);
        if k < |front| {
          assert front[k] == Some(e);
        }
      }
    }
  }

  /** Visiting a skipped or dropped outcome keeps the results as they are. */
  lemma KeptSkip(os: seq<Option<Entry>>, k: nat)
    requires k < |os| && os[k] == None
    ensures Kept(os[..k + 1]) == Kept(os[..k])
  {
    assert os[..k + 1][..k] == os[..k];
  }

  /** Visiting a kept outcome appends its entry. */
  lemma KeptAppend(os: seq<Option<Entry>>, k: nat, e: Entry)
    requires k < |os| && os[k] == Some(e)
    ensures Kept(os[..k + 1]) == Kept(os[..k]) + [e]
  {
    assert os[..k + 1][..k] == os[..k];
  }

  lemma {:induction false} KeptNoneIsEmpty(os: seq<Option<Entry>>)
    requires forall k :: 0 <= k < |os| ==> os[k].None?
    ensures Kept(os) == []
  {
    if os != [] {
      var front := os[..|os| - 1];
      assert forall k :: 0 <= k < |front| ==> front[k] == os[k];
      KeptNoneIsEmpty(front);
    }
  }

  predicate NonIncreasing(s: seq<Entry>)
  {
    forall j, k :: 0 <= j < k < |s| ==> s[j].score >= s[k].score
  }

  /** An entry that scores at least every entry of a list in non-increasing order can lead it. */
  lemma ConsSorted(x: Entry, s: seq<Entry>)
    ensures NonIncreasing(s) && (forall k :: 0 <= k < |s| ==> s[k].score <= x.score) ==> NonIncreasing([x] + s)
  {
    if NonIncreasing(s) && forall k :: 0 <= k < |s| ==> s[k].score <= x.score {
      forall j, k | 0 <= j < k < |[x] + s|
        ensures ([x] + s)[j].score >= ([x] + s)[k].score
      {
        if j > 0 {
          assert ([x] + s)[j] == s[j - 1];
        }
        assert ([x] + s)[k] == s[k - 1];
      }
    }
  }

  /** Every entry of a permutation of a bounded list and one more bounded entry is bounded. */
  lemma PermutationBound(rest: seq<Entry>, s: seq<Entry>, e: Entry, top: nat)
    requires multiset(rest) == multiset(s) + multiset{e}
    ensures e.score <= top && (forall k :: 0 <= k < |s| ==> s[k].score <= top) ==>
      forall k :: 0 <= k < |rest| ==> rest[k].score <= top
  {
    if e.score <= top && forall k :: 0 <= k < |s| ==> s[k].score <= top {
      forall k | 0 <= k < |rest|
        ensures rest[k].score <= top
      {
        assert rest[k] in multiset(rest);
        assert rest[k] in multiset(s) || rest[k] == e;
      }
    }
  }

  /**
   * Places an entry before the first entry that does not score more. The
   * result holds the list and the entry, and a list in non-increasing score
   * order stays in that order.
   */
  function Insert(e: Entry, s: seq<Entry>): (r: seq<Entry>)
    ensures multiset(r) == multiset(s) + multiset{e}
    ensures NonIncreasing(s) ==> NonIncreasing(r)
  {
    if s == [] || e.score >= s[0].score then
      ConsSorted(e, s);
      [e] + s
    else
      var rest := Insert(e, s[1..]);
      assert s == [s[0]] + s[1..];
      assert NonIncreasing(s) ==> forall k :: 0 <= k < |s[1..]| ==> s[1..][k].score <= s[0].score;
      PermutationBound(rest, s[1..], e, s[0].score);
      ConsSorted(s[0], rest);
      [s[0]] + rest
  }

  /**
   * `sort_values(score, ascending=False)`, as an insertion sort: the ranking
   * is in non-increasing score order and holds the results, each as often.
   */
  function SortByScore(s: seq<Entry>): (r: seq<Entry>)
    ensures NonIncreasing(r)
    ensures multiset(r) == multiset(s)
  {
    if s == [] then []
    else
      assert s == [s[0]] + s[1..];
      Insert(s[0], SortByScore(s[1..]))
  }

  /** An entry is among the results exactly when some visited ticker produced it. */
  lemma QualifyingMembers(tickers: seq<string>, fetch: string -> seq<Bar>, e: Entry)
    ensures e in Qualifying(tickers, fetch) <==>
      exists k :: 0 <= k < |tickers| && Evaluate(tickers[k], fetch(tickers[k])) == Some(e)
  {
    var os := Outcomes(tickers, fetch);
    KeptMembers(os, e);
    if exists k :: 0 <= k < |tickers| && Evaluate(tickers[k], fetch(tickers[k])) == Some(e) {
      var k :| 0 <= k < |tickers| && Evaluate(tickers[k], fetch(tickers[k])) == Some(e);
      assert os[k] == Some(e);
    }
  }

  lemma RankedTickersEvaluated(tickers: seq<string>, fetch: string -> seq<Bar>, t: string)
    ensures (exists e :: e in SortByScore(Qualifying(tickers, fetch)) && e.ticker == t) <==>
      t in tickers && Evaluate(t, fetch(t)).Some?
  {
    var results := Qualifying(tickers, fetch);
    if exists e :: e in SortByScore(results) && e.ticker == t {
      var e :| e in SortByScore(results) && e.ticker == t;
      assert e in multiset(results);
      QualifyingMembers(tickers, fetch, e);
    }
    if t in tickers && Evaluate(t, fetch(t)).Some? {
      var k :| 0 <= k < |tickers| && tickers[k] == t;
      var e := Evaluate(t, fetch(t)).value;
      QualifyingMembers(tickers, fetch, e);
      assert e in multiset(SortByScore(results));
    }
  }

  /** A ticker reaches the ranking exactly when it is screened, has 30 bars or more and scores at least 3. */
  lemma RankedTickers(tickers: seq<string>, fetch: string -> seq<Bar>, t: string)
    ensures (exists e :: e in SortByScore(Qualifying(tickers, fetch)) && e.ticker == t) <==>
      t in tickers && |fetch(t)| >= MIN_ROWS && Score(Latest(CalcIndicators(fetch(t)))) >= SCORE_FLOOR
  {
    RankedTickersEvaluated(tickers, fetch, t);
  }

  /**
   * One pass of the loop body: a series shorter than 30 bars is skipped;
   * otherwise the indicators are computed, the latest row is scored, and
   * the ticker is kept when the score reaches the floor.
   */
  method ScreenTicker(ticker: string, bars: seq<Bar>) returns (outcome: Option<Entry>)
    ensures outcome == Evaluate(ticker, bars)
  {
    if |bars| < MIN_ROWS {
      return None;
    }
    var rows := CalcIndicators(bars);
    var score := ScoreStock(rows);
    EvaluateScored(ticker, bars, score);
    if score >= SCORE_FLOOR {
      var last := Latest(rows);
      outcome := Some(Entry(ticker, score, last.rsi, last.return5d));
    } else {
      outcome := None;
    }
  }

  /** The loop over the universe: every ticker in turn, its entry appended when it is kept. */
  method CollectResults(tickers: seq<string>, fetch: string -> seq<Bar>) returns (results: seq<Entry>)
    ensures results == Qualifying(tickers, fetch)
  {
    ghost var os := Outcomes(tickers, fetch);
    results := [];
    for k := 0 to |tickers|
      invariant results == Kept(os[..k])
    {
      var outcome := ScreenTicker(tickers[k], fetch(tickers[k]));
      if outcome.Some? {
        KeptAppend(os, k, outcome.value);
        results := results + [outcome.value];
      } else {
        KeptSkip(os, k);
      }
    }
    assert os[..|tickers|] == os;
  }

  /** The main loop and the final sort. */
  method Screen(tickers: seq<string>, fetch: string -> seq<Bar>) returns (ranking: seq<Entry>)
    ensures ranking == SortByScore(Qualifying(tickers, fetch))
    ensures NonIncreasing(ranking)
    ensures multiset(ranking) == multiset(Qualifying(tickers, fetch))
    ensures forall e :: e in ranking ==> SCORE_FLOOR <= e.score <= 6
    ensures Qualifying(tickers, fetch) == [] ==> ranking == []
  {
    var results := CollectResults(tickers, fetch);
    ranking := SortByScore(results);
    forall e | e in ranking
      ensures SCORE_FLOOR <= e.score <= 6
    {
      assert e in multiset(results);
      QualifyingMembers(tickers, fetch, e);
    }
  }

  /**
   * The sort as written: a frame built from an empty results list has no
   * score column, so sorting it by that column raises a KeyError (None).
   */
  function FrameSortAsWritten(results: seq<Entry>): (r: Option<seq<Entry>>)
    ensures r.None? <==> results == []
    ensures r.Some? ==> NonIncreasing(r.value) && multiset(r.value) == multiset(results)
  {
    if results == [] then None else Some(SortByScore(results))
  }

  lemma AllShortQualifyNone(tickers: seq<string>, fetch: string -> seq<Bar>)
    requires forall k :: 0 <= k < |tickers| ==> |fetch(tickers[k])| < MIN_ROWS
    ensures Qualifying(tickers, fetch) == []
  {
    KeptNoneIsEmpty(Outcomes(tickers, fetch));
  }

  /** A run in which no ticker has 30 bars crashes at the sort as written. */
  lemma NoHistoryCrashesAsWritten()
    ensures FrameSortAsWritten(Qualifying(TICKERS, t => [])) == None
  {
    AllShortQualifyNone(TICKERS, t => []);
  }
}
