/**
 * Whole-series primitives shared by every indicator: sums and means of
 * finite sequences of reals, and pandas' `rolling(w).mean()` over a series
 * whose entries may be undefined.
 */
module Series {
  import opened Wrappers

  /** Sum of a sequence, accumulated from the front. */
  function Sum(s: seq<real>): real
  {
    if |s| == 0 then 0.0 else Sum(s[..|s| - 1]) + s[|s| - 1]
  }

  /** Arithmetic mean of a non-empty sequence. */
  function Mean(s: seq<real>): real
    requires |s| > 0
  {
    Sum(s) / (|s| as real)
  }

  /** Every value of a series, or None as soon as one of them is undefined. */
  function Values(t: seq<Option<real>>): (r: Option<seq<real>>)
    ensures r.Some? <==> forall k :: 0 <= k < |t| ==> t[k].Some?
    ensures r.Some? ==> |r.value| == |t| && forall k :: 0 <= k < |t| ==> r.value[k] == t[k].value
  {
    if |t| == 0 then Some([])
    else
      var front := Values(t[..|t| - 1]);
      if front.None? || t[|t| - 1].None? then None
      else Some(front.value + [t[|t| - 1].value])
  }

  /** A series of defined values, as pandas holds a column without NaN. */
  function Lift(s: seq<real>): (r: seq<Option<real>>)
    ensures |r| == |s|
    ensures forall k :: 0 <= k < |s| ==> r[k] == Some(s[k])
  {
    seq(|s|, k requires 0 <= k < |s| => Some(s[k]))
  }

  /**
   * `rolling(w).mean()` at index i: the mean of the w entries ending at i.
   * It is undefined while fewer than w entries exist, and whenever one of
   * the w entries is undefined (pandas' default min_periods is w).
   */
  function RollingMeanAt(s: seq<Option<real>>, w: nat, i: nat): (r: Option<real>)
    requires 0 < w && i < |s|
    ensures i + 1 < w ==> r == None
    ensures r.Some? <==> w <= i + 1 && forall k :: i + 1 - w <= k <= i ==> s[k].Some?
  {
    if i + 1 < w then None
    else
      var window := s[i + 1 - w .. i + 1];
      assert forall k :: i + 1 - w <= k <= i ==> s[k] == window[k - (i + 1 - w)];
      match Values(window)
      case None => None
      case Some(vs) => Some(Mean(vs))
  }

  /** `rolling(w).mean()` of a whole series: one entry per input entry. */
  function Rolling(s: seq<Option<real>>, w: nat): (r: seq<Option<real>>)
    requires 0 < w
    ensures |r| == |s|
    ensures forall i :: 0 <= i < |s| ==> r[i] == RollingMeanAt(s, w, i)
  {
    seq(|s|, i requires 0 <= i < |s| => RollingMeanAt(s, w, i))
  }

  lemma {:induction false} SumAppend(a: seq<real>, b: seq<real>)
    ensures Sum(a + b) == Sum(a) + Sum(b)
  {
    if |b| == 0 {
      assert a + b == a;
    } else {
      assert (a + b)[..|a + b| - 1] == a + b[..|b| - 1];
      SumAppend(a, b[..|b| - 1]);
    }
  }

  lemma {:induction false} SumNonNegative(s: seq<real>)
    requires forall k :: 0 <= k < |s| ==> s[k] >= 0.0
    ensures Sum(s) >= 0.0
  {
    if |s| > 0 {
      SumNonNegative(s[..|s| - 1]);
    }
  }

  /** A sum of non-negative values is zero exactly when every value is. */
  lemma {:induction false} SumZeroIff(s: seq<real>)
    requires forall k :: 0 <= k < |s| ==> s[k] >= 0.0
    ensures Sum(s) == 0.0 <==> forall k :: 0 <= k < |s| ==> s[k] == 0.0
  {
    if |s| > 0 {
      var front := s[..|s| - 1];
      SumZeroIff(front);
      SumNonNegative(front);
      assert forall k :: 0 <= k < |front| ==> front[k] == s[k];
    }
  }

  lemma {:induction false} SumBelow(s: seq<real>, x: real)
    requires |s| > 0
    requires forall k :: 0 <= k < |s| ==> s[k] < x
    ensures Sum(s) < (|s| as real) * x
  {
    if |s| > 1 {
      SumBelow(s[..|s| - 1], x);
    }
  }

  lemma {:induction false} SumAtLeast(s: seq<real>, x: real)
    requires forall k :: 0 <= k < |s| ==> s[k] >= x
    ensures Sum(s) >= (|s| as real) * x
  {
    if |s| > 0 {
      SumAtLeast(s[..|s| - 1], x);
    }
  }

  lemma MeanInequality(a: real, b: real, np: real, nq: real, x: real)
    requires np > 0.0 && nq > 0.0
    requires a < np * x && b >= nq * x
    ensures (a + b) / (np + nq) < b / nq
  {
    assert a * nq < (np * x) * nq;
    assert np * (nq * x) <= np * b;
    assert (a + b) * nq < b * (np + nq);
    var lhs, rhs := (a + b) / (np + nq), b / nq;
    assert lhs * (np + nq) == a + b;
    assert rhs * nq == b;
    assert lhs * (np + nq) * nq < rhs * nq * (np + nq);
  }

  /**
   * Appending a tail whose values all reach some level x to a front whose
   * values all lie below x pulls the mean below the tail's own mean.
   */
  lemma MeanBelowTailMean(p: seq<real>, q: seq<real>, x: real)
    requires |p| > 0 && |q| > 0
    requires forall k :: 0 <= k < |p| ==> p[k] < x
    requires forall k :: 0 <= k < |q| ==> q[k] >= x
    ensures Mean(p + q) < Mean(q)
  {
    SumAppend(p, q);
    SumBelow(p, x);
    SumAtLeast(q, x);
    assert |p + q| as real == |p| as real + |q| as real;
    MeanInequality(Sum(p), Sum(q), |p| as real, |q| as real, x);
  }

  /** The mean over a full window of non-negative entries is non-negative. */
  lemma RollingNonNegative(s: seq<Option<real>>, w: nat)
    requires 0 < w
    requires forall k :: 0 <= k < |s| && s[k].Some? ==> s[k].value >= 0.0
    ensures forall i :: 0 <= i < |s| && Rolling(s, w)[i].Some? ==> Rolling(s, w)[i].value >= 0.0
  {
    forall i | 0 <= i < |s| && Rolling(s, w)[i].Some?
      ensures Rolling(s, w)[i].value >= 0.0
    {
      var vs := Values(s[i + 1 - w .. i + 1]).value;
      SumNonNegative(vs);
    }
  }

  /**
   * Over a window of defined, non-negative entries the rolling mean is
   * defined, and it is zero exactly when every entry of the window is zero.
   */
  lemma RollingMeanZeroIff(s: seq<Option<real>>, w: nat, i: nat)
    requires 0 < w <= i + 1 && i < |s|
    requires forall k :: i + 1 - w <= k <= i ==> s[k].Some? && s[k].value >= 0.0
    ensures RollingMeanAt(s, w, i).Some?
    ensures RollingMeanAt(s, w, i).value == 0.0 <==> forall k :: i + 1 - w <= k <= i ==> s[k].value == 0.0
  {
    var window := s[i + 1 - w .. i + 1];
    var vs := Values(window).value;
    assert forall j :: 0 <= j < w ==> vs[j] == s[i + 1 - w + j].value;
    SumZeroIff(vs);
    assert Mean(vs) == 0.0 <==> Sum(vs) == 0.0;
    if forall j :: 0 <= j < w ==> vs[j] == 0.0 {
      forall k | i + 1 - w <= k <= i
        ensures s[k].value == 0.0
      {
        assert vs[k - (i + 1 - w)] == s[k].value;
      }
    }
  }

  /** Over a series of defined values the rolling mean is the mean of the trailing w values. */
  lemma RollingMeanOfValues(s: seq<real>, w: nat, i: nat)
    requires 0 < w <= i + 1 && i < |s|
    ensures Rolling(Lift(s), w)[i] == Some(Mean(s[i + 1 - w .. i + 1]))
  {
    var window := Lift(s)[i + 1 - w .. i + 1];
    assert Values(window).Some?;
    assert Values(window).value == s[i + 1 - w .. i + 1];
  }

  /** The example of closes 10, 12, 14, 16, 18 with a window of five. */
  lemma RollingMeanExample()
    ensures Rolling(Lift([10.0, 12.0, 14.0, 16.0, 18.0]), 5)[4] == Some(14.0)
  {
    var s := [10.0, 12.0, 14.0, 16.0, 18.0];
    RollingMeanOfValues(s, 5, 4);
    assert s[0..5] == s;
    var s1, s2, s3, s4 := [10.0], [10.0, 12.0], [10.0, 12.0, 14.0], [10.0, 12.0, 14.0, 16.0];
    assert s1[..0] == [] && s2[..1] == s1 && s3[..2] == s2 && s4[..3] == s3 && s[..4] == s4;
    assert Sum(s1) == 10.0;
    assert Sum(s2) == 22.0;
    assert Sum(s3) == 36.0;
    assert Sum(s4) == 52.0;
    assert Sum(s) == 70.0;
  }

  /** The rolling mean at i reads nothing of the series beyond index i. */
  lemma RollingPrefix(s: seq<Option<real>>, w: nat, m: nat, i: nat)
    requires 0 < w && i < m <= |s|
    ensures Rolling(s[..m], w)[i] == Rolling(s, w)[i]
  {
    if w <= i + 1 {
      assert s[..m][i + 1 - w .. i + 1] == s[i + 1 - w .. i + 1];
    }
  }
}
