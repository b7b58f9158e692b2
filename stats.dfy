/** The statistics the clustering engine and its collaborators share:
    median, mean, absolute standard deviation, modified standard score,
    minimum and maximum. Python 2 `len / 2` is floor division on a
    non-negative length, which Dafny's `/` on `int` matches. */
module Stats {
  import opened Sums
  import opened Sorting

  const RealLe: (real, real) -> bool := (a: real, b: real) => a <= b

  lemma RealLeTotalOrder()
    ensures TotalOrder(RealLe)
  {}

  function Abs(x: real): real
  {
    if x < 0.0 then -x else x
  }

  /** Python `sorted(values)` on floats. */
  function Sorted(s: seq<real>): seq<real>
  {
    Sort(s, RealLe)
  }

  /** The middle element of the sorted list, or the mean of the two middle
      elements when the length is even. */
  function Median(s: seq<real>): real
    requires |s| > 0
  {
    var t := Sorted(s);
    var n := |t|;
    if n % 2 == 0 then (t[n / 2 - 1] + t[n / 2]) / 2.0 else t[n / 2]
  }

  /** `sum(values) / float(len(values))`. */
  function Mean(s: seq<real>): real
    requires |s| > 0
  {
    Sum(s) / (|s| as real)
  }

  /** `[abs(x - m) for x in s]`. */
  function AbsDeviations(s: seq<real>, m: real): (r: seq<real>)
    ensures |r| == |s|
    ensures forall i :: 0 <= i < |s| ==> r[i] == Abs(s[i] - m) && r[i] >= 0.0
  {
    seq(|s|, i requires 0 <= i < |s| => Abs(s[i] - m))
  }

  /** The mean absolute distance of the values from m (the source passes the
      column's median as m). */
  function AbsoluteStandardDeviation(m: real, s: seq<real>): real
    requires |s| > 0
  {
    Mean(AbsDeviations(s, m))
  }

  /** `(value - median) / asd`, defined when asd is not zero. */
  function ModifiedStandardScore(median: real, asd: real, value: real): real
    requires asd != 0.0
  {
    (value - median) / asd
  }

  /** Python `max(values)`. */
  function Max(s: seq<real>): (r: real)
    requires |s| > 0
    ensures r in s
    ensures forall i :: 0 <= i < |s| ==> s[i] <= r
  {
    if |s| == 1 then s[0]
    else
      var m := Max(s[1..]);
      assert forall i :: 1 <= i < |s| ==> s[i] == s[1..][i - 1];
      if s[0] > m then s[0] else m
  }

  /** Python `min(values)`. */
  function Min(s: seq<real>): (r: real)
    requires |s| > 0
    ensures r in s
    ensures forall i :: 0 <= i < |s| ==> r <= s[i]
  {
    if |s| == 1 then s[0]
    else
      var m := Min(s[1..]);
      assert forall i :: 1 <= i < |s| ==> s[i] == s[1..][i - 1];
      if s[0] < m then s[0] else m
  }

  // ---------------------------------------------------------------------
  // Properties

  /** The deviations of a concatenation are the concatenated deviations. */
  lemma AbsDeviationsAppend(a: seq<real>, b: seq<real>, m: real)
    ensures AbsDeviations(a + b, m) == AbsDeviations(a, m) + AbsDeviations(b, m)
  {
    var l, r := AbsDeviations(a + b, m), AbsDeviations(a, m) + AbsDeviations(b, m);
    assert |l| == |r|;
    forall k | 0 <= k < |l| ensures l[k] == r[k] {
      if k < |a| {
        assert (a + b)[k] == a[k];
      } else {
        assert (a + b)[k] == b[k - |a|];
      }
    }
  }

  /** Rearranging the values rearranges their deviations. */
  lemma {:induction false} AbsDeviationsPermutation(s: seq<real>, t: seq<real>, m: real)
    requires multiset(s) == multiset(t)
    ensures multiset(AbsDeviations(s, m)) == multiset(AbsDeviations(t, m))
    decreases |s|
  {
    if s == [] {
      assert |t| == 0 by { assert |multiset(t)| == |t|; }
    } else {
      var j := FindHead(s, t);
      var before, after := t[..j], t[j + 1..];
      AbsDeviationsPermutation(s[1..], before + after, m);
      assert t == before + [s[0]] + after;
      AbsDeviationsAppend(before + [s[0]], after, m);
      AbsDeviationsAppend(before, [s[0]], m);
      AbsDeviationsAppend(before, after, m);
      assert s == [s[0]] + s[1..];
      AbsDeviationsAppend([s[0]], s[1..], m);
    }
  }

  /** The absolute standard deviation does not depend on the order of the
      values, so computing it over the list sorted in place changes
      nothing. */
  lemma AbsoluteStandardDeviationOrderFree(m: real, s: seq<real>, t: seq<real>)
    requires |s| > 0 && multiset(s) == multiset(t)
    ensures |t| == |s|
    ensures AbsoluteStandardDeviation(m, s) == AbsoluteStandardDeviation(m, t)
  {
    assert |t| == |s| by { assert |multiset(s)| == |s| && |multiset(t)| == |t|; }
    AbsDeviationsPermutation(s, t, m);
    SumOrderFree(AbsDeviations(s, m), AbsDeviations(t, m));
  }

  /** Sorting a sorted list changes nothing. */
  lemma SortedTwice(s: seq<real>)
    ensures Sorted(Sorted(s)) == Sorted(s)
  {
    RealLeTotalOrder();
    SortSorted(s, RealLe);
    SortIsUnique(Sorted(s), Sorted(s), RealLe);
  }

  /** The absolute standard deviation is never negative. */
  lemma AbsoluteStandardDeviationNonNegative(m: real, s: seq<real>)
    requires |s| > 0
    ensures AbsoluteStandardDeviation(m, s) >= 0.0
  {
    SumNonNegative(AbsDeviations(s, m));
  }

  /** The absolute standard deviation is zero exactly when every value
      equals m: the degenerate column that makes the score divide by zero. */
  lemma AbsoluteStandardDeviationZero(m: real, s: seq<real>)
    requires |s| > 0
    ensures AbsoluteStandardDeviation(m, s) == 0.0 <==> forall i :: 0 <= i < |s| ==> s[i] == m
  {
    var d := AbsDeviations(s, m);
    if AbsoluteStandardDeviation(m, s) == 0.0 {
      forall i | 0 <= i < |s| ensures s[i] == m {
        SumZeroOnlyIfAllZero(d, i);
      }
    }
    if forall i :: 0 <= i < |s| ==> s[i] == m {
      SumConstant(d, 0.0);
    }
  }

  /** The score of the median is zero. */
  lemma ScoreOfMedianIsZero(median: real, asd: real)
    requires asd != 0.0
    ensures ModifiedStandardScore(median, asd, median) == 0.0
  {}

  /** With a positive deviation the score is strictly increasing. */
  lemma ScoreStrictlyIncreasing(median: real, asd: real, x: real, y: real)
    requires asd > 0.0 && x < y
    ensures ModifiedStandardScore(median, asd, x) < ModifiedStandardScore(median, asd, y)
  {
    assert (y - median) / asd - (x - median) / asd == (y - x) / asd;
  }

  /** For a sorted list the median is the positional middle: the defining
      property of the median, independent of how the list was sorted. */
  lemma MedianOfSorted(s: seq<real>)
    requires |s| > 0 && SortedBy(s, RealLe)
    ensures Median(s) == if |s| % 2 == 0 then (s[|s| / 2 - 1] + s[|s| / 2]) / 2.0 else s[|s| / 2]
  {
    RealLeTotalOrder();
    SortIsUnique(s, s, RealLe);
  }

  /** The median depends only on the values, not on their order. */
  lemma MedianOrderFree(s: seq<real>, t: seq<real>)
    requires |s| > 0 && multiset(s) == multiset(t)
    ensures |t| > 0 && Median(s) == Median(t)
  {
    assert |t| == |s| by { assert |multiset(s)| == |s| && |multiset(t)| == |t|; }
    RealLeTotalOrder();
    SortSorted(t, RealLe);
    SortIsUnique(s, Sorted(t), RealLe);
  }

  /** The median lies between the smallest and the largest value. */
  lemma MedianBetweenMinAndMax(s: seq<real>)
    requires |s| > 0
    ensures Min(s) <= Median(s) <= Max(s)
  {
    var t := Sorted(s);
    forall i | 0 <= i < |t| ensures Min(s) <= t[i] <= Max(s) {
      assert t[i] in multiset(s);
    }
  }

  /** The mean lies between the smallest and the largest value. */
  lemma MeanBetweenMinAndMax(s: seq<real>)
    requires |s| > 0
    ensures Min(s) <= Mean(s) <= Max(s)
  {
    MeanBounds(s, Min(s), Max(s));
  }

  lemma MeanBounds(s: seq<real>, lo: real, hi: real)
    requires |s| > 0 && forall i :: 0 <= i < |s| ==> lo <= s[i] <= hi
    ensures lo <= Mean(s) <= hi
  {
    SumBounds(s, lo, hi);
    DivideBounds(Sum(s), |s| as real, lo, hi);
  }

  lemma DivideBounds(total: real, n: real, lo: real, hi: real)
    requires n > 0.0 && n * lo <= total <= n * hi
    ensures lo <= total / n <= hi
  {}

  // ---------------------------------------------------------------------
  // Scoring a column

  /** `[(x - median) / asd for x in s]`. */
  function Scores(s: seq<real>, median: real, asd: real): (r: seq<real>)
    requires asd != 0.0
    ensures |r| == |s|
    ensures forall i :: 0 <= i < |s| ==> r[i] == ModifiedStandardScore(median, asd, s[i])
  {
    seq(|s|, i requires 0 <= i < |s| => ModifiedStandardScore(median, asd, s[i]))
  }

  lemma {:induction false} ScoresInsert(x: real, t: seq<real>, median: real, asd: real)
    requires asd > 0.0
    ensures Scores(Insert(x, t, RealLe), median, asd)
         == Insert(ModifiedStandardScore(median, asd, x), Scores(t, median, asd), RealLe)
    decreases |t|
  {
    if t != [] {
      if x <= t[0] {
        assert ModifiedStandardScore(median, asd, x) <= ModifiedStandardScore(median, asd, t[0]);
        assert Scores([x] + t, median, asd) == [ModifiedStandardScore(median, asd, x)] + Scores(t, median, asd);
      } else {
        ScoreStrictlyIncreasing(median, asd, t[0], x);
        ScoresInsert(x, t[1..], median, asd);
        assert Scores(t, median, asd)[1..] == Scores(t[1..], median, asd);
        assert Scores([t[0]] + Insert(x, t[1..], RealLe), median, asd)
            == [ModifiedStandardScore(median, asd, t[0])] + Scores(Insert(x, t[1..], RealLe), median, asd);
      }
    }
  }

  /** Scoring keeps the order, so sorting commutes with scoring. */
  lemma {:induction false} ScoresSorted(s: seq<real>, median: real, asd: real)
    requires asd > 0.0
    ensures Sorted(Scores(s, median, asd)) == Scores(Sorted(s), median, asd)
    decreases |s|
  {
    if s != [] {
      var sc := Scores(s, median, asd);
      assert sc[1..] == Scores(s[1..], median, asd);
      ScoresSorted(s[1..], median, asd);
      ScoresInsert(s[0], Sorted(s[1..]), median, asd);
    }
  }

  /** The median of the scored list is the score of the median. */
  lemma MedianOfScores(s: seq<real>, median: real, asd: real)
    requires |s| > 0 && asd > 0.0
    ensures Median(Scores(s, median, asd)) == ModifiedStandardScore(median, asd, Median(s))
  {
    ScoresSorted(s, median, asd);
    var t := Sorted(s);
    var n := |t|;
    if n % 2 == 0 {
      AverageOfScores(t[n / 2 - 1], t[n / 2], median, asd);
    }
  }

  lemma AverageOfScores(a: real, b: real, median: real, asd: real)
    requires asd != 0.0
    ensures (ModifiedStandardScore(median, asd, a) + ModifiedStandardScore(median, asd, b)) / 2.0
         == ModifiedStandardScore(median, asd, (a + b) / 2.0)
  {
    assert (a - median) / asd + (b - median) / asd == (a + b - 2.0 * median) / asd;
  }

  lemma AbsOfQuotient(d: real, c: real)
    requires c > 0.0
    ensures Abs(d / c) == (1.0 / c) * Abs(d)
  {
    if d < 0.0 {
      assert d / c < 0.0;
    } else {
      assert d / c >= 0.0;
    }
  }

  /** Scaling every term scales the mean. */
  lemma MeanScale(s: seq<real>, t: seq<real>, c: real)
    requires |s| > 0 && |t| == |s|
    requires forall i :: 0 <= i < |s| ==> t[i] == c * s[i]
    ensures Mean(t) == c * Mean(s)
  {
    SumScale(s, t, c);
    var n := |s| as real;
    assert (c * Sum(s)) / n == c * (Sum(s) / n);
  }

  /** Scoring divides the absolute deviations from the median by asd. */
  lemma AbsDeviationsOfScores(s: seq<real>, median: real, asd: real)
    requires |s| > 0 && asd > 0.0
    ensures AbsoluteStandardDeviation(0.0, Scores(s, median, asd))
         == (1.0 / asd) * AbsoluteStandardDeviation(median, s)
  {
    var z := Scores(s, median, asd);
    var dz, ds := AbsDeviations(z, 0.0), AbsDeviations(s, median);
    forall i | 0 <= i < |s| ensures dz[i] == (1.0 / asd) * ds[i] {
      AbsOfQuotient(s[i] - median, asd);
      assert z[i] - 0.0 == (s[i] - median) / asd;
    }
    MeanScale(ds, dz, 1.0 / asd);
  }

  /** Scoring a list by its own median (normalize_list) puts the median
      at 0. */
  lemma ScoredMedianIsZero(s: seq<real>, m: real, asd: real)
    requires |s| > 0 && m == Median(s)
    requires asd == AbsoluteStandardDeviation(m, s) && asd != 0.0
    ensures Median(Scores(s, m, asd)) == 0.0
  {
    AbsoluteStandardDeviationNonNegative(m, s);
    MedianOfScores(s, m, asd);
  }

  /** Scoring a list by its own absolute standard deviation makes the
      absolute standard deviation of the scores 1. */
  lemma ScoredDeviationIsOne(s: seq<real>, m: real, asd: real)
    requires |s| > 0
    requires asd == AbsoluteStandardDeviation(m, s) && asd != 0.0
    ensures AbsoluteStandardDeviation(0.0, Scores(s, m, asd)) == 1.0
  {
    AbsoluteStandardDeviationNonNegative(m, s);
    AbsDeviationsOfScores(s, m, asd);
  }
}
