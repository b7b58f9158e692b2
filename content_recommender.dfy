/** The content-based recommender (content_recommender.py): the median, the
    mean and the absolute standard deviation of a list of numbers, the
    modified standard score, the positional Manhattan distance, and the
    items ordered by their distance from one item's attributes. `median`
    sorts the caller's list in place, so the list is an array here. */
module ContentRecommending {
  import opened Wrappers
  import opened Sums
  import opened Sorting
  import Stats
  import opened Recommending
  import opened Lex

  // ---------------------------------------------------------------------
  // Statistics over a list the caller owns

  /** Python `values.sort()`. */
  method SortValues(values: array<real>)
    modifies values
    ensures values[..] == Stats.Sorted(old(values[..]))
  {
    var sorted := Stats.Sorted(values[..]);
    for i := 0 to values.Length
      invariant forall j :: 0 <= j < i ==> values[j] == sorted[j]
      invariant forall j :: i <= j < values.Length ==> values[j] == old(values[j])
    {
      values[i] := sorted[i];
    }
  }

  /** `median(values)`: sorts `values` and reads its middle; an empty list
      fails on `values[-1]`. */
  method Median(values: array<real>) returns (r: Result<real>)
    modifies values
    ensures values[..] == Stats.Sorted(old(values[..]))
    ensures values.Length == 0 <==> r.Err?
    ensures r.Err? ==> r.error == IndexError
    ensures r.Ok? ==> r.value == Stats.Median(old(values[..]))
  {
    SortValues(values);
    var middle := values.Length / 2;
    if values.Length % 2 == 0 {
      if values.Length == 0 {
        return Err(IndexError);
      }
      var left := values[middle - 1];
      var right := values[middle];
      return Ok((left + right) / 2.0);
    }
    return Ok(values[middle]);
  }

  /** `absolute_standard_deviation(values)`: the mean distance from the
      median, summed over the list as `median` left it. */
  method AbsoluteStandardDeviation(values: array<real>) returns (r: Result<real>)
    modifies values
    ensures values[..] == Stats.Sorted(old(values[..]))
    ensures values.Length == 0 <==> r.Err?
    ensures r.Err? ==> r.error == IndexError
    ensures r.Ok? ==> r.value == Stats.AbsoluteStandardDeviation(Stats.Median(old(values[..])), old(values[..]))
  {
    var median :- Median(values);
    var num := Sum(Stats.AbsDeviations(values[..], median));
    Stats.AbsoluteStandardDeviationOrderFree(median, old(values[..]), values[..]);
    return Ok(num / (values.Length as real));
  }

  /** Sorting a non-empty list again leaves it, its median and its absolute
      standard deviation as they were. */
  lemma SortingKeepsScore(original: seq<real>)
    requires |original| > 0
    ensures var sorted := Stats.Sorted(original);
      && |sorted| > 0 && Stats.Sorted(sorted) == sorted
      && Stats.Median(sorted) == Stats.Median(original)
      && Stats.AbsoluteStandardDeviation(Stats.Median(sorted), sorted)
         == Stats.AbsoluteStandardDeviation(Stats.Median(original), original)
  {
    var sorted := Stats.Sorted(original);
    Stats.SortedTwice(original);
    Stats.MedianOrderFree(original, sorted);
    Stats.AbsoluteStandardDeviationOrderFree(Stats.Median(original), original, sorted);
  }

  /** `modified_standard_score(value, values)`: the distance of `value`
      from the median in units of the absolute standard deviation; a list
      whose values all equal its median divides by zero. */
  method ModifiedStandardScore(value: real, values: array<real>) returns (r: Result<real>)
    modifies values
    ensures values[..] == Stats.Sorted(old(values[..]))
    ensures values.Length == 0 ==> r == Err(IndexError)
    ensures values.Length > 0 ==>
      var m := Stats.Median(old(values[..]));
      var asd := Stats.AbsoluteStandardDeviation(m, old(values[..]));
      r == if asd == 0.0 then Err(ZeroDivisionError) else Ok(Stats.ModifiedStandardScore(m, asd, value))
  {
    ghost var original := values[..];
    var median :- Median(values);
    SortingKeepsScore(original);
    ghost var sorted := values[..];
    var deviation := AbsoluteStandardDeviation(values);
    var asd := deviation.value;
    assert values[..] == sorted == Stats.Sorted(original);
    assert asd == Stats.AbsoluteStandardDeviation(Stats.Median(original), original);
    if asd == 0.0 {
      return Err(ZeroDivisionError);
    }
    return Ok(Stats.ModifiedStandardScore(median, asd, value));
  }

  /** `average(values)`: an empty list divides by zero. */
  function Average(values: seq<real>): (r: Result<real>)
    ensures r.Err? <==> values == []
    ensures r.Err? ==> r.error == ZeroDivisionError
    ensures r.Ok? ==> Stats.Min(values) <= r.value <= Stats.Max(values)
  {
    if values == [] then Err(ZeroDivisionError)
    else
      Stats.MeanBetweenMinAndMax(values);
      Ok(Stats.Mean(values))
  }

  // ---------------------------------------------------------------------
  // Positional distance

  /** `[abs(vector1[i] - vector2[i]) for i in range(len(vector1))]`. */
  function AbsDifferences(vector1: seq<real>, vector2: seq<real>): (r: seq<real>)
    requires |vector1| <= |vector2|
    ensures |r| == |vector1|
    ensures forall i :: 0 <= i < |r| ==> r[i] == Stats.Abs(vector1[i] - vector2[i])
  {
    seq(|vector1|, i requires 0 <= i < |vector1| => Stats.Abs(vector1[i] - vector2[i]))
  }

  /** `manhattan(vector1, vector2)`: the coordinates of the first vector
      index the second, so a shorter second vector fails. */
  function Manhattan(vector1: seq<real>, vector2: seq<real>): (r: Result<real>)
    ensures r.Err? <==> |vector2| < |vector1|
    ensures r.Err? ==> r.error == IndexError
  {
    if |vector2| < |vector1| then Err(IndexError)
    else Ok(Sum(AbsDifferences(vector1, vector2)))
  }

  /** The distance is never negative, and it is zero exactly when the second
      vector starts with the first. */
  lemma ManhattanZero(vector1: seq<real>, vector2: seq<real>)
    requires |vector1| <= |vector2|
    ensures Manhattan(vector1, vector2).value >= 0.0
    ensures Manhattan(vector1, vector2).value == 0.0 <==> vector1 == vector2[..|vector1|]
  {
    var d := AbsDifferences(vector1, vector2);
    SumNonNegative(d);
    if Sum(d) == 0.0 {
      forall i | 0 <= i < |vector1| ensures vector1[i] == vector2[i] {
        SumZeroOnlyIfAllZero(d, i);
      }
    }
    if vector1 == vector2[..|vector1|] {
      forall i | 0 <= i < |vector1| ensures d[i] == 0.0 {
        assert vector2[..|vector1|][i] == vector2[i];
      }
      SumConstant(d, 0.0);
    }
  }

  /** Between vectors of one length the distance is symmetric. */
  lemma ManhattanSymmetric(vector1: seq<real>, vector2: seq<real>)
    requires |vector1| == |vector2|
    ensures Manhattan(vector1, vector2) == Manhattan(vector2, vector1)
  {
    assert AbsDifferences(vector1, vector2) == AbsDifferences(vector2, vector1);
  }

  lemma AbsDifferencesAppend(vector1: seq<real>, vector2: seq<real>, a: real, b: real)
    requires |vector1| == |vector2|
    ensures Sum(AbsDifferences(vector1 + [a], vector2 + [b]))
         == Sum(AbsDifferences(vector1, vector2)) + Stats.Abs(a - b)
  {
    var d := AbsDifferences(vector1 + [a], vector2 + [b]);
    assert d[..|d| - 1] == AbsDifferences(vector1, vector2);
  }

  // ---------------------------------------------------------------------
  // Neighbours by shared attributes

  /** The inner loop of `compute_nearest_neighbor`: the ratings of the
      attributes `dict1` shares with `other`, side by side, in the order
      the dictionary yields them. Their positional distance is the
      dictionary distance over the shared attributes. */
  method SharedVectors(dict1: Ratings, other: Ratings) returns (vector1: seq<real>, vector2: seq<real>)
    ensures |vector1| == |vector2|
    ensures Sum(AbsDifferences(vector1, vector2)) == Distance(dict1, other)
  {
    vector1, vector2 := [], [];
    var left := dict1.Keys;
    while left != {}
      invariant left <= dict1.Keys && |vector1| == |vector2|
      invariant Sum(AbsDifferences(vector1, vector2)) + SetSum(left, GapOf(dict1, other)) == Distance(dict1, other)
      decreases |left|
    {
      var attribute :| attribute in left;
      SetSumRemove(left, GapOf(dict1, other), attribute);
      if attribute in other {
        AbsDifferencesAppend(vector1, vector2, dict1[attribute], other[attribute]);
        vector1 := vector1 + [dict1[attribute]];
        vector2 := vector2 + [other[attribute]];
      }
      left := left - {attribute};
    }
  }

  /** `compute_nearest_neighbor(key, dict1, items)`: every item but `key`,
      with its distance from `dict1` over the attributes both have, closest
      first. */
  method ComputeNearestNeighbor(key: string, dict1: Ratings, items: map<string, Ratings>)
    returns (list: seq<(real, string)>)
    ensures Ranked(dict1, items, key, list)
  {
    var pairs: seq<(real, string)> := [];
    var left := items.Keys;
    while left != {}
      invariant left <= items.Keys
      invariant Measured(dict1, items, key, items.Keys - left, pairs)
      decreases |left|
    {
      var k :| k in left;
      assert items.Keys - (left - {k}) == (items.Keys - left) + {k};
      if k != key {
        var vector1, vector2 := SharedVectors(dict1, items[k]);
        var manhattan := Manhattan(vector1, vector2).value;
        MeasuredStep(dict1, items, key, items.Keys - left, pairs, (manhattan, k));
        pairs := pairs + [(manhattan, k)];
      } else {
        MeasuredSkip(dict1, items, key, items.Keys - left, pairs);
      }
      left := left - {k};
    }
    assert items.Keys - left == items.Keys;
    SortedRanked(dict1, items, key, pairs);
    list := Sort(pairs, PairLe);
  }

  class ContentRecommender {
    var data: map<string, Ratings>

    constructor(data: map<string, Ratings>)
      ensures this.data == data
    {
      this.data := data;
    }

    /** `classify(user, item, dict1, items)`: the user's rating of the item
        nearest to `dict1`; with no other item `nearest[0]` fails, and a
        user who has not rated that item is a missing key. */
    method Classify(user: string, item: string, dict1: Ratings, items: map<string, Ratings>)
      returns (r: Result<real>)
      ensures items.Keys <= {item} ==> r == Err(IndexError)
      ensures !(items.Keys <= {item}) ==>
        exists neighbor :: IsNearest(dict1, items, item, neighbor)
          && r == if user in data && neighbor in data[user] then Ok(data[user][neighbor]) else Err(KeyError)
    {
      var nearest := ComputeNearestNeighbor(item, dict1, items);
      if |nearest| == 0 {
        assert items.Keys - {item} == Names(nearest) == {};
        return Err(IndexError);
      }
      assert nearest[0].1 in Names(nearest);
      RankedHead(dict1, items, item, nearest);
      var neighbor := nearest[0].1;
      if user !in data || neighbor !in data[user] {
        return Err(KeyError);
      }
      return Ok(data[user][neighbor]);
    }
  }
}
