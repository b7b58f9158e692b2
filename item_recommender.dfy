/** The item-based recommender (item_recommender.py): the average deviation
    between two items over the users who rated both, the rescaling of a
    rating to [-1, 1] and back, the similarity-weighted prediction of a
    rating, and the weighted Slope One prediction. The similarity between
    two items is a parameter. */
module ItemRecommending {
  import opened Wrappers
  import opened Sums
  import opened Stats
  import opened Recommending
  import opened Reals

  // ---------------------------------------------------------------------
  // Average deviation between two items

  /** Whether a user rated both items. */
  predicate RatedBoth(ratings: Ratings, key1: string, key2: string)
  {
    key1 in ratings && key2 in ratings
  }

  /** The difference `average_deviations` appends for one user. */
  function Difference(data: map<string, Ratings>, key1: string, key2: string, user: string): real
  {
    if user in data && RatedBoth(data[user], key1, key2) then data[user][key1] - data[user][key2] else 0.0
  }

  function DifferenceOf(data: map<string, Ratings>, key1: string, key2: string): string -> real
  {
    user => Difference(data, key1, key2, user)
  }

  /** One for a user who rated both items, zero otherwise. */
  function Rater(data: map<string, Ratings>, key1: string, key2: string, user: string): real
  {
    if user in data && RatedBoth(data[user], key1, key2) then 1.0 else 0.0
  }

  function RaterOf(data: map<string, Ratings>, key1: string, key2: string): string -> real
  {
    user => Rater(data, key1, key2, user)
  }

  /** The number of users who rated both items. */
  ghost function Raters(data: map<string, Ratings>, key1: string, key2: string): real
  {
    SetSum(data.Keys, RaterOf(data, key1, key2))
  }

  /** The mean of `rating[key1] - rating[key2]` over the users who rated
      both; with no such user the mean divides by zero. */
  ghost function Deviation(data: map<string, Ratings>, key1: string, key2: string): Result<real>
  {
    if Raters(data, key1, key2) == 0.0 then Err(ZeroDivisionError)
    else Ok(SetSum(data.Keys, DifferenceOf(data, key1, key2)) / Raters(data, key1, key2))
  }

  /** The deviation is defined exactly when some user rated both items. */
  lemma DeviationDefined(data: map<string, Ratings>, key1: string, key2: string)
    ensures Raters(data, key1, key2) >= 0.0
    ensures Deviation(data, key1, key2).Err?
        <==> forall user :: user in data ==> !RatedBoth(data[user], key1, key2)
  {
    var f := RaterOf(data, key1, key2);
    SetSumNonNegative(data.Keys, f);
    if Raters(data, key1, key2) == 0.0 {
      forall user | user in data ensures !RatedBoth(data[user], key1, key2) {
        SetSumZeroOnlyIfAllZero(data.Keys, f, user);
      }
    }
    if forall user :: user in data ==> !RatedBoth(data[user], key1, key2) {
      SetSumConstant(data.Keys, f, 0.0);
    }
  }

  /** Swapping the items negates the deviation. */
  lemma DeviationAntisymmetric(data: map<string, Ratings>, key1: string, key2: string)
    ensures Deviation(data, key1, key2).Err? <==> Deviation(data, key2, key1).Err?
    ensures Deviation(data, key1, key2).Ok? ==>
      Deviation(data, key2, key1).value == -Deviation(data, key1, key2).value
  {
    DifferencesNegated(data, key1, key2);
    RatersSymmetric(data, key1, key2);
    var total, count := SetSum(data.Keys, DifferenceOf(data, key1, key2)), Raters(data, key1, key2);
    if count != 0.0 {
      QuotientNegated(total, count);
    }
  }

  /** Swapping the items negates every user's difference, so the total. */
  lemma DifferencesNegated(data: map<string, Ratings>, key1: string, key2: string)
    ensures SetSum(data.Keys, DifferenceOf(data, key2, key1)) == -SetSum(data.Keys, DifferenceOf(data, key1, key2))
  {
    var forward, backward := DifferenceOf(data, key1, key2), DifferenceOf(data, key2, key1);
    forall user | user in data.Keys ensures backward(user) == -forward(user) {
      assert RatedBoth(data[user], key1, key2) == RatedBoth(data[user], key2, key1);
    }
    SetSumNegate(data.Keys, forward, backward);
  }

  /** Swapping the items keeps the users who rated both. */
  lemma RatersSymmetric(data: map<string, Ratings>, key1: string, key2: string)
    ensures Raters(data, key1, key2) == Raters(data, key2, key1)
  {
    SetSumCongruent(data.Keys, RaterOf(data, key1, key2), RaterOf(data, key2, key1));
  }

  /** An item does not deviate from itself. */
  lemma DeviationSelf(data: map<string, Ratings>, key: string)
    ensures Deviation(data, key, key).Ok? ==> Deviation(data, key, key).value == 0.0
  {
    SetSumConstant(data.Keys, DifferenceOf(data, key, key), 0.0);
  }

  // ---------------------------------------------------------------------
  // Rescaling a rating

  /** `normalize(value, min_r, max_r)`: maps the rating scale onto [-1, 1];
      an empty scale divides by zero. */
  function Normalize(value: real, minR: real, maxR: real): (r: Result<real>)
    ensures r.Err? <==> minR == maxR
    ensures r.Err? ==> r.error == ZeroDivisionError
  {
    var num := 2.0 * (value - minR) - (maxR - minR);
    var den := maxR - minR;
    if den == 0.0 then Err(ZeroDivisionError) else Ok(num / den)
  }

  /** A proper scale's ends go to -1 and 1. */
  lemma NormalizeEnds(minR: real, maxR: real)
    requires minR != maxR
    ensures Normalize(minR, minR, maxR) == Ok(-1.0)
    ensures Normalize(maxR, minR, maxR) == Ok(1.0)
  {
    var den := maxR - minR;
    QuotientSelf(den);
    QuotientNegated(den, den);
    assert Normalize(minR, minR, maxR) == Ok((-1.0 * den) / den);
    assert Normalize(maxR, minR, maxR) == Ok(den / den);
  }

  /** `denormalize(value, min_r, max_r)`: maps [-1, 1] back onto the
      rating scale. */
  function Denormalize(value: real, minR: real, maxR: real): (r: real)
    ensures value == -1.0 ==> r == minR
    ensures value == 1.0 ==> r == maxR
  {
    0.5 * ((value + 1.0) * (maxR - minR)) + minR
  }

  /** Denormalizing a normalized rating gives the rating back. */
  lemma NormalizeRoundTrip(value: real, minR: real, maxR: real)
    requires minR != maxR
    ensures Denormalize(Normalize(value, minR, maxR).value, minR, maxR) == value
  {
    var den := maxR - minR;
    var num := 2.0 * (value - minR) - den;
    var x := num / den;
    assert Normalize(value, minR, maxR).value == x;
    QuotientTimes(num, den);
    assert (x + 1.0) * den == x * den + den;
  }

  /** Normalizing a denormalized value gives the value back. */
  lemma DenormalizeRoundTrip(value: real, minR: real, maxR: real)
    requires minR != maxR
    ensures Normalize(Denormalize(value, minR, maxR), minR, maxR) == Ok(value)
  {
    var den := maxR - minR;
    var v := Denormalize(value, minR, maxR);
    assert 2.0 * (v - minR) == (value + 1.0) * den;
    assert (value + 1.0) * den == value * den + den;
    ProductQuotient(value, den);
    assert Normalize(v, minR, maxR) == Ok((value * den) / den);
  }

  /** On a proper scale, normalizing keeps the order of ratings and sends
      the ratings of the scale into [-1, 1]. */
  lemma NormalizeMonotone(value1: real, value2: real, minR: real, maxR: real)
    requires minR < maxR && value1 <= value2
    ensures Normalize(value1, minR, maxR).value <= Normalize(value2, minR, maxR).value
    ensures minR <= value1 ==> -1.0 <= Normalize(value1, minR, maxR).value
    ensures value2 <= maxR ==> Normalize(value2, minR, maxR).value <= 1.0
  {
    var den := maxR - minR;
    var num1 := 2.0 * (value1 - minR) - den;
    var num2 := 2.0 * (value2 - minR) - den;
    QuotientMonotone(num1, num2, den);
    QuotientSelf(den);
    QuotientNegated(den, den);
    if minR <= value1 {
      QuotientMonotone(-1.0 * den, num1, den);
    }
    if value2 <= maxR {
      QuotientMonotone(num2, den, den);
    }
  }

  // ---------------------------------------------------------------------
  // Similarity-weighted prediction

  /** The normalized rating `predict` weighs for one other item. */
  function WeightedRating(ratings: Ratings, item: string, minR: real, maxR: real,
                          similarity: (string, string) -> real, key: string): real
  {
    if key in ratings && key != item && minR != maxR
    then similarity(key, item) * Normalize(ratings[key], minR, maxR).value
    else 0.0
  }

  function WeightedRatingOf(ratings: Ratings, item: string, minR: real, maxR: real,
                            similarity: (string, string) -> real): string -> real
  {
    key => WeightedRating(ratings, item, minR, maxR, similarity, key)
  }

  /** The weight `predict` adds for one other item. */
  function Weight(ratings: Ratings, item: string, similarity: (string, string) -> real, key: string): real
  {
    if key in ratings && key != item then Abs(similarity(key, item)) else 0.0
  }

  function WeightOf(ratings: Ratings, item: string, similarity: (string, string) -> real): string -> real
  {
    key => Weight(ratings, item, similarity, key)
  }

  /** The prediction of `item` from a user's ratings of the other items: the
      normalized ratings weighted by similarity over the total absolute
      similarity. It divides by zero on an empty scale and when no other
      item has any similarity. */
  ghost function Prediction(ratings: Ratings, item: string, minR: real, maxR: real,
                            similarity: (string, string) -> real): Result<real>
  {
    var den := SetSum(ratings.Keys, WeightOf(ratings, item, similarity));
    if minR == maxR || den == 0.0 then Err(ZeroDivisionError)
    else Ok(SetSum(ratings.Keys, WeightedRatingOf(ratings, item, minR, maxR, similarity)) / den)
  }

  /** With a proper scale the prediction fails exactly when every other
      rated item has similarity zero. */
  lemma PredictionDefined(ratings: Ratings, item: string, minR: real, maxR: real,
                          similarity: (string, string) -> real)
    requires minR != maxR
    ensures Prediction(ratings, item, minR, maxR, similarity).Err?
        <==> forall key :: key in ratings && key != item ==> similarity(key, item) == 0.0
  {
    var g := WeightOf(ratings, item, similarity);
    SetSumNonNegative(ratings.Keys, g);
    if SetSum(ratings.Keys, g) == 0.0 {
      forall key | key in ratings && key != item ensures similarity(key, item) == 0.0 {
        SetSumZeroOnlyIfAllZero(ratings.Keys, g, key);
      }
    }
    if forall key :: key in ratings && key != item ==> similarity(key, item) == 0.0 {
      SetSumConstant(ratings.Keys, g, 0.0);
    }
  }

  /** When the user's ratings lie on the scale, the prediction is a
      normalized rating: it lies in [-1, 1], so denormalizing it lands on
      the scale. */
  lemma PredictionInRange(ratings: Ratings, item: string, minR: real, maxR: real,
                          similarity: (string, string) -> real)
    requires minR < maxR
    requires forall key :: key in ratings ==> minR <= ratings[key] <= maxR
    ensures Prediction(ratings, item, minR, maxR, similarity).Ok? ==>
      -1.0 <= Prediction(ratings, item, minR, maxR, similarity).value <= 1.0
  {
    var f := WeightedRatingOf(ratings, item, minR, maxR, similarity);
    var g := WeightOf(ratings, item, similarity);
    TermsWithin(ratings, item, minR, maxR, similarity);
    SetSumWithin(ratings.Keys, f, g);
    var num := SetSum(ratings.Keys, f);
    var den := SetSum(ratings.Keys, g);
    if den != 0.0 {
      QuotientInUnit(num, den);
    }
  }

  /** Each weighted rating lies within plus or minus its weight. */
  lemma TermsWithin(ratings: Ratings, item: string, minR: real, maxR: real,
                    similarity: (string, string) -> real)
    requires minR < maxR
    requires forall key :: key in ratings ==> minR <= ratings[key] <= maxR
    ensures forall key :: key in ratings.Keys ==>
      -1.0 * WeightOf(ratings, item, similarity)(key) <= WeightedRatingOf(ratings, item, minR, maxR, similarity)(key)
      <= WeightOf(ratings, item, similarity)(key)
  {
    forall key | key in ratings.Keys
      ensures -1.0 * WeightOf(ratings, item, similarity)(key) <= WeightedRatingOf(ratings, item, minR, maxR, similarity)(key)
              <= WeightOf(ratings, item, similarity)(key)
    {
      if key != item {
        var n := Normalize(ratings[key], minR, maxR).value;
        NormalizeMonotone(ratings[key], ratings[key], minR, maxR);
        BoundedProduct(similarity(key, item), n);
      }
    }
  }

  lemma BoundedProduct(s: real, n: real)
    requires -1.0 <= n <= 1.0
    ensures -Abs(s) <= s * n <= Abs(s)
  {
    var a := Abs(s);
    ProductNonNegative(a, 1.0 - n);
    ProductNonNegative(a, n + 1.0);
  }

  // ---------------------------------------------------------------------
  // Weighted Slope One

  /** The term `weighted_slope_one` weighs for item `i`: its deviation from
      the target item plus the user's rating of it. */
  ghost function SlopeTerm(data: map<string, Ratings>, ratings: Ratings, j: string, i: string): real
  {
    if i in ratings && i != j && Deviation(data, j, i).Ok?
    then Deviation(data, j, i).value + ratings[i]
    else 0.0
  }

  ghost function SlopeTermOf(data: map<string, Ratings>, ratings: Ratings, j: string): string -> real
  {
    i => SlopeTerm(data, ratings, j, i)
  }

  /** The weighted Slope One prediction of item `j` for a user with
      `ratings`: every other item carries the same weight, so it is the
      plain mean of the terms over the other items. It divides by zero
      when the user rated no other item or some other item shares no rater
      with `j`. */
  ghost function SlopeOne(data: map<string, Ratings>, ratings: Ratings, j: string): Result<real>
  {
    var others := ratings.Keys - {j};
    if others == {} || exists i :: i in others && Deviation(data, j, i).Err? then Err(ZeroDivisionError)
    else Ok(SetSum(others, SlopeTermOf(data, ratings, j)) / (|others| as real))
  }

  /** One for each of the user's items other than `j`. */
  function OtherOf(ratings: Ratings, j: string): string -> real
  {
    i => if i in ratings && i != j then 1.0 else 0.0
  }

  // ---------------------------------------------------------------------
  // Loop states

  /** The state of `average_deviations` with the users in `left` still to
      visit: the differences and the count so far. */
  ghost predicate Accumulated(data: map<string, Ratings>, key1: string, key2: string,
                              left: set<string>, total: real, count: real)
  {
    && left <= data.Keys
    && total + SetSum(left, DifferenceOf(data, key1, key2)) == SetSum(data.Keys, DifferenceOf(data, key1, key2))
    && count + SetSum(left, RaterOf(data, key1, key2)) == Raters(data, key1, key2)
  }

  lemma AccumulatedStep(data: map<string, Ratings>, key1: string, key2: string,
                        left: set<string>, total: real, count: real, user: string)
    requires Accumulated(data, key1, key2, left, total, count) && user in left
    ensures Accumulated(data, key1, key2, left - {user},
                        total + Difference(data, key1, key2, user), count + Rater(data, key1, key2, user))
  {
    SetSumRemove(left, DifferenceOf(data, key1, key2), user);
    SetSumRemove(left, RaterOf(data, key1, key2), user);
  }

  lemma AccumulatedDone(data: map<string, Ratings>, key1: string, key2: string, total: real, count: real)
    requires Accumulated(data, key1, key2, {}, total, count)
    ensures Deviation(data, key1, key2) == if count == 0.0 then Err(ZeroDivisionError) else Ok(total / count)
  {
  }

  /** The state of `predict` with the items in `left` still to visit. */
  ghost predicate Weighed(ratings: Ratings, item: string, minR: real, maxR: real,
                          similarity: (string, string) -> real,
                          left: set<string>, sumNum: real, sumDen: real)
  {
    && left <= ratings.Keys
    && sumNum + SetSum(left, WeightedRatingOf(ratings, item, minR, maxR, similarity))
       == SetSum(ratings.Keys, WeightedRatingOf(ratings, item, minR, maxR, similarity))
    && sumDen + SetSum(left, WeightOf(ratings, item, similarity))
       == SetSum(ratings.Keys, WeightOf(ratings, item, similarity))
  }

  lemma WeighedStep(ratings: Ratings, item: string, minR: real, maxR: real,
                    similarity: (string, string) -> real,
                    left: set<string>, sumNum: real, sumDen: real, key: string, num: real, den: real)
    requires Weighed(ratings, item, minR, maxR, similarity, left, sumNum, sumDen) && key in left
    requires num == sumNum + WeightedRating(ratings, item, minR, maxR, similarity, key)
    requires den == sumDen + Weight(ratings, item, similarity, key)
    ensures Weighed(ratings, item, minR, maxR, similarity, left - {key}, num, den)
  {
    SetSumRemove(left, WeightedRatingOf(ratings, item, minR, maxR, similarity), key);
    SetSumRemove(left, WeightOf(ratings, item, similarity), key);
  }

  lemma WeighedDone(ratings: Ratings, item: string, minR: real, maxR: real,
                    similarity: (string, string) -> real, sumNum: real, sumDen: real)
    requires Weighed(ratings, item, minR, maxR, similarity, {}, sumNum, sumDen)
    requires minR == maxR ==> sumDen == 0.0
    ensures Prediction(ratings, item, minR, maxR, similarity)
         == if sumDen == 0.0 then Err(ZeroDivisionError) else Ok(sumNum / sumDen)
  {
  }

  /** The state of `weighted_slope_one` with the other items in `left`
      still to visit, without the common weight: the sum of the terms and
      the number of items so far. Every item visited so far has a
      deviation from `j`. */
  ghost predicate Sloped(data: map<string, Ratings>, ratings: Ratings, j: string,
                         left: set<string>, total: real, count: real)
  {
    var others := ratings.Keys - {j};
    && left <= others
    && (forall i :: i in others - left ==> Deviation(data, j, i).Ok?)
    && total + SetSum(left, SlopeTermOf(data, ratings, j)) == SetSum(others, SlopeTermOf(data, ratings, j))
    && count + SetSum(left, OtherOf(ratings, j)) == SetSum(others, OtherOf(ratings, j))
  }

  lemma SlopedStep(data: map<string, Ratings>, ratings: Ratings, j: string,
                   left: set<string>, total: real, count: real, i: string, total': real, count': real)
    requires Sloped(data, ratings, j, left, total, count) && i in left
    requires Deviation(data, j, i).Ok?
    requires total' == total + (Deviation(data, j, i).value + ratings[i])
    requires count' == count + 1.0
    ensures Sloped(data, ratings, j, left - {i}, total', count')
  {
    SetSumRemove(left, SlopeTermOf(data, ratings, j), i);
    SetSumRemove(left, OtherOf(ratings, j), i);
    var others := ratings.Keys - {j};
    assert others - (left - {i}) == (others - left) + {i};
  }

  /** One pass of `weighted_slope_one` over item `i`: the unweighted state
      advances by `SlopedStep` and the weighted sums stay the weight times
      the unweighted ones. */
  lemma WeightedSlopedStep(data: map<string, Ratings>, ratings: Ratings, j: string, card: real,
                           left: set<string>, total: real, count: real, num: real, den: real,
                           i: string, deviation: Result<real>, term: real,
                           total': real, count': real, num': real, den': real)
    requires Sloped(data, ratings, j, left, total, count) && i in left
    requires num == card * total && den == card * count
    requires deviation == Deviation(data, j, i) && deviation.Ok?
    requires term == deviation.value + ratings[i]
    requires num' == num + term * card && den' == den + card
    requires total' == total + term && count' == count + 1.0
    ensures Sloped(data, ratings, j, left - {i}, total', count')
    ensures num' == card * total' && den' == card * count'
  {
    WeightedAdded(card, total, total', term, num, num');
    WeightedCounted(card, count, count', den, den');
    SlopedStep(data, ratings, j, left, total, count, i, total', count');
  }

  /** Adding a term times the weight to the weighted total. */
  lemma WeightedAdded(weight: real, total: real, total': real, term: real, num: real, num': real)
    requires num == weight * total && num' == num + term * weight && total' == total + term
    ensures num' == weight * total'
  {
  }

  /** Adding the weight to the weighted count. */
  lemma WeightedCounted(weight: real, count: real, count': real, den: real, den': real)
    requires den == weight * count && den' == den + weight && count' == count + 1.0
    ensures den' == weight * count'
  {
  }

  /** `len([key for key in ratings if key != j])`. */
  method CountOthers(ratings: Ratings, j: string) returns (card: real)
    ensures card == |ratings.Keys - {j}| as real
  {
    card := 0.0;
    var left := ratings.Keys;
    while left != {}
      invariant left <= ratings.Keys
      invariant card + SetSum(left, OtherOf(ratings, j)) == SetSum(ratings.Keys, OtherOf(ratings, j))
      decreases |left|
    {
      var key :| key in left;
      SetSumRemove(left, OtherOf(ratings, j), key);
      if key != j {
        card := card + 1.0;
      }
      left := left - {key};
    }
    SetSumZeroOutside(ratings.Keys, ratings.Keys - {j}, OtherOf(ratings, j));
    OthersCounted(ratings, j);
  }

  /** Each other item counts one. */
  lemma OthersCounted(ratings: Ratings, j: string)
    ensures SetSum(ratings.Keys - {j}, OtherOf(ratings, j)) == |ratings.Keys - {j}| as real
  {
    SetSumCount(ratings.Keys - {j}, OtherOf(ratings, j));
  }

  /** With no item left, the sums cover all other items. */
  lemma SlopedAll(data: map<string, Ratings>, ratings: Ratings, j: string, total: real, count: real)
    requires Sloped(data, ratings, j, {}, total, count)
    ensures count == |ratings.Keys - {j}| as real
    ensures total == SetSum(ratings.Keys - {j}, SlopeTermOf(data, ratings, j))
    ensures forall i :: i in ratings.Keys - {j} ==> Deviation(data, j, i).Ok?
  {
    OthersCounted(ratings, j);
  }

  /** At the end every other item has a deviation from `j`, the count is
      the number of other items, and the weighted quotient is the mean of
      the terms; nothing was counted exactly when there is no other item. */
  lemma SlopedDone(data: map<string, Ratings>, ratings: Ratings, j: string, card: real,
                   total: real, count: real, num: real, den: real)
    requires Sloped(data, ratings, j, {}, total, count)
    requires card == |ratings.Keys - {j}| as real
    requires num == card * total && den == card * count
    ensures den == 0.0 ==> SlopeOne(data, ratings, j) == Err(ZeroDivisionError)
    ensures den != 0.0 ==> SlopeOne(data, ratings, j) == Ok(num / den)
  {
    SlopedAll(data, ratings, j, total, count);
    if den == 0.0 {
      SlopeOneEmpty(data, ratings, j, card, count);
    } else {
      SlopeOneMean(data, ratings, j, card, total, count);
    }
  }

  /** A zero weighted count means there is no other item. */
  lemma SlopeOneEmpty(data: map<string, Ratings>, ratings: Ratings, j: string, card: real, count: real)
    requires card == |ratings.Keys - {j}| as real && count == card
    requires card * count == 0.0
    ensures SlopeOne(data, ratings, j) == Err(ZeroDivisionError)
  {
    if card > 0.0 {
      ProductPositive(card, count);
    }
    assert ratings.Keys - {j} == {};
  }

  /** With every deviation defined, the weighted quotient is the mean term. */
  lemma SlopeOneMean(data: map<string, Ratings>, ratings: Ratings, j: string, card: real, total: real, count: real)
    requires card == |ratings.Keys - {j}| as real && count == card
    requires total == SetSum(ratings.Keys - {j}, SlopeTermOf(data, ratings, j))
    requires forall i :: i in ratings.Keys - {j} ==> Deviation(data, j, i).Ok?
    requires card * count != 0.0
    ensures SlopeOne(data, ratings, j) == Ok((card * total) / (card * count))
  {
    QuotientCancelled(total, card, count);
  }

  /** An item without a deviation from `j` makes the prediction fail. */
  lemma SlopeOneFails(data: map<string, Ratings>, ratings: Ratings, j: string, i: string)
    requires i in ratings.Keys - {j} && Deviation(data, j, i).Err?
    ensures SlopeOne(data, ratings, j) == Err(ZeroDivisionError)
  {
  }

  // ---------------------------------------------------------------------
  // The recommender

  class ItemRecommender {
    var data: map<string, Ratings>

    constructor(data: map<string, Ratings>)
      ensures this.data == data
    {
      this.data := data;
    }

    /** `average_deviations(key1, key2)`: visits the users in whatever
        order the dictionary yields them. */
    method AverageDeviations(key1: string, key2: string) returns (r: Result<real>)
      ensures r == Deviation(data, key1, key2)
    {
      var total := 0.0;
      var count := 0.0;
      var left := data.Keys;
      while left != {}
        invariant Accumulated(data, key1, key2, left, total, count)
        decreases |left|
      {
        var user :| user in left;
        AccumulatedStep(data, key1, key2, left, total, count, user);
        var value := data[user];
        if key1 in value && key2 in value {
          total := total + (value[key1] - value[key2]);
          count := count + 1.0;
        }
        left := left - {user};
      }
      AccumulatedDone(data, key1, key2, total, count);
      if count == 0.0 {
        return Err(ZeroDivisionError);
      }
      return Ok(total / count);
    }

    /** `predict(user, item, min_r, max_r)` with the item similarity as a
        parameter: a user without ratings is a missing key. */
    method Predict(user: string, item: string, minR: real, maxR: real,
                   similarity: (string, string) -> real) returns (r: Result<real>)
      ensures user !in data ==> r == Err(KeyError)
      ensures user in data ==> r == Prediction(data[user], item, minR, maxR, similarity)
    {
      if user !in data {
        return Err(KeyError);
      }
      var ratings := data[user];
      var sumNum := 0.0;
      var sumDen := 0.0;
      var left := ratings.Keys;
      while left != {}
        invariant Weighed(ratings, item, minR, maxR, similarity, left, sumNum, sumDen)
        invariant minR == maxR ==> sumDen == 0.0
        decreases |left|
      {
        var key :| key in left;
        ghost var previousNum, previousDen := sumNum, sumDen;
        if key != item {
          var s := similarity(key, item);
          var normalized := Normalize(ratings[key], minR, maxR);
          if normalized.Err? {
            return Err(ZeroDivisionError);
          }
          sumNum := sumNum + s * normalized.value;
          sumDen := sumDen + Abs(s);
        }
        WeighedStep(ratings, item, minR, maxR, similarity, left, previousNum, previousDen, key, sumNum, sumDen);
        left := left - {key};
      }
      WeighedDone(ratings, item, minR, maxR, similarity, sumNum, sumDen);
      if sumDen == 0.0 {
        return Err(ZeroDivisionError);
      }
      return Ok(sumNum / sumDen);
    }

    /** `weighted_slope_one(u, j)`: a user without ratings is a missing
        key. */
    method WeightedSlopeOne(u: string, j: string) returns (r: Result<real>)
      ensures u !in data ==> r == Err(KeyError)
      ensures u in data ==> r == SlopeOne(data, data[u], j)
    {
      if u !in data {
        return Err(KeyError);
      }
      var ratings := data[u];
      var num := 0.0;
      var den := 0.0;
      // `card_j_i`, the same on every pass, and the unweighted sums so far.
      var card := CountOthers(ratings, j);
      ghost var total, count := 0.0, 0.0;
      // The pass over `j` itself adds nothing.
      var left := ratings.Keys - {j};
      while left != {}
        invariant Sloped(data, ratings, j, left, total, count)
        invariant num == card * total && den == card * count
        decreases |left|
      {
        var i :| i in left;
        var deviation := AverageDeviations(j, i);
        if deviation.Err? {
          SlopeOneFails(data, ratings, j, i);
          return Err(ZeroDivisionError);
        }
        var term := deviation.value + ratings[i];
        ghost var previousNum, previousDen, previousTotal, previousCount := num, den, total, count;
        num := num + term * card;
        den := den + card;
        total, count := total + term, count + 1.0;
        WeightedSlopedStep(data, ratings, j, card, left, previousTotal, previousCount, previousNum, previousDen,
                           i, deviation, term, total, count, num, den);
        left := left - {i};
      }
      SlopedDone(data, ratings, j, card, total, count, num, den);
      if den == 0.0 {
        return Err(ZeroDivisionError);
      }
      return Ok(num / den);
    }
  }
}
