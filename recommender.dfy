/** The user-based recommender (recommender.py): ratings keyed by user and
    then by item, the Manhattan and Minkowski distances over the items two
    users both rated, the other users ordered by distance, and the items the
    nearest user rated that the given user has not. */
module Recommending {
  import opened Wrappers
  import opened Sums
  import opened Sorting
  import opened Lex
  import opened Stats
  import opened Text

  /** One user's ratings: item name to score. */
  type Ratings = map<string, real>

  // ---------------------------------------------------------------------
  // Distances over the items both users rated

  /** The term `manhattan` adds for one item of the first user. */
  function Gap(list1: Ratings, list2: Ratings, key: string): real
  {
    if key in list1 && key in list2 then Abs(list1[key] - list2[key]) else 0.0
  }

  function GapOf(list1: Ratings, list2: Ratings): string -> real
  {
    key => Gap(list1, list2, key)
  }

  /** The Manhattan distance: the rating gaps summed over the shared items. */
  ghost function Distance(list1: Ratings, list2: Ratings): real
  {
    SetSum(list1.Keys, GapOf(list1, list2))
  }

  /** `manhattan`: visits the first user's items in whatever order the
      dictionary yields them. */
  method Manhattan(list1: Ratings, list2: Ratings) returns (total: real)
    ensures total == Distance(list1, list2)
  {
    total := 0.0;
    var left := list1.Keys;
    while left != {}
      invariant left <= list1.Keys
      invariant total + SetSum(left, GapOf(list1, list2)) == Distance(list1, list2)
      decreases |left|
    {
      var key :| key in left;
      SetSumRemove(left, GapOf(list1, list2), key);
      if key in list2 {
        total := total + Abs(list1[key] - list2[key]);
      }
      left := left - {key};
    }
  }

  /** Only the shared items contribute. */
  lemma DistanceOverShared(list1: Ratings, list2: Ratings)
    ensures Distance(list1, list2) == SetSum(list1.Keys * list2.Keys, GapOf(list1, list2))
  {
    SetSumZeroOutside(list1.Keys, list1.Keys * list2.Keys, GapOf(list1, list2));
  }

  /** The distance does not depend on which user comes first. */
  lemma DistanceSymmetric(list1: Ratings, list2: Ratings)
    ensures Distance(list1, list2) == Distance(list2, list1)
  {
    DistanceOverShared(list1, list2);
    DistanceOverShared(list2, list1);
    assert list1.Keys * list2.Keys == list2.Keys * list1.Keys;
    SetSumCongruent(list1.Keys * list2.Keys, GapOf(list1, list2), GapOf(list2, list1));
  }

  /** The distance is zero exactly when the users agree on every item both
      rated (in particular when they share no item). */
  lemma DistanceZero(list1: Ratings, list2: Ratings)
    ensures Distance(list1, list2) >= 0.0
    ensures Distance(list1, list2) == 0.0
        <==> forall key :: key in list1 && key in list2 ==> list1[key] == list2[key]
  {
    var f := GapOf(list1, list2);
    SetSumNonNegative(list1.Keys, f);
    if Distance(list1, list2) == 0.0 {
      forall key | key in list1 && key in list2 ensures list1[key] == list2[key] {
        SetSumZeroOnlyIfAllZero(list1.Keys, f, key);
      }
    }
    if forall key :: key in list1 && key in list2 ==> list1[key] == list2[key] {
      SetSumConstant(list1.Keys, f, 0.0);
    }
  }

  /** `x ** n` for a whole exponent. */
  function Power(x: real, n: nat): real
  {
    if n == 0 then 1.0 else x * Power(x, n - 1)
  }

  /** The term `minkowski` adds for one item of the first user. */
  function PowerGap(list1: Ratings, list2: Ratings, r: nat, key: string): real
  {
    if key in list1 && key in list2 then Power(Abs(list1[key] - list2[key]), r) else 0.0
  }

  function PowerGapOf(list1: Ratings, list2: Ratings, r: nat): string -> real
  {
    key => PowerGap(list1, list2, r, key)
  }

  /** The sum of the r-th powers of the gaps over the shared items. */
  ghost function PowerTotal(list1: Ratings, list2: Ratings, r: nat): real
  {
    SetSum(list1.Keys, PowerGapOf(list1, list2, r))
  }

  /** The loop of `minkowski`. */
  method PowerSum(list1: Ratings, list2: Ratings, r: nat) returns (total: real)
    ensures total == PowerTotal(list1, list2, r)
  {
    total := 0.0;
    var left := list1.Keys;
    while left != {}
      invariant left <= list1.Keys
      invariant total + SetSum(left, PowerGapOf(list1, list2, r)) == PowerTotal(list1, list2, r)
      decreases |left|
    {
      var key :| key in left;
      SetSumRemove(left, PowerGapOf(list1, list2, r), key);
      if key in list2 {
        total := total + Power(Abs(list1[key] - list2[key]), r);
      }
      left := left - {key};
    }
  }

  /** `minkowski(list1, list2, r)`: the r-th root of the power total when it
      is positive, otherwise 0. `root(t, r)` stands for `pow(t, 1.0 / r)`;
      with r = 0 the exponent `1.0 / r` divides by zero. `r` is a natural
      number, as at every call in the source (2, and the default 5): the
      powers are repeated products, so a fractional or negative `r`, which
      `pow` would accept, is outside this model. */
  method Minkowski(list1: Ratings, list2: Ratings, r: nat, root: (real, nat) -> real)
    returns (d: Result<real>)
    ensures PowerTotal(list1, list2, r) > 0.0 && r == 0 ==> d == Err(ZeroDivisionError)
    ensures PowerTotal(list1, list2, r) > 0.0 && r > 0 ==> d == Ok(root(PowerTotal(list1, list2, r), r))
    ensures PowerTotal(list1, list2, r) <= 0.0 ==> d == Ok(0.0)
  {
    var total := PowerSum(list1, list2, r);
    if total > 0.0 {
      if r == 0 {
        return Err(ZeroDivisionError);
      }
      return Ok(root(total, r));
    }
    return Ok(0.0);
  }

  /** `euclidean`: Minkowski with r = 2. */
  method Euclidean(list1: Ratings, list2: Ratings, root: (real, nat) -> real) returns (d: Result<real>)
    ensures PowerTotal(list1, list2, 2) > 0.0 ==> d == Ok(root(PowerTotal(list1, list2, 2), 2))
    ensures PowerTotal(list1, list2, 2) <= 0.0 ==> d == Ok(0.0)
  {
    d := Minkowski(list1, list2, 2, root);
  }

  lemma {:induction false} PowerNonNegative(x: real, n: nat)
    requires x >= 0.0
    ensures Power(x, n) >= 0.0
    ensures n > 0 ==> (Power(x, n) == 0.0 <==> x == 0.0)
  {
    if n > 0 {
      PowerNonNegative(x, n - 1);
      if x > 0.0 {
        assert Power(x, n - 1) > 0.0;
      }
    }
  }

  /** With a positive exponent the power total is zero, and `minkowski`
      takes its zero branch, exactly when the users agree on every shared
      item. */
  lemma PowerTotalZero(list1: Ratings, list2: Ratings, r: nat)
    requires r > 0
    ensures PowerTotal(list1, list2, r) >= 0.0
    ensures PowerTotal(list1, list2, r) == 0.0
        <==> forall key :: key in list1 && key in list2 ==> list1[key] == list2[key]
  {
    var f := PowerGapOf(list1, list2, r);
    forall key | key in list1.Keys ensures f(key) >= 0.0 {
      if key in list2 {
        PowerNonNegative(Abs(list1[key] - list2[key]), r);
      }
    }
    SetSumNonNegative(list1.Keys, f);
    if PowerTotal(list1, list2, r) == 0.0 {
      forall key | key in list1 && key in list2 ensures list1[key] == list2[key] {
        SetSumZeroOnlyIfAllZero(list1.Keys, f, key);
        PowerNonNegative(Abs(list1[key] - list2[key]), r);
      }
    }
    if forall key :: key in list1 && key in list2 ==> list1[key] == list2[key] {
      SetSumConstant(list1.Keys, f, 0.0);
    }
  }

  /** With r = 1 the power total is the Manhattan distance. */
  lemma PowerTotalOneIsDistance(list1: Ratings, list2: Ratings)
    ensures PowerTotal(list1, list2, 1) == Distance(list1, list2)
  {
    forall key | key in list1.Keys ensures PowerGapOf(list1, list2, 1)(key) == GapOf(list1, list2)(key) {
      if key in list2 {
        assert Power(Abs(list1[key] - list2[key]), 1) == Abs(list1[key] - list2[key]) * Power(Abs(list1[key] - list2[key]), 0);
      }
    }
    SetSumCongruent(list1.Keys, PowerGapOf(list1, list2, 1), GapOf(list1, list2));
  }

  // ---------------------------------------------------------------------
  // Neighbours

  /** The names in a list of `(distance, name)` pairs. */
  ghost function Names(list: seq<(real, string)>): set<string>
  {
    set i | 0 <= i < |list| :: list[i].1
  }

  /** The pair holds the distance from `base` to the entry of `others` it
      names. */
  ghost predicate Scored(base: Ratings, others: map<string, Ratings>, pair: (real, string))
  {
    pair.1 in others && pair.0 == Distance(base, others[pair.1])
  }

  /** A neighbour list: every entry of `others` except `key` exactly once,
      with its distance from `base`, closest first, ties by name. */
  ghost predicate Ranked(base: Ratings, others: map<string, Ratings>, key: string, list: seq<(real, string)>)
  {
    && SortedBy(list, PairLe)
    && Names(list) == others.Keys - {key}
    && (forall i, j :: 0 <= i < j < |list| ==> list[i].1 != list[j].1)
    && (forall i :: 0 <= i < |list| ==> Scored(base, others, list[i]))
  }

  /** `neighbor` is the entry of `others` other than `key` nearest to
      `base`, ties going to the smaller name. */
  ghost predicate IsNearest(base: Ratings, others: map<string, Ratings>, key: string, neighbor: string)
  {
    && neighbor in others && neighbor != key
    && forall other :: other in others && other != key ==>
         PairLe((Distance(base, others[neighbor]), neighbor), (Distance(base, others[other]), other))
  }

  /** The first entry of a neighbour list is the nearest. */
  lemma RankedHead(base: Ratings, others: map<string, Ratings>, key: string, list: seq<(real, string)>)
    requires Ranked(base, others, key, list) && |list| > 0
    ensures IsNearest(base, others, key, list[0].1)
  {
    assert list[0].1 in Names(list);
    forall other | other in others && other != key
      ensures PairLe((Distance(base, others[list[0].1]), list[0].1), (Distance(base, others[other]), other))
    {
      assert other in Names(list);
      var i :| 0 <= i < |list| && list[i].1 == other;
      assert Scored(base, others, list[i]) && Scored(base, others, list[0]);
      if i > 0 {
        assert PairLe(list[0], list[i]);
      } else {
        PairLeTotalOrder();
      }
    }
  }

  /** At most one entry is nearest, so what is read from the head of a
      neighbour list does not depend on the dictionary's order. */
  lemma NearestUnique(base: Ratings, others: map<string, Ratings>, key: string, a: string, b: string)
    requires IsNearest(base, others, key, a) && IsNearest(base, others, key, b)
    ensures a == b
  {
    PairLeTotalOrder();
    var pa := (Distance(base, others[a]), a);
    var pb := (Distance(base, others[b]), b);
    assert PairLe(pa, pb) && PairLe(pb, pa);
  }

  /** `pairs` holds, once each, the entries of `seen` other than `key`, with
      their distances from `base`. */
  ghost predicate Measured(base: Ratings, others: map<string, Ratings>, key: string, seen: set<string>,
                           pairs: seq<(real, string)>)
  {
    && Names(pairs) == seen - {key}
    && (forall i, j :: 0 <= i < j < |pairs| ==> pairs[i].1 != pairs[j].1)
    && (forall i :: 0 <= i < |pairs| ==> Scored(base, others, pairs[i]))
  }

  lemma MeasuredStep(base: Ratings, others: map<string, Ratings>, key: string, seen: set<string>,
                     pairs: seq<(real, string)>, pair: (real, string))
    requires Measured(base, others, key, seen, pairs) && pair.1 !in seen && pair.1 != key
    requires Scored(base, others, pair)
    ensures Measured(base, others, key, seen + {pair.1}, pairs + [pair])
  {
    NamesAppend(pairs, pair);
    assert (seen + {pair.1}) - {key} == (seen - {key}) + {pair.1};
    assert forall i :: 0 <= i < |pairs| ==> pairs[i].1 in Names(pairs);
  }

  lemma MeasuredSkip(base: Ratings, others: map<string, Ratings>, key: string, seen: set<string>,
                     pairs: seq<(real, string)>)
    requires Measured(base, others, key, seen, pairs)
    ensures Measured(base, others, key, seen + {key}, pairs)
  {
    assert (seen + {key}) - {key} == seen - {key};
  }

  /** Sorting the measured pairs gives the neighbour list. */
  lemma SortedRanked(base: Ratings, others: map<string, Ratings>, key: string, pairs: seq<(real, string)>)
    requires Measured(base, others, key, others.Keys, pairs)
    ensures Ranked(base, others, key, Sort(pairs, PairLe))
  {
    var sorted := Sort(pairs, PairLe);
    PairLeTotalOrder();
    SortSorted(pairs, PairLe);
    NamesOfPermutation(pairs, sorted);
    NoDuplicatesPermutation(pairs, sorted);
    forall i | 0 <= i < |sorted| ensures Scored(base, others, sorted[i]) {
      assert sorted[i] in multiset(pairs);
      var j :| 0 <= j < |pairs| && pairs[j] == sorted[i];
    }
  }

  lemma NamesAppend(list: seq<(real, string)>, pair: (real, string))
    ensures Names(list + [pair]) == Names(list) + {pair.1}
  {
    var l := list + [pair];
    forall n | n in Names(l) ensures n in Names(list) + {pair.1} {
      var i :| 0 <= i < |l| && l[i].1 == n;
      if i < |list| {
        assert list[i].1 == n;
      }
    }
    forall n | n in Names(list) ensures n in Names(l) {
      var i :| 0 <= i < |list| && list[i].1 == n;
      assert l[i].1 == n;
    }
    assert l[|list|].1 == pair.1;
  }

  lemma NamesOfPermutation(s: seq<(real, string)>, t: seq<(real, string)>)
    requires multiset(s) == multiset(t)
    ensures Names(s) == Names(t)
  {
    forall n | n in Names(s) ensures n in Names(t) {
      var i :| 0 <= i < |s| && s[i].1 == n;
      assert s[i] in multiset(t);
      var j :| 0 <= j < |t| && t[j] == s[i];
    }
    forall n | n in Names(t) ensures n in Names(s) {
      var i :| 0 <= i < |t| && t[i].1 == n;
      assert t[i] in multiset(s);
      var j :| 0 <= j < |s| && s[j] == t[i];
    }
  }

  // ---------------------------------------------------------------------
  // Recommendations

  /** Python's `sorted(..., key=rating, reverse=True)` compares ratings only. */
  const RatingGe: ((string, real), (string, real)) -> bool :=
    (a: (string, real), b: (string, real)) => a.1 >= b.1

  lemma RatingGeTotalPreorder()
    ensures TotalPreorder(RatingGe)
  {}

  ghost function Items(list: seq<(string, real)>): set<string>
  {
    set i | 0 <= i < |list| :: list[i].0
  }

  /** What `recommend` returns for a neighbour's and a user's ratings: each
      item the neighbour rated and the user did not, once, with the
      neighbour's rating, highest rating first. */
  ghost predicate Recommendations(theirs: Ratings, mine: Ratings, list: seq<(string, real)>)
  {
    && SortedBy(list, RatingGe)
    && Items(list) == theirs.Keys - mine.Keys
    && (forall i, j :: 0 <= i < j < |list| ==> list[i].0 != list[j].0)
    && (forall i :: 0 <= i < |list| ==> Rated(theirs, list[i]))
  }

  /** The pair holds an item with the neighbour's rating of it. */
  ghost predicate Rated(theirs: Ratings, pair: (string, real))
  {
    pair.0 in theirs && pair.1 == theirs[pair.0]
  }

  lemma ItemsAppend(list: seq<(string, real)>, pair: (string, real))
    ensures Items(list + [pair]) == Items(list) + {pair.0}
  {
    var l := list + [pair];
    forall n | n in Items(l) ensures n in Items(list) + {pair.0} {
      var i :| 0 <= i < |l| && l[i].0 == n;
      if i < |list| {
        assert list[i].0 == n;
      }
    }
    forall n | n in Items(list) ensures n in Items(l) {
      var i :| 0 <= i < |list| && list[i].0 == n;
      assert l[i].0 == n;
    }
    assert l[|list|].0 == pair.0;
  }

  lemma ItemsOfPermutation(s: seq<(string, real)>, t: seq<(string, real)>)
    requires multiset(s) == multiset(t)
    ensures Items(s) == Items(t)
  {
    forall n | n in Items(s) ensures n in Items(t) {
      var i :| 0 <= i < |s| && s[i].0 == n;
      assert s[i] in multiset(t);
      var j :| 0 <= j < |t| && t[j] == s[i];
    }
    forall n | n in Items(t) ensures n in Items(s) {
      var i :| 0 <= i < |t| && t[i].0 == n;
      assert t[i] in multiset(s);
      var j :| 0 <= j < |s| && s[j] == t[i];
    }
  }

  /** Sorting the collected pairs by rating gives the recommendations. */
  lemma SortedRecommendations(theirs: Ratings, mine: Ratings, pairs: seq<(string, real)>)
    requires Items(pairs) == theirs.Keys - mine.Keys
    requires forall i, j :: 0 <= i < j < |pairs| ==> pairs[i].0 != pairs[j].0
    requires forall i :: 0 <= i < |pairs| ==> Rated(theirs, pairs[i])
    ensures Recommendations(theirs, mine, Sort(pairs, RatingGe))
  {
    var list := Sort(pairs, RatingGe);
    RatingGeTotalPreorder();
    SortSorted(pairs, RatingGe);
    ItemsOfPermutation(pairs, list);
    NoDuplicatesPermutation(pairs, list);
    forall i | 0 <= i < |list| ensures Rated(theirs, list[i]) {
      assert list[i] in multiset(pairs);
      var j :| 0 <= j < |pairs| && pairs[j] == list[i];
    }
  }

  /** `pairs` holds, once each, the items of `seen` the user has not
      rated, with the neighbour's ratings. */
  ghost predicate Collected(theirs: Ratings, mine: Ratings, seen: set<string>, pairs: seq<(string, real)>)
  {
    && Items(pairs) == seen - mine.Keys
    && (forall i, j :: 0 <= i < j < |pairs| ==> pairs[i].0 != pairs[j].0)
    && (forall i :: 0 <= i < |pairs| ==> Rated(theirs, pairs[i]))
  }

  lemma CollectedStep(theirs: Ratings, mine: Ratings, seen: set<string>, pairs: seq<(string, real)>, k: string)
    requires Collected(theirs, mine, seen, pairs) && k in theirs && k !in seen
    ensures k !in mine ==> Collected(theirs, mine, seen + {k}, pairs + [(k, theirs[k])])
    ensures k in mine ==> Collected(theirs, mine, seen + {k}, pairs)
  {
    if k !in mine {
      ItemsAppend(pairs, (k, theirs[k]));
      assert (seen + {k}) - mine.Keys == (seen - mine.Keys) + {k};
      assert forall i :: 0 <= i < |pairs| ==> pairs[i].0 in Items(pairs);
    } else {
      assert (seen + {k}) - mine.Keys == seen - mine.Keys;
    }
  }

  /** The loop and sort of `recommend` once the neighbour is known. */
  method Unrated(theirs: Ratings, mine: Ratings) returns (list: seq<(string, real)>)
    ensures Recommendations(theirs, mine, list)
  {
    var pairs: seq<(string, real)> := [];
    var left := theirs.Keys;
    while left != {}
      invariant left <= theirs.Keys
      invariant Collected(theirs, mine, theirs.Keys - left, pairs)
      decreases |left|
    {
      var k :| k in left;
      assert theirs.Keys - (left - {k}) == (theirs.Keys - left) + {k};
      CollectedStep(theirs, mine, theirs.Keys - left, pairs, k);
      if k !in mine {
        pairs := pairs + [(k, theirs[k])];
      }
      left := left - {k};
    }
    assert theirs.Keys - left == theirs.Keys;
    SortedRecommendations(theirs, mine, pairs);
    list := Sort(pairs, RatingGe);
  }

  /** The loop of `compute_nearest_neighbor`: the distance from `base` to
      every entry of `others` except `key`, in the dictionary's order. */
  method MeasureAll(base: Ratings, others: map<string, Ratings>, key: string) returns (pairs: seq<(real, string)>)
    ensures Measured(base, others, key, others.Keys, pairs)
  {
    pairs := [];
    var left := others.Keys;
    while left != {}
      invariant left <= others.Keys
      invariant Measured(base, others, key, others.Keys - left, pairs)
      decreases |left|
    {
      var k :| k in left;
      assert others.Keys - (left - {k}) == (others.Keys - left) + {k};
      if k != key {
        var total := Manhattan(base, others[k]);
        MeasuredStep(base, others, key, others.Keys - left, pairs, (total, k));
        pairs := pairs + [(total, k)];
      } else {
        MeasuredSkip(base, others, key, others.Keys - left, pairs);
      }
      left := left - {k};
    }
    assert others.Keys - left == others.Keys;
  }

  // ---------------------------------------------------------------------
  // The recommender object

  class Recommender {
    var data: map<string, Ratings>
    /** The rows `load_text` reads: text fields under column names. The
        source keeps them in `data` itself; see `LoadText`. */
    var rows: map<string, map<string, string>>

    constructor(data: map<string, Ratings>)
      ensures this.data == data && rows == map[]
    {
      this.data := data;
      rows := map[];
    }

    /** `load_text(file, columns)` on the file's lines: the ratings are
        dropped first, then each line's row is stored under its first field
        as soon as it is read. A short line raises IndexError with the
        earlier lines' rows stored. */
    method LoadText(lines: seq<string>, columns: seq<string>)
      returns (r: Result<map<string, map<string, string>>>)
      modifies this
      ensures data == map[]
      ensures rows == TableReached(map[], lines, columns)
      ensures r == Table(lines, columns)
      ensures r.Ok? ==> r.value == rows
    {
      data := map[];
      rows := map[];
      for n := 0 to |lines|
        invariant data == map[]
        invariant TableFrom(rows, lines[n..], columns) == Table(lines, columns)
        invariant TableReached(rows, lines[n..], columns) == TableReached(map[], lines, columns)
      {
        assert lines[n..][0] == lines[n] && lines[n..][1..] == lines[n + 1..];
        var lineArray := Split(lines[n], ',');
        var dictionary := ParseRow(lineArray, columns);
        if dictionary.Err? {
          return Err(dictionary.error);
        }
        rows := rows[lineArray[0] := dictionary.value];
      }
      assert lines[|lines|..] == [];
      return Ok(rows);
    }

    /** `compute_nearest_neighbor(key)`: looking up `key` fails only once
        some other user is visited. */
    method ComputeNearestNeighbor(key: string) returns (r: Result<seq<(real, string)>>)
      ensures r.Err? <==> key !in data && data.Keys != {}
      ensures r.Err? ==> r.error == KeyError
      ensures r.Ok? && key !in data ==> r.value == []
      ensures r.Ok? && key in data ==> Ranked(data[key], data, key, r.value)
    {
      if key !in data {
        // the first user visited differs from `key`, and `data[key]` fails
        if data.Keys != {} {
          return Err(KeyError);
        }
        return Ok([]);
      }
      var pairs := MeasureAll(data[key], data, key);
      SortedRanked(data[key], data, key, pairs);
      return Ok(Sort(pairs, PairLe));
    }

    /** `recommend(key)`: the items of the nearest other user that `key`
        has not rated; with no other user the `[0]` fails. */
    method Recommend(key: string) returns (r: Result<seq<(string, real)>>)
      ensures r.Err? <==> key !in data || data.Keys == {key}
      ensures r.Err? ==> r.error == if key !in data && data.Keys != {} then KeyError else IndexError
      ensures r.Ok? ==> key in data && exists neighbor :: IsNearest(data[key], data, key, neighbor)
                                            && Recommendations(data[neighbor], data[key], r.value)
    {
      var nearest := ComputeNearestNeighbor(key);
      if nearest.Err? {
        return Err(nearest.error);
      }
      var list := nearest.value;
      if |list| == 0 {
        if key in data {
          assert data.Keys - {key} == Names(list) == {};
        }
        return Err(IndexError);
      }
      RankedHead(data[key], data, key, list);
      var neighbor := list[0].1;
      var items := Unrated(data[neighbor], data[key]);
      return Ok(items);
    }
  }

  // ---------------------------------------------------------------------
  // Reading a comma-separated file

  /** The row `load_text` builds from one line's fields: `columns[i]` maps
      to field i + 1, stripped and without newlines; a repeated column keeps
      its last field. */
  function Row(fields: seq<string>, columns: seq<string>): map<string, string>
    requires |fields| > |columns|
    decreases |columns|
  {
    if columns == [] then map[]
    else Row(fields, columns[..|columns| - 1])[columns[|columns| - 1] := Clean(fields[|columns|])]
  }

  /** The table `load_text` builds from its lines, starting from `table`:
      each line is keyed by its first field, a later line replacing an earlier
      one with the same key; a line with fewer than `|columns| + 1` fields
      raises IndexError. */
  function TableFrom(table: map<string, map<string, string>>, lines: seq<string>, columns: seq<string>)
    : Result<map<string, map<string, string>>>
    decreases |lines|
  {
    if lines == [] then Ok(table)
    else
      var fields := Split(lines[0], ',');
      if |fields| <= |columns| then Err(IndexError)
      else TableFrom(table[fields[0] := Row(fields, columns)], lines[1..], columns)
  }

  function Table(lines: seq<string>, columns: seq<string>): Result<map<string, map<string, string>>>
  {
    TableFrom(map[], lines, columns)
  }

  /** The table the loop of `load_text` leaves, whether it finishes or
      stops at the first short line: the rows of the lines before that one
      are stored, the short line's row is not. */
  function TableReached(table: map<string, map<string, string>>, lines: seq<string>, columns: seq<string>)
    : (r: map<string, map<string, string>>)
    ensures TableFrom(table, lines, columns).Ok? ==> r == TableFrom(table, lines, columns).value
    decreases |lines|
  {
    if lines == [] then table
    else
      var fields := Split(lines[0], ',');
      if |fields| <= |columns| then table
      else TableReached(table[fields[0] := Row(fields, columns)], lines[1..], columns)
  }

  /** When line k is the first short line, loading raises IndexError and
      leaves the table built from the lines before it. */
  lemma {:induction false} TableReachedAtFailure(table: map<string, map<string, string>>, lines: seq<string>,
                                                 columns: seq<string>, k: nat)
    requires k < |lines| && |Split(lines[k], ',')| <= |columns|
    requires TableFrom(table, lines[..k], columns).Ok?
    ensures TableFrom(table, lines, columns) == Err(IndexError)
    ensures TableReached(table, lines, columns) == TableFrom(table, lines[..k], columns).value
    decreases k
  {
    if k > 0 {
      var fields := Split(lines[0], ',');
      assert lines[..k][0] == lines[0] && lines[..k][1..] == lines[1..][..k - 1];
      TableReachedAtFailure(table[fields[0] := Row(fields, columns)], lines[1..], columns, k - 1);
    }
  }

  /** The inner loop of `load_text`: one line's fields under the column
      names. */
  method ParseRow(lineArray: seq<string>, columns: seq<string>) returns (r: Result<map<string, string>>)
    requires |lineArray| > 0
    ensures |lineArray| <= |columns| ==> r == Err(IndexError)
    ensures |lineArray| > |columns| ==> r == Ok(Row(lineArray, columns))
  {
    var dictionary: map<string, string> := map[];
    for i := 0 to |columns|
      invariant i < |lineArray|
      invariant dictionary == Row(lineArray, columns[..i])
    {
      if i + 1 >= |lineArray| {
        return Err(IndexError);
      }
      assert columns[..i + 1][..i] == columns[..i];
      dictionary := dictionary[columns[i] := Clean(lineArray[i + 1])];
    }
    assert columns[..|columns|] == columns;
    return Ok(dictionary);
  }

  /** The table has a row for every line's first field and for nothing else. */
  lemma {:induction false} TableKeys(table: map<string, map<string, string>>, lines: seq<string>, columns: seq<string>)
    requires TableFrom(table, lines, columns).Ok?
    ensures TableFrom(table, lines, columns).value.Keys
         == table.Keys + set n | 0 <= n < |lines| :: Split(lines[n], ',')[0]
    decreases |lines|
  {
    if lines != [] {
      var fields := Split(lines[0], ',');
      TableKeys(table[fields[0] := Row(fields, columns)], lines[1..], columns);
      FirstFieldsCons(lines);
    }
  }

  /** The first fields of some lines: that of the first line and those of
      the others. */
  lemma FirstFieldsCons(lines: seq<string>)
    requires lines != []
    ensures (set n | 0 <= n < |lines| :: Split(lines[n], ',')[0])
         == {Split(lines[0], ',')[0]} + (set n | 0 <= n < |lines[1..]| :: Split(lines[1..][n], ',')[0])
  {
    var rest := set n | 0 <= n < |lines[1..]| :: Split(lines[1..][n], ',')[0];
    var all := set n | 0 <= n < |lines| :: Split(lines[n], ',')[0];
    forall x | x in all ensures x in {Split(lines[0], ',')[0]} + rest {
      var n :| 0 <= n < |lines| && Split(lines[n], ',')[0] == x;
      if n > 0 {
        assert lines[1..][n - 1] == lines[n];
      }
    }
    forall x | x in rest ensures x in all {
      var n :| 0 <= n < |lines[1..]| && Split(lines[1..][n], ',')[0] == x;
      assert lines[n + 1] == lines[1..][n];
    }
  }

  /** Loading fails exactly when some line is short of fields. */
  lemma {:induction false} TableFails(table: map<string, map<string, string>>, lines: seq<string>, columns: seq<string>)
    ensures TableFrom(table, lines, columns).Err?
        <==> exists n :: 0 <= n < |lines| && |Split(lines[n], ',')| <= |columns|
    ensures TableFrom(table, lines, columns).Err? ==> TableFrom(table, lines, columns).error == IndexError
    decreases |lines|
  {
    if lines != [] {
      var fields := Split(lines[0], ',');
      if |fields| > |columns| {
        TableFails(table[fields[0] := Row(fields, columns)], lines[1..], columns);
        if exists n :: 0 <= n < |lines| && |Split(lines[n], ',')| <= |columns| {
          var n :| 0 <= n < |lines| && |Split(lines[n], ',')| <= |columns|;
          assert lines[1..][n - 1] == lines[n];
        }
        if exists n :: 0 <= n < |lines[1..]| && |Split(lines[1..][n], ',')| <= |columns| {
          var n :| 0 <= n < |lines[1..]| && |Split(lines[1..][n], ',')| <= |columns|;
          assert lines[n + 1] == lines[1..][n];
        }
      }
    }
  }

  /** A key no later line carries keeps its row. */
  lemma {:induction false} TableKeeps(table: map<string, map<string, string>>, lines: seq<string>, columns: seq<string>,
                                      key: string)
    requires TableFrom(table, lines, columns).Ok? && key in table
    requires forall m :: 0 <= m < |lines| ==> Split(lines[m], ',')[0] != key
    ensures key in TableFrom(table, lines, columns).value
    ensures TableFrom(table, lines, columns).value[key] == table[key]
    decreases |lines|
  {
    if lines != [] {
      var fields := Split(lines[0], ',');
      assert fields[0] != key;
      forall m | 0 <= m < |lines[1..]| ensures Split(lines[1..][m], ',')[0] != key {
        assert lines[1..][m] == lines[m + 1];
      }
      TableKeeps(table[fields[0] := Row(fields, columns)], lines[1..], columns, key);
    }
  }

  /** Each key holds the row of the last line that carries it. */
  lemma {:induction false} TableRows(table: map<string, map<string, string>>, lines: seq<string>, columns: seq<string>,
                                     n: int)
    requires TableFrom(table, lines, columns).Ok? && 0 <= n < |lines|
    requires forall m :: n < m < |lines| ==> Split(lines[m], ',')[0] != Split(lines[n], ',')[0]
    ensures |Split(lines[n], ',')| > |columns|
    ensures Split(lines[n], ',')[0] in TableFrom(table, lines, columns).value
    ensures TableFrom(table, lines, columns).value[Split(lines[n], ',')[0]] == Row(Split(lines[n], ','), columns)
    decreases |lines|
  {
    var fields := Split(lines[0], ',');
    var next := table[fields[0] := Row(fields, columns)];
    if n == 0 {
      forall m | 0 <= m < |lines[1..]| ensures Split(lines[1..][m], ',')[0] != fields[0] {
        assert lines[1..][m] == lines[m + 1];
      }
      TableKeeps(next, lines[1..], columns, fields[0]);
    } else {
      assert lines[1..][n - 1] == lines[n];
      forall m | n - 1 < m < |lines[1..]| ensures Split(lines[1..][m], ',')[0] != Split(lines[1..][n - 1], ',')[0] {
        assert lines[1..][m] == lines[m + 1];
      }
      TableRows(next, lines[1..], columns, n - 1);
    }
  }

  /** A row has exactly the columns as keys. */
  lemma {:induction false} RowKeys(fields: seq<string>, columns: seq<string>)
    requires |fields| > |columns|
    ensures Row(fields, columns).Keys == set c | c in columns
    decreases |columns|
  {
    if columns != [] {
      var m := |columns| - 1;
      RowKeys(fields, columns[..m]);
      assert columns == columns[..m] + [columns[m]];
    }
  }

  /** Every field after the first lands under its column when the columns
      are distinct. */
  lemma {:induction false} RowField(fields: seq<string>, columns: seq<string>, i: int)
    requires |fields| > |columns| && 0 <= i < |columns|
    requires forall a, b :: 0 <= a < b < |columns| ==> columns[a] != columns[b]
    ensures columns[i] in Row(fields, columns)
    ensures Row(fields, columns)[columns[i]] == Clean(fields[i + 1])
    decreases |columns|
  {
    var m := |columns| - 1;
    var prefix := columns[..m];
    if i < m {
      assert prefix[i] == columns[i] && columns[i] != columns[m];
      forall a, b | 0 <= a < b < |prefix| ensures prefix[a] != prefix[b] {
        assert prefix[a] == columns[a] && prefix[b] == columns[b];
      }
      RowField(fields, prefix, i);
    }
  }
}
