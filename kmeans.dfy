/** k-means clustering (kmeans_clusterer.py). Every row of the table becomes
    an item (its identifier and its feature vector); each round assigns
    every item to its nearest centroid, recomputes the centroids as the
    means of their members, and stops when a greedy matching of the old to
    the new centroids shows that fewer than 1% of the items moved. The
    centroids come from k-means++ or from k random rows.

    The distance is a parameter `dist` in the specifications and loops, so
    that its definition stays out of their proofs; `DistanceFn(root)` is the
    one the source uses. The random numbers are parameters as well: a
    permutation for `random.shuffle` and a function `draw` numbering the
    successive results of `random.random()`. */
module KMeans {
  import opened Wrappers
  import opened Sums
  import opened Stats
  import opened Lex
  import opened Clustering
  import opened Reals

  type Vector = seq<real>

  /** `item_at_index`: a row identifier and the row's feature vector. */
  datatype Item = Item(id: Value, vector: Vector)

  /** One entry of the `clusters` dictionary: a centroid and the items that
      were assigned to it. */
  datatype Group = Group(point: Vector, items: seq<Item>)

  predicate Uniform(vs: seq<Vector>, d: nat)
  {
    forall i :: 0 <= i < |vs| ==> |vs[i]| == d
  }

  predicate ItemsOfDim(items: seq<Item>, d: nat)
  {
    forall i :: 0 <= i < |items| ==> |items[i].vector| == d
  }

  predicate Distinct<T(==)>(s: seq<T>)
  {
    forall i, j :: 0 <= i < j < |s| ==> s[i] != s[j]
  }

  // ---------------------------------------------------------------------
  // Rows as items

  /** `vector_at_index`: the feature cells of row i as numbers. A short
      column indexes out of range. A text cell is reported here as a
      TypeError; the source raises it later, at the first subtraction or
      sum that touches the cell, so an error met before that point (a later
      short row, an empty `min`) takes its place there. */
  function VectorAtIndex(data: seq<seq<Value>>, i: nat): (r: Result<Vector>)
    ensures r.Ok? <==> FeatureCells(data, i).Ok? && AllNumbers(FeatureCells(data, i).value)
    ensures r.Ok? && data != [] ==> |r.value| == |data| - 1
    ensures r.Ok? ==> forall k :: 1 <= k < |data| ==> data[k][i] == Num(r.value[k - 1])
  {
    var cells :- FeatureCells(data, i);
    if !AllNumbers(cells) then Err(TypeError) else Ok(Numbers(cells))
  }

  /** `item_at_index`: the identifier in column 0 and the feature vector. */
  function ItemAtIndex(data: seq<seq<Value>>, i: nat): (r: Result<Item>)
    ensures data == [] || i >= |data[0]| ==> r == Err(IndexError)
    ensures r.Ok? <==> data != [] && i < |data[0]| && VectorAtIndex(data, i).Ok?
    ensures r.Ok? ==> r.value.id == data[0][i] && Ok(r.value.vector) == VectorAtIndex(data, i)
  {
    if data == [] || i >= |data[0]| then Err(IndexError)
    else
      var v :- VectorAtIndex(data, i);
      Ok(Item(data[0][i], v))
  }

  /** The first n items, `[item_at_index(i) for i in range(n)]`. */
  function ItemsUpTo(data: seq<seq<Value>>, n: nat): (r: Result<seq<Item>>)
    requires data != [] && n <= |data[0]|
    ensures r.Ok? <==> forall i :: 0 <= i < n ==> ItemAtIndex(data, i).Ok?
    ensures r.Ok? ==> |r.value| == n && forall i :: 0 <= i < n ==> Ok(r.value[i]) == ItemAtIndex(data, i)
  {
    if n == 0 then Ok([])
    else
      var rest :- ItemsUpTo(data, n - 1);
      var item :- ItemAtIndex(data, n - 1);
      Ok(rest + [item])
  }

  /** The items of every row, `[self.item_at_index(i) for i in
      range(len(self.data[0]))]`; they all have one coordinate per feature
      column. */
  function Items(data: seq<seq<Value>>): (r: Result<seq<Item>>)
    ensures data == [] ==> r == Err(IndexError)
    ensures r.Ok? <==> data != [] && forall i :: 0 <= i < |data[0]| ==> ItemAtIndex(data, i).Ok?
    ensures r.Ok? ==> |r.value| == |data[0]| && ItemsOfDim(r.value, |data| - 1)
    ensures r.Ok? ==> forall i :: 0 <= i < |r.value| ==> Ok(r.value[i]) == ItemAtIndex(data, i)
  {
    if data == [] then Err(IndexError) else ItemsUpTo(data, |data[0]|)
  }

  function VectorsOf(items: seq<Item>): (r: seq<Vector>)
    ensures |r| == |items| && forall i :: 0 <= i < |items| ==> r[i] == items[i].vector
  {
    seq(|items|, i requires 0 <= i < |items| => items[i].vector)
  }

  // ---------------------------------------------------------------------
  // The distance

  /** `distance`: `euclidean` for two-coordinate vectors, `manhattan`
      otherwise. Both compute the root of the summed squared differences,
      so the routing never changes the value, only the error raised on
      vectors of different lengths. */
  function Distance(root: real -> real, v1: Vector, v2: Vector): (r: Result<real>)
    ensures |v1| == |v2| ==> r.Ok?
    ensures r.Ok? ==> r == Manhattan(root, v1, v2)
  {
    if |v1| == 2 then
      if |v2| == 2 then ManhattanIsEuclidean(root, v1, v2); Euclidean(root, v1, v2)
      else Euclidean(root, v1, v2)
    else Manhattan(root, v1, v2)
  }

  /** The distance as a value; it is defined between any two vectors of
      one dimension. */
  function DistanceFn(root: real -> real): (r: (Vector, Vector) -> Result<real>)
    ensures forall d: nat :: Defined(r, d)
  {
    (v1: Vector, v2: Vector) => Distance(root, v1, v2)
  }

  /** The distance is defined between any two vectors of dimension d. */
  ghost predicate Defined(dist: (Vector, Vector) -> Result<real>, d: nat)
  {
    forall v1: Vector, v2: Vector :: |v1| == d && |v2| == d ==> dist(v1, v2).Ok?
  }

  lemma DistanceSymmetric(root: real -> real, v1: Vector, v2: Vector)
    requires |v1| == |v2|
    ensures Distance(root, v1, v2) == Distance(root, v2, v1)
  {
    ManhattanSymmetric(root, v1, v2);
  }

  // ---------------------------------------------------------------------
  // Python `min` over (distance, vector) tuples

  /** `(d1, v1) < (d2, v2)` for Python tuples of a float and a tuple of
      floats. */
  predicate PairLt(d1: real, v1: Vector, d2: real, v2: Vector)
  {
    d1 < d2 || (d1 == d2 && RealsLe(v1, v2) && v1 != v2)
  }

  predicate PairLe(d1: real, v1: Vector, d2: real, v2: Vector)
  {
    d1 < d2 || (d1 == d2 && RealsLe(v1, v2))
  }

  lemma PairOrder(d1: real, v1: Vector, d2: real, v2: Vector, d3: real, v3: Vector)
    ensures !PairLt(d1, v1, d2, v2) ==> PairLe(d2, v2, d1, v1)
    ensures PairLe(d1, v1, d2, v2) && PairLe(d2, v2, d3, v3) ==> PairLe(d1, v1, d3, v3)
    ensures PairLt(d1, v1, d2, v2) && PairLe(d2, v2, d3, v3) ==> PairLt(d1, v1, d3, v3)
  {
    RealLtStrictTotal();
    LexReflexive(v2, RealLt);
    LexTotal(v1, v2, RealLt);
    if RealsLe(v1, v2) && RealsLe(v2, v3) {
      LexTransitive(v1, v2, v3, RealLt);
      if v1 == v3 {
        LexAntisymmetric(v1, v2, RealLt);
      }
    }
  }

  /** The position `min` picks among the pairs (ds[j], vs[j]): a least pair,
      and the first one, since every earlier pair is strictly greater. */
  function ArgMin(ds: seq<real>, vs: seq<Vector>): (c: nat)
    requires |ds| == |vs| > 0
    ensures c < |ds|
    ensures forall j :: 0 <= j < |ds| ==> PairLe(ds[c], vs[c], ds[j], vs[j])
    ensures forall j :: 0 <= j < c ==> PairLt(ds[c], vs[c], ds[j], vs[j])
    decreases |ds|
  {
    if |ds| == 1 then
      LexReflexive(vs[0], RealLt);
      0
    else
      var m := |ds| - 1;
      var c := ArgMin(ds[..m], vs[..m]);
      if PairLt(ds[m], vs[m], ds[c], vs[c]) then
        assert forall j :: 0 <= j < m ==> PairLt(ds[m], vs[m], ds[j], vs[j]) by {
          forall j | 0 <= j < m ensures PairLt(ds[m], vs[m], ds[j], vs[j]) {
            PairOrder(ds[m], vs[m], ds[c], vs[c], ds[j], vs[j]);
          }
        }
        LexReflexive(vs[m], RealLt);
        m
      else
        PairOrder(ds[m], vs[m], ds[c], vs[c], ds[c], vs[c]);
        c
  }

  // ---------------------------------------------------------------------
  // Assigning items to centroids

  /** The keys of `dict((key, []) for key in points)`: duplicate points
      collapse into one key, kept at its first insertion. */
  function Dedup(points: seq<Vector>): (r: seq<Vector>)
    ensures forall v :: v in r <==> v in points
    ensures Distinct(r) && |r| <= |points|
  {
    if points == [] then []
    else
      var d := Dedup(points[..|points| - 1]);
      var x := points[|points| - 1];
      if x in d then d else d + [x]
  }

  /** Duplicate seed points give fewer clusters than points. */
  lemma {:induction false} DedupCollapses(points: seq<Vector>)
    requires !Distinct(points)
    ensures |Dedup(points)| < |points|
    decreases |points|
  {
    var m := |points| - 1;
    var i, j :| 0 <= i < j < |points| && points[i] == points[j];
    if points[m] !in Dedup(points[..m]) {
      assert j < m;
      assert points[..m][i] == points[..m][j];
      DedupCollapses(points[..m]);
    }
  }

  /** Distinct points are all kept, in order. */
  lemma {:induction false} DedupDistinct(points: seq<Vector>)
    requires Distinct(points)
    ensures Dedup(points) == points
    decreases |points|
  {
    if points != [] {
      var m := |points| - 1;
      DedupDistinct(points[..m]);
      assert points[m] !in points[..m];
      assert points == points[..m] + [points[m]];
    }
  }

  /** `[distance(cluster, item) for cluster in keys]`. */
  function Distances(dist: (Vector, Vector) -> Result<real>, d: nat, keys: seq<Vector>, v: Vector)
    : (r: seq<real>)
    requires Defined(dist, d) && Uniform(keys, d) && |v| == d
    ensures |r| == |keys| && forall j :: 0 <= j < |keys| ==> Ok(r[j]) == dist(keys[j], v)
  {
    seq(|keys|, j requires 0 <= j < |keys| => dist(keys[j], v).value)
  }

  /** The centroid `min(distances)` picks for a vector: the least distance,
      ties going to the smaller centroid tuple. */
  function Nearest(dist: (Vector, Vector) -> Result<real>, d: nat, keys: seq<Vector>, v: Vector): (c: nat)
    requires Defined(dist, d) && Uniform(keys, d) && |v| == d && |keys| > 0
    ensures c < |keys|
  {
    ArgMin(Distances(dist, d, keys, v), keys)
  }

  /** The nearest centroid is at the least distance, and on a tie it is the
      smaller tuple. */
  lemma NearestIsLeast(dist: (Vector, Vector) -> Result<real>, d: nat, keys: seq<Vector>, v: Vector)
    requires Defined(dist, d) && Uniform(keys, d) && |v| == d && |keys| > 0
    ensures var c := Nearest(dist, d, keys, v);
      forall j :: 0 <= j < |keys| ==> PairLe(dist(keys[c], v).value, keys[c], dist(keys[j], v).value, keys[j])
  {
    var ds := Distances(dist, d, keys, v);
    var c := ArgMin(ds, keys);
    forall j | 0 <= j < |keys|
      ensures PairLe(dist(keys[c], v).value, keys[c], dist(keys[j], v).value, keys[j])
    {
      assert PairLe(ds[c], keys[c], ds[j], keys[j]);
    }
  }

  /** The items, in order, whose nearest centroid is keys[c]. */
  function Members(dist: (Vector, Vector) -> Result<real>, d: nat, keys: seq<Vector>, items: seq<Item>, c: nat)
    : seq<Item>
    requires Defined(dist, d) && Uniform(keys, d) && |keys| > 0 && ItemsOfDim(items, d)
    decreases |items|
  {
    if items == [] then []
    else
      var m := |items| - 1;
      Members(dist, d, keys, items[..m], c)
        + (if Nearest(dist, d, keys, items[m].vector) == c then [items[m]] else [])
  }

  /** The clusters one round builds from the keys and the items. */
  function Assigned(dist: (Vector, Vector) -> Result<real>, d: nat, keys: seq<Vector>, items: seq<Item>)
    : seq<Group>
    requires Defined(dist, d) && Uniform(keys, d) && |keys| > 0 && ItemsOfDim(items, d)
  {
    seq(|keys|, c requires 0 <= c < |keys| => Group(keys[c], Members(dist, d, keys, items, c)))
  }

  /** `clusters[key].append(item)` for the key at position c. */
  function AppendTo(groups: seq<Group>, c: nat, x: Item): (r: seq<Group>)
    requires c < |groups|
  {
    groups[c := Group(groups[c].point, groups[c].items + [x])]
  }

  /** Every member of the list of all items, cluster after cluster. */
  function AllItems(groups: seq<Group>): seq<Item>
  {
    if groups == [] then [] else groups[0].items + AllItems(groups[1..])
  }

  function Points(groups: seq<Group>): (r: seq<Vector>)
    ensures |r| == |groups| && forall c :: 0 <= c < |groups| ==> r[c] == groups[c].point
  {
    seq(|groups|, c requires 0 <= c < |groups| => groups[c].point)
  }

  lemma AssignedStep(dist: (Vector, Vector) -> Result<real>, d: nat, keys: seq<Vector>, items: seq<Item>)
    requires Defined(dist, d) && Uniform(keys, d) && |keys| > 0 && ItemsOfDim(items, d) && items != []
    ensures var m := |items| - 1;
      Assigned(dist, d, keys, items)
        == AppendTo(Assigned(dist, d, keys, items[..m]), Nearest(dist, d, keys, items[m].vector), items[m])
  {
    var m := |items| - 1;
    var a := Assigned(dist, d, keys, items);
    var b := AppendTo(Assigned(dist, d, keys, items[..m]), Nearest(dist, d, keys, items[m].vector), items[m]);
    forall c | 0 <= c < |keys| ensures a[c] == b[c] {}
  }

  /** Every member of a cluster is an item whose distance to the cluster's
      centroid is least among all centroids, and on a tie the centroid is
      the smaller tuple. */
  lemma {:induction false} MembersAreNearest(dist: (Vector, Vector) -> Result<real>, d: nat, keys: seq<Vector>,
                                             items: seq<Item>, c: nat, x: Item)
    requires Defined(dist, d) && Uniform(keys, d) && |keys| > 0 && ItemsOfDim(items, d)
    requires x in Members(dist, d, keys, items, c)
    ensures x in items && c < |keys|
    ensures forall j :: 0 <= j < |keys| ==>
      PairLe(dist(keys[c], x.vector).value, keys[c], dist(keys[j], x.vector).value, keys[j])
    decreases |items|
  {
    var m := |items| - 1;
    if x in Members(dist, d, keys, items[..m], c) {
      MembersAreNearest(dist, d, keys, items[..m], c, x);
    } else {
      assert x == items[m];
      NearestIsLeast(dist, d, keys, x.vector);
    }
  }

  lemma {:induction false} AllItemsAppend(groups: seq<Group>, c: nat, x: Item)
    requires c < |groups|
    ensures multiset(AllItems(AppendTo(groups, c, x))) == multiset(AllItems(groups)) + multiset{x}
    decreases |groups|
  {
    if c > 0 {
      AllItemsAppend(groups[1..], c - 1, x);
      AppendLater(groups, c, x);
    } else {
      AppendHere(groups, x);
    }
  }

  /** Appending to the first cluster adds the item to all items. */
  lemma AppendHere(groups: seq<Group>, x: Item)
    requires groups != []
    ensures multiset(AllItems(AppendTo(groups, 0, x))) == multiset(AllItems(groups)) + multiset{x}
  {
    var g := AppendTo(groups, 0, x);
    AllItemsCons(g);
    AllItemsCons(groups);
    assert g[0].items == groups[0].items + [x] && g[1..] == groups[1..];
  }

  /** Appending to a later cluster is appending within the clusters after
      the first. */
  lemma AppendLater(groups: seq<Group>, c: nat, x: Item)
    requires 0 < c < |groups|
    requires multiset(AllItems(AppendTo(groups[1..], c - 1, x))) == multiset(AllItems(groups[1..])) + multiset{x}
    ensures multiset(AllItems(AppendTo(groups, c, x))) == multiset(AllItems(groups)) + multiset{x}
  {
    var g := AppendTo(groups, c, x);
    AllItemsCons(g);
    AllItemsCons(groups);
    assert g[0] == groups[0] && g[1..] == AppendTo(groups[1..], c - 1, x);
  }

  /** The items of a first cluster and of the clusters after it. */
  lemma AllItemsCons(groups: seq<Group>)
    requires groups != []
    ensures multiset(AllItems(groups)) == multiset(groups[0].items) + multiset(AllItems(groups[1..]))
  {
  }

  /** Every item lands in exactly one cluster: together the clusters hold
      the items, each as often as it occurs, so the member counts add up to
      the number of rows. */
  lemma {:induction false} AssignedPartition(dist: (Vector, Vector) -> Result<real>, d: nat, keys: seq<Vector>,
                                             items: seq<Item>)
    requires Defined(dist, d) && Uniform(keys, d) && |keys| > 0 && ItemsOfDim(items, d)
    ensures multiset(AllItems(Assigned(dist, d, keys, items))) == multiset(items)
    ensures |AllItems(Assigned(dist, d, keys, items))| == |items|
    decreases |items|
  {
    if items == [] {
      AssignedNothing(dist, d, keys);
    } else {
      var m := |items| - 1;
      assert items == items[..m] + [items[m]];
      AssignedPartition(dist, d, keys, items[..m]);
      AssignedSnoc(dist, d, keys, items[..m], items[m]);
    }
  }

  lemma AssignedSnoc(dist: (Vector, Vector) -> Result<real>, d: nat, keys: seq<Vector>, prefix: seq<Item>, x: Item)
    requires Defined(dist, d) && Uniform(keys, d) && |keys| > 0 && ItemsOfDim(prefix, d) && |x.vector| == d
    requires multiset(AllItems(Assigned(dist, d, keys, prefix))) == multiset(prefix)
    ensures ItemsOfDim(prefix + [x], d)
    ensures multiset(AllItems(Assigned(dist, d, keys, prefix + [x]))) == multiset(prefix + [x])
    ensures |AllItems(Assigned(dist, d, keys, prefix + [x]))| == |prefix + [x]|
  {
    var items := prefix + [x];
    assert items[..|prefix|] == prefix;
    var before, c := Assigned(dist, d, keys, prefix), Nearest(dist, d, keys, x.vector);
    AppendKeepsPartition(before, c, prefix, x);
    AssignedStep(dist, d, keys, items);
  }

  lemma AppendKeepsPartition(groups: seq<Group>, c: nat, prefix: seq<Item>, x: Item)
    requires c < |groups| && multiset(AllItems(groups)) == multiset(prefix)
    ensures multiset(AllItems(AppendTo(groups, c, x))) == multiset(prefix + [x])
    ensures |AllItems(AppendTo(groups, c, x))| == |prefix + [x]|
  {
    var g := AppendTo(groups, c, x);
    AllItemsAppend(groups, c, x);
    assert |multiset(AllItems(g))| == |AllItems(g)|;
    assert |multiset(prefix + [x])| == |prefix + [x]|;
  }

  lemma {:induction false} EmptyGroups(groups: seq<Group>)
    requires forall c :: 0 <= c < |groups| ==> groups[c].items == []
    ensures AllItems(groups) == []
    decreases |groups|
  {
    if groups != [] {
      EmptyGroups(groups[1..]);
    }
  }

  lemma AssignedNothing(dist: (Vector, Vector) -> Result<real>, d: nat, keys: seq<Vector>)
    requires Defined(dist, d) && Uniform(keys, d) && |keys| > 0
    ensures AllItems(Assigned(dist, d, keys, [])) == []
  {
    EmptyGroups(Assigned(dist, d, keys, []));
  }

  /** The assignment loop of `cluster`: fresh empty lists, one per key, and
      every item appended to the list of its nearest key. With no keys the
      first item's `min` is taken over an empty list. */
  method AssignItems(dist: (Vector, Vector) -> Result<real>, d: nat, keys: seq<Vector>, items: seq<Item>)
    returns (r: Result<seq<Group>>)
    requires Defined(dist, d) && Uniform(keys, d) && ItemsOfDim(items, d)
    ensures keys == [] ==> r == if items == [] then Ok([]) else Err(ValueError)
    ensures keys != [] ==> r == Ok(Assigned(dist, d, keys, items))
  {
    var groups := seq(|keys|, c requires 0 <= c < |keys| => Group(keys[c], []));
    for t := 0 to |items|
      invariant keys == [] ==> groups == [] && t == 0
      invariant keys != [] ==> groups == Assigned(dist, d, keys, items[..t])
    {
      var item := items[t];
      var distances := [];
      for j := 0 to |keys|
        invariant |distances| == j
        invariant forall i :: 0 <= i < j ==> Ok(distances[i]) == dist(keys[i], item.vector)
      {
        var e := dist(keys[j], item.vector);
        distances := distances + [e.value];
      }
      if keys == [] {
        return Err(ValueError);
      }
      assert distances == Distances(dist, d, keys, item.vector);
      var c := ArgMin(distances, keys);
      assert items[..t + 1][..t] == items[..t];
      AssignedStep(dist, d, keys, items[..t + 1]);
      groups := AppendTo(groups, c, item);
    }
    assert items[..|items|] == items;
    return Ok(groups);
  }

  // ---------------------------------------------------------------------
  // Cluster means

  /** Every vector has at least n coordinates. */
  predicate Reaches(vs: seq<Vector>, n: nat)
  {
    forall t :: 0 <= t < |vs| ==> n <= |vs[t]|
  }

  /** `[x[i] for x in tuples]`. */
  function Coordinate(vs: seq<Vector>, i: nat): (r: seq<real>)
    requires Reaches(vs, i + 1)
    ensures |r| == |vs| && forall t :: 0 <= t < |vs| ==> r[t] == vs[t][i]
  {
    seq(|vs|, t requires 0 <= t < |vs| => vs[t][i])
  }

  /** The coordinate-wise mean of the vectors, over the first vector's
      coordinates. */
  function MeanVector(vs: seq<Vector>): (r: Vector)
    requires |vs| > 0 && Reaches(vs, |vs[0]|)
    ensures |r| == |vs[0]|
  {
    seq(|vs[0]|, i requires 0 <= i < |vs[0]| => Mean(Coordinate(vs, i)))
  }

  /** What `compute_cluster_mean` returns: the mean of the members'
      vectors; an empty cluster has no first tuple, and a member shorter
      than the first indexes out of range. */
  function MeanOf(cluster: seq<Item>): (r: Result<Vector>)
    ensures r.Ok? <==> cluster != [] && Reaches(VectorsOf(cluster), |cluster[0].vector|)
    ensures r.Ok? ==> r.value == MeanVector(VectorsOf(cluster))
    ensures r.Err? ==> r.error == IndexError
  {
    var tuples := VectorsOf(cluster);
    if tuples == [] || !Reaches(tuples, |tuples[0]|) then Err(IndexError)
    else Ok(MeanVector(tuples))
  }

  /** `compute_cluster_mean`: one mean per coordinate of the first member,
      appended in order. */
  method ComputeClusterMean(cluster: seq<Item>) returns (r: Result<Vector>)
    ensures r == MeanOf(cluster)
  {
    var tuples := VectorsOf(cluster);
    if |tuples| == 0 {
      return Err(IndexError);
    }
    var vector := [];
    for i := 0 to |tuples[0]|
      invariant Reaches(tuples, i)
      invariant |vector| == i && forall j :: 0 <= j < i ==> vector[j] == Mean(Coordinate(tuples, j))
    {
      if exists t :: 0 <= t < |tuples| && |tuples[t]| <= i {
        return Err(IndexError);
      }
      var mean := Sum(Coordinate(tuples, i)) / (|tuples| as real);
      vector := vector + [mean];
    }
    assert vector == MeanVector(tuples);
    return Ok(vector);
  }

  /** The mean of a cluster whose members all sit at one point is that
      point. */
  lemma MeanOfIdentical(cluster: seq<Item>, v: Vector)
    requires cluster != [] && forall t :: 0 <= t < |cluster| ==> cluster[t].vector == v
    ensures MeanOf(cluster) == Ok(v)
  {
    var tuples := VectorsOf(cluster);
    assert Reaches(tuples, |tuples[0]|);
    var m := MeanVector(tuples);
    forall i | 0 <= i < |v| ensures m[i] == v[i] {
      SumConstant(Coordinate(tuples, i), v[i]);
    }
    assert m == v;
  }

  /** Each coordinate of the mean lies between the least and the greatest
      value the members have in that coordinate. */
  lemma MeanWithinMembers(vs: seq<Vector>, i: nat)
    requires |vs| > 0 && Reaches(vs, |vs[0]|) && i < |vs[0]|
    ensures Min(Coordinate(vs, i)) <= MeanVector(vs)[i] <= Max(Coordinate(vs, i))
  {
    MeanBetweenMinAndMax(Coordinate(vs, i));
  }

  /** The centroids of one round: `[compute_cluster_mean(v) for k, v in
      clusters.items()]`, failing at the first cluster that fails. */
  function Means(groups: seq<Group>): (r: Result<seq<Vector>>)
    ensures r.Ok? <==> forall c :: 0 <= c < |groups| ==> MeanOf(groups[c].items).Ok?
    ensures r.Ok? ==> |r.value| == |groups|
    ensures r.Ok? ==> forall c :: 0 <= c < |groups| ==> Ok(r.value[c]) == MeanOf(groups[c].items)
    ensures r.Err? ==> r.error == IndexError
  {
    if groups == [] then Ok([])
    else
      var first :- MeanOf(groups[0].items);
      var rest :- Means(groups[1..]);
      Ok([first] + rest)
  }

  // ---------------------------------------------------------------------
  // Convergence

  /** `[distance(v, key2) for key2 in keys]`. */
  function DistancesFrom(dist: (Vector, Vector) -> Result<real>, d: nat, v: Vector, keys: seq<Vector>)
    : (r: seq<real>)
    requires Defined(dist, d) && Uniform(keys, d) && |v| == d
    ensures |r| == |keys| && forall j :: 0 <= j < |keys| ==> Ok(r[j]) == dist(v, keys[j])
  {
    seq(|keys|, j requires 0 <= j < |keys| => dist(v, keys[j]).value)
  }

  /** `keys.remove(key)` for the key at position c of a list of distinct
      dictionary keys. */
  function Remove(keys: seq<Vector>, c: nat): (r: seq<Vector>)
    requires c < |keys|
    ensures |r| == |keys| - 1
    ensures forall i :: 0 <= i < |r| ==> r[i] == keys[if i < c then i else i + 1]
  {
    keys[..c] + keys[c + 1..]
  }

  lemma RemoveKeeps(keys: seq<Vector>, c: nat, d: nat)
    requires c < |keys| && Uniform(keys, d)
    ensures Uniform(Remove(keys, c), d)
    ensures forall v :: v in Remove(keys, c) ==> v in keys
    ensures Distinct(keys) ==> Distinct(Remove(keys, c)) && keys[c] !in Remove(keys, c)
  {
    var r := Remove(keys, c);
    assert forall i :: 0 <= i < |r| ==> r[i] == keys[if i < c then i else i + 1];
  }

  /** The greedy matching of `convergence`: each old key in turn takes the
      nearest new key not yet taken (least (distance, key) pair). An old key
      with no new key left makes `min` fail on an empty list. */
  function Matching(dist: (Vector, Vector) -> Result<real>, d: nat, keys1: seq<Vector>, keys2: seq<Vector>)
    : (r: Result<seq<Vector>>)
    requires Defined(dist, d) && Uniform(keys1, d) && Uniform(keys2, d)
    ensures r.Ok? <==> |keys1| <= |keys2|
    ensures r.Ok? ==> |r.value| == |keys1| && forall v :: v in r.value ==> v in keys2
    decreases |keys1|
  {
    if keys1 == [] then Ok([])
    else if keys2 == [] then Err(ValueError)
    else
      var c := ArgMin(DistancesFrom(dist, d, keys1[0], keys2), keys2);
      var rest :- Matching(dist, d, keys1[1..], Remove(keys2, c));
      Ok([keys2[c]] + rest)
  }

  /** No new key is taken twice. */
  lemma {:induction false} MatchingInjective(dist: (Vector, Vector) -> Result<real>, d: nat,
                                             keys1: seq<Vector>, keys2: seq<Vector>)
    requires Defined(dist, d) && Uniform(keys1, d) && Uniform(keys2, d) && Distinct(keys2)
    requires Matching(dist, d, keys1, keys2).Ok?
    ensures Distinct(Matching(dist, d, keys1, keys2).value)
    decreases |keys1|
  {
    if keys1 != [] {
      var c := ArgMin(DistancesFrom(dist, d, keys1[0], keys2), keys2);
      RemoveKeeps(keys2, c, d);
      MatchingInjective(dist, d, keys1[1..], Remove(keys2, c));
    }
  }

  /** Python `set(items)`. */
  function ItemSet(s: seq<Item>): set<Item>
  {
    set x | x in s
  }

  /** `len(change)` for one matched pair: the members of the longer list
      (the new one on equal lengths) that the other list lacks. Only this
      one direction of the difference is counted. */
  function Changed(v1: seq<Item>, v2: seq<Item>): nat
  {
    if |v1| > |v2| then |ItemSet(v1) - ItemSet(v2)| else |ItemSet(v2) - ItemSet(v1)|
  }

  /** `clusters[key]`: the members stored under a key. */
  function Lookup(groups: seq<Group>, key: Vector): seq<Item>
    requires key in Points(groups)
  {
    if groups[0].point == key then groups[0].items else Lookup(groups[1..], key)
  }

  /** `total_changed` over the old clusters and the keys they were matched
      to. */
  function TotalChanged(olds: seq<Group>, news: seq<Group>, matched: seq<Vector>): nat
    requires |matched| == |olds| && forall v :: v in matched ==> v in Points(news)
  {
    if olds == [] then 0
    else
      var m := |olds| - 1;
      TotalChanged(olds[..m], news, matched[..m]) + Changed(olds[m].items, Lookup(news, matched[m]))
  }

  predicate GroupsOfDim(groups: seq<Group>, d: nat)
  {
    forall c :: 0 <= c < |groups| ==> |groups[c].point| == d && ItemsOfDim(groups[c].items, d)
  }

  /** `convergence(old_clusters, new_clusters)`: False on the first round;
      otherwise whether fewer than 1% of `total` items changed cluster. No
      rows at all divide by zero. */
  function Converged(dist: (Vector, Vector) -> Result<real>, d: nat, olds: seq<Group>, news: seq<Group>, total: nat)
    : (r: Result<bool>)
    requires Defined(dist, d) && Uniform(Points(olds), d) && Uniform(Points(news), d)
    ensures olds == [] ==> r == Ok(false)
  {
    if olds == [] then Ok(false)
    else
      var matched :- Matching(dist, d, Points(olds), Points(news));
      if total == 0 then Err(ZeroDivisionError)
      else Ok((TotalChanged(olds, news, matched) as real) / (total as real) < 0.01)
  }

  /** The 1% threshold in whole numbers: converged exactly when a hundred
      times the changed count is below the number of items. */
  lemma ConvergedThreshold(dist: (Vector, Vector) -> Result<real>, d: nat, olds: seq<Group>, news: seq<Group>,
                           total: nat)
    requires Defined(dist, d) && Uniform(Points(olds), d) && Uniform(Points(news), d)
    requires olds != [] && |olds| <= |news| && total > 0
    ensures var matched := Matching(dist, d, Points(olds), Points(news)).value;
      Converged(dist, d, olds, news, total) == Ok(100 * TotalChanged(olds, news, matched) < total)
  {
    var matched := Matching(dist, d, Points(olds), Points(news)).value;
    var n := TotalChanged(olds, news, matched);
    ThresholdArithmetic(n, total);
  }

  lemma ThresholdArithmetic(n: nat, total: nat)
    requires total > 0
    ensures (n as real) / (total as real) < 0.01 <==> 100 * n < total
  {
    DivLess(n as real, 0.01, total as real);
    assert 0.01 * (total as real) == (total as real) / 100.0;
    assert (100 * n) as real == 100.0 * (n as real);
  }

  lemma DivLess(a: real, b: real, t: real)
    requires t > 0.0
    ensures a / t < b <==> a < b * t
  {
    var q := a / t;
    assert q * t == a;
    if q < b {
      assert (b - q) * t > 0.0;
    } else {
      assert (q - b) * t >= 0.0;
    }
  }

  /** A matched prefix followed by the rest of a matching. */
  function Then(prefix: seq<Vector>, r: Result<seq<Vector>>): Result<seq<Vector>>
  {
    if r.Ok? then Ok(prefix + r.value) else r
  }

  lemma ThenThen(a: seq<Vector>, b: seq<Vector>, r: Result<seq<Vector>>)
    ensures Then(a, Then(b, r)) == Then(a + b, r)
  {
    if r.Ok? {
      assert a + (b + r.value) == (a + b) + r.value;
    }
  }

  lemma TotalChangedStep(olds: seq<Group>, news: seq<Group>, matched: seq<Vector>, k: nat, key: Vector)
    requires k < |olds| && |matched| == k && key in Points(news)
    requires forall v :: v in matched ==> v in Points(news)
    ensures TotalChanged(olds[..k + 1], news, matched + [key])
         == TotalChanged(olds[..k], news, matched) + Changed(olds[k].items, Lookup(news, key))
  {
    assert olds[..k + 1][..k] == olds[..k];
    assert (matched + [key])[..k] == matched;
  }

  /** The distance loop of `convergence`: `distance(v, key2)` for every
      remaining new key, in order. */
  method DistancesFromLoop(dist: (Vector, Vector) -> Result<real>, d: nat, v: Vector, keys: seq<Vector>)
    returns (distances: seq<real>)
    requires Defined(dist, d) && Uniform(keys, d) && |v| == d
    ensures distances == DistancesFrom(dist, d, v, keys)
  {
    distances := [];
    for j := 0 to |keys|
      invariant |distances| == j
      invariant forall i :: 0 <= i < j ==> Ok(distances[i]) == dist(v, keys[i])
    {
      var e := dist(v, keys[j]);
      distances := distances + [e.value];
    }
  }

  /** What the rounds of the convergence loop keep: the matching of all old
      keys is the keys matched so far followed by the matching of the rest,
      and the running total counts the matched prefix. */
  ghost predicate ConvergenceState(dist: (Vector, Vector) -> Result<real>, d: nat, olds: seq<Group>,
                                   news: seq<Group>, k: nat, keys2: seq<Vector>, matched: seq<Vector>, sum: nat)
    requires Defined(dist, d) && Uniform(Points(olds), d) && Uniform(Points(news), d)
  {
    && k <= |olds| && |matched| == k
    && Uniform(keys2, d) && (forall v :: v in keys2 ==> v in Points(news))
    && (forall v :: v in matched ==> v in Points(news))
    && Matching(dist, d, Points(olds), Points(news)) == Then(matched, Matching(dist, d, Points(olds)[k..], keys2))
    && sum == TotalChanged(olds[..k], news, matched)
  }

  lemma ConvergenceStart(dist: (Vector, Vector) -> Result<real>, d: nat, olds: seq<Group>, news: seq<Group>)
    requires Defined(dist, d) && Uniform(Points(olds), d) && Uniform(Points(news), d)
    ensures ConvergenceState(dist, d, olds, news, 0, Points(news), [], 0)
  {
    var m := Matching(dist, d, Points(olds), Points(news));
    assert Points(olds)[0..] == Points(olds);
    if m.Ok? {
      assert [] + m.value == m.value;
    }
  }

  lemma ConvergenceStep(dist: (Vector, Vector) -> Result<real>, d: nat, olds: seq<Group>, news: seq<Group>,
                        k: nat, keys2: seq<Vector>, matched: seq<Vector>, sum: nat, c: nat)
    requires Defined(dist, d) && Uniform(Points(olds), d) && Uniform(Points(news), d)
    requires ConvergenceState(dist, d, olds, news, k, keys2, matched, sum) && k < |olds| && keys2 != []
    requires c == ArgMin(DistancesFrom(dist, d, Points(olds)[k], keys2), keys2)
    ensures c < |keys2| && keys2[c] in Points(news)
    ensures ConvergenceState(dist, d, olds, news, k + 1, Remove(keys2, c), matched + [keys2[c]],
                             sum + Changed(olds[k].items, Lookup(news, keys2[c])))
  {
    var keys1 := Points(olds);
    assert keys1[k..][0] == olds[k].point;
    MatchingStep(dist, d, keys1[k..], keys2);
    assert keys1[k..][1..] == keys1[k + 1..];
    ThenThen(matched, [keys2[c]], Matching(dist, d, keys1[k + 1..], Remove(keys2, c)));
    RemoveKeeps(keys2, c, d);
    TotalChangedStep(olds, news, matched, k, keys2[c]);
  }

  lemma ConvergenceStuck(dist: (Vector, Vector) -> Result<real>, d: nat, olds: seq<Group>, news: seq<Group>,
                         k: nat, matched: seq<Vector>, sum: nat)
    requires Defined(dist, d) && Uniform(Points(olds), d) && Uniform(Points(news), d)
    requires ConvergenceState(dist, d, olds, news, k, [], matched, sum) && k < |olds|
    ensures Matching(dist, d, Points(olds), Points(news)) == Err(ValueError)
    ensures olds != [] && Converged(dist, d, olds, news, total := 1) == Err(ValueError)
    ensures forall total: nat :: Converged(dist, d, olds, news, total) == Err(ValueError)
  {
    assert Points(olds)[k..] != [];
  }

  lemma ConvergenceDone(dist: (Vector, Vector) -> Result<real>, d: nat, olds: seq<Group>, news: seq<Group>,
                        keys2: seq<Vector>, matched: seq<Vector>, sum: nat)
    requires Defined(dist, d) && Uniform(Points(olds), d) && Uniform(Points(news), d) && olds != []
    requires ConvergenceState(dist, d, olds, news, |olds|, keys2, matched, sum)
    ensures Matching(dist, d, Points(olds), Points(news)) == Ok(matched)
    ensures sum == TotalChanged(olds, news, matched)
  {
    assert olds[..|olds|] == olds && Points(olds)[|olds|..] == [];
    assert matched + [] == matched;
  }

  /** `convergence` as the loops run it: the old keys in order, each taking
      its nearest key out of the list of remaining new keys, and
      `total_changed` accumulated along the way. */
  method Convergence(dist: (Vector, Vector) -> Result<real>, d: nat, olds: seq<Group>, news: seq<Group>, total: nat)
    returns (r: Result<bool>)
    requires Defined(dist, d) && Uniform(Points(olds), d) && Uniform(Points(news), d)
    ensures r == Converged(dist, d, olds, news, total)
  {
    if |olds| == 0 {
      return Ok(false);
    }
    var totalChanged := CountChanged(dist, d, olds, news);
    if totalChanged.Err? {
      return Err(totalChanged.error);
    }
    if total == 0 {
      return Err(ZeroDivisionError);
    }
    return Ok((totalChanged.value as real) / (total as real) < 0.01);
  }

  /** The loops of `convergence`: each old key in turn takes the nearest of
      the new keys left, and the items changed between the two clusters are
      added to `total_changed`. */
  method CountChanged(dist: (Vector, Vector) -> Result<real>, d: nat, olds: seq<Group>, news: seq<Group>)
    returns (r: Result<nat>)
    requires Defined(dist, d) && Uniform(Points(olds), d) && Uniform(Points(news), d) && olds != []
    ensures Matching(dist, d, Points(olds), Points(news)).Err? ==>
      r == Err(ValueError) && Matching(dist, d, Points(olds), Points(news)) == Err(ValueError)
    ensures Matching(dist, d, Points(olds), Points(news)).Ok? ==>
      r == Ok(TotalChanged(olds, news, Matching(dist, d, Points(olds), Points(news)).value))
  {
    var keys1 := Points(olds);
    var keys2 := Points(news);
    var totalChanged := 0;
    ghost var matched: seq<Vector> := [];
    ConvergenceStart(dist, d, olds, news);
    assert |keys1| == |olds|;
    for k := 0 to |keys1|
      invariant Uniform(keys2, d)
      invariant ConvergenceState(dist, d, olds, news, k, keys2, matched, totalChanged)
    {
      assert |keys1[k]| == d;
      var distances := DistancesFromLoop(dist, d, keys1[k], keys2);
      if keys2 == [] {
        ConvergenceStuck(dist, d, olds, news, k, matched, totalChanged);
        return Err(ValueError);
      }
      var c := ArgMin(distances, keys2);
      var keyToRemove := keys2[c];
      ConvergenceStep(dist, d, olds, news, k, keys2, matched, totalChanged, c);
      keys2 := Remove(keys2, c);
      var change := Changed(olds[k].items, Lookup(news, keyToRemove));
      totalChanged := totalChanged + change;
      matched := matched + [keyToRemove];
    }
    ConvergenceDone(dist, d, olds, news, keys2, matched, totalChanged);
    return Ok(totalChanged);
  }

  lemma MatchingStep(dist: (Vector, Vector) -> Result<real>, d: nat, keys1: seq<Vector>, keys2: seq<Vector>)
    requires Defined(dist, d) && Uniform(keys1, d) && Uniform(keys2, d) && keys1 != [] && keys2 != []
    ensures var c := ArgMin(DistancesFrom(dist, d, keys1[0], keys2), keys2);
      Matching(dist, d, keys1, keys2) == Then([keys2[c]], Matching(dist, d, keys1[1..], Remove(keys2, c)))
  {}

  // ---------------------------------------------------------------------
  // An unchanged clustering converges

  /** The distance is a metric's separation: defined, non-negative, and
      zero exactly between equal vectors. */
  ghost predicate Separates(dist: (Vector, Vector) -> Result<real>, d: nat)
  {
    forall v1: Vector, v2: Vector :: |v1| == d && |v2| == d ==>
      dist(v1, v2).Ok? && dist(v1, v2).value >= 0.0 && (dist(v1, v2).value == 0.0 <==> v1 == v2)
  }

  /** With a root that is zero only at zero, the source's distance
      separates vectors. */
  lemma DistanceSeparates(root: real -> real, d: nat)
    requires root(0.0) == 0.0 && forall x :: x > 0.0 ==> root(x) > 0.0
    ensures Separates(DistanceFn(root), d)
  {
    forall v1: Vector, v2: Vector | |v1| == d && |v2| == d
      ensures Distance(root, v1, v2).Ok? && Distance(root, v1, v2).value >= 0.0
      ensures Distance(root, v1, v2).value == 0.0 <==> v1 == v2
    {
      var sq := SquaredDifferences(v1, v2);
      SumNonNegative(sq);
      if v1 == v2 {
        ManhattanSelf(root, v1);
      } else {
        var i :| 0 <= i < d && v1[i] != v2[i];
        SquarePositive(v1[i] - v2[i]);
        if Sum(sq) == 0.0 {
          SumZeroOnlyIfAllZero(sq, i);
        }
      }
    }
  }

  lemma SquarePositive(x: real)
    requires x != 0.0
    ensures Square(x) > 0.0
  {
    var a := if x < 0.0 then -x else x;
    calc {
      Square(x);
      a * a;
    >  { ProductPositive(a, a); }
      0.0;
    }
  }

  /** Each old key of an unchanged clustering is matched to itself. */
  lemma {:induction false} MatchingSelf(dist: (Vector, Vector) -> Result<real>, d: nat, keys: seq<Vector>)
    requires Defined(dist, d) && Separates(dist, d) && Uniform(keys, d) && Distinct(keys)
    ensures Matching(dist, d, keys, keys) == Ok(keys)
    decreases |keys|
  {
    if keys != [] {
      NearestSelf(dist, d, keys);
      RemoveHead(keys, d);
      MatchingSelf(dist, d, keys[1..]);
      MatchingSelfStep(dist, d, keys);
    }
  }

  /** When the first key is its own nearest key and the others are matched
      to themselves, every key is matched to itself. */
  lemma MatchingSelfStep(dist: (Vector, Vector) -> Result<real>, d: nat, keys: seq<Vector>)
    requires Defined(dist, d) && Uniform(keys, d) && keys != []
    requires ArgMin(DistancesFrom(dist, d, keys[0], keys), keys) == 0
    requires Remove(keys, 0) == keys[1..] && Uniform(keys[1..], d)
    requires Matching(dist, d, keys[1..], keys[1..]) == Ok(keys[1..])
    ensures Matching(dist, d, keys, keys) == Ok(keys)
  {
    HeadTail(keys);
  }

  lemma HeadTail(keys: seq<Vector>)
    requires keys != []
    ensures [keys[0]] + keys[1..] == keys
  {
  }

  /** Removing the first of distinct keys leaves the others. */
  lemma RemoveHead(keys: seq<Vector>, d: nat)
    requires keys != [] && Uniform(keys, d) && Distinct(keys)
    ensures Remove(keys, 0) == keys[1..] && Uniform(keys[1..], d) && Distinct(keys[1..])
  {
    assert Remove(keys, 0) == keys[1..];
  }

  /** The key nearest to the first of distinct keys is that key itself. */
  lemma NearestSelf(dist: (Vector, Vector) -> Result<real>, d: nat, keys: seq<Vector>)
    requires keys != [] && Defined(dist, d) && Separates(dist, d) && Uniform(keys, d) && Distinct(keys)
    ensures ArgMin(DistancesFrom(dist, d, keys[0], keys), keys) == 0
  {
    var ds := DistancesFrom(dist, d, keys[0], keys);
    var c := ArgMin(ds, keys);
    assert ds[c] <= ds[0] == 0.0;
  }

  /** Under distinct keys a lookup finds the cluster stored at that key. */
  lemma {:induction false} LookupAt(groups: seq<Group>, c: nat)
    requires c < |groups| && Distinct(Points(groups))
    ensures groups[c].point in Points(groups)
    ensures Lookup(groups, groups[c].point) == groups[c].items
    decreases c
  {
    assert groups[c].point == Points(groups)[c];
    if c > 0 {
      assert Points(groups)[0] != Points(groups)[c];
      assert Points(groups[1..]) == Points(groups)[1..];
      LookupAt(groups[1..], c - 1);
    }
  }

  lemma {:induction false} TotalChangedSelf(groups: seq<Group>, n: nat)
    requires n <= |groups| && Distinct(Points(groups))
    ensures forall v :: v in Points(groups)[..n] ==> v in Points(groups)
    ensures TotalChanged(groups[..n], groups, Points(groups)[..n]) == 0
    decreases n
  {
    if n > 0 {
      var m := n - 1;
      TotalChangedSelf(groups, m);
      assert groups[..n][..m] == groups[..m];
      assert Points(groups)[..n][..m] == Points(groups)[..m];
      LookupAt(groups, m);
      assert ItemSet(groups[m].items) - ItemSet(groups[m].items) == {};
    }
  }

  /** A round that reproduces the previous clusters exactly has converged. */
  lemma ConvergedWhenUnchanged(dist: (Vector, Vector) -> Result<real>, d: nat, groups: seq<Group>, total: nat)
    requires Defined(dist, d) && Separates(dist, d) && Uniform(Points(groups), d) && Distinct(Points(groups))
    requires groups != [] && total > 0
    ensures Converged(dist, d, groups, groups, total) == Ok(true)
  {
    MatchingSelf(dist, d, Points(groups));
    NothingChanged(groups);
    ConvergedWithoutChange(dist, d, groups, groups, total, Points(groups));
  }

  /** Matching every cluster to itself moves no member. */
  lemma NothingChanged(groups: seq<Group>)
    requires Distinct(Points(groups))
    ensures forall v :: v in Points(groups) ==> v in Points(groups)
    ensures TotalChanged(groups, groups, Points(groups)) == 0
  {
    TotalChangedSelf(groups, |groups|);
    assert groups[..|groups|] == groups;
    assert Points(groups)[..|groups|] == Points(groups);
  }

  /** A matching under which no member changed cluster is converged. */
  lemma ConvergedWithoutChange(dist: (Vector, Vector) -> Result<real>, d: nat, olds: seq<Group>, news: seq<Group>,
                               total: nat, matched: seq<Vector>)
    requires Defined(dist, d) && Uniform(Points(olds), d) && Uniform(Points(news), d)
    requires olds != [] && |olds| <= |news| && total > 0
    requires Matching(dist, d, Points(olds), Points(news)) == Ok(matched)
    requires TotalChanged(olds, news, matched) == 0
    ensures Converged(dist, d, olds, news, total) == Ok(true)
  {
    ConvergedThreshold(dist, d, olds, news, total);
  }

  // ---------------------------------------------------------------------
  // The scatter

  /** The distances of a cluster's members from its centroid, in order. */
  function MemberDistances(dist: (Vector, Vector) -> Result<real>, d: nat, g: Group): (r: seq<real>)
    requires Defined(dist, d) && |g.point| == d && ItemsOfDim(g.items, d)
    ensures |r| == |g.items|
    ensures forall j :: 0 <= j < |r| ==> Ok(r[j]) == dist(g.point, g.items[j].vector)
  {
    seq(|g.items|, j requires 0 <= j < |g.items| => dist(g.point, g.items[j].vector).value)
  }

  /** The list `sum_squared_error` builds: cluster after cluster, the
      distance of every member from its centroid. */
  function ScatterTerms(dist: (Vector, Vector) -> Result<real>, d: nat, groups: seq<Group>): seq<real>
    requires Defined(dist, d) && GroupsOfDim(groups, d)
  {
    if groups == [] then []
    else
      var m := |groups| - 1;
      ScatterTerms(dist, d, groups[..m]) + MemberDistances(dist, d, groups[m])
  }

  /** The scatter of a clustering: the total distance of the members from
      their centroids. */
  function Scatter(dist: (Vector, Vector) -> Result<real>, d: nat, groups: seq<Group>): real
    requires Defined(dist, d) && GroupsOfDim(groups, d)
  {
    Sum(ScatterTerms(dist, d, groups))
  }

  /** `sum_squared_error`: the distances appended cluster by cluster and
      member by member, then summed. */
  method SumSquaredError(dist: (Vector, Vector) -> Result<real>, d: nat, groups: seq<Group>) returns (r: real)
    requires Defined(dist, d) && GroupsOfDim(groups, d)
    ensures r == Scatter(dist, d, groups)
  {
    var distances: seq<real> := [];
    for c := 0 to |groups|
      invariant distances == ScatterTerms(dist, d, groups[..c])
    {
      var g := groups[c];
      ghost var before := distances;
      for j := 0 to |g.items|
        invariant distances == before + MemberDistances(dist, d, g)[..j]
      {
        var e := dist(g.point, g.items[j].vector);
        distances := distances + [e.value];
      }
      assert groups[..c + 1][..c] == groups[..c];
      assert MemberDistances(dist, d, g)[..|g.items|] == MemberDistances(dist, d, g);
    }
    assert groups[..|groups|] == groups;
    return Sum(distances);
  }

  /** The distance never goes below zero between vectors of dimension d. */
  ghost predicate NonNegative(dist: (Vector, Vector) -> Result<real>, d: nat)
    requires Defined(dist, d)
  {
    forall v1: Vector, v2: Vector :: |v1| == d && |v2| == d ==> dist(v1, v2).value >= 0.0
  }

  /** Every member sits on its cluster's centroid. */
  predicate OnCentroids(groups: seq<Group>)
  {
    forall c, j :: 0 <= c < |groups| && 0 <= j < |groups[c].items| ==> groups[c].items[j].vector == groups[c].point
  }

  /** The scatter has one term per member. */
  lemma {:induction false} ScatterTermsCount(dist: (Vector, Vector) -> Result<real>, d: nat, groups: seq<Group>)
    requires Defined(dist, d) && GroupsOfDim(groups, d)
    ensures |ScatterTerms(dist, d, groups)| == |AllItems(groups)|
    decreases |groups|
  {
    if groups != [] {
      var m := |groups| - 1;
      ScatterTermsCount(dist, d, groups[..m]);
      AllItemsSnoc(groups[..m], groups[m]);
      assert groups[..m] + [groups[m]] == groups;
    }
  }

  lemma {:induction false} AllItemsSnoc(groups: seq<Group>, g: Group)
    ensures AllItems(groups + [g]) == AllItems(groups) + g.items
    decreases |groups|
  {
    if groups == [] {
      assert AllItems([g]) == g.items + AllItems([]);
    } else {
      assert (groups + [g])[1..] == groups[1..] + [g];
      AllItemsSnoc(groups[1..], g);
    }
  }

  /** With a non-negative distance the scatter is never negative. */
  lemma {:induction false} ScatterNonNegative(dist: (Vector, Vector) -> Result<real>, d: nat, groups: seq<Group>)
    requires Defined(dist, d) && NonNegative(dist, d) && GroupsOfDim(groups, d)
    ensures Scatter(dist, d, groups) >= 0.0
    decreases |groups|
  {
    if groups != [] {
      var m := |groups| - 1;
      var md := MemberDistances(dist, d, groups[m]);
      ScatterNonNegative(dist, d, groups[..m]);
      SumNonNegative(md);
      SumAppend(ScatterTerms(dist, d, groups[..m]), md);
    }
  }

  /** Under a separating distance the scatter is zero exactly when every
      member sits on its centroid. */
  lemma {:induction false} ScatterZero(dist: (Vector, Vector) -> Result<real>, d: nat, groups: seq<Group>)
    requires Separates(dist, d) && GroupsOfDim(groups, d)
    ensures Defined(dist, d) && NonNegative(dist, d)
    ensures Scatter(dist, d, groups) == 0.0 <==> OnCentroids(groups)
    decreases |groups|
  {
    if groups != [] {
      var m := |groups| - 1;
      var g := groups[m];
      var md := MemberDistances(dist, d, g);
      ScatterZero(dist, d, groups[..m]);
      ScatterNonNegative(dist, d, groups[..m]);
      SumNonNegative(md);
      SumAppend(ScatterTerms(dist, d, groups[..m]), md);
      OnCentroidsSplit(groups);
      GroupDistancesZero(dist, d, g);
    }
  }

  /** Every member is on its centroid exactly when it is so in the clusters
      before the last one and in the last one. */
  lemma OnCentroidsSplit(groups: seq<Group>)
    requires groups != []
    ensures var m := |groups| - 1;
      OnCentroids(groups) <==> OnCentroids(groups[..m]) && OnCentroids([groups[m]])
  {
    var m := |groups| - 1;
    var g := groups[m];
    if OnCentroids(groups[..m]) && OnCentroids([g]) {
      forall c, j | 0 <= c < |groups| && 0 <= j < |groups[c].items|
        ensures groups[c].items[j].vector == groups[c].point
      {
        if c < m {
          assert groups[..m][c] == groups[c];
        } else {
          assert [g][0] == groups[c];
        }
      }
    }
    if OnCentroids(groups) {
      assert forall c :: 0 <= c < m ==> groups[..m][c] == groups[c];
    }
  }

  lemma GroupDistancesZero(dist: (Vector, Vector) -> Result<real>, d: nat, g: Group)
    requires Separates(dist, d) && |g.point| == d && ItemsOfDim(g.items, d)
    ensures Sum(MemberDistances(dist, d, g)) == 0.0 <==> OnCentroids([g])
  {
    var md := MemberDistances(dist, d, g);
    if Sum(md) == 0.0 {
      forall j | 0 <= j < |g.items| ensures g.items[j].vector == g.point {
        SumZeroOnlyIfAllZero(md, j);
      }
    }
    if OnCentroids([g]) {
      forall j | 0 <= j < |md| ensures md[j] == 0.0 {
        assert [g][0].items[j].vector == g.point;
      }
      SumConstant(md, 0.0);
    }
  }

  // ---------------------------------------------------------------------
  // The weighted pick of k-means++

  /** Where a walk over the weights stopped (`i`) and the number of the
      next `random.random()` draw. */
  datatype Pick = Pick(index: nat, next: nat)

  /** The running total `n` after step i: the first i + 1 weights. */
  function Cumulative(ws: seq<real>, i: nat): real
    requires i < |ws|
  {
    Sum(ws[..i + 1])
  }

  /** The loop of `weighted_probability` from step i with running total n,
      step i comparing with draw number t. Stepping past the last weight
      indexes out of range. */
  function Walk(ws: seq<real>, draw: nat -> real, t: nat, i: nat, n: real): (r: Result<Pick>)
    requires i < |ws|
    ensures r.Err? ==> r.error == IndexError
    ensures r.Ok? ==> i <= r.value.index < |ws| && r.value.next == t + (r.value.index - i) + 1
    decreases |ws| - i
  {
    if n < draw(t) then
      if i + 1 < |ws| then Walk(ws, draw, t + 1, i + 1, n + ws[i + 1]) else Err(IndexError)
    else Ok(Pick(i, t + 1))
  }

  /** `weighted_probability` on the weights, starting at draw number t; an
      empty list has no first weight. */
  function WeightedPick(ws: seq<real>, draw: nat -> real, t: nat): (r: Result<Pick>)
    ensures ws == [] ==> r == Err(IndexError)
    ensures r.Err? ==> r.error == IndexError
    ensures r.Ok? ==> r.value.index < |ws| && r.value.next == t + r.value.index + 1
  {
    if ws == [] then Err(IndexError) else Walk(ws, draw, t, 0, ws[0])
  }

  /** The first components of a list of pairs. */
  function Firsts(pairs: seq<(real, Vector)>): (r: seq<real>)
    ensures |r| == |pairs| && forall i :: 0 <= i < |pairs| ==> r[i] == pairs[i].0
  {
    seq(|pairs|, i requires 0 <= i < |pairs| => pairs[i].0)
  }

  /** The second components of a list of pairs. */
  function Seconds(pairs: seq<(real, Vector)>): (r: seq<Vector>)
    ensures |r| == |pairs| && forall i :: 0 <= i < |pairs| ==> r[i] == pairs[i].1
  {
    seq(|pairs|, i requires 0 <= i < |pairs| => pairs[i].1)
  }

  /** `weighted_probability`: walks the list while the running total is
      below a fresh draw, and returns the point it stopped at together with
      the number of the next draw. */
  method WeightedProbability(cands: seq<(real, Vector)>, draw: nat -> real, t: nat)
    returns (r: Result<Vector>, next: nat)
    ensures var pick := WeightedPick(Firsts(cands), draw, t);
      && (r.Ok? <==> pick.Ok?)
      && (r.Err? ==> r.error == IndexError)
      && (r.Ok? ==> r.value == cands[pick.value.index].1 && next == pick.value.next)
  {
    if cands == [] {
      return Err(IndexError), t;
    }
    ghost var ws := Firsts(cands);
    var i := 0;
    var n := cands[0].0;
    var s := t;
    while n < draw(s)
      invariant i < |cands| && s == t + i
      invariant WeightedPick(ws, draw, t) == Walk(ws, draw, s, i, n)
      decreases |cands| - i
    {
      if i + 1 >= |cands| {
        return Err(IndexError), s + 1;
      }
      i := i + 1;
      n := n + cands[i].0;
      s := s + 1;
    }
    return Ok(cands[i].1), s + 1;
  }

  lemma CumulativeStep(ws: seq<real>, i: nat)
    requires i + 1 < |ws|
    ensures Cumulative(ws, i + 1) == Cumulative(ws, i) + ws[i + 1]
  {
    assert ws[..i + 2][..i + 1] == ws[..i + 1];
  }

  /** Every step from lo up to hi finds its cumulative weight below its
      draw. */
  ghost predicate Below(ws: seq<real>, draw: nat -> real, t: nat, lo: nat, hi: nat)
    requires hi <= |ws|
  {
    forall j :: lo <= j < hi ==> Cumulative(ws, j) < draw(t + j)
  }

  /** The walk from step i stops at the first step whose cumulative weight
      reaches its draw, and fails when no step does. */
  ghost predicate StopsAtFirst(ws: seq<real>, draw: nat -> real, t: nat, i: nat)
    requires i < |ws|
  {
    var r := Walk(ws, draw, t + i, i, Cumulative(ws, i));
    && (r.Err? <==> Below(ws, draw, t, i, |ws|))
    && (r.Ok? ==> Cumulative(ws, r.value.index) >= draw(t + r.value.index) && Below(ws, draw, t, i, r.value.index))
  }

  /** The walk stops at the first step from i whose cumulative weight
      reaches its draw, and fails when no step does. */
  lemma {:induction false} WalkFirstReached(ws: seq<real>, draw: nat -> real, t: nat, i: nat)
    requires i < |ws|
    ensures StopsAtFirst(ws, draw, t, i)
    decreases |ws| - i
  {
    var n := Cumulative(ws, i);
    if n >= draw(t + i) {
      WalkStops(ws, draw, t, i);
    } else if i + 1 == |ws| {
      WalkRunsOut(ws, draw, t, i);
    } else {
      WalkFirstReached(ws, draw, t, i + 1);
      WalkPasses(ws, draw, t, i);
    }
  }

  lemma WalkStops(ws: seq<real>, draw: nat -> real, t: nat, i: nat)
    requires i < |ws| && Cumulative(ws, i) >= draw(t + i)
    ensures StopsAtFirst(ws, draw, t, i)
  {
    assert Walk(ws, draw, t + i, i, Cumulative(ws, i)) == Ok(Pick(i, t + i + 1));
    assert !Below(ws, draw, t, i, |ws|);
  }

  lemma WalkRunsOut(ws: seq<real>, draw: nat -> real, t: nat, i: nat)
    requires i + 1 == |ws| && Cumulative(ws, i) < draw(t + i)
    ensures StopsAtFirst(ws, draw, t, i)
  {
    assert Walk(ws, draw, t + i, i, Cumulative(ws, i)) == Err(IndexError);
    assert Below(ws, draw, t, i, |ws|);
  }

  /** A step below its draw passes the verdict of the next step back. */
  lemma WalkPasses(ws: seq<real>, draw: nat -> real, t: nat, i: nat)
    requires i + 1 < |ws| && Cumulative(ws, i) < draw(t + i)
    requires StopsAtFirst(ws, draw, t, i + 1)
    ensures StopsAtFirst(ws, draw, t, i)
  {
    CumulativeStep(ws, i);
    var r := Walk(ws, draw, t + (i + 1), i + 1, Cumulative(ws, i + 1));
    assert Walk(ws, draw, t + i, i, Cumulative(ws, i)) == r;
    BelowExtend(ws, draw, t, i, |ws|);
    if r.Ok? {
      BelowExtend(ws, draw, t, i, r.value.index);
    }
  }

  lemma BelowExtend(ws: seq<real>, draw: nat -> real, t: nat, i: nat, hi: nat)
    requires i < hi <= |ws| && Cumulative(ws, i) < draw(t + i)
    ensures Below(ws, draw, t, i, hi) <==> Below(ws, draw, t, i + 1, hi)
  {}

  /** `weighted_probability` picks the first position whose cumulative
      weight reaches the draw made at that step, and fails exactly when no
      position does. */
  lemma PickIsFirstReached(ws: seq<real>, draw: nat -> real, t: nat)
    requires ws != []
    ensures var r := WeightedPick(ws, draw, t);
      && (r.Err? <==> Below(ws, draw, t, 0, |ws|))
      && (r.Ok? ==> Cumulative(ws, r.value.index) >= draw(t + r.value.index) && Below(ws, draw, t, 0, r.value.index))
  {
    assert Cumulative(ws, 0) == ws[0] by {
      var s := ws[..1];
      assert s[..0] == [];
      assert Sum(s) == Sum(s[..0]) + s[0];
    }
    WalkFirstReached(ws, draw, t, 0);
  }

  /** With weights that sum to 1 and draws below 1 the walk always stops
      inside the list, at one of the candidates. */
  lemma PickInBounds(ws: seq<real>, draw: nat -> real, t: nat)
    requires ws != [] && Sum(ws) == 1.0
    requires forall s :: draw(s) < 1.0
    ensures WeightedPick(ws, draw, t).Ok?
  {
    PickIsFirstReached(ws, draw, t);
    var last := |ws| - 1;
    assert ws[..last + 1] == ws;
    assert Cumulative(ws, last) >= draw(t + last);
  }

  // ---------------------------------------------------------------------
  // k-means++

  /** One entry of the `defaultdict(list)` of `kmeans_plus_plus`: a
      centroid and its (distance, point) pairs. Entries keep the order in
      which their keys were first used. */
  datatype Entry = Entry(key: Vector, pairs: seq<(real, Vector)>)

  /** `table[key].append(pair)`: appended to the entry of that key, or to a
      new entry at the end. */
  function AddPair(table: seq<Entry>, key: Vector, pair: (real, Vector)): seq<Entry>
  {
    if table == [] then [Entry(key, [pair])]
    else if table[0].key == key then [Entry(key, table[0].pairs + [pair])] + table[1..]
    else [table[0]] + AddPair(table[1..], key, pair)
  }

  /** `table[key]` of a `defaultdict(list)`: the pairs under that key, or
      the empty list. */
  function PairsAt(table: seq<Entry>, key: Vector): seq<(real, Vector)>
  {
    if table == [] then []
    else if table[0].key == key then table[0].pairs
    else PairsAt(table[1..], key)
  }

  /** Appending under one key extends that key's list and no other. */
  lemma {:induction false} AddPairLookup(table: seq<Entry>, key: Vector, pair: (real, Vector), other: Vector)
    ensures PairsAt(AddPair(table, key, pair), other)
         == PairsAt(table, other) + (if other == key then [pair] else [])
    decreases |table|
  {
    if table != [] && table[0].key != key {
      AddPairLookup(table[1..], key, pair, other);
      assert ([table[0]] + AddPair(table[1..], key, pair))[1..] == AddPair(table[1..], key, pair);
    } else if table != [] && table[0].key == key {
      assert ([Entry(key, table[0].pairs + [pair])] + table[1..])[1..] == table[1..];
    }
  }

  /** The inner loop for one point: its pair appended under every centroid. */
  function AddPoint(dist: (Vector, Vector) -> Result<real>, d: nat, table: seq<Entry>, centroids: seq<Vector>,
                    point: Vector): seq<Entry>
    requires Defined(dist, d) && Uniform(centroids, d) && |point| == d
  {
    if centroids == [] then table
    else
      var m := |centroids| - 1;
      AddPair(AddPoint(dist, d, table, centroids[..m], point), centroids[m],
              (dist(centroids[m], point).value, point))
  }

  /** The table the nested loops build, point after point. */
  function BuildTable(dist: (Vector, Vector) -> Result<real>, d: nat, centroids: seq<Vector>, points: seq<Vector>)
    : seq<Entry>
    requires Defined(dist, d) && Uniform(centroids, d) && Uniform(points, d)
  {
    if points == [] then []
    else
      var m := |points| - 1;
      AddPoint(dist, d, BuildTable(dist, d, centroids, points[..m]), centroids, points[m])
  }

  /** The nested loops of `kmeans_plus_plus` that fill the table. */
  method TableLoop(dist: (Vector, Vector) -> Result<real>, d: nat, centroids: seq<Vector>, points: seq<Vector>)
    returns (table: seq<Entry>)
    requires Defined(dist, d) && Uniform(centroids, d) && Uniform(points, d)
    ensures table == BuildTable(dist, d, centroids, points)
  {
    table := [];
    for p := 0 to |points|
      invariant table == BuildTable(dist, d, centroids, points[..p])
    {
      var point := points[p];
      ghost var before := table;
      for c := 0 to |centroids|
        invariant table == AddPoint(dist, d, before, centroids[..c], point)
      {
        var distance := dist(centroids[c], point);
        assert centroids[..c + 1][..c] == centroids[..c];
        table := AddPair(table, centroids[c], (distance.value, point));
      }
      assert centroids[..|centroids|] == centroids;
      assert points[..p + 1][..p] == points[..p];
    }
    assert points[..|points|] == points;
  }

  /** `[value for key, value in table.items()]`. */
  function Lists(table: seq<Entry>): (r: seq<seq<(real, Vector)>>)
    ensures |r| == |table| && forall i :: 0 <= i < |table| ==> r[i] == table[i].pairs
  {
    seq(|table|, i requires 0 <= i < |table| => table[i].pairs)
  }

  /** `[x[i] for x in lists]`. */
  function Column(lists: seq<seq<(real, Vector)>>, i: nat): (r: seq<(real, Vector)>)
    requires forall j :: 0 <= j < |lists| ==> i < |lists[j]|
    ensures |r| == |lists| && forall j :: 0 <= j < |lists| ==> r[j] == lists[j][i]
  {
    seq(|lists|, j requires 0 <= j < |lists| => lists[j][i])
  }

  /** Python `min` over (distance, point) pairs: a least pair, the first
      one on ties. */
  function MinPair(pairs: seq<(real, Vector)>): (r: (real, Vector))
    requires |pairs| > 0
    ensures r in pairs
    ensures forall j :: 0 <= j < |pairs| ==> PairLe(r.0, r.1, pairs[j].0, pairs[j].1)
  {
    var c := ArgMin(Firsts(pairs), Seconds(pairs));
    pairs[c]
  }

  /** The `closest` list: the least pair of every column, indexed by the
      positions of the first list. No lists at all, or a list shorter than
      the first, index out of range. */
  function Closest(lists: seq<seq<(real, Vector)>>): (r: Result<seq<(real, Vector)>>)
    ensures r.Ok? <==> lists != [] && forall j :: 0 <= j < |lists| ==> |lists[0]| <= |lists[j]|
    ensures r.Err? ==> r.error == IndexError
    ensures r.Ok? ==> |r.value| == |lists[0]|
  {
    if lists == [] || exists j :: 0 <= j < |lists| && |lists[j]| < |lists[0]| then Err(IndexError)
    else Ok(seq(|lists[0]|, i requires 0 <= i < |lists[0]| => MinPair(Column(lists, i))))
  }

  /** The loop that builds `closest`, column by column. */
  method ClosestLoop(lists: seq<seq<(real, Vector)>>) returns (r: Result<seq<(real, Vector)>>)
    ensures r == Closest(lists)
  {
    if |lists| == 0 {
      return Err(IndexError);
    }
    var closest := [];
    for i := 0 to |lists[0]|
      invariant forall j :: 0 <= j < |lists| ==> i <= |lists[j]|
      invariant |closest| == i && forall c :: 0 <= c < i ==> closest[c] == MinPair(Column(lists, c))
    {
      if exists j :: 0 <= j < |lists| && |lists[j]| <= i {
        return Err(IndexError);
      }
      var vector := Column(lists, i);
      closest := closest + [MinPair(vector)];
    }
    assert closest == Closest(lists).value;
    return Ok(closest);
  }

  /** `[(x / total, y) for x, y in closest]`. */
  function Normalized(closest: seq<(real, Vector)>, total: real): (r: seq<(real, Vector)>)
    requires total != 0.0
    ensures |r| == |closest|
    ensures forall i :: 0 <= i < |closest| ==> r[i] == (closest[i].0 / total, closest[i].1)
  {
    seq(|closest|, i requires 0 <= i < |closest| => (closest[i].0 / total, closest[i].1))
  }

  /** Python `lst.remove(v)`: the first occurrence removed; ValueError when
      there is none. */
  function RemoveFirst(s: seq<Vector>, v: Vector): (r: Result<seq<Vector>>)
    ensures r.Ok? <==> v in s
    ensures r.Err? ==> r.error == ValueError
    ensures r.Ok? ==> multiset(r.value) == multiset(s) - multiset{v} && |r.value| == |s| - 1
    ensures r.Ok? ==> forall x :: x in r.value ==> x in s
  {
    if s == [] then Err(ValueError)
    else if s[0] == v then
      assert s == [s[0]] + s[1..];
      Ok(s[1..])
    else
      var rest :- RemoveFirst(s[1..], v);
      assert s == [s[0]] + s[1..];
      Ok([s[0]] + rest)
  }

  lemma UniformSubset(a: seq<Vector>, b: seq<Vector>, d: nat)
    requires Uniform(b, d) && forall x :: x in a ==> x in b
    ensures Uniform(a, d)
  {
    forall i | 0 <= i < |a| ensures |a[i]| == d {
      assert a[i] in a && a[i] in b;
    }
  }

  lemma UniformSnoc(a: seq<Vector>, v: Vector, d: nat)
    requires Uniform(a, d) && |v| == d
    ensures Uniform(a + [v], d)
  {}

  /** The remaining points, the centroids chosen so far, and the number of
      the next `random.random()` draw. */
  datatype Pool = Pool(points: seq<Vector>, centroids: seq<Vector>, next: nat)

  predicate PoolOfDim(pool: Pool, d: nat)
  {
    Uniform(pool.points, d) && Uniform(pool.centroids, d)
  }

  /** The weights of one pass of the `while` loop of `kmeans_plus_plus`:
      the least (distance, point) pair of every remaining point, its
      distance divided by the total. A zero total divides by zero. */
  function Weighing(dist: (Vector, Vector) -> Result<real>, d: nat, pool: Pool): (r: Result<seq<(real, Vector)>>)
    requires Defined(dist, d) && PoolOfDim(pool, d)
  {
    var closest :- Closest(Lists(BuildTable(dist, d, pool.centroids, pool.points)));
    var total := Sum(Firsts(closest));
    if total == 0.0 then Err(ZeroDivisionError) else Ok(Normalized(closest, total))
  }

  /** One pass of the `while` loop: a weighted pick, and the picked point
      moved from the pool to the centroids. */
  function Round(dist: (Vector, Vector) -> Result<real>, d: nat, pool: Pool, draw: nat -> real): (r: Result<Pool>)
    requires Defined(dist, d) && PoolOfDim(pool, d)
    ensures r.Ok? ==> PoolOfDim(r.value, d) && |r.value.centroids| == |pool.centroids| + 1
  {
    var normalized :- Weighing(dist, d, pool);
    var pick :- WeightedPick(Firsts(normalized), draw, pool.next);
    var centroid := normalized[pick.index].1;
    var rest :- RemoveFirst(pool.points, centroid);
    UniformSubset(rest, pool.points, d);
    UniformSnoc(pool.centroids, centroid, d);
    Ok(Pool(rest, pool.centroids + [centroid], pick.next))
  }

  /** The `while` loop: rounds until there are k centroids. */
  function PlusPlusFrom(dist: (Vector, Vector) -> Result<real>, d: nat, k: int, pool: Pool, draw: nat -> real)
    : (r: Result<Pool>)
    requires Defined(dist, d) && PoolOfDim(pool, d)
    ensures r.Ok? ==> PoolOfDim(r.value, d)
    decreases k - |pool.centroids|
  {
    if |pool.centroids| >= k then Ok(pool)
    else
      var next :- Round(dist, d, pool, draw);
      PlusPlusFrom(dist, d, k, next, draw)
  }

  /** A permutation of the positions 0 .. n - 1, the effect of
      `random.shuffle` on a list of length n. */
  predicate IsPermutation(perm: seq<nat>, n: nat)
  {
    |perm| == n && Distinct(perm) && forall i :: 0 <= i < n ==> perm[i] < n
  }

  function Permute(vs: seq<Vector>, perm: seq<nat>): (r: seq<Vector>)
    requires IsPermutation(perm, |vs|)
    ensures |r| == |vs| && forall i :: 0 <= i < |vs| ==> r[i] == vs[perm[i]]
  {
    seq(|vs|, i requires 0 <= i < |vs| => vs[perm[i]])
  }

  /** `kmeans_plus_plus` over the row vectors: shuffled, the last one
      popped as the first centroid, then the rounds. */
  function PlusPlus(dist: (Vector, Vector) -> Result<real>, d: nat, k: int, vectors: seq<Vector>, perm: seq<nat>,
                    draw: nat -> real): (r: Result<seq<Vector>>)
    requires Defined(dist, d) && Uniform(vectors, d) && IsPermutation(perm, |vectors|)
    ensures r.Ok? ==> Uniform(r.value, d)
  {
    var shuffled := Permute(vectors, perm);
    if shuffled == [] then Err(IndexError)
    else
      var m := |shuffled| - 1;
      var final :- PlusPlusFrom(dist, d, k, Pool(shuffled[..m], [shuffled[m]], 0), draw);
      Ok(final.centroids)
  }

  /** The body of `kmeans_plus_plus`, for any distance. */
  method PlusPlusSeeding(dist: (Vector, Vector) -> Result<real>, data: seq<seq<Value>>, k: int, perm: seq<nat>,
                         draw: nat -> real) returns (r: Result<seq<Vector>>)
    requires Defined(dist, Dim(data)) && (data != [] ==> IsPermutation(perm, |data[0]|))
    ensures r == PlusPlusSeeds(dist, data, k, perm, draw)
  {
    var d := Dim(data);
    var items := Items(data);
    if items.Err? {
      return Err(items.error);
    }
    var vectors := VectorsOf(items.value);
    var shuffled := Permute(vectors, perm);
    if shuffled == [] {
      return Err(IndexError);
    }
    var m := |shuffled| - 1;
    var pool := Pool(shuffled[..m], [shuffled[m]], 0);
    UniformSubset(pool.points, shuffled, d);
    var last := SeedRounds(dist, d, k, pool, draw);
    if last.Err? {
      return Err(last.error);
    }
    return Ok(last.value.centroids);
  }

  /** The `while len(centroids) < k` loop of `kmeans_plus_plus`. */
  method SeedRounds(dist: (Vector, Vector) -> Result<real>, d: nat, k: int, start: Pool, draw: nat -> real)
    returns (r: Result<Pool>)
    requires Defined(dist, d) && PoolOfDim(start, d)
    ensures r == PlusPlusFrom(dist, d, k, start, draw)
  {
    var pool := start;
    while |pool.centroids| < k
      invariant PoolOfDim(pool, d)
      invariant PlusPlusFrom(dist, d, k, pool, draw) == PlusPlusFrom(dist, d, k, start, draw)
      decreases k - |pool.centroids|
    {
      var next := NextCentroid(dist, d, pool, draw);
      if next.Err? {
        return Err(next.error);
      }
      pool := next.value;
    }
    return Ok(pool);
  }

  /** The table, `closest`, the total and the normalisation of one round. */
  method WeighingLoop(dist: (Vector, Vector) -> Result<real>, d: nat, pool: Pool)
    returns (r: Result<seq<(real, Vector)>>)
    requires Defined(dist, d) && PoolOfDim(pool, d)
    ensures r == Weighing(dist, d, pool)
  {
    var table := TableLoop(dist, d, pool.centroids, pool.points);
    var closest := ClosestLoop(Lists(table));
    if closest.Err? {
      return Err(closest.error);
    }
    var total := Sum(Firsts(closest.value));
    if total == 0.0 {
      return Err(ZeroDivisionError);
    }
    return Ok(Normalized(closest.value, total));
  }

  /** One round as the loop body runs it. */
  method NextCentroid(dist: (Vector, Vector) -> Result<real>, d: nat, pool: Pool, draw: nat -> real)
    returns (r: Result<Pool>)
    requires Defined(dist, d) && PoolOfDim(pool, d)
    ensures r == Round(dist, d, pool, draw)
  {
    var normalized := WeighingLoop(dist, d, pool);
    if normalized.Err? {
      assert Round(dist, d, pool, draw) == Err(normalized.error);
      return Err(normalized.error);
    }
    ghost var pick := WeightedPick(Firsts(normalized.value), draw, pool.next);
    var centroid, next := WeightedProbability(normalized.value, draw, pool.next);
    if centroid.Err? {
      assert Round(dist, d, pool, draw) == Err(pick.error);
      return Err(centroid.error);
    }
    assert centroid.value == normalized.value[pick.value.index].1 && next == pick.value.next;
    var rest := RemoveFirst(pool.points, centroid.value);
    if rest.Err? {
      assert Round(dist, d, pool, draw) == Err(rest.error);
      return Err(rest.error);
    }
    assert Round(dist, d, pool, draw) == Ok(Pool(rest.value, pool.centroids + [centroid.value], next));
    return Ok(Pool(rest.value, pool.centroids + [centroid.value], next));
  }

  // ---------------------------------------------------------------------
  // Properties of k-means++

  /** A round moves one point of the pool to the end of the centroids. */
  lemma RoundMovesOne(dist: (Vector, Vector) -> Result<real>, d: nat, pool: Pool, draw: nat -> real)
    requires Defined(dist, d) && PoolOfDim(pool, d) && Round(dist, d, pool, draw).Ok?
    ensures var next := Round(dist, d, pool, draw).value;
      && |next.centroids| == |pool.centroids| + 1
      && var c := next.centroids[|pool.centroids|];
      && next.centroids == pool.centroids + [c] && c in pool.points
      && multiset(next.points) == multiset(pool.points) - multiset{c}
  {}

  lemma MoveKeepsTotal(points: seq<Vector>, centroids: seq<Vector>, c: Vector, rest: seq<Vector>)
    requires c in points && multiset(rest) == multiset(points) - multiset{c}
    ensures multiset(rest) + multiset(centroids + [c]) == multiset(points) + multiset(centroids)
  {
    assert multiset(points) == multiset(points) - multiset{c} + multiset{c};
  }

  /** The loop ends with max(k, n) centroids, n the number it started
      with, keeps the centroids it had, and only moves points from the
      pool to the centroids. */
  lemma {:induction false} PlusPlusFromKeeps(dist: (Vector, Vector) -> Result<real>, d: nat, k: int, pool: Pool,
                                             draw: nat -> real)
    requires Defined(dist, d) && PoolOfDim(pool, d) && PlusPlusFrom(dist, d, k, pool, draw).Ok?
    ensures var final := PlusPlusFrom(dist, d, k, pool, draw).value;
      && |final.centroids| == (if k > |pool.centroids| then k else |pool.centroids|)
      && final.centroids[..|pool.centroids|] == pool.centroids
      && multiset(final.points) + multiset(final.centroids) == multiset(pool.points) + multiset(pool.centroids)
    decreases k - |pool.centroids|
  {
    if |pool.centroids| < k {
      var next := Round(dist, d, pool, draw).value;
      RoundMovesOne(dist, d, pool, draw);
      var c := next.centroids[|pool.centroids|];
      MoveKeepsTotal(pool.points, pool.centroids, c, next.points);
      PlusPlusFromKeeps(dist, d, k, next, draw);
      var final := PlusPlusFrom(dist, d, k, next, draw).value;
      assert final.centroids[..|pool.centroids|] == final.centroids[..|next.centroids|][..|pool.centroids|];
    } else {
      assert pool.centroids[..|pool.centroids|] == pool.centroids;
    }
  }

  /** `kmeans_plus_plus` returns k centroids (one when k < 1), the first
      being the last of the shuffled rows, and every centroid is a row's
      vector taken out of the pool: no row is chosen twice. */
  lemma PlusPlusCentroids(dist: (Vector, Vector) -> Result<real>, d: nat, k: int, vectors: seq<Vector>,
                          perm: seq<nat>, draw: nat -> real)
    requires Defined(dist, d) && Uniform(vectors, d) && IsPermutation(perm, |vectors|)
    requires PlusPlus(dist, d, k, vectors, perm, draw).Ok?
    ensures var cs := PlusPlus(dist, d, k, vectors, perm, draw).value;
      && |cs| == (if k > 1 then k else 1)
      && cs[0] == vectors[perm[|vectors| - 1]]
      && multiset(cs) <= multiset(Permute(vectors, perm))
      && forall v :: v in cs ==> v in vectors
  {
    var shuffled := Permute(vectors, perm);
    var m := |shuffled| - 1;
    var pool := Pool(shuffled[..m], [shuffled[m]], 0);
    PlusPlusFromKeeps(dist, d, k, pool, draw);
    var final := PlusPlusFrom(dist, d, k, pool, draw).value;
    assert shuffled == shuffled[..m] + [shuffled[m]];
    assert final.centroids[..1] == [shuffled[m]];
    var cs := final.centroids;
    assert multiset(cs) <= multiset(shuffled);
    forall v | v in cs ensures v in vectors {
      assert v in multiset(shuffled);
      var i :| 0 <= i < |shuffled| && shuffled[i] == v;
      assert vectors[perm[i]] == v;
    }
  }

  /** The weights of a round sum to 1. */
  lemma WeighingSumsToOne(dist: (Vector, Vector) -> Result<real>, d: nat, pool: Pool)
    requires Defined(dist, d) && PoolOfDim(pool, d) && Weighing(dist, d, pool).Ok?
    ensures Weighing(dist, d, pool).value != [] && Sum(Firsts(Weighing(dist, d, pool).value)) == 1.0
  {
    var closest := Closest(Lists(BuildTable(dist, d, pool.centroids, pool.points))).value;
    NormalizedSumsToOne(closest, Sum(Firsts(closest)));
  }

  /** Dividing every distance by their total gives weights that sum to 1. */
  lemma NormalizedSumsToOne(closest: seq<(real, Vector)>, total: real)
    requires total == Sum(Firsts(closest)) && total != 0.0
    ensures Normalized(closest, total) != [] && Sum(Firsts(Normalized(closest, total))) == 1.0
  {
    var ws := Firsts(Normalized(closest, total));
    NormalizedScaled(closest, total);
    SumScale(Firsts(closest), ws, 1.0 / total);
    assert closest != [];
    assert (1.0 / total) * total == 1.0;
  }

  lemma NormalizedScaled(closest: seq<(real, Vector)>, total: real)
    requires total != 0.0
    ensures var ws := Firsts(Normalized(closest, total));
      |ws| == |closest| && forall i :: 0 <= i < |ws| ==> ws[i] == (1.0 / total) * Firsts(closest)[i]
  {
    var ws := Firsts(Normalized(closest, total));
    forall i | 0 <= i < |ws| ensures ws[i] == (1.0 / total) * Firsts(closest)[i] {
      DivAsProduct(closest[i].0, total);
    }
  }

  lemma DivAsProduct(x: real, total: real)
    requires total != 0.0
    ensures x / total == (1.0 / total) * x
  {}

  /** Every pair of the table is (distance, p) for some point p of the
      pool. */
  ghost predicate PairsFrom(table: seq<Entry>, points: seq<Vector>)
  {
    forall e, pair :: e in table && pair in e.pairs ==> pair.1 in points
  }

  lemma {:induction false} AddPairFrom(table: seq<Entry>, key: Vector, pair: (real, Vector), points: seq<Vector>)
    requires PairsFrom(table, points) && pair.1 in points
    ensures PairsFrom(AddPair(table, key, pair), points)
    decreases |table|
  {
    if table != [] && table[0].key != key {
      AddPairFrom(table[1..], key, pair, points);
    }
  }

  lemma {:induction false} AddPointFrom(dist: (Vector, Vector) -> Result<real>, d: nat, table: seq<Entry>,
                                        centroids: seq<Vector>, point: Vector, points: seq<Vector>)
    requires Defined(dist, d) && Uniform(centroids, d) && |point| == d
    requires PairsFrom(table, points) && point in points
    ensures PairsFrom(AddPoint(dist, d, table, centroids, point), points)
    decreases |centroids|
  {
    if centroids != [] {
      var m := |centroids| - 1;
      AddPointFrom(dist, d, table, centroids[..m], point, points);
      AddPairFrom(AddPoint(dist, d, table, centroids[..m], point), centroids[m],
                  (dist(centroids[m], point).value, point), points);
    }
  }

  lemma {:induction false} BuildTableFrom(dist: (Vector, Vector) -> Result<real>, d: nat, centroids: seq<Vector>,
                                          points: seq<Vector>, pool: seq<Vector>)
    requires Defined(dist, d) && Uniform(centroids, d) && Uniform(points, d)
    requires forall p :: p in points ==> p in pool
    ensures PairsFrom(BuildTable(dist, d, centroids, points), pool)
    decreases |points|
  {
    if points != [] {
      var m := |points| - 1;
      BuildTableFrom(dist, d, centroids, points[..m], pool);
      AddPointFrom(dist, d, BuildTable(dist, d, centroids, points[..m]), centroids, points[m], pool);
    }
  }

  /** Every weight of a round is paired with a point of the pool. */
  lemma WeighingFromPool(dist: (Vector, Vector) -> Result<real>, d: nat, pool: Pool)
    requires Defined(dist, d) && PoolOfDim(pool, d) && Weighing(dist, d, pool).Ok?
    ensures forall i :: 0 <= i < |Weighing(dist, d, pool).value| ==> Weighing(dist, d, pool).value[i].1 in pool.points
  {
    var table := BuildTable(dist, d, pool.centroids, pool.points);
    BuildTableFrom(dist, d, pool.centroids, pool.points, pool.points);
    var lists := Lists(table);
    var closest := Closest(lists).value;
    forall i | 0 <= i < |closest| ensures closest[i].1 in pool.points {
      var col := Column(lists, i);
      assert closest[i] in col;
      var j :| 0 <= j < |col| && col[j] == closest[i];
      assert table[j] in table && closest[i] in table[j].pairs;
    }
  }

  /** `points.remove(centroid)` always finds the centroid: a round fails
      only where its weighing or its walk does. With draws below 1 the walk
      does not fail either. */
  lemma RoundFailures(dist: (Vector, Vector) -> Result<real>, d: nat, pool: Pool, draw: nat -> real)
    requires Defined(dist, d) && PoolOfDim(pool, d)
    ensures var w := Weighing(dist, d, pool);
      Round(dist, d, pool, draw).Ok? <==> w.Ok? && WeightedPick(Firsts(w.value), draw, pool.next).Ok?
    ensures (forall s :: draw(s) < 1.0) ==> (Round(dist, d, pool, draw).Ok? <==> Weighing(dist, d, pool).Ok?)
  {
    var w := Weighing(dist, d, pool);
    if w.Ok? {
      WeighingFromPool(dist, d, pool);
      WeighingSumsToOne(dist, d, pool);
      if forall s :: draw(s) < 1.0 {
        PickInBounds(Firsts(w.value), draw, pool.next);
      }
    }
  }

  // ---------------------------------------------------------------------
  // Random seed points

  /** The loop of `random_points` from the current state: `count` more
      pops from the end of the shuffled indices, each followed by that
      row's vector. Popping an empty list indexes out of range. */
  function PickRows(data: seq<seq<Value>>, indices: seq<nat>, count: nat, acc: seq<Vector>): (r: Result<seq<Vector>>)
    decreases count
  {
    if count == 0 then Ok(acc)
    else if indices == [] then Err(IndexError)
    else
      var v :- VectorAtIndex(data, indices[|indices| - 1]);
      PickRows(data, indices[..|indices| - 1], count - 1, acc + [v])
  }

  /** `random_points(k)` with the shuffled `range(len(data[0]))` given as
      `perm`. */
  function RandomPointsOf(data: seq<seq<Value>>, k: int, perm: seq<nat>): Result<seq<Vector>>
  {
    if data == [] then Err(IndexError) else PickRows(data, perm, if k > 0 then k else 0, [])
  }

  /** The index the (j + 1)-th `pop()` removes. */
  function Popped(indices: seq<nat>, j: nat): nat
    requires j < |indices|
  {
    indices[|indices| - 1 - j]
  }

  lemma PoppedPrefix(indices: seq<nat>, j: nat)
    requires j + 1 < |indices|
    ensures Popped(indices[..|indices| - 1], j) == Popped(indices, j + 1)
  {}

  /** The picks are the vectors of the last `count` indices, last first. */
  lemma {:induction false} PickRowsShape(data: seq<seq<Value>>, indices: seq<nat>, count: nat, acc: seq<Vector>)
    requires PickRows(data, indices, count, acc).Ok?
    ensures count <= |indices|
    ensures var r := PickRows(data, indices, count, acc).value;
      && |r| == |acc| + count && r[..|acc|] == acc
      && forall j :: 0 <= j < count ==> Ok(r[|acc| + j]) == VectorAtIndex(data, Popped(indices, j))
    decreases count
  {
    var r := PickRows(data, indices, count, acc).value;
    if count > 0 {
      var m := |indices| - 1;
      var v := VectorAtIndex(data, indices[m]).value;
      assert r == PickRows(data, indices[..m], count - 1, acc + [v]).value;
      PickRowsShape(data, indices[..m], count - 1, acc + [v]);
      assert r[..|acc| + 1] == acc + [v];
      forall j | 0 <= j < count ensures Ok(r[|acc| + j]) == VectorAtIndex(data, Popped(indices, j)) {
        if j == 0 {
          assert r[|acc|] == r[..|acc| + 1][|acc|];
        } else {
          PoppedPrefix(indices, j - 1);
          assert r[|acc| + j] == r[|acc + [v]| + (j - 1)];
        }
      }
      assert r[..|acc|] == r[..|acc| + 1][..|acc|];
    } else {
      assert acc[..|acc|] == acc;
    }
  }

  /** `random_points` returns the vectors of k distinct rows (none when
      k < 1), the last shuffled index first; it fails when k exceeds the
      number of rows. */
  lemma RandomPointsRows(data: seq<seq<Value>>, k: int, perm: seq<nat>)
    requires data != [] && IsPermutation(perm, |data[0]|) && RandomPointsOf(data, k, perm).Ok?
    ensures (if k > 0 then k else 0) <= |data[0]|
    ensures var ps := RandomPointsOf(data, k, perm).value;
      && |ps| == (if k > 0 then k else 0)
      && (forall i :: 0 <= i < |ps| ==> Popped(perm, i) < |data[0]| && Ok(ps[i]) == VectorAtIndex(data, Popped(perm, i)))
      && (forall i, j :: 0 <= i < j < |ps| ==> Popped(perm, i) != Popped(perm, j))
  {
    var count := if k > 0 then k else 0;
    PickRowsShape(data, perm, count, []);
    var ps := RandomPointsOf(data, k, perm).value;
    assert forall i :: 0 <= i < |ps| ==> ps[i] == ps[0 + i];
  }

  // ---------------------------------------------------------------------
  // The clustering rounds

  /** The number of feature columns of a table. */
  function Dim(data: seq<seq<Value>>): nat
  {
    if data == [] then 0 else |data| - 1
  }

  /** The clusters of one round: `AssignItems` proved equal to this. */
  function Assignment(dist: (Vector, Vector) -> Result<real>, d: nat, keys: seq<Vector>, items: seq<Item>)
    : (r: Result<seq<Group>>)
    requires Defined(dist, d) && Uniform(keys, d) && ItemsOfDim(items, d)
    ensures r.Ok? ==> GroupsOfDim(r.value, d) && Points(r.value) == keys
  {
    if keys == [] then (if items == [] then Ok([]) else Err(ValueError))
    else AssignedOfDim(dist, d, keys, items); Ok(Assigned(dist, d, keys, items))
  }

  lemma AssignedOfDim(dist: (Vector, Vector) -> Result<real>, d: nat, keys: seq<Vector>, items: seq<Item>)
    requires Defined(dist, d) && Uniform(keys, d) && |keys| > 0 && ItemsOfDim(items, d)
    ensures GroupsOfDim(Assigned(dist, d, keys, items), d) && Points(Assigned(dist, d, keys, items)) == keys
  {
    var g := Assigned(dist, d, keys, items);
    forall c, j | 0 <= c < |g| && 0 <= j < |g[c].items| ensures |g[c].items[j].vector| == d {
      MembersAreNearest(dist, d, keys, items, c, g[c].items[j]);
    }
  }

  /** The means of clusters of dimension d have dimension d. */
  lemma MeansOfDim(groups: seq<Group>, d: nat)
    requires GroupsOfDim(groups, d) && Means(groups).Ok?
    ensures Uniform(Means(groups).value, d)
  {
    forall c | 0 <= c < |groups| ensures |Means(groups).value[c]| == d {
      assert MeanOf(groups[c].items).Ok?;
      assert groups[c].items != [] && |groups[c].items[0].vector| == d;
    }
  }

  lemma DedupOfDim(points: seq<Vector>, d: nat)
    requires Uniform(points, d)
    ensures Uniform(Dedup(points), d)
  {
    UniformSubset(Dedup(points), points, d);
  }

  /** The clusters of one call of `cluster`: one per distinct point, each
      item of the table in the cluster of its nearest point. */
  function NewClusters(dist: (Vector, Vector) -> Result<real>, data: seq<seq<Value>>, points: seq<Vector>)
    : (r: Result<seq<Group>>)
    requires Defined(dist, Dim(data)) && Uniform(points, Dim(data))
    ensures r.Ok? ==> data != [] && GroupsOfDim(r.value, Dim(data)) && Points(r.value) == Dedup(points)
  {
    var items :- Items(data);
    DedupOfDim(points, Dim(data));
    Assignment(dist, Dim(data), Dedup(points), items)
  }

  /** The first half of `cluster`: the fresh clusters filled by the
      assignment loop. */
  method NewClustersOf(dist: (Vector, Vector) -> Result<real>, data: seq<seq<Value>>, points: seq<Vector>)
    returns (r: Result<seq<Group>>)
    requires Defined(dist, Dim(data)) && Uniform(points, Dim(data))
    ensures r == NewClusters(dist, data, points)
  {
    var keys := Dedup(points);
    DedupOfDim(points, Dim(data));
    var items := Items(data);
    if items.Err? {
      return Err(items.error);
    }
    r := AssignItems(dist, Dim(data), keys, items.value);
  }

  /** One call of `cluster` that stores new clusters ends as its
      convergence test and the rest of the call decide. */
  lemma RunUnfolds(dist: (Vector, Vector) -> Result<real>, data: seq<seq<Value>>, st: State, points: seq<Vector>,
                   fuel: nat, news: seq<Group>, converged: Result<bool>)
    requires Defined(dist, Dim(data)) && Uniform(points, Dim(data)) && Uniform(Points(st.clusters), Dim(data))
    requires fuel > 0 && NewClusters(dist, data, points) == Ok(news)
    requires converged == Converged(dist, Dim(data), st.clusters, news, |data[0]|)
    ensures Run(dist, data, st, points, fuel)
         == RunRest(dist, data, State(news, Scatter(dist, Dim(data), news)), converged, fuel)
  {}

  /** A call of `cluster` whose clusters have not converged ends as the
      call on their means. */
  lemma RunContinues(dist: (Vector, Vector) -> Result<real>, data: seq<seq<Value>>, next: State, fuel: nat,
                     means: seq<Vector>, left: nat)
    requires Defined(dist, Dim(data)) && GroupsOfDim(next.clusters, Dim(data))
    requires fuel == left + 1 && Means(next.clusters) == Ok(means) && Uniform(means, Dim(data))
    ensures RunRest(dist, data, next, Ok(false), fuel) == Run(dist, data, next, means, left)
  {
  }

  /** The clusters and the scatter of the clusterer. */
  datatype State = State(clusters: seq<Group>, scatter: real)

  /** How a call of `cluster` ends, and the state it leaves. */
  datatype Outcome = Outcome(result: Result<()>, state: State)

  /** `cluster(points)` with `fuel` calls left before Python's recursion
      limit: the clusters and the scatter are replaced before the
      convergence test, and without convergence the means become the next
      points. */
  function Run(dist: (Vector, Vector) -> Result<real>, data: seq<seq<Value>>, st: State, points: seq<Vector>,
               fuel: nat): (r: Outcome)
    requires Defined(dist, Dim(data)) && Uniform(points, Dim(data)) && Uniform(Points(st.clusters), Dim(data))
    ensures Uniform(Points(r.state.clusters), Dim(data))
    decreases fuel, 1
  {
    if fuel == 0 then Outcome(Err(NotConverged), st)
    else
      var news := NewClusters(dist, data, points);
      if news.Err? then Outcome(Err(news.error), st)
      else
        var d := Dim(data);
        var next := State(news.value, Scatter(dist, d, news.value));
        RunRest(dist, data, next, Converged(dist, d, st.clusters, news.value, |data[0]|), fuel)
  }

  /** The end of a call of `cluster`, after the new clusters are stored:
      stop on convergence (or its failure), otherwise recurse on the
      means. */
  function RunRest(dist: (Vector, Vector) -> Result<real>, data: seq<seq<Value>>, next: State,
                   converged: Result<bool>, fuel: nat): (r: Outcome)
    requires Defined(dist, Dim(data)) && fuel > 0 && GroupsOfDim(next.clusters, Dim(data))
    ensures Uniform(Points(r.state.clusters), Dim(data))
    decreases fuel, 0
  {
    if converged.Err? then Outcome(Err(converged.error), next)
    else if converged.value then Outcome(Ok(()), next)
    else
      var means := Means(next.clusters);
      if means.Err? then Outcome(Err(means.error), next)
      else
        MeansOfDim(next.clusters, Dim(data));
        Run(dist, data, next, means.value, fuel - 1)
  }

  /** The clusters of one call hold every item of the table exactly once. */
  lemma NewClustersPartition(dist: (Vector, Vector) -> Result<real>, data: seq<seq<Value>>, points: seq<Vector>)
    requires Defined(dist, Dim(data)) && Uniform(points, Dim(data)) && NewClusters(dist, data, points).Ok?
    ensures Items(data).Ok?
    ensures multiset(AllItems(NewClusters(dist, data, points).value)) == multiset(Items(data).value)
  {
    var items := Items(data).value;
    var keys := Dedup(points);
    DedupOfDim(points, Dim(data));
    if keys != [] {
      AssignedPartition(dist, Dim(data), keys, items);
    }
  }

  /** The clusters of a state hold every item of the table exactly once,
      and the scatter stored with them is theirs. */
  ghost predicate Partitioned(dist: (Vector, Vector) -> Result<real>, data: seq<seq<Value>>, st: State)
    requires Defined(dist, Dim(data))
  {
    && Items(data).Ok?
    && GroupsOfDim(st.clusters, Dim(data))
    && multiset(AllItems(st.clusters)) == multiset(Items(data).value)
    && st.scatter == Scatter(dist, Dim(data), st.clusters)
  }

  /** `kmeans_plus_plus` on the table: the rows' vectors, then the
      seeding. */
  function PlusPlusSeeds(dist: (Vector, Vector) -> Result<real>, data: seq<seq<Value>>, k: int, perm: seq<nat>,
                         draw: nat -> real): (r: Result<seq<Vector>>)
    requires Defined(dist, Dim(data)) && (data != [] ==> IsPermutation(perm, |data[0]|))
    ensures r.Ok? ==> Uniform(r.value, Dim(data))
  {
    var items :- Items(data);
    PlusPlus(dist, Dim(data), k, VectorsOf(items), perm, draw)
  }

  lemma RandomPointsOfDim(data: seq<seq<Value>>, k: int, perm: seq<nat>)
    requires RandomPointsOf(data, k, perm).Ok?
    ensures Uniform(RandomPointsOf(data, k, perm).value, Dim(data))
  {
    var count := if k > 0 then k else 0;
    PickRowsShape(data, perm, count, []);
    var ps := RandomPointsOf(data, k, perm).value;
    forall i | 0 <= i < |ps| ensures |ps[i]| == Dim(data) {
      assert Ok(ps[0 + i]) == VectorAtIndex(data, Popped(perm, i));
    }
  }

  /** `initialize_clusters`: seeds from k-means++ or from random rows, then
      the rounds. */
  function Initialize(dist: (Vector, Vector) -> Result<real>, data: seq<seq<Value>>, k: int, st: State,
                      plusPlus: bool, perm: seq<nat>, draw: nat -> real, fuel: nat): Outcome
    requires Defined(dist, Dim(data)) && Uniform(Points(st.clusters), Dim(data))
    requires data != [] ==> IsPermutation(perm, |data[0]|)
  {
    if plusPlus then
      var seeds := PlusPlusSeeds(dist, data, k, perm, draw);
      if seeds.Err? then Outcome(Err(seeds.error), st) else Run(dist, data, st, seeds.value, fuel)
    else
      var seeds := RandomPointsOf(data, k, perm);
      if seeds.Err? then Outcome(Err(seeds.error), st)
      else
        RandomPointsOfDim(data, k, perm);
        Run(dist, data, st, seeds.value, fuel)
  }

  /** The means loop of `cluster`: `compute_cluster_mean` of every
      cluster, in order. */
  method ClusterMeans(groups: seq<Group>) returns (r: Result<seq<Vector>>)
    ensures r == Means(groups)
  {
    var means: seq<Vector> := [];
    for c := 0 to |groups|
      invariant |means| == c && forall j :: 0 <= j < c ==> Ok(means[j]) == MeanOf(groups[j].items)
    {
      var m := ComputeClusterMean(groups[c].items);
      if m.Err? {
        return Err(m.error);
      }
      means := means + [m.value];
    }
    assert means == Means(groups).value;
    return Ok(means);
  }

  // ---------------------------------------------------------------------
  // The clusterer object

  /** `KmeansClusterer`: the table it inherits from `Clusterer`, k, and the
      clusters and scatter that every call of `cluster` replaces. */
  class KmeansClusterer {
    /** The table: `import_data` and `normalize` act on it. */
    const table: Clusterer
    /** The square root the distances use. */
    const root: real -> real
    const k: int
    /** The centroids with their members, in insertion order. */
    var clusters: seq<Group>
    var scatter: real

    /** `KmeansClusterer(k)`: an empty table, no clusters, scatter 0. */
    constructor(root: real -> real, k: int)
      ensures fresh(table) && table.columns == [] && table.data == []
      ensures this.root == root && this.k == k && clusters == [] && scatter == 0.0
    {
      this.root := root;
      this.k := k;
      table := new Clusterer();
      clusters := [];
      scatter := 0.0;
    }

    /** `cluster(points)`: assign every item to its nearest point, store
        the clusters and their scatter, and unless the clusters have
        converged call `cluster` again on their means. That self-call ends
        the method, so the successive calls run here as the iterations of
        a loop, at most `fuel` of them. The current clusters must have the
        table's dimension. */
    method Cluster(points: seq<Vector>, fuel: nat) returns (r: Result<()>)
      requires Uniform(points, Dim(table.data)) && Uniform(Points(clusters), Dim(table.data))
      modifies this
      ensures Outcome(r, State(clusters, scatter))
           == Run(DistanceFn(root), table.data, State(old(clusters), old(scatter)), points, fuel)
      ensures r.Ok? ==> Partitioned(DistanceFn(root), table.data, State(clusters, scatter))
    {
      var dist := DistanceFn(root);
      var data := table.data;
      var d := Dim(data);
      ghost var outcome := Run(dist, data, State(clusters, scatter), points, fuel);
      var seeds, left := points, fuel;
      ghost var st := State(clusters, scatter);
      while true
        invariant st == State(clusters, scatter)
        invariant Uniform(seeds, d) && Uniform(Points(st.clusters), d)
        invariant Run(dist, data, st, seeds, left) == outcome
        decreases left
      {
        ghost var left0 := left;
        if left == 0 {
          return Err(NotConverged);
        }
        var news := NewClustersOf(dist, data, seeds);
        if news.Err? {
          return Err(news.error);
        }
        var olds := clusters;
        clusters := news.value;
        scatter := SumSquaredError(dist, d, clusters);
        var converged := Convergence(dist, d, olds, clusters, |data[0]|);
        RunUnfolds(dist, data, st, seeds, left, clusters, converged);
        st := State(clusters, scatter);
        if converged.Err? {
          assert RunRest(dist, data, st, converged, left) == Outcome(Err(converged.error), st);
          return Err(converged.error);
        }
        if converged.value {
          assert RunRest(dist, data, st, converged, left) == Outcome(Ok(()), st);
          NewClustersPartition(dist, data, seeds);
          return Ok(());
        }
        var means := ClusterMeans(clusters);
        if means.Err? {
          assert RunRest(dist, data, st, converged, left) == Outcome(Err(means.error), st);
          return Err(means.error);
        }
        MeansOfDim(clusters, d);
        seeds, left := means.value, left - 1;
        RunContinues(dist, data, st, left0, seeds, left);
      }
    }

    /** `kmeans_plus_plus(k)`, with the shuffle given as `perm` and the
        successive `random.random()` results as `draw`. */
    method KmeansPlusPlus(perm: seq<nat>, draw: nat -> real) returns (r: Result<seq<Vector>>)
      requires table.data != [] ==> IsPermutation(perm, |table.data[0]|)
      ensures r == PlusPlusSeeds(DistanceFn(root), table.data, k, perm, draw)
    {
      r := PlusPlusSeeding(DistanceFn(root), table.data, k, perm, draw);
    }

    /** `random_points(k)`, with the shuffle given as `perm`. */
    method RandomPoints(perm: seq<nat>) returns (r: Result<seq<Vector>>)
      ensures r == RandomPointsOf(table.data, k, perm)
    {
      if table.data == [] {
        return Err(IndexError);
      }
      var count := if k > 0 then k else 0;
      var indices := perm;
      var points: seq<Vector> := [];
      for i := 0 to count
        invariant PickRows(table.data, indices, count - i, points) == RandomPointsOf(table.data, k, perm)
      {
        if indices == [] {
          return Err(IndexError);
        }
        var index := indices[|indices| - 1];
        indices := indices[..|indices| - 1];
        var vector := VectorAtIndex(table.data, index);
        if vector.Err? {
          return Err(vector.error);
        }
        points := points + [vector.value];
      }
      return Ok(points);
    }

    /** `initialize_clusters(plus_plus)`: seed, then `cluster`. */
    method InitializeClusters(plusPlus: bool, perm: seq<nat>, draw: nat -> real, fuel: nat) returns (r: Result<()>)
      requires Uniform(Points(clusters), Dim(table.data))
      requires table.data != [] ==> IsPermutation(perm, |table.data[0]|)
      modifies this
      ensures Outcome(r, State(clusters, scatter))
           == Initialize(DistanceFn(root), table.data, k, State(old(clusters), old(scatter)), plusPlus, perm, draw, fuel)
      ensures r.Ok? ==> Partitioned(DistanceFn(root), table.data, State(clusters, scatter))
    {
      var seeds;
      if plusPlus {
        seeds := KmeansPlusPlus(perm, draw);
      } else {
        seeds := RandomPoints(perm);
        if seeds.Ok? {
          RandomPointsOfDim(table.data, k, perm);
        }
      }
      if seeds.Err? {
        return Err(seeds.error);
      }
      r := Cluster(seeds.value, fuel);
    }
  }
}
