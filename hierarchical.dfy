/** The agglomerative clusterer (hierarchical_clusterer.py). Every row starts
    as a cluster of its own; a priority queue of records
    `(distance, index, cluster, neighbor, distances)` is ordered by its first
    fields, and the two smallest records are merged until one is left. The
    queue is a sequence sorted by (distance, index); `members` is the ghost
    list of the row numbers each record stands for. */
module HierarchicalClustering {
  import opened Wrappers
  import opened Sorting
  import opened Clustering

  /** A dendrogram: a row identifier, or the pair of two merged clusters. */
  datatype Shape = Leaf(id: Value) | Pair(first: Shape, second: Shape)

  /** `()` or `(identifier, distance, row)` of the nearest other row. */
  datatype Neighbor = NoNeighbor | Neighbor(id: Value, distance: real, index: nat)

  /** The queue entry `(distance, index, cluster, neighbor, distances)`. */
  datatype Record = Record(distance: real, index: nat, shape: Shape, neighbor: Neighbor,
                           dists: map<nat, real>)

  /** The queue order: distance first, then index. */
  const RecordLe: (Record, Record) -> bool :=
    (a: Record, b: Record) => a.distance < b.distance || (a.distance == b.distance && a.index <= b.index)

  lemma RecordLeTotalPreorder()
    ensures TotalPreorder(RecordLe)
  {}

  // ---------------------------------------------------------------------
  // Pure parts

  /** Python `len(cluster)`: the length of an identifier string, 2 for a
      pair, and a TypeError for a numeric identifier. */
  function Len(c: Shape): (r: Result<nat>)
    ensures c.Pair? ==> r == Ok(2)
    ensures c.Leaf? && c.id.Text? ==> r == Ok(|c.id.s|)
    ensures r.Err? <==> c.Leaf? && c.id.Num?
  {
    match c
    case Leaf(Text(s)) => Ok(|s|)
    case Leaf(Num(_)) => Err(TypeError)
    case Pair(_, _) => Ok(2)
  }

  /** The row identifiers of a dendrogram, left to right. */
  function Leaves(c: Shape): seq<Value>
  {
    match c
    case Leaf(v) => [v]
    case Pair(a, b) => Leaves(a) + Leaves(b)
  }

  /** `combine_clusters`: the pair of both clusters, the one with the larger
      `len` first; of two clusters of `len` 1 the first stays first, and of
      any other two with equal `len` the second goes first. */
  function CombineClusters(c1: Shape, c2: Shape): (r: Result<Shape>)
    ensures r.Ok? <==> Len(c1).Ok? && Len(c2).Ok?
    ensures r.Ok? ==> r.value == Pair(c1, c2) || r.value == Pair(c2, c1)
    ensures r.Ok? ==> Len(r.value.first).value >= Len(r.value.second).value
    ensures r.Ok? && Len(c1).value == Len(c2).value ==>
              r.value == if Len(c1).value == 1 then Pair(c1, c2) else Pair(c2, c1)
    ensures r.Ok? ==> multiset(Leaves(r.value)) == multiset(Leaves(c1)) + multiset(Leaves(c2))
  {
    var l1 :- Len(c1);
    var l2 :- Len(c2);
    if l1 == 1 && l2 == 1 then Ok(Pair(c1, c2))
    else if l1 > l2 then Ok(Pair(c1, c2))
    else Ok(Pair(c2, c1))
  }

  /** `len` counts characters, not rows: a leaf whose identifier has two
      characters ties with a pair, so the pair goes first. */
  lemma LenIsNotClusterSize()
    ensures var leaf := Leaf(Text("ab"));
            var pair := Pair(Leaf(Text("c")), Pair(Leaf(Text("d")), Leaf(Text("e"))));
            CombineClusters(leaf, pair) == Ok(Pair(pair, leaf))
            && |Leaves(pair)| == 3 && |Leaves(leaf)| == 1
  {}

  /** `combine_distances`: the rows both maps know, each at the smaller of
      its two distances. */
  function CombineDistances(d1: map<nat, real>, d2: map<nat, real>): (r: map<nat, real>)
    ensures r.Keys == d1.Keys * d2.Keys
    ensures forall k :: k in r ==> r[k] <= d1[k] && r[k] <= d2[k] && (r[k] == d1[k] || r[k] == d2[k])
  {
    map k | k in d1 && k in d2 :: if d1[k] < d2[k] then d1[k] else d2[k]
  }

  /** k carries the least (distance, row) pair of the map. */
  predicate IsNearest(d: map<nat, real>, k: nat)
  {
    k in d && forall j :: j in d ==> d[k] < d[j] || (d[k] == d[j] && k <= j)
  }

  lemma {:induction false} NearestExists(d: map<nat, real>)
    requires d != map[]
    ensures exists k :: IsNearest(d, k)
    decreases |d.Keys|
  {
    var j :| j in d;
    var rest := d - {j};
    assert rest.Keys == d.Keys - {j};
    assert forall x :: x in rest ==> rest[x] == d[x];
    if rest.Keys == {} {
      assert d.Keys == {j} by {
        assert d.Keys - {j} == {};
      }
      assert IsNearest(d, j);
    } else {
      NearestExists(rest);
      var k :| IsNearest(rest, k);
      if d[j] < d[k] || (d[j] == d[k] && j <= k) {
        assert IsNearest(d, j);
      } else {
        assert IsNearest(d, k);
      }
    }
  }

  /** `nearest_neighbor`: the first of the sorted (distance, row) pairs, so
      of equal distances the smaller row wins; an empty map has no first
      pair. */
  function NearestNeighbor(d: map<nat, real>): (r: Result<(real, nat)>)
    ensures r.Ok? <==> d != map[]
    ensures r.Ok? ==> IsNearest(d, r.value.1) && r.value.0 == d[r.value.1]
  {
    if d == map[] then Err(IndexError)
    else
      NearestExists(d);
      var k :| k in d && IsNearest(d, k);
      Ok((d[k], k))
  }

  /** There is only one least pair. */
  lemma NearestUnique(d: map<nat, real>, a: nat, b: nat)
    requires IsNearest(d, a) && IsNearest(d, b)
    ensures a == b
  {
    assert d[a] < d[b] || (d[a] == d[b] && a <= b);
  }

  /** A record's neighbour fields describe its distance map: nothing when
      the map is empty, otherwise the nearest row, its identifier and its
      distance. */
  predicate NeighborFits(q: Record, ids: seq<Value>)
  {
    if q.dists == map[] then q.distance == 0.0 && q.neighbor == NoNeighbor
    else
      && q.neighbor.Neighbor?
      && IsNearest(q.dists, q.neighbor.index)
      && q.neighbor.index < |ids| && q.neighbor.id == ids[q.neighbor.index]
      && q.distance == q.neighbor.distance == q.dists[q.neighbor.index]
  }

  /** `combine_items`: the intersected distance map, its nearest row (or
      distance 0 and no neighbour when it is empty), the smaller index and
      the combined dendrogram. */
  function CombineItems(item1: Record, item2: Record, ids: seq<Value>): (r: Result<Record>)
    ensures var d := CombineDistances(item1.dists, item2.dists);
            r.Ok? <==> (d != map[] ==> NearestNeighbor(d).value.1 < |ids|)
                       && CombineClusters(item1.shape, item2.shape).Ok?
    ensures r.Ok? ==> r.value.dists == CombineDistances(item1.dists, item2.dists)
    ensures r.Ok? ==> NeighborFits(r.value, ids)
    ensures r.Ok? ==> (r.value.index == item1.index || r.value.index == item2.index)
                      && r.value.index <= item1.index && r.value.index <= item2.index
    ensures r.Ok? ==> r.value.shape == CombineClusters(item1.shape, item2.shape).value
  {
    var distances := CombineDistances(item1.dists, item2.dists);
    var head :- if distances == map[] then Ok((0.0, NoNeighbor))
                else
                  var nearest := NearestNeighbor(distances).value;
                  if nearest.1 >= |ids| then Err(IndexError)
                  else Ok((nearest.0, Neighbor(ids[nearest.1], nearest.0, nearest.1)));
    var cluster :- CombineClusters(item1.shape, item2.shape);
    var index := if item1.index <= item2.index then item1.index else item2.index;
    Ok(Record(head.0, index, cluster, head.1, distances))
  }

  /** The record `initialize_cluster` puts in the queue for row i. */
  function Seed(i: nat, ids: seq<Value>, distances: map<nat, map<nat, real>>): (r: Result<Record>)
    requires i < |ids|
    ensures i !in distances ==> r == Err(KeyError)
    ensures r.Ok? ==> r.value.index == i && r.value.shape == Leaf(ids[i]) && r.value.dists == distances[i]
  {
    if i !in distances then Err(KeyError)
    else
      var nearest :- NearestNeighbor(distances[i]);
      if nearest.1 >= |ids| then Err(IndexError)
      else Ok(Record(nearest.0, i, Leaf(ids[i]), Neighbor(ids[nearest.1], nearest.0, nearest.1), distances[i]))
  }

  /** A seed exists exactly when row i has a distance map with a nearest
      row that is a valid identifier index, and its neighbour fields then
      describe that map. */
  lemma SeedDefined(i: nat, ids: seq<Value>, distances: map<nat, map<nat, real>>)
    requires i < |ids|
    ensures Seed(i, ids, distances).Ok?
        <==> i in distances && distances[i] != map[] && NearestNeighbor(distances[i]).value.1 < |ids|
    ensures Seed(i, ids, distances).Ok? ==> NeighborFits(Seed(i, ids, distances).value, ids)
  {}

  /** Rows 0 .. n - 1 all have a record. */
  predicate SeedsOk(ids: seq<Value>, distances: map<nat, map<nat, real>>, n: nat)
    requires n <= |ids|
  {
    forall i :: 0 <= i < n ==> Seed(i, ids, distances).Ok?
  }

  /** The records for rows 0 .. n - 1, in row order. */
  function Seeds(ids: seq<Value>, distances: map<nat, map<nat, real>>, n: nat): (r: seq<Record>)
    requires n <= |ids| && SeedsOk(ids, distances, n)
    ensures |r| == n && forall i :: 0 <= i < n ==> r[i] == Seed(i, ids, distances).value
  {
    seq(n, i requires 0 <= i < n => Seed(i, ids, distances).value)
  }

  lemma SeedsStop(ids: seq<Value>, distances: map<nat, map<nat, real>>, i: nat, n: nat)
    requires i < n <= |ids| && Seed(i, ids, distances).Err?
    ensures !SeedsOk(ids, distances, n)
  {}

  /** A seed for row i extends the seeds of the rows before it. */
  lemma SeedsNext(ids: seq<Value>, dist: map<nat, map<nat, real>>, i: nat)
    requires i < |ids| && SeedsOk(ids, dist, i) && Seed(i, ids, dist).Ok?
    ensures SeedsOk(ids, dist, i + 1)
    ensures Seeds(ids, dist, i + 1) == Seeds(ids, dist, i) + [Seed(i, ids, dist).value]
  {
  }

  /** The seeding loop of `initialize_cluster`: the record of each row, in
      row order, goes into the queue; a row with no seed stops the loop with
      the records of the earlier rows already in. */
  method SeedQueue(ids: seq<Value>, dist: map<nat, map<nat, real>>, start: seq<Record>)
    returns (queue: seq<Record>, r: Result<()>)
    ensures r.Ok? <==> SeedsOk(ids, dist, |ids|)
    ensures r.Ok? ==> queue == InsertAll(Seeds(ids, dist, |ids|), start)
    ensures r.Err? ==> exists k :: (0 <= k < |ids| && SeedsOk(ids, dist, k)
      && Seed(k, ids, dist) == Err(r.error) && queue == InsertAll(Seeds(ids, dist, k), start))
  {
    var n := |ids|;
    queue := start;
    var i: nat := 0;
    while i < n
      invariant 0 <= i <= n && SeedsOk(ids, dist, i)
      invariant queue == InsertAll(Seeds(ids, dist, i), start)
    {
      var seed := Seed(i, ids, dist);
      if seed.Err? {
        SeedsStop(ids, dist, i, n);
        return queue, Err(seed.error);
      }
      SeedsNext(ids, dist, i);
      InsertAllAppend(Seeds(ids, dist, i), seed.value, start);
      queue := Insert(seed.value, queue, RecordLe);
      i := i + 1;
    }
    r := Ok(());
  }

  // ---------------------------------------------------------------------
  // Distances between rows

  /** `range(n)` as a set of row numbers. */
  function Rows(n: nat): (r: set<nat>)
    ensures forall x: nat :: x in r <==> x < n
  {
    if n == 0 then {} else Rows(n - 1) + {n - 1}
  }

  /** The distance `calculate_distances` stores for rows i and j:
      `euclidean` on the two features when there are exactly two feature
      columns, `manhattan` on all of them otherwise. A short column indexes
      out of range and a text cell cannot be subtracted. */
  function PairDistance(root: real -> real, data: seq<seq<Value>>, i: nat, j: nat): Result<real>
  {
    var c1 :- FeatureCells(data, i);
    var c2 :- FeatureCells(data, j);
    if !AllNumbers(c1) || !AllNumbers(c2) then Err(TypeError)
    else if |data| - 1 == 2 then Euclidean(root, Numbers(c1), Numbers(c2))
    else Manhattan(root, Numbers(c1), Numbers(c2))
  }

  /** Which function is used does not matter: both compute the root of the
      summed squared feature differences. */
  lemma PairDistanceIsManhattan(root: real -> real, data: seq<seq<Value>>, i: nat, j: nat)
    requires FeatureCells(data, i).Ok? && FeatureCells(data, j).Ok?
    requires AllNumbers(FeatureCells(data, i).value) && AllNumbers(FeatureCells(data, j).value)
    ensures PairDistance(root, data, i, j)
         == Manhattan(root, Numbers(FeatureCells(data, i).value), Numbers(FeatureCells(data, j).value))
  {
    if |data| == 3 {
      ManhattanIsEuclidean(root, Numbers(FeatureCells(data, i).value), Numbers(FeatureCells(data, j).value));
    }
  }

  lemma PairDistanceSymmetric(root: real -> real, data: seq<seq<Value>>, i: nat, j: nat)
    requires PairDistance(root, data, i, j).Ok?
    ensures PairDistance(root, data, j, i) == PairDistance(root, data, i, j)
  {
    var v1, v2 := Numbers(FeatureCells(data, i).value), Numbers(FeatureCells(data, j).value);
    if |data| == 3 {
      EuclideanSymmetric(root, v1, v2);
    } else {
      ManhattanSymmetric(root, v1, v2);
    }
  }

  /** A row is at distance root(0) = 0 from itself. */
  lemma PairDistanceSelf(root: real -> real, data: seq<seq<Value>>, i: nat)
    requires root(0.0) == 0.0 && PairDistance(root, data, i, i).Ok?
    ensures PairDistance(root, data, i, i) == Ok(0.0)
  {
    var v := Numbers(FeatureCells(data, i).value);
    if |data| == 3 {
      EuclideanSelf(root, v);
    } else {
      ManhattanSelf(root, v);
    }
  }

  /** The distance function `calculate_distances` applies to pairs of
      rows. */
  function Metric(root: real -> real, data: seq<seq<Value>>): (nat, nat) -> Result<real>
  {
    (i: nat, j: nat) => PairDistance(root, data, i, j)
  }

  /** The distances from row i to rows 0 .. n - 1 other than i can all be
      computed. */
  predicate RowComputable(dist: (nat, nat) -> Result<real>, n: nat, i: nat)
  {
    forall j :: 0 <= j < n && j != i ==> dist(i, j).Ok?
  }

  /** Rows 0 .. m - 1 are computable against rows 0 .. n - 1. */
  predicate RowsComputable(dist: (nat, nat) -> Result<real>, n: nat, m: nat)
  {
    forall x :: 0 <= x < m ==> RowComputable(dist, n, x)
  }

  /** The map the inner loop of `calculate_distances` builds for row i
      after visiting rows 0 .. n - 1. */
  function DistanceRow(dist: (nat, nat) -> Result<real>, i: nat, n: nat): map<nat, real>
    requires RowComputable(dist, n, i)
  {
    if n == 0 then map[]
    else
      var row := DistanceRow(dist, i, n - 1);
      if n - 1 == i then row else row[n - 1 := dist(i, n - 1).value]
  }

  /** The row maps every visited row other than i to its distance. */
  lemma {:induction false} DistanceRowContents(dist: (nat, nat) -> Result<real>, i: nat, n: nat)
    requires RowComputable(dist, n, i)
    ensures DistanceRow(dist, i, n).Keys == Rows(n) - {i}
    ensures forall j :: j in DistanceRow(dist, i, n) ==> Ok(DistanceRow(dist, i, n)[j]) == dist(i, j)
  {
    if n > 0 {
      DistanceRowContents(dist, i, n - 1);
    }
  }

  /** The map `calculate_distances` writes, for every row. */
  predicate DistancesFit(distances: map<nat, map<nat, real>>, n: nat)
  {
    forall i :: 0 <= i < n ==> i in distances && distances[i].Keys == Rows(n) - {i}
  }

  /** The rows `calculate_distances` stores for rows 0 .. m - 1 of n. */
  function DistanceTable(dist: (nat, nat) -> Result<real>, n: nat, m: nat): map<nat, map<nat, real>>
    requires RowsComputable(dist, n, m)
  {
    if m == 0 then map[]
    else DistanceTable(dist, n, m - 1)[m - 1 := DistanceRow(dist, m - 1, n)]
  }

  /** The table holds exactly rows 0 .. m - 1, each with its row map. */
  lemma DistanceTableContents(dist: (nat, nat) -> Result<real>, n: nat, m: nat)
    requires RowsComputable(dist, n, m)
    ensures DistanceTable(dist, n, m).Keys == Rows(m)
    ensures forall i :: i in DistanceTable(dist, n, m) ==> DistanceTable(dist, n, m)[i] == DistanceRow(dist, i, n)
  {
    DistanceTableKeys(dist, n, m);
    DistanceTableRows(dist, n, m);
  }

  lemma {:induction false} DistanceTableKeys(dist: (nat, nat) -> Result<real>, n: nat, m: nat)
    requires RowsComputable(dist, n, m)
    ensures DistanceTable(dist, n, m).Keys == Rows(m)
  {
    if m > 0 {
      assert RowsComputable(dist, n, m - 1);
      DistanceTableKeys(dist, n, m - 1);
    }
  }

  lemma {:induction false} DistanceTableRows(dist: (nat, nat) -> Result<real>, n: nat, m: nat)
    requires RowsComputable(dist, n, m)
    ensures forall i :: i in DistanceTable(dist, n, m) ==> i < m && DistanceTable(dist, n, m)[i] == DistanceRow(dist, i, n)
  {
    if m > 0 {
      assert RowsComputable(dist, n, m - 1);
      DistanceTableRows(dist, n, m - 1);
      var before := DistanceTable(dist, n, m - 1);
      assert DistanceTable(dist, n, m) == before[m - 1 := DistanceRow(dist, m - 1, n)];
    }
  }

  lemma RowsComputableStop(dist: (nat, nat) -> Result<real>, n: nat, i: nat, m: nat)
    requires i < m && !RowComputable(dist, n, i)
    ensures !RowsComputable(dist, n, m)
  {}

  /** Storing row m into a map that holds the table for rows 0 .. m - 1
      gives the table for rows 0 .. m. */
  lemma DistanceTableStep(dist: (nat, nat) -> Result<real>, n: nat, m: nat, d: map<nat, map<nat, real>>)
    requires RowsComputable(dist, n, m + 1)
    ensures RowsComputable(dist, n, m)
    ensures (d + DistanceTable(dist, n, m))[m := DistanceRow(dist, m, n)] == d + DistanceTable(dist, n, m + 1)
  {}

  /** A complete table covers every row with every other row. */
  lemma DistanceTableFits(dist: (nat, nat) -> Result<real>, n: nat, d: map<nat, map<nat, real>>)
    requires RowsComputable(dist, n, n)
    ensures DistancesFit(d + DistanceTable(dist, n, n), n)
  {
    DistanceTableContents(dist, n, n);
    forall i | 0 <= i < n ensures (d + DistanceTable(dist, n, n))[i].Keys == Rows(n) - {i} {
      DistanceRowContents(dist, i, n);
    }
  }

  /** The map the inner loop of `calculate_distances` leaves for row i
      after visiting rows 0 .. n - 1, whether it finishes or stops at the
      first distance that cannot be computed: the map is stored before the
      loop starts and every distance computed before the failing one is in
      it. */
  function RowReached(dist: (nat, nat) -> Result<real>, i: nat, n: nat): map<nat, real>
  {
    if n == 0 then map[]
    else
      var row := RowReached(dist, i, n - 1);
      if n - 1 == i || !RowComputable(dist, n - 1, i) || dist(i, n - 1).Err? then row
      else row[n - 1 := dist(i, n - 1).value]
  }

  /** A loop that visits every row without failing leaves the whole row. */
  lemma {:induction false} RowReachedComplete(dist: (nat, nat) -> Result<real>, i: nat, n: nat)
    requires RowComputable(dist, n, i)
    ensures RowReached(dist, i, n) == DistanceRow(dist, i, n)
  {
    if n > 0 {
      assert RowComputable(dist, n - 1, i);
      RowReachedComplete(dist, i, n - 1);
    }
  }

  /** One more visited row: its distance is stored unless it is row i. */
  lemma RowReachedStep(dist: (nat, nat) -> Result<real>, i: nat, j: nat)
    requires RowComputable(dist, j, i) && (j != i ==> dist(i, j).Ok?)
    ensures RowComputable(dist, j + 1, i)
    ensures RowReached(dist, i, j + 1)
         == if j == i then RowReached(dist, i, j) else RowReached(dist, i, j)[j := dist(i, j).value]
  {}

  /** A failing distance to row j leaves row i holding exactly the
      distances to the rows before j. */
  lemma {:induction false} RowReachedAtFailure(dist: (nat, nat) -> Result<real>, i: nat, j: nat, n: nat)
    requires j < n && j != i && RowComputable(dist, j, i) && dist(i, j).Err?
    ensures RowReached(dist, i, n) == RowReached(dist, i, j) == DistanceRow(dist, i, j)
    ensures !RowComputable(dist, n, i)
  {
    if n > j + 1 {
      assert !RowComputable(dist, n - 1, i) by {
        assert j < n - 1 && j != i && dist(i, j).Err?;
      }
      RowReachedAtFailure(dist, i, j, n - 1);
    } else {
      RowReachedComplete(dist, i, j);
    }
  }

  /** The table the loops of `calculate_distances` leave after rows
      0 .. m - 1 of n, whether they finish or stop inside the first row
      with a distance that cannot be computed. */
  function TableReached(dist: (nat, nat) -> Result<real>, n: nat, m: nat): map<nat, map<nat, real>>
  {
    if m == 0 then map[]
    else if !RowsComputable(dist, n, m - 1) then TableReached(dist, n, m - 1)
    else DistanceTable(dist, n, m - 1)[m - 1 := RowReached(dist, m - 1, n)]
  }

  /** Loops that complete every row leave the whole table. */
  lemma {:induction false} TableReachedComplete(dist: (nat, nat) -> Result<real>, n: nat, m: nat)
    requires RowsComputable(dist, n, m)
    ensures TableReached(dist, n, m) == DistanceTable(dist, n, m)
  {
    if m > 0 {
      assert RowsComputable(dist, n, m - 1);
      RowReachedComplete(dist, m - 1, n);
    }
  }

  /** When row i is the first that cannot be completed, rows 0 .. i - 1
      hold their complete maps and row i the distances computed before the
      failing one. */
  lemma {:induction false} TableReachedAtFailure(dist: (nat, nat) -> Result<real>, n: nat, i: nat, m: nat)
    requires i < m && RowsComputable(dist, n, i) && !RowComputable(dist, n, i)
    ensures TableReached(dist, n, m) == DistanceTable(dist, n, i)[i := RowReached(dist, i, n)]
    decreases m
  {
    if m > i + 1 {
      RowsComputableStop(dist, n, i, m - 1);
      TableReachedSkips(dist, n, m);
      TableReachedAtFailure(dist, n, i, m - 1);
    } else {
      TableReachedStores(dist, n, i);
    }
  }

  lemma TableReachedSkips(dist: (nat, nat) -> Result<real>, n: nat, m: nat)
    requires m > 0 && !RowsComputable(dist, n, m - 1)
    ensures TableReached(dist, n, m) == TableReached(dist, n, m - 1)
  {}

  lemma TableReachedStores(dist: (nat, nat) -> Result<real>, n: nat, i: nat)
    requires RowsComputable(dist, n, i)
    ensures TableReached(dist, n, i + 1) == DistanceTable(dist, n, i)[i := RowReached(dist, i, n)]
  {}

  /** The stored distances are symmetric: row i is as far from row j as
      row j is from row i. */
  lemma DistanceTableSymmetric(root: real -> real, data: seq<seq<Value>>, i: nat, j: nat)
    requires |data| > 0 && RowsComputable(Metric(root, data), |data[0]|, |data[0]|)
    requires i < |data[0]| && j < |data[0]| && i != j
    ensures var t := DistanceTable(Metric(root, data), |data[0]|, |data[0]|);
            i in t && j in t && j in t[i] && i in t[j] && t[i][j] == t[j][i]
  {
    var dist, n := Metric(root, data), |data[0]|;
    DistanceTableContents(dist, n, n);
    DistanceRowContents(dist, i, n);
    DistanceRowContents(dist, j, n);
    assert dist(i, j).Ok?;
    PairDistanceSymmetric(root, data, i, j);
  }

  // ---------------------------------------------------------------------
  // Queue invariant

  function Elems(m: seq<nat>): set<nat>
  {
    set x | x in m
  }

  predicate NoDup(m: seq<nat>)
  {
    forall a, b :: 0 <= a < b < |m| ==> m[a] != m[b]
  }

  function IdsAt(ids: seq<Value>, m: seq<nat>): (r: seq<Value>)
    requires forall j :: 0 <= j < |m| ==> m[j] < |ids|
    ensures |r| == |m| && forall j :: 0 <= j < |m| ==> r[j] == ids[m[j]]
  {
    seq(|m|, j requires 0 <= j < |m| => ids[m[j]])
  }

  /** All rows of all records. */
  function Union(ms: seq<seq<nat>>): set<nat>
  {
    if ms == [] then {} else Union(ms[..|ms| - 1]) + Elems(ms[|ms| - 1])
  }

  lemma {:induction false} UnionAppend(a: seq<seq<nat>>, b: seq<seq<nat>>)
    ensures Union(a + b) == Union(a) + Union(b)
    decreases |b|
  {
    if b == [] {
      assert a + b == a;
    } else {
      assert (a + b)[..|a + b| - 1] == a + b[..|b| - 1];
      UnionAppend(a, b[..|b| - 1]);
    }
  }

  lemma UnionSingle(m: seq<nat>)
    ensures Union([m]) == Elems(m)
  {
    assert [m][..0] == [];
  }

  lemma {:induction false} ElemsInUnion(ms: seq<seq<nat>>, k: nat)
    requires k < |ms|
    ensures Elems(ms[k]) <= Union(ms)
    decreases |ms|
  {
    if k < |ms| - 1 {
      ElemsInUnion(ms[..|ms| - 1], k);
    }
  }

  lemma {:induction false} UnionApart(ms: seq<seq<nat>>, e: set<nat>)
    requires forall j :: 0 <= j < |ms| ==> Elems(ms[j]) !! e
    ensures Union(ms) !! e
    decreases |ms|
  {
    if ms != [] {
      UnionApart(ms[..|ms| - 1], e);
    }
  }

  /** A record stands for the rows m: its index is the least of them, its
      distance map holds exactly the other rows, its dendrogram lists their
      identifiers, and its neighbour fields match its map. */
  ghost predicate RecordFits(q: Record, m: seq<nat>, ids: seq<Value>)
  {
    && m != [] && NoDup(m) && (forall j :: 0 <= j < |m| ==> m[j] < |ids|)
    && q.index in Elems(m) && (forall j :: 0 <= j < |m| ==> q.index <= m[j])
    && q.dists.Keys == Rows(|ids|) - Elems(m)
    && Leaves(q.shape) == IdsAt(ids, m)
    && NeighborFits(q, ids)
  }

  ghost predicate Disjoint(ms: seq<seq<nat>>)
  {
    forall j, k :: 0 <= j < k < |ms| ==> Elems(ms[j]) !! Elems(ms[k])
  }

  /** The queue is sorted, each record fits its rows, no row belongs to two
      records, and together the records cover `covered`. */
  ghost predicate QueueFits(queue: seq<Record>, members: seq<seq<nat>>, ids: seq<Value>, covered: set<nat>)
  {
    && |members| == |queue|
    && SortedBy(queue, RecordLe)
    && (forall j :: 0 <= j < |queue| ==> RecordFits(queue[j], members[j], ids))
    && Disjoint(members)
    && Union(members) == covered
  }

  /** Some assignment of rows to the records of the queue satisfies the
      queue invariant for `covered`. */
  ghost predicate QueueCovers(queue: seq<Record>, ids: seq<Value>, covered: set<nat>)
  {
    exists members :: QueueFits(queue, members, ids, covered)
  }

  lemma CoversByFits(queue: seq<Record>, members: seq<seq<nat>>, ids: seq<Value>, covered: set<nat>)
    requires QueueFits(queue, members, ids, covered)
    ensures QueueCovers(queue, ids, covered)
  {}

  /** Indices in the queue are pairwise distinct, so the queue order is
      strict on (distance, index) and never reaches the dendrograms. */
  lemma QueueOrderStrict(queue: seq<Record>, members: seq<seq<nat>>, ids: seq<Value>, covered: set<nat>)
    requires QueueFits(queue, members, ids, covered)
    ensures forall j, k :: 0 <= j < k < |queue| ==>
      queue[j].distance < queue[k].distance
      || (queue[j].distance == queue[k].distance && queue[j].index < queue[k].index)
  {
    forall j, k | 0 <= j < k < |queue|
      ensures queue[j].index != queue[k].index
    {
      assert queue[j].index in Elems(members[j]) && queue[k].index in Elems(members[k]);
    }
  }

  lemma DropSorted(queue: seq<Record>)
    requires SortedBy(queue, RecordLe) && |queue| >= 1
    ensures SortedBy(queue[1..], RecordLe)
  {
    forall a, b | 0 <= a < b < |queue| - 1 ensures RecordLe(queue[1..][a], queue[1..][b]) {
      assert RecordLe(queue[a + 1], queue[b + 1]);
    }
  }

  /** The rows of the front record are covered by no other record. */
  lemma DropFirst(queue: seq<Record>, members: seq<seq<nat>>, ids: seq<Value>, covered: set<nat>)
    requires QueueFits(queue, members, ids, covered) && |queue| >= 1
    ensures QueueFits(queue[1..], members[1..], ids, covered - Elems(members[0]))
    ensures Elems(members[0]) <= covered
  {
    DropFirstMembers(members);
    DropSorted(queue);
    forall j | 0 <= j < |members| - 1 ensures RecordFits(queue[1..][j], members[1..][j], ids) {
      assert queue[1..][j] == queue[j + 1] && members[1..][j] == members[j + 1];
    }
  }

  /** The rows of all records but the first are the rows of all records
      less those of the first, and stay pairwise disjoint. */
  lemma DropFirstMembers(members: seq<seq<nat>>)
    requires Disjoint(members) && |members| >= 1
    ensures Disjoint(members[1..])
    ensures Union(members[1..]) == Union(members) - Elems(members[0])
    ensures Elems(members[0]) <= Union(members)
  {
    var rest := members[1..];
    assert members == [members[0]] + rest;
    UnionAppend([members[0]], rest);
    UnionSingle(members[0]);
    forall j | 0 <= j < |rest| ensures Elems(rest[j]) !! Elems(members[0]) {
      assert rest[j] == members[j + 1];
    }
    UnionApart(rest, Elems(members[0]));
    forall j, k | 0 <= j < k < |rest| ensures Elems(rest[j]) !! Elems(rest[k]) {
      assert rest[j] == members[j + 1] && rest[k] == members[k + 1];
    }
  }

  /** The positions of `s[..p] + [x] + s[p..]`. */
  lemma InsertedAt<T>(s: seq<T>, x: T, p: nat)
    requires p <= |s|
    ensures var t := s[..p] + [x] + s[p..];
            |t| == |s| + 1 && t[p] == x
            && (forall j :: 0 <= j < p ==> t[j] == s[j])
            && (forall j :: p < j < |t| ==> t[j] == s[j - 1])
  {}

  lemma PairApart(members: seq<seq<nat>>, j: nat, k: nat)
    requires Disjoint(members) && j < |members| && k < |members| && j != k
    ensures Elems(members[j]) !! Elems(members[k])
  {
    if k < j {
      assert Elems(members[k]) !! Elems(members[j]);
    }
  }

  /** Placing m at position p keeps the rows of different records apart. */
  lemma InsertDisjoint(members: seq<seq<nat>>, m: seq<nat>, p: nat)
    requires Disjoint(members) && p <= |members| && Elems(m) !! Union(members)
    ensures Disjoint(members[..p] + [m] + members[p..])
  {
    var ms := members[..p] + [m] + members[p..];
    InsertedAt(members, m, p);
    forall j, k | 0 <= j < k < |ms| ensures Elems(ms[j]) !! Elems(ms[k]) {
      var j' := if j < p then j else j - 1;
      var k' := if k < p then k else k - 1;
      if j == p {
        ElemsInUnion(members, k');
      } else if k == p {
        ElemsInUnion(members, j');
      } else {
        PairApart(members, j', k');
      }
    }
  }

  lemma InsertUnion(members: seq<seq<nat>>, m: seq<nat>, p: nat)
    requires p <= |members|
    ensures Union(members[..p] + [m] + members[p..]) == Union(members) + Elems(m)
  {
    UnionAppend(members[..p] + [m], members[p..]);
    UnionAppend(members[..p], [m]);
    UnionSingle(m);
    UnionAppend(members[..p], members[p..]);
    assert members[..p] + members[p..] == members;
  }

  lemma InsertRecordsFit(queue: seq<Record>, members: seq<seq<nat>>, ids: seq<Value>,
                         rec: Record, m: seq<nat>, p: nat)
    requires |members| == |queue| && p <= |queue|
    requires forall j :: 0 <= j < |queue| ==> RecordFits(queue[j], members[j], ids)
    requires RecordFits(rec, m, ids)
    ensures var q' := queue[..p] + [rec] + queue[p..];
            var ms := members[..p] + [m] + members[p..];
            forall j :: 0 <= j < |q'| ==> RecordFits(q'[j], ms[j], ids)
  {
    var q' := queue[..p] + [rec] + queue[p..];
    var ms := members[..p] + [m] + members[p..];
    forall j | 0 <= j < |q'| ensures RecordFits(q'[j], ms[j], ids) {
      if j < p {
        assert q'[j] == queue[j] && ms[j] == members[j];
      } else if j > p {
        assert q'[j] == queue[j - 1] && ms[j] == members[j - 1];
      }
    }
  }

  /** Inserting a record for rows not yet covered keeps the invariant. */
  lemma InsertKeeps(queue: seq<Record>, members: seq<seq<nat>>, ids: seq<Value>, covered: set<nat>,
                    rec: Record, m: seq<nat>, after: set<nat>)
    requires QueueFits(queue, members, ids, covered)
    requires RecordFits(rec, m, ids) && Elems(m) !! covered && after == covered + Elems(m)
    ensures var p := InsertionPoint(rec, queue, RecordLe);
            QueueFits(Insert(rec, queue, RecordLe), members[..p] + [m] + members[p..], ids, after)
  {
    var p := InsertionPoint(rec, queue, RecordLe);
    InsertAt(rec, queue, RecordLe);
    RecordLeTotalPreorder();
    InsertSorted(rec, queue, RecordLe);
    InsertRecordsFit(queue, members, ids, rec, m, p);
    InsertDisjoint(members, m, p);
    InsertUnion(members, m, p);
  }

  /** The rows of a merged record, in the order of its dendrogram. */
  function MergedMembers(merged: Record, q1: Record, q2: Record, m1: seq<nat>, m2: seq<nat>): seq<nat>
  {
    if merged.shape == Pair(q1.shape, q2.shape) then m1 + m2 else m2 + m1
  }

  lemma NoDupConcat(m1: seq<nat>, m2: seq<nat>)
    requires NoDup(m1) && NoDup(m2) && Elems(m1) !! Elems(m2)
    ensures NoDup(m1 + m2) && Elems(m1 + m2) == Elems(m1) + Elems(m2)
  {
    var m := m1 + m2;
    forall a, b | 0 <= a < b < |m| ensures m[a] != m[b] {
      if a < |m1| && b >= |m1| {
        assert m[a] in Elems(m1) && m[b] == m2[b - |m1|] && m[b] in Elems(m2);
      } else if a >= |m1| {
        assert m[a] == m2[a - |m1|] && m[b] == m2[b - |m1|];
      }
    }
  }

  lemma IdsAtConcat(ids: seq<Value>, m1: seq<nat>, m2: seq<nat>)
    requires forall j :: 0 <= j < |m1| ==> m1[j] < |ids|
    requires forall j :: 0 <= j < |m2| ==> m2[j] < |ids|
    ensures forall j :: 0 <= j < |m1 + m2| ==> (m1 + m2)[j] < |ids|
    ensures IdsAt(ids, m1 + m2) == IdsAt(ids, m1) + IdsAt(ids, m2)
  {
    assert forall j :: 0 <= j < |m1 + m2| ==> (m1 + m2)[j] == if j < |m1| then m1[j] else m2[j - |m1|];
  }

  /** The record for the union of two row sets: the distance maps of the
      parts hold the rows outside each part, so their intersection holds
      exactly the rows outside both. */
  lemma MergedKeys(k1: set<nat>, k2: set<nat>, e1: set<nat>, e2: set<nat>, n: nat)
    requires k1 == Rows(n) - e1 && k2 == Rows(n) - e2
    ensures k1 * k2 == Rows(n) - (e1 + e2)
  {}

  lemma LowerBoundConcat(x: nat, m1: seq<nat>, m2: seq<nat>)
    requires forall j :: 0 <= j < |m1| ==> x <= m1[j]
    requires forall j :: 0 <= j < |m2| ==> x <= m2[j]
    ensures forall j :: 0 <= j < |m1 + m2| ==> x <= (m1 + m2)[j]
  {
    assert forall j :: 0 <= j < |m1 + m2| ==> (m1 + m2)[j] == if j < |m1| then m1[j] else m2[j - |m1|];
  }

  /** A record whose dendrogram pairs the records for ma and mb, in that
      order, stands for ma + mb. */
  lemma JoinFits(merged: Record, a: Record, ma: seq<nat>, b: Record, mb: seq<nat>, ids: seq<Value>)
    requires RecordFits(a, ma, ids) && RecordFits(b, mb, ids) && Elems(ma) !! Elems(mb)
    requires merged.shape == Pair(a.shape, b.shape)
    requires (merged.index == a.index || merged.index == b.index)
             && merged.index <= a.index && merged.index <= b.index
    requires merged.dists.Keys == a.dists.Keys * b.dists.Keys
    requires NeighborFits(merged, ids)
    ensures RecordFits(merged, ma + mb, ids) && Elems(ma + mb) == Elems(ma) + Elems(mb)
  {
    NoDupConcat(ma, mb);
    IdsAtConcat(ids, ma, mb);
    LowerBoundConcat(merged.index, ma, mb);
    MergedKeys(a.dists.Keys, b.dists.Keys, Elems(ma), Elems(mb), |ids|);
  }

  /** Merging two records for disjoint rows gives a record for their union. */
  lemma MergedFits(q1: Record, q2: Record, m1: seq<nat>, m2: seq<nat>, ids: seq<Value>, merged: Record)
    requires RecordFits(q1, m1, ids) && RecordFits(q2, m2, ids) && Elems(m1) !! Elems(m2)
    requires CombineItems(q1, q2, ids) == Ok(merged)
    ensures var m := MergedMembers(merged, q1, q2, m1, m2);
            RecordFits(merged, m, ids) && Elems(m) == Elems(m1) + Elems(m2)
  {
    if merged.shape == Pair(q1.shape, q2.shape) {
      JoinFits(merged, q1, m1, q2, m2, ids);
    } else {
      assert merged.shape == Pair(q2.shape, q1.shape);
      JoinFits(merged, q2, m2, q1, m1, ids);
    }
  }

  /** Taking the two front records off leaves a queue for the other rows. */
  lemma DropTwo(queue: seq<Record>, members: seq<seq<nat>>, ids: seq<Value>, covered: set<nat>)
    requires QueueFits(queue, members, ids, covered) && |queue| >= 2
    ensures QueueFits(queue[2..], members[2..], ids, covered - Elems(members[0]) - Elems(members[1]))
    ensures RecordFits(queue[0], members[0], ids) && RecordFits(queue[1], members[1], ids)
    ensures Elems(members[0]) !! Elems(members[1])
    ensures Elems(members[0]) + Elems(members[1]) <= covered
  {
    DropFirst(queue, members, ids, covered);
    DropFirst(queue[1..], members[1..], ids, covered - Elems(members[0]));
    assert queue[1..][1..] == queue[2..] && members[1..][1..] == members[2..];
  }

  /** The two front records stand for rows no other record has. */
  lemma FrontPair(queue: seq<Record>, members: seq<seq<nat>>, ids: seq<Value>, covered: set<nat>)
    requires QueueFits(queue, members, ids, covered) && |queue| >= 2
    ensures RecordFits(queue[0], members[0], ids) && RecordFits(queue[1], members[1], ids)
    ensures Elems(members[0]) !! Elems(members[1])
  {}

  /** One round of `cluster`: the two front records are replaced by a
      record for their rows, placed where the order puts it. */
  lemma MergeStep(queue: seq<Record>, members: seq<seq<nat>>, ids: seq<Value>, merged: Record, m: seq<nat>)
    requires QueueFits(queue, members, ids, Rows(|ids|)) && |queue| >= 2
    requires RecordFits(merged, m, ids) && Elems(m) == Elems(members[0]) + Elems(members[1])
    ensures var rest, ms := queue[2..], members[2..];
            var p := InsertionPoint(merged, rest, RecordLe);
            QueueFits(Insert(merged, rest, RecordLe), ms[..p] + [m] + ms[p..], ids, Rows(|ids|))
  {
    var all := Rows(|ids|);
    DropTwo(queue, members, ids, all);
    var left := all - Elems(members[0]) - Elems(members[1]);
    InsertKeeps(queue[2..], members[2..], ids, left, merged, m, all);
  }

  /** With text identifiers every merge succeeds. */
  lemma MergeSucceeds(q1: Record, q2: Record, m1: seq<nat>, m2: seq<nat>, ids: seq<Value>)
    requires RecordFits(q1, m1, ids) && RecordFits(q2, m2, ids)
    requires forall i :: 0 <= i < |ids| ==> ids[i].Text?
    ensures CombineItems(q1, q2, ids).Ok?
  {
    if q1.shape.Leaf? {
      assert Leaves(q1.shape)[0] == ids[m1[0]];
    }
    if q2.shape.Leaf? {
      assert Leaves(q2.shape)[0] == ids[m2[0]];
    }
    var d := CombineDistances(q1.dists, q2.dists);
    if d != map[] {
      assert NearestNeighbor(d).value.1 in q1.dists;
    }
  }

  /** One round of `cluster` on a queue that satisfies the invariant: the
      merge succeeds when every identifier is text, and when it succeeds the
      new queue satisfies the invariant again. */
  lemma MergeRound(queue: seq<Record>, ids: seq<Value>)
    requires QueueCovers(queue, ids, Rows(|ids|)) && |queue| >= 2
    ensures (forall i :: 0 <= i < |ids| ==> ids[i].Text?) ==> CombineItems(queue[0], queue[1], ids).Ok?
    ensures CombineItems(queue[0], queue[1], ids).Ok? ==>
              QueueCovers(Insert(CombineItems(queue[0], queue[1], ids).value, queue[2..], RecordLe), ids, Rows(|ids|))
  {
    var members :| QueueFits(queue, members, ids, Rows(|ids|));
    FrontPair(queue, members, ids, Rows(|ids|));
    if forall i :: 0 <= i < |ids| ==> ids[i].Text? {
      MergeSucceeds(queue[0], queue[1], members[0], members[1], ids);
    }
    if CombineItems(queue[0], queue[1], ids).Ok? {
      var merged := CombineItems(queue[0], queue[1], ids).value;
      var m := MergedMembers(merged, queue[0], queue[1], members[0], members[1]);
      MergedFits(queue[0], queue[1], members[0], members[1], ids, merged);
      MergeStep(queue, members, ids, merged, m);
      var ms, p := members[2..], InsertionPoint(merged, queue[2..], RecordLe);
      CoversByFits(Insert(merged, queue[2..], RecordLe), ms[..p] + [m] + ms[p..], ids, Rows(|ids|));
    }
  }

  /** What `cluster` does with a queue: while more than one record is
      left, take the two front records off, combine them and put the
      combined record back in order; then take the last record. The result
      is the record taken, or the error of the first merge that fails,
      together with the queue left behind. */
  function Agglomerate(queue: seq<Record>, ids: seq<Value>): (r: (Result<Record>, seq<Record>))
    requires queue != []
    ensures r.0.Ok? ==> r.1 == []
    ensures r.0.Err? ==> |r.1| + 2 <= |queue|
    decreases |queue|
  {
    if |queue| == 1 then (Ok(queue[0]), [])
    else
      match CombineItems(queue[0], queue[1], ids)
      case Err(e) => (Err(e), queue[2..])
      case Ok(combined) => Agglomerate(Insert(combined, queue[2..], RecordLe), ids)
  }

  lemma AgglomerateMerges(queue: seq<Record>, ids: seq<Value>, combined: Record)
    requires |queue| > 1 && CombineItems(queue[0], queue[1], ids) == Ok(combined)
    ensures Agglomerate(queue, ids) == Agglomerate(Insert(combined, queue[2..], RecordLe), ids)
  {}

  lemma AgglomerateFails(queue: seq<Record>, ids: seq<Value>)
    requires |queue| > 1 && CombineItems(queue[0], queue[1], ids).Err?
    ensures Agglomerate(queue, ids) == (Err(CombineItems(queue[0], queue[1], ids).error), queue[2..])
  {}

  lemma AgglomerateTakes(queue: seq<Record>, ids: seq<Value>)
    requires |queue| == 1
    ensures Agglomerate(queue, ids) == (Ok(queue[0]), queue[1..])
  {
    assert queue[1..] == [];
  }

  /** Started on a queue that satisfies the invariant, `cluster` returns a
      record for every row, each listed once in its dendrogram, with an
      empty distance map, distance 0 and no neighbour; it cannot fail when
      every identifier is text. */
  lemma {:induction false} AgglomerateTree(queue: seq<Record>, ids: seq<Value>)
    requires QueueCovers(queue, ids, Rows(|ids|)) && queue != []
    ensures var r := Agglomerate(queue, ids).0;
            r.Ok? ==> r.value.dists == map[] && r.value.distance == 0.0 && r.value.neighbor == NoNeighbor
                      && exists order :: IsRowOrder(order, |ids|) && Leaves(r.value.shape) == IdsAt(ids, order)
    ensures (forall i :: 0 <= i < |ids| ==> ids[i].Text?) ==> Agglomerate(queue, ids).0.Ok?
    decreases |queue|
  {
    if |queue| == 1 {
      LastRecord(queue, ids);
    } else {
      MergeRound(queue, ids);
      var combined := CombineItems(queue[0], queue[1], ids);
      if combined.Ok? {
        AgglomerateTree(Insert(combined.value, queue[2..], RecordLe), ids);
      }
    }
  }

  /** The rows enumerated once each. */
  predicate IsRowOrder(order: seq<nat>, n: nat)
  {
    NoDup(order) && (forall j :: 0 <= j < |order| ==> order[j] < n) && Elems(order) == Rows(n)
  }

  /** A queue for at least one row is not empty. */
  lemma CoversSomething(queue: seq<Record>, ids: seq<Value>, covered: set<nat>, x: nat)
    requires QueueCovers(queue, ids, covered) && x in covered
    ensures |queue| >= 1
  {
    var members :| QueueFits(queue, members, ids, covered);
  }

  /** The last record holds every row, once each: its map is empty, so its
      distance is 0 and it has no neighbour. */
  lemma LastRecord(queue: seq<Record>, ids: seq<Value>)
    requires QueueCovers(queue, ids, Rows(|ids|)) && |queue| == 1
    ensures exists order :: IsRowOrder(order, |ids|) && Leaves(queue[0].shape) == IdsAt(ids, order)
    ensures queue[0].dists == map[] && queue[0].distance == 0.0 && queue[0].neighbor == NoNeighbor
  {
    var members :| QueueFits(queue, members, ids, Rows(|ids|));
    SingleRecordFits(queue, members, ids);
    WholeRecord(queue[0], members[0], ids);
  }

  /** The one record of a queue covering every row fits all of them. */
  lemma SingleRecordFits(queue: seq<Record>, members: seq<seq<nat>>, ids: seq<Value>)
    requires QueueFits(queue, members, ids, Rows(|ids|)) && |queue| == 1
    ensures RecordFits(queue[0], members[0], ids) && Elems(members[0]) == Rows(|ids|)
  {
    assert members == [members[0]];
    UnionSingle(members[0]);
  }

  /** A record fitting every row has an empty map and lists each row once. */
  lemma WholeRecord(q: Record, m: seq<nat>, ids: seq<Value>)
    requires RecordFits(q, m, ids) && Elems(m) == Rows(|ids|)
    ensures IsRowOrder(m, |ids|) && Leaves(q.shape) == IdsAt(ids, m)
    ensures q.dists == map[] && q.distance == 0.0 && q.neighbor == NoNeighbor
  {
    assert q.dists.Keys == {};
  }

  /** A seed over a complete distance map stands for its own row. */
  lemma SeedFits(i: nat, ids: seq<Value>, distances: map<nat, map<nat, real>>)
    requires i < |ids| && DistancesFit(distances, |ids|) && Seed(i, ids, distances).Ok?
    ensures RecordFits(Seed(i, ids, distances).value, [i], ids)
  {
    SeedDefined(i, ids, distances);
    assert Elems([i]) == {i};
  }

  /** The queue after putting the records rs into q one at a time: what
      `initialize_cluster` does with its seeds. */
  function InsertAll(rs: seq<Record>, q: seq<Record>): (r: seq<Record>)
    ensures |r| == |q| + |rs|
    decreases |rs|
  {
    if rs == [] then q else Insert(rs[|rs| - 1], InsertAll(rs[..|rs| - 1], q), RecordLe)
  }

  lemma InsertAllAppend(rs: seq<Record>, x: Record, q: seq<Record>)
    ensures InsertAll(rs + [x], q) == Insert(x, InsertAll(rs, q), RecordLe)
  {
    assert (rs + [x])[..|rs|] == rs;
  }

  /** Putting records in keeps a sorted queue sorted. */
  lemma {:induction false} InsertAllSorted(rs: seq<Record>, q: seq<Record>)
    requires SortedBy(q, RecordLe)
    ensures SortedBy(InsertAll(rs, q), RecordLe)
    decreases |rs|
  {
    if rs != [] {
      InsertAllSorted(rs[..|rs| - 1], q);
      RecordLeTotalPreorder();
      InsertSorted(rs[|rs| - 1], InsertAll(rs[..|rs| - 1], q), RecordLe);
    }
  }

  /** The queue gains exactly the records put in. */
  lemma {:induction false} InsertAllMultiset(rs: seq<Record>, q: seq<Record>)
    ensures multiset(InsertAll(rs, q)) == multiset(q) + multiset(rs)
    decreases |rs|
  {
    if rs != [] {
      var front := rs[..|rs| - 1];
      InsertAllMultiset(front, q);
      InsertMultiset(rs[|rs| - 1], InsertAll(front, q), RecordLe);
      assert rs == front + [rs[|rs| - 1]];
    }
  }

  /** Putting a record for rows outside the covered ones into a covering
      queue covers them too. */
  lemma InsertCovers(queue: seq<Record>, ids: seq<Value>, covered: set<nat>, rec: Record, m: seq<nat>, after: set<nat>)
    requires QueueCovers(queue, ids, covered)
    requires RecordFits(rec, m, ids) && Elems(m) !! covered && after == covered + Elems(m)
    ensures QueueCovers(Insert(rec, queue, RecordLe), ids, after)
  {
    var ms :| QueueFits(queue, ms, ids, covered);
    InsertKeeps(queue, ms, ids, covered, rec, m, after);
    var p := InsertionPoint(rec, queue, RecordLe);
    CoversByFits(Insert(rec, queue, RecordLe), ms[..p] + [m] + ms[p..], ids, after);
  }

  /** A record for row n put into a queue covering the rows below n
      gives a queue covering the rows up to n. */
  lemma InsertRow(queue: seq<Record>, ids: seq<Value>, n: nat, rec: Record)
    requires QueueCovers(queue, ids, Rows(n)) && RecordFits(rec, [n], ids)
    ensures QueueCovers(Insert(rec, queue, RecordLe), ids, Rows(n + 1))
  {
    var m: seq<nat> := [n];
    assert Elems(m) == {n};
    InsertCovers(queue, ids, Rows(n), rec, m, Rows(n + 1));
  }

  /** Records for rows 0, 1, ... put into an empty queue one at a time
      satisfy the queue invariant for those rows. */
  lemma {:induction false} InsertAllFits(rs: seq<Record>, ids: seq<Value>)
    requires forall k :: 0 <= k < |rs| ==> RecordFits(rs[k], [k], ids)
    ensures QueueCovers(InsertAll(rs, []), ids, Rows(|rs|))
    decreases |rs|
  {
    if rs == [] {
      CoversByFits([], [], ids, {});
    } else {
      var n := |rs|;
      var front, x := rs[..n - 1], rs[n - 1];
      assert forall k :: 0 <= k < |front| ==> RecordFits(front[k], [k], ids) by {
        assert forall k :: 0 <= k < |front| ==> front[k] == rs[k];
      }
      InsertAllFits(front, ids);
      InsertRow(InsertAll(front, []), ids, n - 1, x);
      assert InsertAll(rs, []) == Insert(x, InsertAll(front, []), RecordLe);
    }
  }

  /** `initialize_cluster` on an empty queue over a complete distance map
      leaves a queue that satisfies the invariant for all rows. */
  lemma InitialQueueFits(ids: seq<Value>, distances: map<nat, map<nat, real>>)
    requires DistancesFit(distances, |ids|) && SeedsOk(ids, distances, |ids|)
    ensures QueueCovers(InsertAll(Seeds(ids, distances, |ids|), []), ids, Rows(|ids|))
  {
    var seeds := Seeds(ids, distances, |ids|);
    forall k | 0 <= k < |ids| ensures RecordFits(seeds[k], [k], ids) {
      SeedFits(k, ids, distances);
    }
    InsertAllFits(seeds, ids);
  }

  // ---------------------------------------------------------------------
  // The clusterer object

  /** Storing a row into a map that extends a table extends the table
      with that row. */
  lemma StoreRow(start: map<nat, map<nat, real>>, t: map<nat, map<nat, real>>, i: nat, row: map<nat, real>)
    ensures (start + t)[i := row] == start + t[i := row]
  {}

  class HierarchicalClusterer {
    /** The imported and normalised table (the inherited Clusterer part). */
    const table: Clusterer
    /** `pow(x, 0.5)`. */
    const root: real -> real
    var distances: map<nat, map<nat, real>>
    var queue: seq<Record>

    constructor(root: real -> real)
      ensures this.root == root && fresh(table) && table.data == [] && table.columns == []
      ensures distances == map[] && queue == []
    {
      this.root := root;
      table := new Clusterer();
      distances := map[];
      queue := [];
    }

    /** The queue invariant over the identifiers `table.data[0]`. */
    ghost predicate Valid()
      reads this, table
    {
      && |table.data| > 0 && |table.data[0]| > 0 && queue != []
      && QueueCovers(queue, table.data[0], Rows(|table.data[0]|))
    }

    /** `calculate_distances`: for every row, a fresh map from every other
        row to its distance. A distance that cannot be computed stops the
        loops, with the maps stored so far left in place. */
    method CalculateDistances() returns (r: Result<()>)
      modifies this
      ensures queue == old(queue)
      ensures table.data == [] ==> r == Err(IndexError) && distances == old(distances)
      ensures r.Ok? <==> table.data != [] && RowsComputable(Metric(root, table.data), |table.data[0]|, |table.data[0]|)
      ensures r.Ok? ==> distances == old(distances) + DistanceTable(Metric(root, table.data), |table.data[0]|, |table.data[0]|)
      ensures r.Ok? ==> DistancesFit(distances, |table.data[0]|)
      ensures table.data != [] ==>
                distances == old(distances) + TableReached(Metric(root, table.data), |table.data[0]|, |table.data[0]|)
    {
      if table.data == [] {
        return Err(IndexError);
      }
      r := FillDistances(Metric(root, table.data), |table.data[0]|);
    }

    /** The loops of `calculate_distances` for a distance function `dist`
        over n rows. */
    method FillDistances(dist: (nat, nat) -> Result<real>, n: nat) returns (r: Result<()>)
      modifies this
      ensures queue == old(queue)
      ensures r.Ok? <==> RowsComputable(dist, n, n)
      ensures r.Ok? ==> distances == old(distances) + DistanceTable(dist, n, n)
      ensures r.Ok? ==> DistancesFit(distances, n)
      ensures distances == old(distances) + TableReached(dist, n, n)
    {
      var start := distances;
      var i: nat := 0;
      while i < n
        invariant i <= n && queue == old(queue)
        invariant RowsComputable(dist, n, i)
        invariant distances == start + DistanceTable(dist, n, i)
      {
        r := FillRow(dist, n, i);
        if r.Err? {
          RowsComputableStop(dist, n, i, n);
          TableReachedAtFailure(dist, n, i, n);
          StoreRow(start, DistanceTable(dist, n, i), i, RowReached(dist, i, n));
          return;
        }
        RowReachedComplete(dist, i, n);
        assert RowsComputable(dist, n, i + 1);
        DistanceTableStep(dist, n, i, start);
        i := i + 1;
      }
      DistanceTableFits(dist, n, start);
      TableReachedComplete(dist, n, n);
      return Ok(());
    }

    /** The inner loop of `calculate_distances` for row i: a fresh map is
        stored first and each other row's distance is stored in it as it
        is computed, so a failing distance leaves the row filled up to
        it. */
    method FillRow(dist: (nat, nat) -> Result<real>, n: nat, i: nat) returns (r: Result<()>)
      modifies this
      ensures queue == old(queue)
      ensures r.Ok? <==> RowComputable(dist, n, i)
      ensures distances == old(distances)[i := RowReached(dist, i, n)]
    {
      var row: map<nat, real> := map[];
      distances := distances[i := row];
      var j: nat := 0;
      while j < n
        invariant j <= n && queue == old(queue)
        invariant RowComputable(dist, j, i) && row == RowReached(dist, i, j)
        invariant distances == old(distances)[i := row]
      {
        if i != j {
          var d := dist(i, j);
          if d.Err? {
            RowReachedAtFailure(dist, i, j, n);
            return Err(d.error);
          }
          row := row[j := d.value];
          distances := distances[i := row];
        }
        RowReachedStep(dist, i, j);
        j := j + 1;
      }
      return Ok(());
    }

    /** `initialize_cluster`: one record per row, each put into the queue in
        order. Started on an empty queue over a complete distance map, the
        queue invariant holds afterwards. */
    method InitializeCluster() returns (r: Result<()>)
      modifies this
      ensures distances == old(distances)
      ensures table.data == [] ==> r == Err(IndexError)
      ensures r.Ok? <==> table.data != [] && SeedsOk(table.data[0], distances, |table.data[0]|)
      ensures r.Ok? ==> queue == InsertAll(Seeds(table.data[0], distances, |table.data[0]|), old(queue))
      ensures r.Ok? && old(queue) == [] && DistancesFit(distances, |table.data[0]|) && |table.data[0]| > 0 ==> Valid()
      ensures r.Err? && table.data != [] ==> exists k :: (0 <= k < |table.data[0]|
        && SeedsOk(table.data[0], distances, k) && Seed(k, table.data[0], distances) == Err(r.error)
        && queue == InsertAll(Seeds(table.data[0], distances, k), old(queue)))
    {
      if table.data == [] {
        return Err(IndexError);
      }
      var ids, dist := table.data[0], distances;
      var start := queue;
      var q;
      q, r := SeedQueue(ids, dist, start);
      queue := q;
      if r.Ok? && start == [] && DistancesFit(dist, |ids|) && |ids| > 0 {
        InitialQueueFits(ids, dist);
        CoversSomething(q, ids, Rows(|ids|), 0);
      }
    }

    /** `cluster`: merge the two front records and put the result back
        until one record is left, then take it. Each round shrinks the queue
        by one, so a queue of n records takes n - 1 merges. A merge that
        fails stops the loop with the two records it took off already
        gone from the queue. */
    method Cluster() returns (r: Result<Record>, ghost merges: nat)
      requires Valid()
      modifies this
      ensures (r, queue) == Agglomerate(old(queue), table.data[0])
      ensures r.Ok? ==> queue == [] && merges == |old(queue)| - 1
      ensures r.Ok? ==> r.value.dists == map[] && r.value.distance == 0.0 && r.value.neighbor == NoNeighbor
      ensures r.Ok? ==> exists order :: IsRowOrder(order, |table.data[0]|)
                                         && Leaves(r.value.shape) == IdsAt(table.data[0], order)
      ensures (forall i :: 0 <= i < |table.data[0]| ==> table.data[0][i].Text?) ==> r.Ok?
    {
      var ids := table.data[0];
      AgglomerateTree(queue, ids);
      merges := 0;
      while |queue| > 1
        invariant table.data[0] == ids && queue != []
        invariant Agglomerate(queue, ids) == Agglomerate(old(queue), ids)
        invariant merges + |queue| == |old(queue)|
        decreases |queue|
      {
        ghost var before := queue;
        var item1, item2 := queue[0], queue[1];
        queue := queue[2..];
        var combined := CombineItems(item1, item2, ids);
        if combined.Err? {
          AgglomerateFails(before, ids);
          return Err(combined.error), merges;
        }
        AgglomerateMerges(before, ids, combined.value);
        queue := Insert(combined.value, queue, RecordLe);
        merges := merges + 1;
      }
      AgglomerateTakes(queue, ids);
      r := Ok(queue[0]);
      queue := queue[1..];
    }
  }
}
