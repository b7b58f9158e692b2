/** The table the clustering engine works on (clusterer.py): CSV rows are
    transposed into columns, each feature column is rescaled to modified
    standard scores, and two distances are offered. Square roots are the
    abstract function `root`; `float()` on a cell is the parameter `parse`. */
module Clustering {
  import opened Wrappers
  import opened Sums
  import opened Stats

  /** A cell after `float(cell)` was tried: the number, or the text itself. */
  datatype Value = Num(x: real) | Text(s: string)

  function Cell(parse: string -> Option<real>, s: string): (v: Value)
    ensures v.Text? ==> v.s == s
  {
    match parse(s)
    case Some(x) => Num(x)
    case None => Text(s)
  }

  // ---------------------------------------------------------------------
  // Importing rows

  /** `len(n)` fresh empty columns. */
  function Empties(n: nat): (r: seq<seq<Value>>)
    ensures |r| == n && forall j :: 0 <= j < n ==> r[j] == []
  {
    seq(n, j => [])
  }

  /** One pass of the inner import loop: cell i of the row is appended to
      column i; a row longer than the column list fails on the first cell
      that has no column. */
  function PushRow(data: seq<seq<Value>>, row: seq<string>, parse: string -> Option<real>)
    : (r: Result<seq<seq<Value>>>)
    ensures r.Ok? <==> |row| <= |data|
    ensures r.Ok? ==> |r.value| == |data|
  {
    if |row| > |data| then Err(IndexError) else Ok(Appended(data, row, parse))
  }

  /** The columns after cell i of the row went to column i for every column
      that exists: what the inner loop leaves behind, whether or not it
      then fails on a cell with no column. */
  function Appended(data: seq<seq<Value>>, row: seq<string>, parse: string -> Option<real>)
    : (r: seq<seq<Value>>)
    ensures |r| == |data|
  {
    seq(|data|, i requires 0 <= i < |data| =>
      if i < |row| then data[i] + [Cell(parse, row[i])] else data[i])
  }

  /** The import loop over the data rows, in order. */
  function PushRows(data: seq<seq<Value>>, rows: seq<seq<string>>, parse: string -> Option<real>)
    : Result<seq<seq<Value>>>
    decreases |rows|
  {
    if rows == [] then Ok(data)
    else
      var d :- PushRow(data, rows[0], parse);
      PushRows(d, rows[1..], parse)
  }

  /** The columns the import loop leaves, whether it finishes or stops at
      the first row that is too wide: that row's cells are then already in
      every column. */
  function Reached(data: seq<seq<Value>>, rows: seq<seq<string>>, parse: string -> Option<real>)
    : (r: seq<seq<Value>>)
    ensures |r| == |data|
    ensures PushRows(data, rows, parse).Ok? ==> r == PushRows(data, rows, parse).value
    decreases |rows|
  {
    if rows == [] then data
    else
      var d := Appended(data, rows[0], parse);
      if |rows[0]| > |data| then d else Reached(d, rows[1..], parse)
  }

  /** Column j of the data rows, cell by cell. */
  function Column(rows: seq<seq<string>>, j: nat, parse: string -> Option<real>): seq<Value>
    requires forall r :: 0 <= r < |rows| ==> j < |rows[r]|
  {
    seq(|rows|, r requires 0 <= r < |rows| => Cell(parse, rows[r][j]))
  }

  /** Rows as wide as the columns append one cell to every column per row,
      in row order. */
  lemma {:induction false} PushFullRows(data: seq<seq<Value>>, rows: seq<seq<string>>, parse: string -> Option<real>)
    requires forall r :: 0 <= r < |rows| ==> |rows[r]| == |data|
    ensures PushRows(data, rows, parse).Ok?
    ensures var d := PushRows(data, rows, parse).value;
      |d| == |data| &&
      forall j :: 0 <= j < |data| ==> d[j] == data[j] + Column(rows, j, parse)
    decreases |rows|
  {
    if rows != [] {
      var d := PushRow(data, rows[0], parse).value;
      PushFullRows(d, rows[1..], parse);
      forall j | 0 <= j < |data|
        ensures d[j] + Column(rows[1..], j, parse) == data[j] + Column(rows, j, parse)
      {
        assert Column(rows, j, parse) == [Cell(parse, rows[0][j])] + Column(rows[1..], j, parse);
      }
    }
  }

  // ---------------------------------------------------------------------
  // Normalising a column

  predicate AllNumbers(col: seq<Value>)
  {
    forall i :: 0 <= i < |col| ==> col[i].Num?
  }

  function Numbers(col: seq<Value>): (r: seq<real>)
    requires AllNumbers(col)
    ensures |r| == |col| && forall i :: 0 <= i < |col| ==> col[i] == Num(r[i])
  {
    seq(|col|, i requires 0 <= i < |col| => col[i].x)
  }

  function AsValues(xs: seq<real>): (r: seq<Value>)
    ensures |r| == |xs| && AllNumbers(r) && Numbers(r) == xs
  {
    seq(|xs|, i requires 0 <= i < |xs| => Num(xs[i]))
  }

  /** `normalize_list`: every value scored against the column's own median
      and absolute standard deviation. The median of an empty list indexes
      out of range, text cannot be subtracted, and a zero deviation divides
      by zero. */
  function NormalizeList(col: seq<Value>): (r: Result<seq<real>>)
    ensures col == [] ==> r == Err(IndexError)
    ensures col != [] && !AllNumbers(col) ==> r == Err(TypeError)
    ensures r.Ok? <==> col != [] && AllNumbers(col)
                       && AbsoluteStandardDeviation(Median(Numbers(col)), Numbers(col)) != 0.0
    ensures r.Ok? ==> |r.value| == |col|
    ensures r.Ok? ==> forall i, j :: 0 <= i < |col| && 0 <= j < |col| && col[i].x <= col[j].x
                                     ==> r.value[i] <= r.value[j]
  {
    if col == [] then Err(IndexError)
    else if !AllNumbers(col) then Err(TypeError)
    else
      var xs := Numbers(col);
      var m := Median(xs);
      var asd := AbsoluteStandardDeviation(m, xs);
      if asd == 0.0 then Err(ZeroDivisionError)
      else
        AbsoluteStandardDeviationNonNegative(m, xs);
        assert forall i, j :: (0 <= i < |xs| && 0 <= j < |xs| && xs[i] <= xs[j]
          ==> ModifiedStandardScore(m, asd, xs[i]) <= ModifiedStandardScore(m, asd, xs[j])) by {
          forall i, j | 0 <= i < |xs| && 0 <= j < |xs| && xs[i] < xs[j]
            ensures ModifiedStandardScore(m, asd, xs[i]) < ModifiedStandardScore(m, asd, xs[j])
          {
            ScoreStrictlyIncreasing(m, asd, xs[i], xs[j]);
          }
        }
        Ok(Scores(xs, m, asd))
  }

  /** A normalised column has median 0 and absolute standard deviation 1. */
  lemma NormalizedColumnIsStandard(col: seq<Value>)
    requires NormalizeList(col).Ok?
    ensures var z := NormalizeList(col).value;
            |z| > 0 && Median(z) == 0.0 && AbsoluteStandardDeviation(0.0, z) == 1.0
  {
    var xs := Numbers(col);
    var m := Median(xs);
    var asd := AbsoluteStandardDeviation(m, xs);
    ScoredMedianIsZero(xs, m, asd);
    ScoredDeviationIsOne(xs, m, asd);
  }

  /** The feature cells of row i, `[x[i] for x in data[1:]]`: a column
      shorter than i + 1 indexes out of range. */
  function FeatureCells(data: seq<seq<Value>>, i: nat): (r: Result<seq<Value>>)
    ensures r.Ok? <==> forall k :: 1 <= k < |data| ==> i < |data[k]|
    ensures r.Ok? ==> |r.value| == |data| - 1 || (data == [] && r.value == [])
    ensures r.Ok? ==> forall k :: 1 <= k < |data| ==> r.value[k - 1] == data[k][i]
  {
    if data == [] then Ok([])
    else if exists k :: 1 <= k < |data| && i >= |data[k]| then Err(IndexError)
    else Ok(seq(|data| - 1, k requires 0 <= k < |data| - 1 => data[k + 1][i]))
  }

  // ---------------------------------------------------------------------
  // Distances

  function Square(x: real): real { x * x }

  /** `euclidean`: the root of the summed squared differences of two points;
      unpacking anything but a pair fails with ValueError. */
  function Euclidean(root: real -> real, c1: seq<real>, c2: seq<real>): (r: Result<real>)
    ensures r.Ok? <==> |c1| == 2 && |c2| == 2
  {
    if |c1| != 2 || |c2| != 2 then Err(ValueError)
    else Ok(root(Square(c1[0] - c2[0]) + Square(c1[1] - c2[1])))
  }

  /** `[pow(v1[i] - v2[i], 2) for i in range(len(v1))]`. */
  function SquaredDifferences(v1: seq<real>, v2: seq<real>): (r: seq<real>)
    requires |v1| <= |v2|
    ensures |r| == |v1|
    ensures forall i :: 0 <= i < |v1| ==> r[i] == Square(v1[i] - v2[i]) && r[i] >= 0.0
  {
    seq(|v1|, i requires 0 <= i < |v1| => Square(v1[i] - v2[i]))
  }

  /** `manhattan` as written: the root of the summed squared differences
      over the coordinates of the first vector (a Euclidean distance in all
      but name); a shorter second vector indexes out of range. */
  function Manhattan(root: real -> real, v1: seq<real>, v2: seq<real>): (r: Result<real>)
    ensures r.Ok? <==> |v1| <= |v2|
  {
    if |v1| > |v2| then Err(IndexError)
    else Ok(root(Sum(SquaredDifferences(v1, v2))))
  }

  /** On points of two coordinates both distances compute the same value:
      "manhattan" is the Euclidean distance generalised to n coordinates. */
  lemma ManhattanIsEuclidean(root: real -> real, c1: seq<real>, c2: seq<real>)
    requires |c1| == 2 && |c2| == 2
    ensures Manhattan(root, c1, c2) == Euclidean(root, c1, c2)
  {
    var sq := SquaredDifferences(c1, c2);
    SumFront(sq);
    SumFront(sq[1..]);
    assert sq[1..][1..] == [];
  }

  lemma EuclideanSymmetric(root: real -> real, c1: seq<real>, c2: seq<real>)
    ensures Euclidean(root, c1, c2) == Euclidean(root, c2, c1)
  {
    if |c1| == 2 && |c2| == 2 {
      assert Square(c1[0] - c2[0]) == Square(c2[0] - c1[0]);
      assert Square(c1[1] - c2[1]) == Square(c2[1] - c1[1]);
    }
  }

  lemma ManhattanSymmetric(root: real -> real, v1: seq<real>, v2: seq<real>)
    requires |v1| == |v2|
    ensures Manhattan(root, v1, v2) == Manhattan(root, v2, v1)
  {
    var a, b := SquaredDifferences(v1, v2), SquaredDifferences(v2, v1);
    forall i | 0 <= i < |v1| ensures a[i] == b[i] {
      assert Square(v1[i] - v2[i]) == Square(v2[i] - v1[i]);
    }
    assert a == b;
  }

  /** A vector is at distance root(0) = 0 from itself. */
  lemma ManhattanSelf(root: real -> real, v: seq<real>)
    requires root(0.0) == 0.0
    ensures Manhattan(root, v, v) == Ok(0.0)
  {
    SumConstant(SquaredDifferences(v, v), 0.0);
  }

  lemma EuclideanSelf(root: real -> real, c: seq<real>)
    requires root(0.0) == 0.0 && |c| == 2
    ensures Euclidean(root, c, c) == Ok(0.0)
  {}

  // ---------------------------------------------------------------------
  // The table object

  /** The column loop of `normalize` on the columns `table`, with `score`
      standing for `normalize_list`: the columns after the first are
      rescored in order until one fails. */
  method NormalizeColumns(table: seq<seq<Value>>, score: seq<Value> -> Result<seq<real>>)
    returns (rows: seq<seq<Value>>, r: Result<()>)
    ensures |rows| == |table|
    ensures |table| > 0 ==> rows[0] == table[0]
    ensures r.Ok? <==> forall j :: 1 <= j < |table| ==> score(table[j]).Ok?
    ensures r.Ok? ==> forall j :: 1 <= j < |table| ==> rows[j] == AsValues(score(table[j]).value)
    ensures r.Err? ==> exists k {:trigger table[k]} :: (1 <= k < |table|
      && score(table[k]) == Err(r.error)
      && (forall j :: 1 <= j < k ==> (score(table[j]).Ok? && rows[j] == AsValues(score(table[j]).value)))
      && rows[k..] == table[k..])
  {
    rows := table;
    if |rows| == 0 {
      return rows, Ok(());
    }
    var k := 1;
    while k < |rows|
      invariant 1 <= k <= |rows| == |table|
      invariant rows[0] == table[0]
      invariant forall j :: k <= j < |rows| ==> rows[j] == table[j]
      invariant forall j :: 1 <= j < k ==> (score(table[j]).Ok? && rows[j] == AsValues(score(table[j]).value))
    {
      var scored := score(rows[k]);
      if scored.Err? {
        assert rows[k..] == table[k..];
        return rows, Err(scored.error);
      }
      rows := rows[k := AsValues(scored.value)];
      k := k + 1;
    }
    return rows, Ok(());
  }

  class Clusterer {
    /** The header row. */
    var columns: seq<string>
    /** One list per column; column 0 holds the row identifiers. */
    var data: seq<seq<Value>>

    constructor()
      ensures columns == [] && data == []
    {
      columns := [];
      data := [];
    }

    /** `import_data` on rows already read from the CSV file: the header
        becomes `columns`, one empty column is appended per header name, and
        every later row is appended cell by cell. */
    method ImportData(rows: seq<seq<string>>, parse: string -> Option<real>) returns (r: Result<()>)
      modifies this
      ensures rows == [] ==> r == Err(IndexError) && data == old(data) && columns == old(columns)
      ensures rows != [] ==> columns == rows[0]
      ensures var pushed := if rows == [] then Err(IndexError)
                            else PushRows(old(data) + Empties(|rows[0]|), rows[1..], parse);
              (r.Ok? <==> pushed.Ok?) && (r.Ok? ==> data == pushed.value)
      ensures rows != [] ==> data == Reached(old(data) + Empties(|rows[0]|), rows[1..], parse)
    {
      if rows == [] {
        return Err(IndexError);
      }
      columns := rows[0];
      var j := 0;
      while j < |columns|
        invariant 0 <= j <= |columns| && columns == rows[0]
        invariant data == old(data) + Empties(j)
      {
        data := data + [[]];
        j := j + 1;
      }
      ghost var start := data;
      var k := 1;
      while k < |rows|
        invariant 1 <= k <= |rows| && columns == rows[0]
        invariant PushRows(start, rows[1..], parse) == PushRows(data, rows[k..], parse)
        invariant Reached(start, rows[1..], parse) == Reached(data, rows[k..], parse)
      {
        var row := rows[k];
        ghost var before := data;
        assert rows[k..][1..] == rows[k + 1..];
        var i := 0;
        while i < |row|
          invariant 0 <= i <= |row| && i <= |data| == |before| && columns == rows[0]
          invariant forall c :: 0 <= c < |data| ==>
            data[c] == if c < i then before[c] + [Cell(parse, row[c])] else before[c]
        {
          if i >= |data| {
            assert PushRow(before, row, parse).Err?;
            assert data == Appended(before, row, parse);
            return Err(IndexError);
          }
          data := data[i := data[i] + [Cell(parse, row[i])]];
          i := i + 1;
        }
        assert PushRow(before, row, parse) == Ok(data) by {
          assert i == |row| <= |data|;
          var expected := PushRow(before, row, parse).value;
          assert |expected| == |data|;
          assert forall c :: 0 <= c < |data| ==> expected[c] == data[c];
          assert expected == data;
        }
        assert Reached(before, rows[k..], parse) == Reached(data, rows[k + 1..], parse);
        k := k + 1;
      }
      return Ok(());
    }

    /** `normalize`: every column after the identifier column is replaced by
        its modified standard scores. The first column that cannot be
        normalised stops the loop, with the columns before it already
        rewritten. */
    method Normalize() returns (r: Result<()>)
      modifies this
      ensures columns == old(columns) && |data| == |old(data)|
      ensures |data| > 0 ==> data[0] == old(data)[0]
      ensures r.Ok? <==> forall j :: 1 <= j < |data| ==> NormalizeList(old(data)[j]).Ok?
      ensures r.Ok? ==> forall j :: 1 <= j < |data| ==> data[j] == AsValues(NormalizeList(old(data)[j]).value)
      ensures r.Err? ==> exists k {:trigger old(data)[k]} :: (1 <= k < |data|
        && NormalizeList(old(data)[k]) == Err(r.error)
        && (forall j :: 1 <= j < k ==> (NormalizeList(old(data)[j]).Ok?
                                       && data[j] == AsValues(NormalizeList(old(data)[j]).value)))
        && data[k..] == old(data)[k..])
    {
      data, r := NormalizeColumns(data, NormalizeList);
    }
  }
}
