/** The nearest-neighbour classifier (classifier.py): a training table of
    (class, numeric vector, comments) read from comma-separated lines whose
    header names each column's kind, every numeric column rescaled either to
    [0, 1] (min-max normalisation) or to modified standard scores
    (standardisation), a query vector rescaled with the recorded per-column
    pairs, and the class of the nearest training item. Square roots are the
    abstract function `root`; `float()` on a field is the parameter `parse`. */
module Classifying {
  import opened Wrappers
  import opened Sums
  import opened Sorting
  import opened Lex
  import opened Text
  import Stats
  import ContentRecommending
  import Clustering
  import opened Reals

  /** One training row: `(classification, vector, ignore)`. */
  datatype Item = Item(classification: string, vector: seq<real>, ignore: seq<string>)

  // ---------------------------------------------------------------------
  // load_data

  /** What the field loop of `load_data` has gathered so far: the value of
      the local `classification` (unassigned is None; it survives from the
      previous line), the numbers and the comments. */
  datatype Gathered = Gathered(classification: Option<string>, vector: seq<real>, ignore: seq<string>)

  /** The first `n` passes of the field loop: `format[i]` picks what field
      `i` is; a line with more fields than the header indexes past it, and
      a 'num' field that is not a number fails in `float`. */
  function ScanFields(format: seq<string>, fields: seq<string>, n: nat,
                      parse: string -> Option<real>, previous: Option<string>): Result<Gathered>
    requires n <= |fields|
    decreases n
  {
    if n == 0 then Ok(Gathered(previous, [], []))
    else
      var g :- ScanFields(format, fields, n - 1, parse, previous);
      var i := n - 1;
      if i >= |format| then Err(IndexError)
      else if format[i] == "num" then
        match parse(fields[i])
        case None => Err(ValueError)
        case Some(x) => Ok(g.(vector := g.vector + [x]))
      else if format[i] == "comment" then Ok(g.(ignore := g.ignore + [fields[i]]))
      else if format[i] == "class" then Ok(g.(classification := Some(fields[i])))
      else Ok(g)
  }

  /** The positions below `n` whose column has the given kind, ascending:
      an independent description of which fields the loop keeps. */
  function Positions(format: seq<string>, n: nat, kind: string): (r: seq<nat>)
    requires n <= |format|
    ensures forall j :: 0 <= j < |r| ==> r[j] < n && format[r[j]] == kind
    ensures forall i :: 0 <= i < n && format[i] == kind ==> i in r
    ensures forall j, k :: 0 <= j < k < |r| ==> r[j] < r[k]
  {
    if n == 0 then []
    else Positions(format, n - 1, kind) + (if format[n - 1] == kind then [n - 1] else [])
  }

  /** A line parses exactly when it has no more fields than the header and
      every 'num' field is a number. */
  lemma {:induction false} ScanFieldsDefined(format: seq<string>, fields: seq<string>, n: nat,
                                             parse: string -> Option<real>, previous: Option<string>)
    requires n <= |fields|
    ensures ScanFields(format, fields, n, parse, previous).Ok?
        <==> n <= |format| && forall i :: 0 <= i < n && format[i] == "num" ==> parse(fields[i]).Some?
    decreases n
  {
    if n > 0 {
      ScanFieldsDefined(format, fields, n - 1, parse, previous);
    }
  }

  /** A parsed line keeps the 'num' fields as numbers, in field order. */
  lemma {:induction false} ScanFieldsNumbers(format: seq<string>, fields: seq<string>, n: nat,
                                             parse: string -> Option<real>, previous: Option<string>)
    requires n <= |fields| && n <= |format|
    requires ScanFields(format, fields, n, parse, previous).Ok?
    ensures var g, nums := ScanFields(format, fields, n, parse, previous).value, Positions(format, n, "num");
      |g.vector| == |nums| && forall j :: 0 <= j < |nums| ==> parse(fields[nums[j]]) == Some(g.vector[j])
    decreases n
  {
    if n > 0 {
      var i := n - 1;
      ScanFieldsNumbers(format, fields, i, parse, previous);
      var g0, g := ScanFields(format, fields, i, parse, previous).value, ScanFields(format, fields, n, parse, previous).value;
      if format[i] == "num" {
        assert Positions(format, n, "num") == Positions(format, i, "num") + [i];
        assert g.vector == g0.vector + [parse(fields[i]).value];
      } else {
        assert Positions(format, n, "num") == Positions(format, i, "num");
        assert g.vector == g0.vector;
      }
    }
  }

  /** A parsed line keeps the 'comment' fields as text, in field order. */
  lemma {:induction false} ScanFieldsComments(format: seq<string>, fields: seq<string>, n: nat,
                                              parse: string -> Option<real>, previous: Option<string>)
    requires n <= |fields| && n <= |format|
    requires ScanFields(format, fields, n, parse, previous).Ok?
    ensures var g, comments := ScanFields(format, fields, n, parse, previous).value, Positions(format, n, "comment");
      |g.ignore| == |comments| && forall j :: 0 <= j < |comments| ==> g.ignore[j] == fields[comments[j]]
    decreases n
  {
    if n > 0 {
      var i := n - 1;
      ScanFieldsComments(format, fields, i, parse, previous);
      var g0, g := ScanFields(format, fields, i, parse, previous).value, ScanFields(format, fields, n, parse, previous).value;
      if format[i] == "comment" {
        assert Positions(format, n, "comment") == Positions(format, i, "comment") + [i];
        assert g.ignore == g0.ignore + [fields[i]];
      } else {
        assert Positions(format, n, "comment") == Positions(format, i, "comment");
        assert g.ignore == g0.ignore;
      }
    }
  }

  /** The class of a parsed line is its last 'class' field, or the class
      left over from the previous line when it has none. */
  lemma {:induction false} ScanFieldsClass(format: seq<string>, fields: seq<string>, n: nat,
                                           parse: string -> Option<real>, previous: Option<string>)
    requires n <= |fields| && n <= |format|
    requires ScanFields(format, fields, n, parse, previous).Ok?
    ensures ClassIsLast(format, fields, n, parse, previous)
    decreases n
  {
    if n > 0 {
      ScanFieldsClass(format, fields, n - 1, parse, previous);
      ScanClassStep(format, fields, n, parse, previous);
    }
  }

  /** The class a successful scan of the first `n` fields has kept: the
      last 'class' field among them, or `previous` when there is none. */
  ghost predicate ClassIsLast(format: seq<string>, fields: seq<string>, n: nat,
                              parse: string -> Option<real>, previous: Option<string>)
    requires n <= |fields| && n <= |format|
    requires ScanFields(format, fields, n, parse, previous).Ok?
  {
    var g, classes := ScanFields(format, fields, n, parse, previous).value, Positions(format, n, "class");
    g.classification == if classes == [] then previous else Some(fields[classes[|classes| - 1]])
  }

  /** One more field keeps the class the last 'class' field. */
  lemma ScanClassStep(format: seq<string>, fields: seq<string>, n: nat,
                      parse: string -> Option<real>, previous: Option<string>)
    requires 0 < n <= |fields| && n <= |format|
    requires ScanFields(format, fields, n, parse, previous).Ok?
    requires ScanFields(format, fields, n - 1, parse, previous).Ok?
    requires ClassIsLast(format, fields, n - 1, parse, previous)
    ensures ClassIsLast(format, fields, n, parse, previous)
  {
    var i := n - 1;
    if format[i] == "class" {
      ClassField(format, fields, n, parse, previous);
    } else {
      OtherField(format, fields, n, parse, previous);
    }
  }

  /** A 'class' field sets the class and is the last 'class' position. */
  lemma ClassField(format: seq<string>, fields: seq<string>, n: nat,
                   parse: string -> Option<real>, previous: Option<string>)
    requires 0 < n <= |fields| && n <= |format| && format[n - 1] == "class"
    requires ScanFields(format, fields, n, parse, previous).Ok?
    ensures ScanFields(format, fields, n, parse, previous).value.classification == Some(fields[n - 1])
    ensures Positions(format, n, "class") == Positions(format, n - 1, "class") + [n - 1]
  {
  }

  /** Any other field keeps the class and adds no 'class' position. */
  lemma OtherField(format: seq<string>, fields: seq<string>, n: nat,
                   parse: string -> Option<real>, previous: Option<string>)
    requires 0 < n <= |fields| && n <= |format| && format[n - 1] != "class"
    requires ScanFields(format, fields, n, parse, previous).Ok?
    ensures ScanFields(format, fields, n - 1, parse, previous).Ok?
    ensures ScanFields(format, fields, n, parse, previous).value.classification
         == ScanFields(format, fields, n - 1, parse, previous).value.classification
    ensures Positions(format, n, "class") == Positions(format, n - 1, "class")
  {
    assert Positions(format, n - 1, "class") + [] == Positions(format, n - 1, "class");
  }

  /** One data line: its fields after `strip` and newline removal, scanned
      by the header; a line that never assigned `classification`, on this
      line or an earlier one, reads an unassigned local. */
  function ParseLine(format: seq<string>, line: string, parse: string -> Option<real>,
                     previous: Option<string>): Result<Item>
  {
    var fields := SplitFields(line);
    var g :- ScanFields(format, fields, |fields|, parse, previous);
    if g.classification.None? then Err(NameError)
    else Ok(Item(g.classification.value, g.vector, g.ignore))
  }

  /** The rows `load_data` has appended, and how the loop ended. */
  datatype Loaded = Loaded(items: seq<Item>, outcome: Result<()>)

  /** `for line in lines[1:]`: each line appends one row; the first line
      that fails stops the loop with the rows before it kept. */
  function LoadLines(format: seq<string>, lines: seq<string>, parse: string -> Option<real>,
                     previous: Option<string>): Loaded
    decreases |lines|
  {
    if lines == [] then Loaded([], Ok(()))
    else
      match ParseLine(format, lines[0], parse, previous)
      case Err(e) => Loaded([], Err(e))
      case Ok(item) =>
        var rest := LoadLines(format, lines[1..], parse, Some(item.classification));
        Loaded([item] + rest.items, rest.outcome)
  }

  /** A load that succeeds has one row per data line, each parsed from its
      line with the class the lines before it left; a load that fails has
      fewer rows than lines, all of them parsed from a prefix. */
  lemma {:induction false} LoadLinesRows(format: seq<string>, lines: seq<string>,
                                         parse: string -> Option<real>, previous: Option<string>)
    ensures ParsedRows(LineParser(format, parse), lines, previous, LoadLines(format, lines, parse, previous))
    decreases |lines|
  {
    if lines != [] && ParseLine(format, lines[0], parse, previous).Ok? {
      var item := ParseLine(format, lines[0], parse, previous).value;
      LoadLinesRows(format, lines[1..], parse, Some(item.classification));
      ParsedRowsCons(LineParser(format, parse), lines, previous, item,
                     LoadLines(format, lines[1..], parse, Some(item.classification)),
                     LoadLines(format, lines, parse, previous));
    }
  }

  /** `ParseLine` under the header `format`, as a function of the line and
      the class the lines before it left. */
  function LineParser(format: seq<string>, parse: string -> Option<real>): (string, Option<string>) -> Result<Item>
  {
    (line, previous) => ParseLine(format, line, parse, previous)
  }

  /** `loaded` holds at most one row per line, all of them the lines of a
      prefix parsed by `p` in order, each with the class of the row before
      it (or `previous`); it is complete exactly when it succeeded, and
      otherwise the next line is the one that failed, with the recorded
      error. */
  ghost predicate ParsedRows(p: (string, Option<string>) -> Result<Item>, lines: seq<string>,
                             previous: Option<string>, loaded: Loaded)
  {
    && |loaded.items| <= |lines|
    && (loaded.outcome.Ok? <==> |loaded.items| == |lines|)
    && (forall k :: 0 <= k < |loaded.items| ==>
          p(lines[k], if k == 0 then previous else Some(loaded.items[k - 1].classification)) == Ok(loaded.items[k]))
    && (loaded.outcome.Err? ==>
          var k := |loaded.items|;
          p(lines[k], if k == 0 then previous else Some(loaded.items[k - 1].classification)) == Err(loaded.outcome.error))
  }

  /** A parsed first line in front of the rows of the remaining lines. */
  lemma ParsedRowsCons(p: (string, Option<string>) -> Result<Item>, lines: seq<string>,
                       previous: Option<string>, item: Item, rest: Loaded, loaded: Loaded)
    requires lines != [] && p(lines[0], previous) == Ok(item)
    requires ParsedRows(p, lines[1..], Some(item.classification), rest)
    requires loaded == Loaded([item] + rest.items, rest.outcome)
    ensures ParsedRows(p, lines, previous, loaded)
  {
    var later := lines[1..];
    assert forall i :: 0 <= i < |rest.items| ==>
      p(later[i], if i == 0 then Some(item.classification) else Some(rest.items[i - 1].classification)) == Ok(rest.items[i]);
    forall k | 0 < k < |loaded.items|
      ensures p(lines[k], Some(loaded.items[k - 1].classification)) == Ok(loaded.items[k])
    {
      assert p(later[k - 1], if k == 1 then Some(item.classification) else Some(rest.items[k - 2].classification))
        == Ok(rest.items[k - 1]);
      assert loaded.items[k] == rest.items[k - 1] && lines[k] == later[k - 1];
      assert loaded.items[k - 1] == if k == 1 then item else rest.items[k - 2];
    }
    if loaded.outcome.Err? {
      var k := |loaded.items|;
      assert lines[k] == later[k - 1];
      assert loaded.items[k - 1] == if k == 1 then item else rest.items[k - 2];
    }
  }

  // ---------------------------------------------------------------------
  // Columns of the training table

  /** Every row has an entry `col`: `v[1][col_number]` does not fail. */
  predicate HasColumn(data: seq<Item>, col: nat)
  {
    forall k :: 0 <= k < |data| ==> col < |data[k].vector|
  }

  /** `[v[1][col_number] for v in self.data]`. */
  function Column(data: seq<Item>, col: nat): (r: seq<real>)
    requires HasColumn(data, col)
    ensures |r| == |data|
    ensures forall k :: 0 <= k < |data| ==> r[k] == data[k].vector[col]
  {
    seq(|data|, k requires 0 <= k < |data| => data[k].vector[col])
  }

  /** The row with `v[1][col_number]` replaced by `x`. */
  function SetEntry(item: Item, col: nat, x: real): Item
    requires col < |item.vector|
  {
    item.(vector := item.vector[col := x])
  }

  /** The rows with entry `col` of row k replaced by `values[k]`. */
  function WithColumn(data: seq<Item>, col: nat, values: seq<real>): (r: seq<Item>)
    requires HasColumn(data, col) && |values| == |data|
    ensures |r| == |data|
  {
    seq(|data|, k requires 0 <= k < |data| => SetEntry(data[k], col, values[k]))
  }

  /** The two column rescalings: `normalize` and `standardize`. */
  datatype Scaling = Normalization | Standardization

  /** The pair a column records: (min, max) for normalisation, (median,
      absolute standard deviation) for standardisation. `max([])` raises
      ValueError; the median of an empty list reads `values[-1]`. */
  function Summary(scaling: Scaling, column: seq<real>): (r: Result<(real, real)>)
    ensures r.Err? <==> column == []
  {
    if column == [] then Err(if scaling == Normalization then ValueError else IndexError)
    else if scaling == Normalization then Ok((Stats.Min(column), Stats.Max(column)))
    else
      var m := Stats.Median(column);
      Ok((m, Stats.AbsoluteStandardDeviation(m, column)))
  }

  /** The divisor the recorded pair gives: `max_r - min_r`, or `asd`. */
  function Spread(scaling: Scaling, pair: (real, real)): real
  {
    if scaling == Normalization then pair.1 - pair.0 else pair.1
  }

  /** `(x - min_r) / (max_r - min_r)`, or `(x - median) / asd`. */
  function Scale(scaling: Scaling, pair: (real, real), x: real): real
    requires Spread(scaling, pair) != 0.0
  {
    (x - pair.0) / Spread(scaling, pair)
  }

  function ScaleAll(scaling: Scaling, pair: (real, real), column: seq<real>): (r: seq<real>)
    requires Spread(scaling, pair) != 0.0
    ensures |r| == |column|
    ensures forall k :: 0 <= k < |column| ==> r[k] == Scale(scaling, pair, column[k])
  {
    seq(|column|, k requires 0 <= k < |column| => Scale(scaling, pair, column[k]))
  }

  /** The state `normalize_column` / `standardize_column` leaves: the
      outcome, the rows and the recorded pairs. */
  datatype Columns = Columns(outcome: Result<()>, data: seq<Item>, pairs: seq<(real, real)>)

  /** One column, with `summary` the pair the column records (`Summary`):
      a row too short fails before anything changes, an empty table fails
      in `max` or `median`; otherwise the pair is recorded, and
      a zero divisor fails on the first row, before any row is rewritten. */
  function ColumnStep(scaling: Scaling, summary: seq<real> -> Result<(real, real)>, data: seq<Item>, pairs: seq<(real, real)>, col: nat): Columns
  {
    if !HasColumn(data, col) then Columns(Err(IndexError), data, pairs)
    else
      var column := Column(data, col);
      match summary(column)
      case Err(e) => Columns(Err(e), data, pairs)
      case Ok(pair) =>
        if Spread(scaling, pair) == 0.0 then Columns(Err(ZeroDivisionError), data, pairs + [pair])
        else Columns(Ok(()), WithColumn(data, col, ScaleAll(scaling, pair, column)), pairs + [pair])
  }

  /** `for i in range(col, d): self.normalize_column(i)` (or standardize),
      stopping at the first failure. */
  function ColumnsFrom(scaling: Scaling, summary: seq<real> -> Result<(real, real)>, data: seq<Item>, pairs: seq<(real, real)>, col: nat, d: nat): Columns
    decreases d - col
  {
    if col >= d then Columns(Ok(()), data, pairs)
    else
      var step := ColumnStep(scaling, summary, data, pairs, col);
      if step.outcome.Err? then step
      else ColumnsFrom(scaling, summary, step.data, step.pairs, col + 1, d)
  }

  /** `normalize_columns` / `standardize_columns`: as many columns as the
      first row has; an empty table fails on `self.data[0]`. */
  function AllColumns(scaling: Scaling, data: seq<Item>, pairs: seq<(real, real)>): Columns
  {
    if data == [] then Columns(Err(IndexError), data, pairs)
    else ColumnsFrom(scaling, Summarize(scaling), data, pairs, 0, |data[0].vector|)
  }

  /** `Summary` for one scaling, as a function of the column. */
  function Summarize(scaling: Scaling): seq<real> -> Result<(real, real)>
  {
    column => Summary(scaling, column)
  }

  // ---------------------------------------------------------------------
  // What rescaling a column does

  /** Min-max normalisation puts every entry in [0, 1], the smallest at 0
      and the largest at 1. */
  lemma NormalizedBounds(column: seq<real>, lo: real, hi: real)
    requires column != [] && lo == Stats.Min(column) && hi == Stats.Max(column) && lo != hi
    ensures var s := ScaleAll(Normalization, (lo, hi), column);
      && (forall k :: 0 <= k < |s| ==> 0.0 <= s[k] <= 1.0)
      && Stats.Min(s) == 0.0 && Stats.Max(s) == 1.0
  {
    var s := ScaleAll(Normalization, (lo, hi), column);
    NormalizedInUnit(column, lo, hi);
    var i :| 0 <= i < |column| && column[i] == lo;
    var j :| 0 <= j < |column| && column[j] == hi;
    NormalizedEnds(column, lo, hi, i, j);
    var m, n := Stats.Min(s), Stats.Max(s);
    assert m in s && n in s;
    assert m <= s[i] && s[j] <= n;
  }

  lemma NormalizedInUnit(column: seq<real>, lo: real, hi: real)
    requires forall k :: 0 <= k < |column| ==> lo <= column[k] <= hi
    requires lo < hi
    ensures var s := ScaleAll(Normalization, (lo, hi), column);
      forall k :: 0 <= k < |s| ==> 0.0 <= s[k] <= 1.0
  {
    var s := ScaleAll(Normalization, (lo, hi), column);
    forall k | 0 <= k < |s| ensures 0.0 <= s[k] <= 1.0 {
      ScaleNormalization(lo, hi, column[k]);
      QuotientInUnitInterval(column[k] - lo, hi - lo);
    }
  }

  lemma NormalizedEnds(column: seq<real>, lo: real, hi: real, i: int, j: int)
    requires 0 <= i < |column| && 0 <= j < |column| && column[i] == lo && column[j] == hi && lo < hi
    ensures var s := ScaleAll(Normalization, (lo, hi), column);
      s[i] == 0.0 && s[j] == 1.0
  {
    ScaleNormalization(lo, hi, lo);
    ScaleNormalization(lo, hi, hi);
    QuotientSelf(hi - lo);
  }

  lemma ScaleNormalization(lo: real, hi: real, x: real)
    requires lo != hi
    ensures Scale(Normalization, (lo, hi), x) == (x - lo) / (hi - lo)
  {}

  lemma QuotientInUnitInterval(a: real, d: real)
    requires d > 0.0 && 0.0 <= a <= d
    ensures 0.0 <= a / d <= 1.0
  {
    QuotientMonotone(0.0, a, d);
    QuotientMonotone(a, d, d);
    QuotientSelf(d);
  }

  /** Rescaling a column already rescaled records the pair (0, 1) and
      changes nothing: a second `normalize_columns` or `standardize_columns`
      leaves the table as the first one made it. */
  lemma RescaledAgain(scaling: Scaling, column: seq<real>)
    requires column != [] && Spread(scaling, Summary(scaling, column).value) != 0.0
    ensures var s := ScaleAll(scaling, Summary(scaling, column).value, column);
      && Summary(scaling, s) == Ok((0.0, 1.0))
      && ScaleAll(scaling, (0.0, 1.0), s) == s
  {
    var pair := Summary(scaling, column).value;
    var s := ScaleAll(scaling, pair, column);
    if scaling == Normalization {
      NormalizedBounds(column, pair.0, pair.1);
    } else {
      StandardizedSummary(column, pair.0, pair.1);
    }
    ScaleByUnit(scaling, s);
  }

  lemma StandardizedSummary(column: seq<real>, m: real, asd: real)
    requires column != [] && m == Stats.Median(column)
    requires asd == Stats.AbsoluteStandardDeviation(m, column) && asd != 0.0
    ensures Summary(Standardization, ScaleAll(Standardization, (m, asd), column)) == Ok((0.0, 1.0))
  {
    var s := ScaleAll(Standardization, (m, asd), column);
    var t := Stats.Scores(column, m, asd);
    forall k | 0 <= k < |column| ensures s[k] == t[k] {
      assert Spread(Standardization, (m, asd)) == asd;
    }
    assert s == t;
    Stats.ScoredMedianIsZero(column, m, asd);
    Stats.ScoredDeviationIsOne(column, m, asd);
  }

  /** The pair (0, 1) rescales nothing. */
  lemma ScaleByUnit(scaling: Scaling, s: seq<real>)
    ensures ScaleAll(scaling, (0.0, 1.0), s) == s
  {
    var t := ScaleAll(scaling, (0.0, 1.0), s);
    forall k | 0 <= k < |s| ensures t[k] == s[k] {
      assert Spread(scaling, (0.0, 1.0)) == 1.0;
    }
  }

  /** `normalize_column(col)` / `standardize_column(col)` rewrite only entry
      `col` of each row, to the rescaled value, and record one pair. */
  lemma ColumnStepChanges(scaling: Scaling, summary: seq<real> -> Result<(real, real)>, data: seq<Item>, pairs: seq<(real, real)>, col: nat)
    requires ColumnStep(scaling, summary, data, pairs, col).outcome.Ok?
    ensures var after := ColumnStep(scaling, summary, data, pairs, col);
      && HasColumn(data, col) && summary(Column(data, col)).Ok?
      && var pair := summary(Column(data, col)).value;
      && after.pairs == pairs + [pair]
      && |after.data| == |data|
      && (forall k :: 0 <= k < |data| ==>
            && after.data[k].classification == data[k].classification
            && after.data[k].ignore == data[k].ignore
            && |after.data[k].vector| == |data[k].vector|
            && after.data[k].vector[col] == Scale(scaling, pair, data[k].vector[col])
            && forall j :: 0 <= j < |data[k].vector| && j != col ==> after.data[k].vector[j] == data[k].vector[j])
  {}

  /** Replacing one column leaves every other column as it was. */
  lemma OtherColumns(data: seq<Item>, col: nat, values: seq<real>, j: nat)
    requires HasColumn(data, col) && |values| == |data| && HasColumn(data, j) && j != col
    ensures HasColumn(WithColumn(data, col, values), j)
    ensures Column(WithColumn(data, col, values), j) == Column(data, j)
  {}

  /** Replacing a column gives that column back. */
  lemma SameColumn(data: seq<Item>, col: nat, values: seq<real>)
    requires HasColumn(data, col) && |values| == |data|
    ensures HasColumn(WithColumn(data, col, values), col)
    ensures Column(WithColumn(data, col, values), col) == values
  {}

  /** Rescaling columns `col` to `d - 1` one after the other succeeds
      exactly when each of them exists, has a pair and has a non-zero
      divisor. */
  lemma {:induction false} ColumnsFromDefined(scaling: Scaling, summary: seq<real> -> Result<(real, real)>, data: seq<Item>, pairs: seq<(real, real)>, col: nat, d: nat)
    requires col <= d
    ensures ColumnsFrom(scaling, summary, data, pairs, col, d).outcome.Ok? <==>
      forall j :: col <= j < d ==>
        HasColumn(data, j) && summary(Column(data, j)).Ok? && Spread(scaling, summary(Column(data, j)).value) != 0.0
    decreases d - col
  {
    if col < d {
      var step := ColumnStep(scaling, summary, data, pairs, col);
      if step.outcome.Ok? {
        ColumnStepChanges(scaling, summary, data, pairs, col);
        var pair := summary(Column(data, col)).value;
        var values := ScaleAll(scaling, pair, Column(data, col));
        assert step.data == WithColumn(data, col, values);
        ColumnsFromDefined(scaling, summary, step.data, step.pairs, col + 1, d);
        forall j | col < j < d
          ensures HasColumn(data, j) <==> HasColumn(step.data, j)
          ensures HasColumn(data, j) ==> Column(step.data, j) == Column(data, j)
        {
          if HasColumn(data, j) {
            OtherColumns(data, col, values, j);
          }
        }
        assert ColumnsFrom(scaling, summary, data, pairs, col, d) == ColumnsFrom(scaling, summary, step.data, step.pairs, col + 1, d);
      }
    }
  }

  /** After a successful rescaling of columns `col` to `d - 1`, column j of
      the result is column j of the input rescaled by its own pair, and the
      pairs are recorded in column order after the earlier ones. */
  lemma {:induction false} ColumnsFromRescales(scaling: Scaling, summary: seq<real> -> Result<(real, real)>, data: seq<Item>, pairs: seq<(real, real)>, col: nat, d: nat)
    requires col <= d
    requires ColumnsFrom(scaling, summary, data, pairs, col, d).outcome.Ok?
    ensures Rescaled(scaling, summary, data, pairs, col, d, ColumnsFrom(scaling, summary, data, pairs, col, d))
    decreases d - col
  {
    if col < d {
      var step := ColumnStep(scaling, summary, data, pairs, col);
      ColumnStepChanges(scaling, summary, data, pairs, col);
      ColumnsFromRescales(scaling, summary, step.data, step.pairs, col + 1, d);
      var after := ColumnsFrom(scaling, summary, data, pairs, col, d);
      assert after == ColumnsFrom(scaling, summary, step.data, step.pairs, col + 1, d);
      var pair := summary(Column(data, col)).value;
      var values := ScaleAll(scaling, pair, Column(data, col));
      assert step.data == WithColumn(data, col, values);
      assert HasColumn(after.data, col) && Column(after.data, col) == values by {
        SameColumn(data, col, values);
        ColumnsFromKeeps(scaling, summary, step.data, step.pairs, col + 1, d, col);
      }
      RescaledStep(scaling, summary, data, pairs, col, d, step, after);
    }
  }

  /** `after` holds the rows of `data` with columns `col` to `d - 1` each
      rescaled by its own pair, and the pairs after `pairs` in column
      order. */
  ghost predicate Rescaled(scaling: Scaling, summary: seq<real> -> Result<(real, real)>, data: seq<Item>,
                           pairs: seq<(real, real)>, col: nat, d: nat, after: Columns)
    requires col <= d
  {
    && |after.data| == |data| && |after.pairs| == |pairs| + (d - col)
    && after.pairs[..|pairs|] == pairs
    && forall j :: col <= j < d ==>
         && HasColumn(data, j) && HasColumn(after.data, j)
         && summary(Column(data, j)).Ok?
         && after.pairs[|pairs| + (j - col)] == summary(Column(data, j)).value
         && Spread(scaling, after.pairs[|pairs| + (j - col)]) != 0.0
         && Column(after.data, j) == ScaleAll(scaling, after.pairs[|pairs| + (j - col)], Column(data, j))
  }

  /** Column `col` rescaled first, then the columns after it. */
  lemma RescaledStep(scaling: Scaling, summary: seq<real> -> Result<(real, real)>, data: seq<Item>,
                     pairs: seq<(real, real)>, col: nat, d: nat, step: Columns, after: Columns)
    requires col < d && HasColumn(data, col) && summary(Column(data, col)).Ok?
    requires var pair := summary(Column(data, col)).value;
      && Spread(scaling, pair) != 0.0
      && step.pairs == pairs + [pair]
      && step.data == WithColumn(data, col, ScaleAll(scaling, pair, Column(data, col)))
      && HasColumn(after.data, col) && Column(after.data, col) == ScaleAll(scaling, pair, Column(data, col))
    requires Rescaled(scaling, summary, step.data, step.pairs, col + 1, d, after)
    ensures Rescaled(scaling, summary, data, pairs, col, d, after)
  {
    var pair := summary(Column(data, col)).value;
    var values := ScaleAll(scaling, pair, Column(data, col));
    forall j | col < j < d && HasColumn(step.data, j)
      ensures HasColumn(data, j) && Column(step.data, j) == Column(data, j)
    {
      assert HasColumn(data, j);
      OtherColumns(data, col, values, j);
    }
    assert after.pairs[..|step.pairs|] == step.pairs;
    assert after.pairs[|pairs|] == pair;
    assert after.pairs[..|pairs|] == after.pairs[..|step.pairs|][..|pairs|];
    forall j | col <= j < d
      ensures && HasColumn(data, j) && HasColumn(after.data, j)
              && summary(Column(data, j)).Ok?
              && after.pairs[|pairs| + (j - col)] == summary(Column(data, j)).value
              && Spread(scaling, after.pairs[|pairs| + (j - col)]) != 0.0
              && Column(after.data, j) == ScaleAll(scaling, after.pairs[|pairs| + (j - col)], Column(data, j))
    {
      if j > col {
        assert |pairs| + (j - col) == |step.pairs| + (j - (col + 1));
      }
    }
  }

  /** Rescaling the columns from `col` on leaves the columns before it. */
  lemma {:induction false} ColumnsFromKeeps(scaling: Scaling, summary: seq<real> -> Result<(real, real)>, data: seq<Item>, pairs: seq<(real, real)>, col: nat, d: nat, j: nat)
    requires j < col && HasColumn(data, j)
    ensures HasColumn(ColumnsFrom(scaling, summary, data, pairs, col, d).data, j)
    ensures Column(ColumnsFrom(scaling, summary, data, pairs, col, d).data, j) == Column(data, j)
    decreases d - col
  {
    if col < d {
      var step := ColumnStep(scaling, summary, data, pairs, col);
      if step.outcome.Ok? {
        var pair := summary(Column(data, col)).value;
        var values := ScaleAll(scaling, pair, Column(data, col));
        assert step.data == WithColumn(data, col, values);
        OtherColumns(data, col, values, j);
        ColumnsFromKeeps(scaling, summary, step.data, step.pairs, col + 1, d, j);
        assert ColumnsFrom(scaling, summary, data, pairs, col, d) == ColumnsFrom(scaling, summary, step.data, step.pairs, col + 1, d);
        assert HasColumn(ColumnsFrom(scaling, summary, data, pairs, col, d).data, j);
        assert Column(ColumnsFrom(scaling, summary, data, pairs, col, d).data, j) == Column(step.data, j);
      } else {
        assert ColumnsFrom(scaling, summary, data, pairs, col, d) == step;
        assert step.data == data;
        assert HasColumn(ColumnsFrom(scaling, summary, data, pairs, col, d).data, j);
        assert Column(ColumnsFrom(scaling, summary, data, pairs, col, d).data, j) == Column(data, j);
      }
    } else {
      assert HasColumn(ColumnsFrom(scaling, summary, data, pairs, col, d).data, j);
      assert Column(ColumnsFrom(scaling, summary, data, pairs, col, d).data, j) == Column(data, j);
    }
  }

  /** The rows keep their class, their comments and their length whatever
      the outcome: only numbers inside the vectors change. */
  lemma {:induction false} ColumnsFromShape(scaling: Scaling, summary: seq<real> -> Result<(real, real)>, data: seq<Item>, pairs: seq<(real, real)>, col: nat, d: nat)
    ensures var after := ColumnsFrom(scaling, summary, data, pairs, col, d);
      && |after.data| == |data|
      && forall k :: 0 <= k < |data| ==>
           && after.data[k].classification == data[k].classification
           && after.data[k].ignore == data[k].ignore
           && |after.data[k].vector| == |data[k].vector|
    decreases d - col
  {
    if col < d {
      var step := ColumnStep(scaling, summary, data, pairs, col);
      if step.outcome.Ok? {
        ColumnStepChanges(scaling, summary, data, pairs, col);
        ColumnsFromShape(scaling, summary, step.data, step.pairs, col + 1, d);
      }
    }
  }

  // ---------------------------------------------------------------------
  // Rescaling a query vector

  /** `normalize_vector` / `standardize_vector`: entry i rescaled by the
      i-th recorded pair. The first entry that fails decides the error: a
      zero divisor, or an entry past the recorded pairs. */
  function ScaledVector(scaling: Scaling, pairs: seq<(real, real)>, vector: seq<real>): Result<seq<real>>
  {
    if exists i :: 0 <= i < |vector| && i < |pairs| && Spread(scaling, pairs[i]) == 0.0 then Err(ZeroDivisionError)
    else if |vector| > |pairs| then Err(IndexError)
    else Ok(seq(|vector|, i requires 0 <= i < |vector| => Scale(scaling, pairs[i], vector[i])))
  }

  /** The loop of `normalize_vector` / `standardize_vector` over a copy of
      the vector. */
  method RescaleVector(scaling: Scaling, pairs: seq<(real, real)>, vector: seq<real>) returns (r: Result<seq<real>>)
    ensures r == ScaledVector(scaling, pairs, vector)
  {
    var copy := vector;
    for i := 0 to |copy|
      invariant |copy| == |vector| && i <= |pairs|
      invariant forall j :: 0 <= j < i ==> j < |pairs| && Spread(scaling, pairs[j]) != 0.0 && copy[j] == Scale(scaling, pairs[j], vector[j])
      invariant forall j :: i <= j < |copy| ==> copy[j] == vector[j]
    {
      if i >= |pairs| {
        return Err(IndexError);
      }
      if Spread(scaling, pairs[i]) == 0.0 {
        return Err(ZeroDivisionError);
      }
      copy := copy[i := (copy[i] - pairs[i].0) / Spread(scaling, pairs[i])];
    }
    assert copy == seq(|vector|, i requires 0 <= i < |vector| => Scale(scaling, pairs[i], vector[i]));
    return Ok(copy);
  }

  /** With the pairs recorded by rescaling every column of a table, a row
      of that table rescales to the row the table now holds. */
  lemma TrainingRowRescaled(scaling: Scaling, summary: seq<real> -> Result<(real, real)>, data: seq<Item>, d: nat, k: int)
    requires 0 <= k < |data| && |data[k].vector| == d
    requires ColumnsFrom(scaling, summary, data, [], 0, d).outcome.Ok?
    ensures var after := ColumnsFrom(scaling, summary, data, [], 0, d);
      k < |after.data| && ScaledVector(scaling, after.pairs, data[k].vector) == Ok(after.data[k].vector)
  {
    var after := ColumnsFrom(scaling, summary, data, [], 0, d);
    ColumnsFromRescales(scaling, summary, data, [], 0, d);
    ColumnsFromShape(scaling, summary, data, [], 0, d);
    var v, w := data[k].vector, after.data[k].vector;
    forall j | 0 <= j < d
      ensures Spread(scaling, after.pairs[j]) != 0.0 && w[j] == Scale(scaling, after.pairs[j], v[j])
    {
      RowEntryRescaled(scaling, data, after.data, after.pairs[j], j, k);
    }
    assert !exists i :: 0 <= i < |v| && i < |after.pairs| && Spread(scaling, after.pairs[i]) == 0.0;
    assert w == seq(|v|, i requires 0 <= i < |v| => Scale(scaling, after.pairs[i], v[i]));
  }

  /** Entry `col` of row `k` after a column rescaling, read through the
      column. */
  lemma RowEntryRescaled(scaling: Scaling, data: seq<Item>, after: seq<Item>, pair: (real, real), col: nat, k: int)
    requires HasColumn(data, col) && HasColumn(after, col) && 0 <= k < |data| == |after|
    requires Spread(scaling, pair) != 0.0
    requires Column(after, col) == ScaleAll(scaling, pair, Column(data, col))
    ensures after[k].vector[col] == Scale(scaling, pair, data[k].vector[col])
  {
    assert Column(after, col)[k] == after[k].vector[col];
  }

  /** The same for a table rescaled by `normalize_columns` or
      `standardize_columns`. */
  lemma TrainingRowScaled(scaling: Scaling, data: seq<Item>, k: int)
    requires data != [] && 0 <= k < |data| && |data[k].vector| == |data[0].vector|
    requires AllColumns(scaling, data, []).outcome.Ok?
    ensures var after := AllColumns(scaling, data, []);
      k < |after.data| && ScaledVector(scaling, after.pairs, data[k].vector) == Ok(after.data[k].vector)
  {
    TrainingRowRescaled(scaling, Summarize(scaling), data, |data[0].vector|, k);
  }

  // ---------------------------------------------------------------------
  // Distances and neighbours

  /** `euclidean(vector1, vector2)`: the root of the summed squared
      differences. Python 2 `map` pads the shorter vector with None, and
      arithmetic on None raises TypeError. */
  function Euclidean(root: real -> real, vector1: seq<real>, vector2: seq<real>): (r: Result<real>)
    ensures r.Ok? <==> |vector1| == |vector2|
  {
    if |vector1| != |vector2| then Err(TypeError)
    else Ok(root(Sum(Clustering.SquaredDifferences(vector1, vector2))))
  }

  /** `manhattan(vector1, vector2)`: the summed absolute differences, with
      the same padding failure. */
  function Manhattan(vector1: seq<real>, vector2: seq<real>): (r: Result<real>)
    ensures r.Ok? <==> |vector1| == |vector2|
  {
    if |vector1| != |vector2| then Err(TypeError)
    else Ok(Sum(ContentRecommending.AbsDifferences(vector1, vector2)))
  }

  /** Both distances are symmetric. */
  lemma DistancesSymmetric(root: real -> real, vector1: seq<real>, vector2: seq<real>)
    ensures Euclidean(root, vector1, vector2) == Euclidean(root, vector2, vector1)
    ensures Manhattan(vector1, vector2) == Manhattan(vector2, vector1)
  {
    if |vector1| == |vector2| {
      Clustering.ManhattanSymmetric(root, vector1, vector2);
      ContentRecommending.ManhattanSymmetric(vector1, vector2);
    }
  }

  /** A vector is at distance 0 from itself, and the Manhattan distance is
      0 only between equal vectors. */
  lemma DistancesZero(root: real -> real, vector1: seq<real>, vector2: seq<real>)
    requires root(0.0) == 0.0
    ensures Euclidean(root, vector1, vector1) == Ok(0.0)
    ensures Manhattan(vector1, vector2) == Ok(0.0) <==> vector1 == vector2
  {
    Clustering.ManhattanSelf(root, vector1);
    if |vector1| == |vector2| {
      ContentRecommending.ManhattanZero(vector1, vector2);
      assert vector2[..|vector1|] == vector2;
    }
  }

  /** Python's `<=` on a pair whose first components compare by the strict
      order `lt` and whose second components compare by `le`. */
  function ThenBy<A(==), B>(lt: (A, A) -> bool, le: (B, B) -> bool): ((A, B), (A, B)) -> bool
  {
    (x: (A, B), y: (A, B)) => lt(x.0, y.0) || (x.0 == y.0 && le(x.1, y.1))
  }

  /** The strict order `<` of a non-strict one. */
  function Strictly<T(==)>(le: (T, T) -> bool): (T, T) -> bool
  {
    (x: T, y: T) => le(x, y) && x != y
  }

  /** Python's `<=` on sequences whose elements compare by `lt`. */
  function LexOrder<T(==)>(lt: (T, T) -> bool): (seq<T>, seq<T>) -> bool
  {
    (a: seq<T>, b: seq<T>) => LexLe(a, b, lt)
  }

  lemma ThenByTotalOrder<A(!new), B(!new)>(lt: (A, A) -> bool, le: (B, B) -> bool)
    requires StrictTotal(lt) && TotalOrder(le)
    ensures TotalOrder(ThenBy(lt, le))
  {
    var t := ThenBy(lt, le);
    forall x: (A, B), y: (A, B) ensures t(x, y) || t(y, x) {
      if x.0 == y.0 {
        assert le(x.1, y.1) || le(y.1, x.1);
      } else {
        assert lt(x.0, y.0) || lt(y.0, x.0);
      }
    }
    forall x: (A, B), y: (A, B), z: (A, B) | t(x, y) && t(y, z) ensures t(x, z) {
      if lt(x.0, y.0) && lt(y.0, z.0) {
        assert lt(x.0, z.0);
      } else if x.0 == y.0 && y.0 == z.0 {
        assert le(x.1, z.1);
      }
    }
    forall x: (A, B), y: (A, B) | t(x, y) && t(y, x) ensures x == y {
      assert x.0 == y.0;
    }
  }

  lemma StrictlyTotal<T(!new)>(le: (T, T) -> bool)
    requires TotalOrder(le)
    ensures StrictTotal(Strictly(le))
  {}

  lemma LexOrderTotal<T(!new)>(lt: (T, T) -> bool)
    requires StrictTotal(lt)
    ensures TotalOrder(LexOrder(lt))
  {
    LexTotalOrder(lt);
    assert forall a: seq<T>, b: seq<T> :: LexOrder(lt)(a, b) == LexLe(a, b, lt);
  }

  /** A row as the tuple Python compares: `(classification, vector, ignore)`. */
  function ItemKey(item: Item): (string, (seq<real>, seq<string>))
  {
    (item.classification, (item.vector, item.ignore))
  }

  /** The order of those tuples: strings by character, vectors by float,
      comment lists by string. */
  function KeyLe(): ((string, (seq<real>, seq<string>)), (string, (seq<real>, seq<string>))) -> bool
  {
    ThenBy(Strictly(LexOrder(CharLt)), ThenBy(Strictly(LexOrder(RealLt)), LexOrder(StrLt)))
  }

  /** `sorted` and `min` on `(distance, row)` tuples. */
  const NeighborLe: ((real, Item), (real, Item)) -> bool :=
    (a: (real, Item), b: (real, Item)) => ThenBy(RealLt, KeyLe())((a.0, ItemKey(a.1)), (b.0, ItemKey(b.1)))

  lemma KeyLeTotalOrder()
    ensures TotalOrder(KeyLe())
  {
    CharLtStrictTotal();
    RealLtStrictTotal();
    StrLtStrictTotal();
    LexOrderTotal(CharLt);
    LexOrderTotal(RealLt);
    LexOrderTotal(StrLt);
    StrictlyTotal(LexOrder(CharLt));
    StrictlyTotal(LexOrder(RealLt));
    ThenByTotalOrder(Strictly(LexOrder(RealLt)), LexOrder(StrLt));
    ThenByTotalOrder(Strictly(LexOrder(CharLt)), ThenBy(Strictly(LexOrder(RealLt)), LexOrder(StrLt)));
  }

  /** Distances and rows compare totally, so `sorted` and `min` have one
      answer. */
  lemma NeighborLeTotalOrder()
    ensures TotalOrder(NeighborLe)
  {
    KeyLeTotalOrder();
    RealLtStrictTotal();
    ThenByTotalOrder(RealLt, KeyLe());
    var le := ThenBy(RealLt, KeyLe());
    forall a: (real, Item), b: (real, Item) | NeighborLe(a, b) && NeighborLe(b, a) ensures a == b {
      assert le((a.0, ItemKey(a.1)), (b.0, ItemKey(b.1))) && le((b.0, ItemKey(b.1)), (a.0, ItemKey(a.1)));
      assert ItemKey(a.1) == ItemKey(b.1);
    }
    forall a: (real, Item), b: (real, Item), c: (real, Item) | NeighborLe(a, b) && NeighborLe(b, c)
      ensures NeighborLe(a, c)
    {
      assert le((a.0, ItemKey(a.1)), (b.0, ItemKey(b.1))) && le((b.0, ItemKey(b.1)), (c.0, ItemKey(c.1)));
    }
    forall a: (real, Item), b: (real, Item) ensures NeighborLe(a, b) || NeighborLe(b, a) {
      assert le((a.0, ItemKey(a.1)), (b.0, ItemKey(b.1))) || le((b.0, ItemKey(b.1)), (a.0, ItemKey(a.1)));
    }
  }

  /** `[(self.euclidean(vector, v[1]), v) for v in self.data]`. */
  function Measured(root: real -> real, data: seq<Item>, vector: seq<real>): Result<seq<(real, Item)>>
  {
    if exists k :: 0 <= k < |data| && |data[k].vector| != |vector| then Err(TypeError)
    else Ok(seq(|data|, k requires 0 <= k < |data| => (Euclidean(root, vector, data[k].vector).value, data[k])))
  }

  /** `nearest_neighbors(vector)`: the measured rows, sorted. */
  function NearestNeighbors(root: real -> real, data: seq<Item>, vector: seq<real>): Result<seq<(real, Item)>>
  {
    var measured :- Measured(root, data, vector);
    Ok(Sort(measured, NeighborLe))
  }

  /** `nearest_neighbor(vector)`: `min` of the list, which fails on an
      empty table; the minimum of a sorted list is its head. */
  function NearestNeighbor(root: real -> real, data: seq<Item>, vector: seq<real>): Result<(real, Item)>
  {
    var neighbors :- NearestNeighbors(root, data, vector);
    if neighbors == [] then Err(ValueError) else Ok(neighbors[0])
  }

  /** The neighbour list holds every row once with its distance, nearest
      first. */
  lemma NearestNeighborsSorted(root: real -> real, data: seq<Item>, vector: seq<real>)
    requires Measured(root, data, vector).Ok?
    ensures var list := NearestNeighbors(root, data, vector).value;
      && SortedBy(list, NeighborLe)
      && multiset(list) == multiset(Measured(root, data, vector).value)
      && |list| == |data|
  {
    NeighborLeTotalOrder();
    SortSorted(Measured(root, data, vector).value, NeighborLe);
  }

  /** The nearest neighbour is a measured row that no other measured row
      precedes, and it is the only one: `min` finds it whatever the order
      of the table. It exists exactly when every row has the query's length
      and the table is not empty. */
  lemma NearestNeighborIsLeast(root: real -> real, data: seq<Item>, vector: seq<real>)
    ensures NearestNeighbor(root, data, vector).Ok? <==>
      data != [] && forall k :: 0 <= k < |data| ==> |data[k].vector| == |vector|
    ensures NearestNeighbor(root, data, vector).Ok? ==>
      var nearest, measured := NearestNeighbor(root, data, vector).value, Measured(root, data, vector).value;
      && nearest in measured
      && (forall e :: e in measured ==> NeighborLe(nearest, e))
      && (forall e :: e in measured && (forall f :: f in measured ==> NeighborLe(e, f)) ==> e == nearest)
  {
    if NearestNeighbor(root, data, vector).Ok? {
      var measured := Measured(root, data, vector).value;
      var list := NearestNeighbors(root, data, vector).value;
      NearestNeighborsSorted(root, data, vector);
      NeighborLeTotalOrder();
      assert list[0] in multiset(measured);
      forall e | e in measured ensures NeighborLe(list[0], e) {
        assert e in multiset(list);
        var i :| 0 <= i < |list| && list[i] == e;
        if i == 0 {
          assert NeighborLe(e, e);
        }
      }
    }
  }

  /** What `classify` answers once the table's columns were rescaled into
      `after`: the query rescaled by the recorded pairs, then the class of
      the nearest row. */
  function Classification(scaling: Scaling, after: Columns, vector: seq<real>, root: real -> real): Result<string>
  {
    if after.outcome.Err? then Err(after.outcome.error)
    else
      match ScaledVector(scaling, after.pairs, vector)
      case Err(e) => Err(e)
      case Ok(scaled) =>
        match NearestNeighbor(root, after.data, scaled)
        case Err(e) => Err(e)
        case Ok(nearest) => Ok(nearest.1.classification)
  }

  /** The nearest neighbour of a row of the table is at distance 0 from
      it, when the root is 0 at 0 and never negative. */
  lemma NearestToRow(root: real -> real, rows: seq<Item>, k: int)
    requires 0 <= k < |rows| && forall m :: 0 <= m < |rows| ==> |rows[m].vector| == |rows[k].vector|
    requires root(0.0) == 0.0 && forall x :: root(x) >= 0.0
    ensures NearestNeighbor(root, rows, rows[k].vector).Ok?
    ensures exists m :: (0 <= m < |rows| && NearestNeighbor(root, rows, rows[k].vector).value.1 == rows[m] &&
                         Euclidean(root, rows[k].vector, rows[m].vector) == Ok(0.0))
  {
    var w := rows[k].vector;
    assert Measured(root, rows, w).Ok?;
    NearestNeighborIsLeast(root, rows, w);
    var measured := Measured(root, rows, w).value;
    var nearest := NearestNeighbor(root, rows, w).value;
    var m :| 0 <= m < |measured| && measured[m] == nearest;
    MeasuredAt(root, rows, w, k);
    MeasuredAt(root, rows, w, m);
    DistancesZero(root, w, w);
    NonNegativeFirst(nearest, measured[k]);
  }

  /** Entry i of the measured list is row i with its distance. */
  lemma MeasuredAt(root: real -> real, rows: seq<Item>, vector: seq<real>, i: int)
    requires Measured(root, rows, vector).Ok? && 0 <= i < |rows|
    ensures |Measured(root, rows, vector).value| == |rows|
    ensures Euclidean(root, vector, rows[i].vector).Ok?
    ensures Measured(root, rows, vector).value[i] == (Euclidean(root, vector, rows[i].vector).value, rows[i])
  {}

  /** A non-negative distance that precedes a zero distance is zero. */
  lemma NonNegativeFirst(a: (real, Item), b: (real, Item))
    requires NeighborLe(a, b) && b.0 == 0.0 && a.0 >= 0.0
    ensures a.0 == 0.0
  {
    assert ThenBy(RealLt, KeyLe())((a.0, ItemKey(a.1)), (b.0, ItemKey(b.1)));
  }

  /** Classifying a row of the table, after its columns were rescaled,
      answers the class of a row at distance 0 from it: the row itself or
      one whose rescaled vector is as near. */
  lemma TrainingRowClassified(scaling: Scaling, data: seq<Item>, k: int, root: real -> real)
    requires data != [] && 0 <= k < |data|
    requires forall m :: 0 <= m < |data| ==> |data[m].vector| == |data[0].vector|
    requires AllColumns(scaling, data, []).outcome.Ok?
    requires root(0.0) == 0.0 && forall x :: root(x) >= 0.0
    ensures var after := AllColumns(scaling, data, []);
      exists m :: 0 <= m < |data| && |after.data| == |data|
        && Classification(scaling, after, data[k].vector, root) == Ok(data[m].classification)
        && Euclidean(root, after.data[k].vector, after.data[m].vector) == Ok(0.0)
  {
    var after := AllColumns(scaling, data, []);
    TrainingRowScaled(scaling, data, k);
    ColumnsFromShape(scaling, Summarize(scaling), data, [], 0, |data[0].vector|);
    NearestToRow(root, after.data, k);
    var m :| 0 <= m < |after.data| && NearestNeighbor(root, after.data, after.data[k].vector).value.1 == after.data[m] &&
      Euclidean(root, after.data[k].vector, after.data[m].vector) == Ok(0.0);
    assert after.data[m].classification == data[m].classification;
  }

  // ---------------------------------------------------------------------
  // The classifier

  class Classifier {
    var data: seq<Item>
    var format: seq<string>
    var medianAndDeviation: seq<(real, real)>
    var normalizeMinMax: seq<(real, real)>

    constructor(data: seq<Item>)
      ensures this.data == data && format == [] && medianAndDeviation == [] && normalizeMinMax == []
    {
      this.data := data;
      format := [];
      medianAndDeviation := [];
      normalizeMinMax := [];
    }

    /** `load_data` on the file's lines: the first line is the format, each
        later line appends one row. An empty file fails on `lines[0]` with
        the table already emptied. */
    method LoadData(lines: seq<string>, parse: string -> Option<real>) returns (r: Result<()>)
      modifies this
      ensures lines == [] ==> r == Err(IndexError) && data == [] && format == old(format)
      ensures lines != [] ==>
        var loaded := LoadLines(SplitFields(lines[0]), lines[1..], parse, None);
        format == SplitFields(lines[0]) && data == loaded.items && r == loaded.outcome
      ensures medianAndDeviation == old(medianAndDeviation) && normalizeMinMax == old(normalizeMinMax)
    {
      data := [];
      if lines == [] {
        return Err(IndexError);
      }
      format := SplitFields(lines[0]);
      var rows: seq<Item> := [];
      var classification: Option<string> := None;
      for n := 1 to |lines|
        invariant n > 1 ==> rows != [] && classification == Some(rows[|rows| - 1].classification)
        invariant n == 1 ==> rows == [] && classification == None
        invariant format == SplitFields(lines[0])
        invariant medianAndDeviation == old(medianAndDeviation) && normalizeMinMax == old(normalizeMinMax)
        invariant var rest := LoadLines(format, lines[n..], parse, classification);
          LoadLines(format, lines[1..], parse, None) == Loaded(rows + rest.items, rest.outcome)
      {
        var fields := SplitFields(lines[n]);
        var gathered := GatherFields(format, fields, parse, classification);
        if gathered.Err? || gathered.value.classification.None? {
          LoadStops(format, lines, n, parse, classification, rows);
          data := rows;
          return Err(ParseLine(format, lines[n], parse, classification).error);
        }
        var item := Item(gathered.value.classification.value, gathered.value.vector, gathered.value.ignore);
        LoadGoesOn(format, lines, n, parse, classification, rows, item);
        rows := rows + [item];
        classification := Some(item.classification);
      }
      assert lines[|lines|..] == [];
      data := rows;
      return Ok(());
    }

    /** `normalize_column(col_number)`. */
    method NormalizeColumn(col: nat) returns (r: Result<()>)
      modifies this
      ensures Columns(r, data, normalizeMinMax) == ColumnStep(Normalization, Summarize(Normalization), old(data), old(normalizeMinMax), col)
      ensures format == old(format) && medianAndDeviation == old(medianAndDeviation)
    {
      var table := data;
      if !HasColumn(table, col) {
        return Err(IndexError);
      }
      var values := Column(table, col);
      SummaryOf(Normalization, values);
      if values == [] {
        return Err(ValueError);
      }
      var maxR := Stats.Max(values);
      var minR := Stats.Min(values);
      ColumnStepOk(Normalization, Summarize(Normalization), table, normalizeMinMax, col, (minR, maxR));
      normalizeMinMax := normalizeMinMax + [(minR, maxR)];
      if maxR - minR == 0.0 {
        // The first row divides by zero before any row is rewritten.
        return Err(ZeroDivisionError);
      }
      data := NormalizeRows(table, col, minR, maxR);
      return Ok(());
    }

    /** `normalize_columns()`: every column the first row has. */
    method NormalizeColumns() returns (r: Result<()>)
      modifies this
      ensures Columns(r, data, normalizeMinMax) == AllColumns(Normalization, old(data), old(normalizeMinMax))
      ensures format == old(format) && medianAndDeviation == old(medianAndDeviation)
    {
      if data == [] {
        return Err(IndexError);
      }
      var d := |data[0].vector|;
      for i := 0 to d
        invariant ColumnsFrom(Normalization, Summarize(Normalization), data, normalizeMinMax, i, d)
               == AllColumns(Normalization, old(data), old(normalizeMinMax))
        invariant format == old(format) && medianAndDeviation == old(medianAndDeviation)
      {
        var step := NormalizeColumn(i);
        if step.Err? {
          return step;
        }
      }
      return Ok(());
    }

    /** `normalize_vector(vector)`. */
    method NormalizeVector(vector: seq<real>) returns (r: Result<seq<real>>)
      ensures r == ScaledVector(Normalization, normalizeMinMax, vector)
    {
      r := RescaleVector(Normalization, normalizeMinMax, vector);
    }

    /** `standardize_column(col_number)`: the median and the absolute
        standard deviation of a copy of the column (which `median` sorts),
        then each entry's modified standard score against that copy. */
    method StandardizeColumn(col: nat) returns (r: Result<()>)
      modifies this
      ensures Columns(r, data, medianAndDeviation) == ColumnStep(Standardization, Summarize(Standardization), old(data), old(medianAndDeviation), col)
      ensures format == old(format) && normalizeMinMax == old(normalizeMinMax)
    {
      var table := data;
      if !HasColumn(table, col) {
        return Err(IndexError);
      }
      var pair, rows := StandardizeTable(table, col);
      SummaryOf(Standardization, Column(table, col));
      if pair.Err? {
        return Err(pair.error);
      }
      ColumnStepOk(Standardization, Summarize(Standardization), table, medianAndDeviation, col, pair.value);
      medianAndDeviation := medianAndDeviation + [pair.value];
      if rows.Err? {
        return Err(rows.error);
      }
      data := rows.value;
      return Ok(());
    }

    /** `standardize_columns()`: every column the first row has. */
    method StandardizeColumns() returns (r: Result<()>)
      modifies this
      ensures Columns(r, data, medianAndDeviation) == AllColumns(Standardization, old(data), old(medianAndDeviation))
      ensures format == old(format) && normalizeMinMax == old(normalizeMinMax)
    {
      if data == [] {
        return Err(IndexError);
      }
      var d := |data[0].vector|;
      for i := 0 to d
        invariant ColumnsFrom(Standardization, Summarize(Standardization), data, medianAndDeviation, i, d)
               == AllColumns(Standardization, old(data), old(medianAndDeviation))
        invariant format == old(format) && normalizeMinMax == old(normalizeMinMax)
      {
        var step := StandardizeColumn(i);
        if step.Err? {
          return step;
        }
      }
      return Ok(());
    }

    /** `standardize_vector(vector)`. */
    method StandardizeVector(vector: seq<real>) returns (r: Result<seq<real>>)
      ensures r == ScaledVector(Standardization, medianAndDeviation, vector)
    {
      r := RescaleVector(Standardization, medianAndDeviation, vector);
    }

    /** `classify(vector, strategy)`: rescale the table and the query with
        the chosen strategy, then read the class of the nearest row. Any
        other strategy name makes `standardize` return None; the distance
        then passes None to `map`, which cannot iterate it (TypeError),
        unless the table is empty and `min` fails first (ValueError). */
    method Classify(vector: seq<real>, strategy: Option<Scaling>, root: real -> real) returns (r: Result<string>)
      modifies this
      ensures format == old(format)
      ensures strategy.None? ==>
        && data == old(data) && normalizeMinMax == old(normalizeMinMax) && medianAndDeviation == old(medianAndDeviation)
        && r == Err(if data == [] then ValueError else TypeError)
      ensures strategy == Some(Normalization) ==>
        var after := AllColumns(Normalization, old(data), old(normalizeMinMax));
        && data == after.data && normalizeMinMax == after.pairs && medianAndDeviation == old(medianAndDeviation)
        && r == Classification(Normalization, after, vector, root)
      ensures strategy == Some(Standardization) ==>
        var after := AllColumns(Standardization, old(data), old(medianAndDeviation));
        && data == after.data && medianAndDeviation == after.pairs && normalizeMinMax == old(normalizeMinMax)
        && r == Classification(Standardization, after, vector, root)
    {
      if strategy.None? {
        if data == [] {
          return Err(ValueError);
        }
        return Err(TypeError);
      }
      var scaled: Result<seq<real>>;
      if strategy.value == Standardization {
        var columns := StandardizeColumns();
        if columns.Err? {
          return Err(columns.error);
        }
        scaled := StandardizeVector(vector);
      } else {
        var columns := NormalizeColumns();
        if columns.Err? {
          return Err(columns.error);
        }
        scaled := NormalizeVector(vector);
      }
      if scaled.Err? {
        return Err(scaled.error);
      }
      var nearest := NearestNeighbor(root, data, scaled.value);
      if nearest.Err? {
        return Err(nearest.error);
      }
      return Ok(nearest.value.1.classification);
    }
  }

  /** The first line that fails stops `load_data` with the rows before it. */
  lemma LoadStops(format: seq<string>, lines: seq<string>, n: int, parse: string -> Option<real>,
                  previous: Option<string>, data: seq<Item>)
    requires 1 <= n < |lines|
    requires ParseLine(format, lines[n], parse, previous).Err?
    requires var rest := LoadLines(format, lines[n..], parse, previous);
      LoadLines(format, lines[1..], parse, None) == Loaded(data + rest.items, rest.outcome)
    ensures LoadLines(format, lines[1..], parse, None)
         == Loaded(data, Err(ParseLine(format, lines[n], parse, previous).error))
  {
    assert lines[n..][0] == lines[n];
  }

  /** A line that parses appends its row and hands its class on. */
  lemma LoadGoesOn(format: seq<string>, lines: seq<string>, n: int, parse: string -> Option<real>,
                   previous: Option<string>, data: seq<Item>, item: Item)
    requires 1 <= n < |lines|
    requires ParseLine(format, lines[n], parse, previous) == Ok(item)
    requires var rest := LoadLines(format, lines[n..], parse, previous);
      LoadLines(format, lines[1..], parse, None) == Loaded(data + rest.items, rest.outcome)
    ensures var rest := LoadLines(format, lines[n + 1..], parse, Some(item.classification));
      LoadLines(format, lines[1..], parse, None) == Loaded(data + [item] + rest.items, rest.outcome)
  {
    assert lines[n..][0] == lines[n];
    assert lines[n..][1..] == lines[n + 1..];
  }

  /** The row loop of `normalize_column`: `for v in self.data`. */
  method NormalizeRows(table: seq<Item>, col: nat, minR: real, maxR: real) returns (rows: seq<Item>)
    requires HasColumn(table, col) && maxR - minR != 0.0
    ensures rows == WithColumn(table, col, ScaleAll(Normalization, (minR, maxR), Column(table, col)))
  {
    rows := table;
    for k := 0 to |rows|
      invariant |rows| == |table|
      invariant forall m :: 0 <= m < k ==> rows[m] == SetEntry(table[m], col, (table[m].vector[col] - minR) / (maxR - minR))
      invariant forall m :: k <= m < |rows| ==> rows[m] == table[m]
    {
      rows := rows[k := SetEntry(rows[k], col, (rows[k].vector[col] - minR) / (maxR - minR))];
    }
  }

  /** The work of `standardize_column` on the rows `table`: the median and
      the absolute standard deviation of a copy of the column (which
      `median` sorts), then the row loop. */
  method StandardizeTable(table: seq<Item>, col: nat) returns (pair: Result<(real, real)>, rows: Result<seq<Item>>)
    requires HasColumn(table, col)
    ensures pair == Summary(Standardization, Column(table, col))
    ensures pair.Ok? ==> rows == if Spread(Standardization, pair.value) == 0.0 then Err(ZeroDivisionError)
      else Ok(WithColumn(table, col, ScaleAll(Standardization, pair.value, Column(table, col))))
  {
    var column := Column(table, col);
    var values := new real[|column|](k requires 0 <= k < |column| => column[k]);
    assert values[..] == column;
    var median := ContentRecommending.Median(values);
    if median.Err? {
      return Err(median.error), Err(median.error);
    }
    SortedScores(column);
    var deviation := ContentRecommending.AbsoluteStandardDeviation(values);
    pair := Ok((median.value, deviation.value));
    rows := StandardizeRows(table, col, values);
  }

  /** The row loop of `standardize_column`: each entry's modified standard
      score against the sorted copy `values` of the column; a zero
      deviation fails on the first row. */
  method StandardizeRows(table: seq<Item>, col: nat, values: array<real>) returns (r: Result<seq<Item>>)
    requires HasColumn(table, col) && table != []
    requires values[..] == Stats.Sorted(Column(table, col))
    modifies values
    ensures values[..] == old(values[..])
    ensures var column := Column(table, col);
      var pair := (Stats.Median(column), Stats.AbsoluteStandardDeviation(Stats.Median(column), column));
      r == if pair.1 == 0.0 then Err(ZeroDivisionError) else Ok(WithColumn(table, col, ScaleAll(Standardization, pair, column)))
  {
    ghost var column := Column(table, col);
    ghost var median := Stats.Median(column);
    ghost var asd := Stats.AbsoluteStandardDeviation(median, column);
    ghost var pair := (median, asd);
    var rows := table;
    for k := 0 to |rows|
      invariant |rows| == |table|
      invariant values[..] == Stats.Sorted(column)
      invariant k > 0 ==> asd != 0.0
      invariant forall m :: 0 <= m < k ==> rows[m] == SetEntry(table[m], col, Scale(Standardization, pair, column[m]))
      invariant forall m :: k <= m < |rows| ==> rows[m] == table[m]
    {
      var score := StandardScoreOf(rows[k].vector[col], values, column, median, asd);
      if score.Err? {
        return Err(score.error);
      }
      rows := rows[k := SetEntry(rows[k], col, score.value)];
    }
    assert rows == WithColumn(table, col, ScaleAll(Standardization, pair, column));
    return Ok(rows);
  }

  /** One `modified_standard_score` call of the row loop on the sorted copy
      `values` of `column`: the standardising rescale of `x`, or the
      division by a zero deviation. */
  method StandardScoreOf(x: real, values: array<real>, ghost column: seq<real>, ghost median: real, ghost asd: real)
    returns (r: Result<real>)
    requires column != [] && values[..] == Stats.Sorted(column)
    requires median == Stats.Median(column) && asd == Stats.AbsoluteStandardDeviation(median, column)
    modifies values
    ensures values[..] == old(values[..])
    ensures r == if asd == 0.0 then Err(ZeroDivisionError) else Ok(Scale(Standardization, (median, asd), x))
  {
    SortedScores(column);
    r := ContentRecommending.ModifiedStandardScore(x, values);
  }

  /** The field loop of `load_data` on one line; `previous` is the value
      `classification` has when the line starts. */
  method GatherFields(format: seq<string>, fields: seq<string>, parse: string -> Option<real>,
                      previous: Option<string>) returns (r: Result<Gathered>)
    ensures r == ScanFields(format, fields, |fields|, parse, previous)
  {
    var classification := previous;
    var vector: seq<real> := [];
    var ignore: seq<string> := [];
    for i := 0 to |fields|
      invariant ScanFields(format, fields, i, parse, previous) == Ok(Gathered(classification, vector, ignore))
    {
      if i >= |format| {
        ScanFieldsStops(format, fields, i + 1, |fields|, parse, previous);
        return Err(IndexError);
      }
      if format[i] == "num" {
        var x := parse(fields[i]);
        if x.None? {
          ScanFieldsStops(format, fields, i + 1, |fields|, parse, previous);
          return Err(ValueError);
        }
        vector := vector + [x.value];
      } else if format[i] == "comment" {
        ignore := ignore + [fields[i]];
      } else if format[i] == "class" {
        classification := Some(fields[i]);
      }
    }
    return Ok(Gathered(classification, vector, ignore));
  }

  /** Once a field fails, the line fails with that error. */
  lemma {:induction false} ScanFieldsStops(format: seq<string>, fields: seq<string>, n: nat, m: nat,
                                           parse: string -> Option<real>, previous: Option<string>)
    requires n <= m <= |fields| && ScanFields(format, fields, n, parse, previous).Err?
    ensures ScanFields(format, fields, m, parse, previous) == ScanFields(format, fields, n, parse, previous)
    decreases m
  {
    if n < m {
      ScanFieldsStops(format, fields, n, m - 1, parse, previous);
    }
  }

  /** `Summarize` applied is `Summary`. */
  lemma SummaryOf(scaling: Scaling, column: seq<real>)
    ensures Summarize(scaling)(column) == Summary(scaling, column)
  {}

  /** The step once the column's pair is known. */
  lemma ColumnStepOk(scaling: Scaling, summary: seq<real> -> Result<(real, real)>, data: seq<Item>, pairs: seq<(real, real)>, col: nat, pair: (real, real))
    requires HasColumn(data, col) && summary(Column(data, col)) == Ok(pair)
    ensures Spread(scaling, pair) == 0.0 ==> ColumnStep(scaling, summary, data, pairs, col) == Columns(Err(ZeroDivisionError), data, pairs + [pair])
    ensures Spread(scaling, pair) != 0.0 ==>
      ColumnStep(scaling, summary, data, pairs, col) == Columns(Ok(()), WithColumn(data, col, ScaleAll(scaling, pair, Column(data, col))), pairs + [pair])
  {}

  /** The median and deviation of the sorted copy are those of the column,
      and the modified standard score is the standardising rescale. */
  lemma SortedScores(column: seq<real>)
    requires column != []
    ensures var sorted := Stats.Sorted(column);
      && Stats.Sorted(sorted) == sorted
      && Stats.Median(sorted) == Stats.Median(column)
      && Stats.AbsoluteStandardDeviation(Stats.Median(column), sorted) == Stats.AbsoluteStandardDeviation(Stats.Median(column), column)
    ensures forall m, asd, x :: asd != 0.0 ==> Stats.ModifiedStandardScore(m, asd, x) == Scale(Standardization, (m, asd), x)
  {
    Stats.SortedTwice(column);
    Stats.MedianOrderFree(column, Stats.Sorted(column));
    Stats.AbsoluteStandardDeviationOrderFree(Stats.Median(column), column, Stats.Sorted(column));
  }
}
