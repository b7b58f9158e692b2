/** The naive Bayes classifier: the attribute values of the training rows
    gathered per class and column, turned into value frequencies and class
    priors; a row is classified by the class whose prior times the product
    of its values' frequencies is largest. */
module NaiveBayesian {
  import opened Wrappers
  import opened Text
  import opened Sums
  import opened Lex
  import Stats
  import opened Reals
  import opened Sorting

  /** class -> column -> the column's values on that class's rows, in
      arrival order (`self.data` while rows are loaded). */
  type Values = map<string, map<string, seq<string>>>

  /** class -> column -> value -> frequency (`self.data` after
      `probabilities_from_data`). */
  type Tables = map<string, map<string, map<string, real>>>

  // ---------------------------------------------------------------------
  // Loading lines

  /** The columns other than the class column: the keys of every row's
      attributes. */
  function AttributeColumns(format: seq<string>): set<string>
  {
    set i | 0 <= i < |format| && format[i] != "class" :: format[i]
  }

  lemma AttributeColumnsNext(format: seq<string>, i: nat)
    requires i < |format|
    ensures AttributeColumns(format[..i + 1])
         == AttributeColumns(format[..i]) + (if format[i] != "class" then {format[i]} else {})
  {
    var before, after := format[..i], format[..i + 1];
    forall x | x in AttributeColumns(after)
      ensures x in AttributeColumns(before) + (if format[i] != "class" then {format[i]} else {})
    {
      var j :| 0 <= j < |after| && after[j] != "class" && after[j] == x;
      if j < i {
        assert before[j] == x;
      }
    }
    forall x | x in AttributeColumns(before)
      ensures x in AttributeColumns(after)
    {
      var j :| 0 <= j < |before| && before[j] != "class" && before[j] == x;
      assert after[j] == x;
    }
    if format[i] != "class" {
      assert after[i] == format[i];
    }
  }

  /** What a line's first columns give: the class field, each other
      column's field by name, and the fields that `float()` accepts, in
      order. */
  datatype Scanned = Scanned(classification: Option<string>, attributes: map<string, string>, vector: seq<real>)

  /** The column loop of `load_data_from_lines` over the first i columns
      (a later column of the same name overwrites an earlier one). */
  function Scan(format: seq<string>, fields: seq<string>, i: nat, parse: string -> Option<real>): (r: Scanned)
    requires i <= |format| && i <= |fields|
    ensures r.attributes.Keys == AttributeColumns(format[..i])
  {
    if i == 0 then Scanned(None, map[], [])
    else
      var s := Scan(format, fields, i - 1, parse);
      AttributeColumnsNext(format, i - 1);
      if format[i - 1] == "class" then s.(classification := Some(fields[i - 1]))
      else
        var parsed := if parse(fields[i - 1]).Some? then [parse(fields[i - 1]).value] else [];
        s.(attributes := s.attributes[format[i - 1] := fields[i - 1]], vector := s.vector + parsed)
  }

  /** One line: its fields (split on commas and cleaned), scanned over
      every column of the format. A line with fewer fields than columns
      raises; a line whose class field is missing or empty is skipped. */
  function LineRow(format: seq<string>, line: string, parse: string -> Option<real>): (r: Result<Option<Scanned>>)
    ensures r.Err? <==> |SplitFields(line)| < |format|
    ensures r.Err? ==> r.error == IndexError
    ensures r.Ok? && r.value.Some? ==>
      && r.value.value.classification.Some? && r.value.value.classification.value != ""
      && r.value.value.attributes.Keys == AttributeColumns(format)
  {
    var fields := SplitFields(line);
    if |fields| < |format| then Err(IndexError)
    else
      var s := Scan(format, fields, |format|, parse);
      assert format[..|format|] == format;
      if s.classification.None? || s.classification.value == "" then Ok(None) else Ok(Some(s))
  }

  /** The values of one column of one class, none when either is absent. */
  function Cell(data: Values, c: string, column: string): seq<string>
  {
    if c in data && column in data[c] then data[c][column] else []
  }

  /** `data.setdefault(c, {})`, then for every attribute
      `data[c].setdefault(key, []).append(value)`: each attribute's value
      goes at the end of its column, and nothing else changes. */
  function Absorb(data: Values, c: string, attributes: map<string, string>): Values
  {
    data[c := Merge(if c in data then data[c] else map[], attributes)]
  }

  /** A class's columns after one row: each of the row's values at the end
      of its column, a new column for a new attribute. */
  function Merge(columns: map<string, seq<string>>, attributes: map<string, string>): map<string, seq<string>>
  {
    map key | key in columns.Keys + attributes.Keys ::
      (if key in columns then columns[key] else []) + (if key in attributes then [attributes[key]] else [])
  }

  /** Absorbing adds class c, gives it the union of its old columns and the
      row's, and leaves the other classes alone. */
  lemma AbsorbKeys(data: Values, c: string, attributes: map<string, string>)
    ensures var r := Absorb(data, c, attributes);
      && r.Keys == data.Keys + {c}
      && r[c].Keys == (if c in data then data[c].Keys else {}) + attributes.Keys
      && forall d :: d in data && d != c ==> r[d] == data[d]
  {
  }

  /** Absorbing appends the row's value to its class's column and to no
      other cell. */
  lemma AbsorbCell(data: Values, c: string, attributes: map<string, string>, d: string, column: string)
    ensures Cell(Absorb(data, c, attributes), d, column)
         == Cell(data, d, column) + (if d == c && column in attributes then [attributes[column]] else [])
  {
  }

  /** Every class has exactly the given columns, all of the same length:
      each loaded row adds one value to each of them. */
  ghost predicate Rectangular(data: Values, columns: set<string>)
  {
    forall c :: c in data ==>
      && data[c].Keys == columns
      && forall a, b :: a in data[c] && b in data[c] ==> |data[c][a]| == |data[c][b]|
  }

  /** A row with every column keeps the table rectangular. */
  lemma AbsorbRectangular(data: Values, c: string, attributes: map<string, string>, columns: set<string>)
    requires Rectangular(data, columns) && attributes.Keys == columns
    ensures Rectangular(Absorb(data, c, attributes), columns)
  {
    var r := Absorb(data, c, attributes);
    AbsorbKeys(data, c, attributes);
    assert r[c].Keys == columns;
    forall a, b | a in r[c] && b in r[c]
      ensures |r[c][a]| == |r[c][b]|
    {
      AbsorbCell(data, c, attributes, c, a);
      AbsorbCell(data, c, attributes, c, b);
      assert Cell(r, c, a) == r[c][a] && Cell(r, c, b) == r[c][b];
      if c in data {
        assert Cell(data, c, a) == data[c][a] && Cell(data, c, b) == data[c][b];
      }
    }
    forall d | d in r
      ensures r[d].Keys == columns && forall a, b :: a in r[d] && b in r[d] ==> |r[d][a]| == |r[d][b]|
    {
      if d != c {
        assert r[d] == data[d];
      }
    }
  }

  /** What loading a run of lines leaves: the training values, the test
      rows and whether a line raised. */
  datatype Load = Load(data: Values, tests: seq<(string, seq<real>)>, outcome: Result<()>)

  /** `load_data_from_lines(lines, training)` from the given state: each
      kept line's attributes go into the values when training, its class
      and numbers onto the test rows otherwise; the lines before a
      failing line stay loaded. */
  function LoadLines(format: seq<string>, lines: seq<string>, parse: string -> Option<real>, training: bool,
                     data: Values, tests: seq<(string, seq<real>)>): Load
    decreases |lines|
  {
    if lines == [] then Load(data, tests, Ok(()))
    else
      match LineRow(format, lines[0], parse)
      case Err(e) => Load(data, tests, Err(e))
      case Ok(row) =>
        if row.None? then LoadLines(format, lines[1..], parse, training, data, tests)
        else if training then
          LoadLines(format, lines[1..], parse, training, Absorb(data, row.value.classification.value, row.value.attributes), tests)
        else
          LoadLines(format, lines[1..], parse, training, data, tests + [(row.value.classification.value, row.value.vector)])
  }

  /** The rows of the lines that are kept, up to the first line that
      raises. */
  function Rows(format: seq<string>, lines: seq<string>, parse: string -> Option<real>): seq<Scanned>
    decreases |lines|
  {
    if lines == [] then []
    else
      match LineRow(format, lines[0], parse)
      case Err(_) => []
      case Ok(row) => (if row.Some? then [row.value] else []) + Rows(format, lines[1..], parse)
  }

  /** The values rows of class c give column `column`, in row order. */
  function ColumnOf(rows: seq<Scanned>, c: string, column: string): seq<string>
    decreases |rows|
  {
    if rows == [] then []
    else
      var row := rows[0];
      (if row.classification == Some(c) && column in row.attributes then [row.attributes[column]] else [])
        + ColumnOf(rows[1..], c, column)
  }

  /** Rows that all carry a class. */
  ghost predicate Classified(rows: seq<Scanned>)
  {
    forall k :: 0 <= k < |rows| ==> rows[k].classification.Some?
  }

  /** The test rows rows give: class and numbers. */
  function TestRows(rows: seq<Scanned>): (r: seq<(string, seq<real>)>)
    requires Classified(rows)
    ensures |r| == |rows|
    ensures forall k :: 0 <= k < |rows| ==> r[k] == (rows[k].classification.value, rows[k].vector)
  {
    seq(|rows|, k requires 0 <= k < |rows| => (rows[k].classification.value, rows[k].vector))
  }

  lemma {:induction false} RowsClassified(format: seq<string>, lines: seq<string>, parse: string -> Option<real>)
    ensures forall k :: 0 <= k < |Rows(format, lines, parse)| ==>
      Rows(format, lines, parse)[k].classification.Some? && Rows(format, lines, parse)[k].classification.value != ""
    decreases |lines|
  {
    if lines != [] {
      RowsClassified(format, lines[1..], parse);
    }
  }

  /** A load raises exactly when some line has fewer fields than the
      format has columns. */
  lemma {:induction false} LoadOutcome(format: seq<string>, lines: seq<string>, parse: string -> Option<real>, training: bool,
                                       data: Values, tests: seq<(string, seq<real>)>)
    ensures LoadLines(format, lines, parse, training, data, tests).outcome.Ok?
        <==> forall k :: 0 <= k < |lines| ==> |SplitFields(lines[k])| >= |format|
    decreases |lines|
  {
    if lines != [] {
      var row := LineRow(format, lines[0], parse);
      var rest := lines[1..];
      assert forall k :: 0 <= k < |rest| ==> rest[k] == lines[k + 1];
      if row.Ok? {
        var s := row.value;
        if s.None? {
          LoadOutcome(format, rest, parse, training, data, tests);
        } else if training {
          LoadOutcome(format, rest, parse, training, Absorb(data, s.value.classification.value, s.value.attributes), tests);
        } else {
          LoadOutcome(format, rest, parse, training, data, tests + [(s.value.classification.value, s.value.vector)]);
        }
      }
    }
  }

  /** The values after absorbing each row in turn. */
  function AbsorbAll(data: Values, rows: seq<Scanned>): Values
    requires Classified(rows)
    decreases |rows|
  {
    if rows == [] then data
    else AbsorbAll(Absorb(data, rows[0].classification.value, rows[0].attributes), rows[1..])
  }

  /** Absorbing rows appends to each class's column the values of that
      class's rows, in row order. */
  lemma {:induction false} AbsorbAllCells(data: Values, rows: seq<Scanned>, c: string, column: string)
    requires Classified(rows)
    ensures Cell(AbsorbAll(data, rows), c, column) == Cell(data, c, column) + ColumnOf(rows, c, column)
    decreases |rows|
  {
    if rows == [] {
      assert Cell(data, c, column) + [] == Cell(data, c, column);
    } else {
      var r := rows[0];
      var next := Absorb(data, r.classification.value, r.attributes);
      var piece := if r.classification == Some(c) && column in r.attributes then [r.attributes[column]] else [];
      calc {
        Cell(AbsorbAll(data, rows), c, column);
        Cell(AbsorbAll(next, rows[1..]), c, column);
        { AbsorbAllCells(next, rows[1..], c, column); }
        Cell(next, c, column) + ColumnOf(rows[1..], c, column);
        { AbsorbCell(data, r.classification.value, r.attributes, c, column); }
        (Cell(data, c, column) + piece) + ColumnOf(rows[1..], c, column);
        Cell(data, c, column) + (piece + ColumnOf(rows[1..], c, column));
        Cell(data, c, column) + ColumnOf(rows, c, column);
      }
    }
  }

  /** Loading for training absorbs the kept rows and leaves the test rows
      alone. */
  lemma {:induction false} LoadTraining(format: seq<string>, lines: seq<string>, parse: string -> Option<real>,
                                        data: Values, tests: seq<(string, seq<real>)>)
    ensures Classified(Rows(format, lines, parse))
    ensures var l := LoadLines(format, lines, parse, true, data, tests);
      l.data == AbsorbAll(data, Rows(format, lines, parse)) && l.tests == tests
    decreases |lines|
  {
    RowsClassified(format, lines, parse);
    if lines != [] {
      var row := LineRow(format, lines[0], parse);
      var rest := lines[1..];
      if row.Ok? {
        RowsClassified(format, rest, parse);
        var later := Rows(format, rest, parse);
        if row.value.Some? {
          var r := row.value.value;
          var next := Absorb(data, r.classification.value, r.attributes);
          LoadTraining(format, rest, parse, next, tests);
          var rows := Rows(format, lines, parse);
          assert rows == [r] + later;
          assert rows[0] == r && rows[1..] == later;
          assert AbsorbAll(data, rows) == AbsorbAll(next, later);
          assert LoadLines(format, lines, parse, true, data, tests) == LoadLines(format, rest, parse, true, next, tests);
        } else {
          LoadTraining(format, rest, parse, data, tests);
          assert Rows(format, lines, parse) == later;
          assert LoadLines(format, lines, parse, true, data, tests) == LoadLines(format, rest, parse, true, data, tests);
        }
      }
    }
  }

  /** Loading for training appends to each class's column the values of
      the kept lines of that class, in line order. */
  lemma LoadTrainingAppends(format: seq<string>, lines: seq<string>, parse: string -> Option<real>,
                            data: Values, tests: seq<(string, seq<real>)>, c: string, column: string)
    ensures Cell(LoadLines(format, lines, parse, true, data, tests).data, c, column)
         == Cell(data, c, column) + ColumnOf(Rows(format, lines, parse), c, column)
  {
    LoadTraining(format, lines, parse, data, tests);
    AbsorbAllCells(data, Rows(format, lines, parse), c, column);
  }

  lemma {:induction false} ColumnOfAppend(a: seq<Scanned>, b: seq<Scanned>, c: string, column: string)
    ensures ColumnOf(a + b, c, column) == ColumnOf(a, c, column) + ColumnOf(b, c, column)
    decreases |a|
  {
    if a == [] {
      assert a + b == b;
    } else {
      assert (a + b)[0] == a[0] && (a + b)[1..] == a[1..] + b;
      ColumnOfAppend(a[1..], b, c, column);
    }
  }

  /** Loading for testing appends the class and numbers of each kept line,
      in line order, and leaves the training values alone. */
  lemma {:induction false} LoadTestAppends(format: seq<string>, lines: seq<string>, parse: string -> Option<real>,
                                           data: Values, tests: seq<(string, seq<real>)>)
    ensures Classified(Rows(format, lines, parse))
    ensures var l := LoadLines(format, lines, parse, false, data, tests);
      l.data == data && l.tests == tests + TestRows(Rows(format, lines, parse))
    decreases |lines|
  {
    RowsClassified(format, lines, parse);
    var rows := Rows(format, lines, parse);
    if lines == [] || LineRow(format, lines[0], parse).Err? {
      assert rows == [];
      assert tests + TestRows(rows) == tests;
    } else {
      var row := LineRow(format, lines[0], parse).value;
      var rest := lines[1..];
      RowsClassified(format, rest, parse);
      var later := Rows(format, rest, parse);
      if row.Some? {
        var r := row.value;
        var head := [(r.classification.value, r.vector)];
        LoadTestAppends(format, rest, parse, data, tests + head);
        assert rows == [r] + later;
        TestRowsCons(r, later);
        assert LoadLines(format, lines, parse, false, data, tests) == LoadLines(format, rest, parse, false, data, tests + head);
        TestsAssoc(tests, head, TestRows(later));
      } else {
        LoadTestAppends(format, rest, parse, data, tests);
        assert rows == later;
        assert LoadLines(format, lines, parse, false, data, tests) == LoadLines(format, rest, parse, false, data, tests);
      }
    }
  }

  lemma TestRowsCons(r: Scanned, rows: seq<Scanned>)
    requires r.classification.Some? && Classified(rows)
    ensures Classified([r] + rows)
    ensures TestRows([r] + rows) == [(r.classification.value, r.vector)] + TestRows(rows)
  {
    assert forall k :: 0 < k <= |rows| ==> ([r] + rows)[k] == rows[k - 1];
  }

  lemma TestsAssoc(a: seq<(string, seq<real>)>, b: seq<(string, seq<real>)>, c: seq<(string, seq<real>)>)
    ensures a + b + c == a + (b + c)
  {
  }

  /** A line with too few fields stops the load with IndexError. */
  lemma LoadLineFails(format: seq<string>, lines: seq<string>, i: nat, parse: string -> Option<real>,
                      training: bool, data: Values, tests: seq<(string, seq<real>)>)
    requires i < |lines| && |SplitFields(lines[i])| < |format|
    ensures LoadLines(format, lines[i..], parse, training, data, tests) == Load(data, tests, Err(IndexError))
  {
    assert lines[i..][0] == lines[i];
  }

  /** A line with enough fields is skipped, absorbed or appended to the
      test rows, and the load goes on with the next line. */
  lemma LoadLineScanned(format: seq<string>, lines: seq<string>, i: nat, parse: string -> Option<real>,
                        training: bool, data: Values, tests: seq<(string, seq<real>)>, s: Scanned)
    requires i < |lines| && |SplitFields(lines[i])| >= |format|
    requires s == Scan(format, SplitFields(lines[i]), |format|, parse)
    ensures LoadLines(format, lines[i..], parse, training, data, tests)
         == if s.classification.None? || s.classification.value == "" then LoadLines(format, lines[i + 1..], parse, training, data, tests)
            else if training then LoadLines(format, lines[i + 1..], parse, training, Absorb(data, s.classification.value, s.attributes), tests)
            else LoadLines(format, lines[i + 1..], parse, training, data, tests + [(s.classification.value, s.vector)])
  {
    assert lines[i..][0] == lines[i];
    assert lines[i..][1..] == lines[i + 1..];
  }

  /** Loading keeps the training values rectangular. */
  lemma {:induction false} LoadRectangular(format: seq<string>, lines: seq<string>, parse: string -> Option<real>,
                                           training: bool, data: Values, tests: seq<(string, seq<real>)>)
    requires Rectangular(data, AttributeColumns(format))
    ensures Rectangular(LoadLines(format, lines, parse, training, data, tests).data, AttributeColumns(format))
    decreases |lines|
  {
    if lines != [] {
      var row := LineRow(format, lines[0], parse);
      if row.Ok? && row.value.Some? {
        var s := row.value.value;
        if training {
          AbsorbRectangular(data, s.classification.value, s.attributes, AttributeColumns(format));
          LoadRectangular(format, lines[1..], parse, training, Absorb(data, s.classification.value, s.attributes), tests);
        } else {
          LoadRectangular(format, lines[1..], parse, training, data, tests + [(s.classification.value, s.vector)]);
        }
      } else if row.Ok? {
        LoadRectangular(format, lines[1..], parse, training, data, tests);
      }
    }
  }

  // ---------------------------------------------------------------------
  // Value frequencies and class priors

  /** `float(count) / len(array)` for each distinct value of a column. */
  function Frequencies(values: seq<string>): map<string, real>
  {
    map v | v in values :: (multiset(values)[v] as real) / (|values| as real)
  }

  /** A table's entries as a total function, zero off its keys. */
  function EntryOf(table: map<string, real>): string -> real
  {
    v => if v in table then table[v] else 0.0
  }

  /** A value's count as a real, the term of the counts' total. */
  function CountOf(values: seq<string>): string -> real
  {
    v => multiset(values)[v] as real
  }

  function Distinct(values: seq<string>): set<string>
  {
    set v | v in values
  }

  /** The counts of the distinct values of a column add up to its length. */
  lemma {:induction false} CountsTotal(values: seq<string>)
    ensures SetSum(Distinct(values), CountOf(values)) == |values| as real
    decreases |values|
  {
    if values != [] {
      var init := values[..|values| - 1];
      var x := values[|values| - 1];
      assert values == init + [x];
      CountsTotal(init);
      var d := Distinct(init);
      if x in init {
        assert Distinct(values) == d;
        var unit := (v: string) => if v == x then 1.0 else 0.0;
        forall v | v in d ensures CountOf(values)(v) == CountOf(init)(v) + unit(v) {
          assert multiset(values) == multiset(init) + multiset{x};
        }
        SetSumPointwise(d, CountOf(init), unit, CountOf(values));
        SetSumRemove(d, unit, x);
        SetSumZeroOutside(d - {x}, {}, unit);
      } else {
        assert Distinct(values) == d + {x};
        assert multiset(values) == multiset(init) + multiset{x};
        SetSumAdd(d, CountOf(values), x);
        SetSumCongruent(d, CountOf(values), CountOf(init));
      }
    }
  }

  /** The frequencies of a non-empty column are positive, at most one, and
      add up to one. */
  lemma FrequenciesSumToOne(values: seq<string>)
    requires values != []
    ensures forall v :: v in Frequencies(values) ==> 0.0 < Frequencies(values)[v] <= 1.0
    ensures SetSum(Frequencies(values).Keys, EntryOf(Frequencies(values))) == 1.0
  {
    var n := |values| as real;
    var f := Frequencies(values);
    forall v | v in f ensures 0.0 < f[v] <= 1.0 {
      assert multiset(values)[v] <= |multiset(values)|;
      QuotientInUnitInterval(multiset(values)[v] as real, n);
    }
    var keys := Distinct(values);
    assert f.Keys == keys;
    CountsTotal(values);
    SetSumDivide(keys, CountOf(values), EntryOf(f), n);
    QuotientSelf(n);
  }

  /** `sum` of the occurrences, as the priors' common divisor. */
  ghost function Total(occurrence: map<string, nat>): real
  {
    SetSum(occurrence.Keys, OccurrenceOf(occurrence))
  }

  function OccurrenceOf(occurrence: map<string, nat>): string -> real
  {
    c => if c in occurrence then occurrence[c] as real else 0.0
  }

  /** `v / float(total)` for each class. */
  function Priors(occurrence: map<string, nat>, total: real): map<string, real>
    requires total != 0.0
  {
    map c | c in occurrence :: (occurrence[c] as real) / total
  }

  /** With a non-zero total the priors lie in [0, 1] and add up to one. */
  lemma PriorsSumToOne(occurrence: map<string, nat>)
    requires Total(occurrence) != 0.0
    ensures var p := Priors(occurrence, Total(occurrence));
      && (forall c :: c in p ==> 0.0 <= p[c] <= 1.0)
      && SetSum(p.Keys, EntryOf(p)) == 1.0
  {
    var total := Total(occurrence);
    var f := OccurrenceOf(occurrence);
    var p := Priors(occurrence, total);
    var keys := occurrence.Keys;
    assert p.Keys == keys;
    SetSumNonNegative(keys, f);
    forall c | c in p ensures 0.0 <= p[c] <= 1.0 {
      SetSumRemove(keys, f, c);
      SetSumNonNegative(keys - {c}, f);
      QuotientInUnitInterval(occurrence[c] as real, total);
    }
    SetSumDivide(keys, f, EntryOf(p), total);
    QuotientSelf(total);
  }

  /** The total is zero exactly when every class occurred zero times. */
  lemma TotalZero(occurrence: map<string, nat>)
    ensures Total(occurrence) == 0.0 <==> forall c :: c in occurrence ==> occurrence[c] == 0
  {
    var f := OccurrenceOf(occurrence);
    SetSumNonNegative(occurrence.Keys, f);
    if forall c :: c in occurrence ==> occurrence[c] == 0 {
      SetSumZeroOutside(occurrence.Keys, {}, f);
    } else {
      var c :| c in occurrence && occurrence[c] != 0;
      SetSumRemove(occurrence.Keys, f, c);
      SetSumNonNegative(occurrence.Keys - {c}, f);
    }
  }

  /** The tables `probabilities_from_data` builds: each class's columns,
      each turned into its value frequencies. */
  function TablesOf(data: Values): Tables
  {
    map c | c in data :: map key | key in data[c] :: Frequencies(data[c][key])
  }

  /** What `classification_occurence[c]` may end at for a class with these
      columns: zero when every column is empty, otherwise the length of a
      non-empty column (the last one visited). */
  ghost predicate OccursAs(columns: map<string, seq<string>>, n: nat)
  {
    || (n == 0 && forall key :: key in columns ==> columns[key] == [])
    || (exists key :: key in columns && columns[key] != [] && n == |columns[key]|)
  }

  ghost predicate Occurrences(data: Values, occurrence: map<string, nat>)
  {
    && occurrence.Keys == data.Keys
    && forall c :: c in data ==> OccursAs(data[c], occurrence[c])
  }

  /** The number of rows of a class: the common length of its columns. */
  ghost function Height(columns: map<string, seq<string>>): nat
  {
    if columns == map[] then 0 else var key :| key in columns; |columns[key]|
  }

  /** On rectangular values the occurrence of each class is its number of
      rows, whatever order the columns are visited in. */
  lemma OccurrencesAreHeights(data: Values, columns: set<string>, occurrence: map<string, nat>)
    requires Rectangular(data, columns) && Occurrences(data, occurrence)
    ensures forall c :: c in data ==> occurrence[c] == Height(data[c])
  {
    forall c | c in data ensures occurrence[c] == Height(data[c]) {
      if data[c] != map[] {
        var key :| key in data[c] && Height(data[c]) == |data[c][key]|;
        if exists other :: other in data[c] && data[c][other] != [] && occurrence[c] == |data[c][other]| {
          var other :| other in data[c] && data[c][other] != [] && occurrence[c] == |data[c][other]|;
          assert |data[c][key]| == |data[c][other]|;
        } else {
          assert data[c][key] == [];
        }
      }
    }
  }

  // ---------------------------------------------------------------------
  // Classification

  /** The attribute columns in format order: the positions `classify`
      reads the input input at. */
  function Attributes(format: seq<string>): seq<string>
  {
    if format == [] then []
    else (if format[0] == "class" then [] else [format[0]]) + Attributes(format[1..])
  }

  /** The column loop of `classify` for class c over the remaining columns
      `rest`, with `index` input positions read and `product` the product so
      far. A short input raises IndexError; a class, column or value the
      tables do not hold raises KeyError. */
  function Likelihood(tables: Tables, c: string, rest: seq<string>, input: seq<string>, index: nat, product: real): (r: Result<real>)
    ensures r.Err? ==> r.error == IndexError || r.error == KeyError
    decreases |rest|
  {
    if rest == [] then Ok(product)
    else if rest[0] == "class" then Likelihood(tables, c, rest[1..], input, index, product)
    else if index >= |input| then Err(IndexError)
    else if c !in tables || rest[0] !in tables[c] || input[index] !in tables[c][rest[0]] then Err(KeyError)
    else Likelihood(tables, c, rest[1..], input, index + 1, product * tables[c][rest[0]][input[index]])
  }

  /** Position j of the input holds a value class c's table knows for the
      j-th attribute. */
  ghost predicate Fine(tables: Tables, c: string, attrs: seq<string>, input: seq<string>, j: int)
    requires 0 <= j < |attrs|
  {
    j < |input| && c in tables && attrs[j] in tables[c] && input[j] in tables[c][attrs[j]]
  }

  ghost predicate AllFine(tables: Tables, c: string, attrs: seq<string>, input: seq<string>, n: int)
    requires n <= |attrs|
  {
    forall j :: 0 <= j < n ==> Fine(tables, c, attrs, input, j)
  }

  /** j is the first position that cannot be looked up. */
  ghost predicate FailsFirstAt(tables: Tables, c: string, attrs: seq<string>, input: seq<string>, j: int)
  {
    0 <= j < |attrs| && !Fine(tables, c, attrs, input, j) && AllFine(tables, c, attrs, input, j)
  }

  /** The frequencies of the values at the first n positions. */
  ghost function Factors(tables: Tables, c: string, attrs: seq<string>, input: seq<string>, n: nat): (r: seq<real>)
    requires n <= |attrs| && AllFine(tables, c, attrs, input, n)
    ensures |r| == n
  {
    seq(n, j requires 0 <= j < n && Fine(tables, c, attrs, input, j) => tables[c][attrs[j]][input[j]])
  }

  /** The product of the factors, multiplied in from the left. */
  function Product(s: seq<real>): real
  {
    if s == [] then 1.0 else Product(s[..|s| - 1]) * s[|s| - 1]
  }

  lemma {:induction false} LikelihoodRest(tables: Tables, c: string, attrs: seq<string>, rest: seq<string>,
                                          input: seq<string>, index: nat, product: real)
    requires index <= |attrs| && attrs[index..] == Attributes(rest)
    requires AllFine(tables, c, attrs, input, index)
    requires product == Product(Factors(tables, c, attrs, input, index))
    ensures var r := Likelihood(tables, c, rest, input, index, product);
      && (r.Ok? <==> AllFine(tables, c, attrs, input, |attrs|))
      && (r.Ok? ==> r.value == Product(Factors(tables, c, attrs, input, |attrs|)))
      && (r.Err? ==> exists j :: FailsFirstAt(tables, c, attrs, input, j) && r.error == (if j < |input| then KeyError else IndexError))
    decreases |rest|
  {
    if rest == [] {
      assert index == |attrs|;
    } else if rest[0] == "class" {
      assert Attributes(rest) == Attributes(rest[1..]);
      LikelihoodRest(tables, c, attrs, rest[1..], input, index, product);
    } else {
      assert Attributes(rest) == [rest[0]] + Attributes(rest[1..]);
      assert attrs[index] == rest[0] && attrs[index + 1..] == Attributes(rest[1..]);
      if Fine(tables, c, attrs, input, index) {
        var longer := Factors(tables, c, attrs, input, index + 1);
        assert longer[..index] == Factors(tables, c, attrs, input, index);
        LikelihoodStep(tables, c, rest, input, index, product);
        LikelihoodRest(tables, c, attrs, rest[1..], input, index + 1, product * tables[c][rest[0]][input[index]]);
      } else {
        assert FailsFirstAt(tables, c, attrs, input, index);
      }
    }
  }

  lemma LikelihoodStep(tables: Tables, c: string, rest: seq<string>, input: seq<string>, index: nat, product: real)
    requires rest != [] && rest[0] != "class"
    requires index < |input| && c in tables && rest[0] in tables[c] && input[index] in tables[c][rest[0]]
    ensures Likelihood(tables, c, rest, input, index, product)
         == Likelihood(tables, c, rest[1..], input, index + 1, product * tables[c][rest[0]][input[index]])
  {
  }

  /** The loop of `classify` at column i: the class column is skipped. */
  lemma LikelihoodSkipAt(tables: Tables, c: string, format: seq<string>, i: nat, input: seq<string>, index: nat, product: real)
    requires i < |format| && format[i] == "class"
    ensures Likelihood(tables, c, format[i..], input, index, product) == Likelihood(tables, c, format[i + 1..], input, index, product)
  {
    assert format[i..][1..] == format[i + 1..];
  }

  /** The loop of `classify` at column i: an attribute column multiplies
      in the frequency of the next input value. */
  lemma LikelihoodStepAt(tables: Tables, c: string, format: seq<string>, i: nat, input: seq<string>, index: nat,
                         product: real, next: real)
    requires i < |format| && format[i] != "class"
    requires index < |input| && c in tables && format[i] in tables[c] && input[index] in tables[c][format[i]]
    requires next == product * tables[c][format[i]][input[index]]
    ensures Likelihood(tables, c, format[i..], input, index, product) == Likelihood(tables, c, format[i + 1..], input, index + 1, next)
  {
    var rest := format[i..];
    assert rest[1..] == format[i + 1..];
    LikelihoodStep(tables, c, rest, input, index, product);
    var p := product * tables[c][rest[0]][input[index]];
    assert p == next;
  }

  /** `classify` skips the class column and reads the input positionally
      over the attribute columns: the likelihood of class c is defined
      exactly when every attribute's value at its position is in c's
      table, and is then the product of those frequencies; otherwise the
      first position that cannot be looked up raises, IndexError past the
      end of the input and KeyError before it. */
  lemma LikelihoodPositional(tables: Tables, c: string, format: seq<string>, input: seq<string>)
    ensures var attrs, r := Attributes(format), Likelihood(tables, c, format, input, 0, 1.0);
      && (r.Ok? <==> AllFine(tables, c, attrs, input, |attrs|))
      && (r.Ok? ==> r.value == Product(Factors(tables, c, attrs, input, |attrs|)))
      && (r.Err? ==> exists j :: FailsFirstAt(tables, c, attrs, input, j) && r.error == (if j < |input| then KeyError else IndexError))
  {
    var attrs := Attributes(format);
    assert Factors(tables, c, attrs, input, 0) == [];
    LikelihoodRest(tables, c, attrs, format, input, 0, 1.0);
  }

  /** `probability_product * p_h`: the score of class c. */
  function Score(tables: Tables, priors: map<string, real>, format: seq<string>, input: seq<string>, c: string): Result<real>
    requires c in priors
  {
    match Likelihood(tables, c, format, input, 0, 1.0)
    case Ok(p) => Ok(Weighted(p, priors[c]))
    case Err(e) => Err(e)
  }

  /** A hypothesis's score `likelihood * pH`. */
  function Weighted(likelihood: real, prior: real): real
  {
    likelihood * prior
  }

  /** best is the class `max(hypotheses)[1]` names: every class scores, and
      `(score, class)` of best is the greatest pair. */
  ghost predicate IsBest(tables: Tables, priors: map<string, real>, format: seq<string>, input: seq<string>, best: string)
  {
    && best in priors
    && Score(tables, priors, format, input, best).Ok?
    && forall c :: c in priors ==>
         && Score(tables, priors, format, input, c).Ok?
         && PairLe((Score(tables, priors, format, input, c).value, c), (Score(tables, priors, format, input, best).value, best))
  }

  /** At most one class is the best: ties in score go to the greater class
      label, so the argmax is well defined. */
  lemma BestUnique(tables: Tables, priors: map<string, real>, format: seq<string>, input: seq<string>, b1: string, b2: string)
    requires IsBest(tables, priors, format, input, b1) && IsBest(tables, priors, format, input, b2)
    ensures b1 == b2
  {
    PairLeTotalOrder();
    var p1 := (Score(tables, priors, format, input, b1).value, b1);
    var p2 := (Score(tables, priors, format, input, b2).value, b2);
    assert PairLe(p1, p2) && PairLe(p2, p1);
  }

  /** `max(items)`: the first greatest pair; an empty list raises
      ValueError. */
  method MaxPair(items: seq<(real, string)>) returns (r: Result<(real, string)>)
    ensures r.Err? <==> items == []
    ensures r.Err? ==> r.error == ValueError
    ensures r.Ok? ==> r.value in items && forall x :: x in items ==> PairLe(x, r.value)
  {
    if items == [] {
      return Err(ValueError);
    }
    PairLeTotalOrder();
    var best := items[0];
    var i := 1;
    while i < |items|
      invariant 1 <= i <= |items|
      invariant best in items[..i]
      invariant forall k :: 0 <= k < i ==> PairLe(items[k], best)
    {
      if !PairLe(items[i], best) {
        best := items[i];
      }
      i := i + 1;
    }
    assert items[..i] == items;
    return Ok(best);
  }

  // ---------------------------------------------------------------------
  // Building the tables

  /** The `count_dict` loop: each value of the column with its count. */
  method CountValues(values: seq<string>) returns (counts: map<string, nat>)
    ensures forall v :: v in counts <==> v in values
    ensures forall v :: v in counts ==> counts[v] == multiset(values)[v]
  {
    counts := map[];
    var i := 0;
    while i < |values|
      invariant 0 <= i <= |values|
      invariant forall v :: v in counts <==> v in values[..i]
      invariant forall v :: v in counts ==> counts[v] == multiset(values[..i])[v]
    {
      var value := values[i];
      assert values[..i + 1] == values[..i] + [value];
      if value !in counts {
        counts := counts[value := 0];
      }
      counts := counts[value := counts[value] + 1];
      i := i + 1;
    }
    assert values[..i] == values;
  }

  /** The frequency table of one column. `classification_occurence` becomes
      the column's length as soon as the column has a value. */
  method ColumnFrequencies(values: seq<string>, occurrence: nat) returns (table: map<string, real>, occurrenceAfter: nat)
    ensures table == Frequencies(values)
    ensures occurrenceAfter == if values == [] then occurrence else |values|
  {
    var counts := CountValues(values);
    table := map[];
    occurrenceAfter := occurrence;
    var remaining := counts.Keys;
    while remaining != {}
      invariant remaining <= counts.Keys
      invariant forall v :: v in table <==> v in counts && v !in remaining
      invariant forall v :: v in table ==> table[v] == (counts[v] as real) / (|values| as real)
      invariant occurrenceAfter == if remaining == counts.Keys then occurrence else |values|
      decreases |remaining|
    {
      var v :| v in remaining;
      table := table[v := (counts[v] as real) / (|values| as real)];
      occurrenceAfter := |values|;
      remaining := remaining - {v};
    }
    assert counts.Keys == {} <==> values == [] by {
      if values != [] {
        assert values[0] in counts;
      }
    }
  }

  /** The tables of one class's columns and its occurrence, from zero. */
  method ClassTables(columns: map<string, seq<string>>) returns (tables: map<string, map<string, real>>, occurrence: nat)
    ensures tables == map key | key in columns :: Frequencies(columns[key])
    ensures OccursAs(columns, occurrence)
  {
    tables := map[];
    occurrence := 0;
    var remaining := columns.Keys;
    while remaining != {}
      invariant remaining <= columns.Keys
      invariant forall key :: key in tables <==> key in columns && key !in remaining
      invariant forall key :: key in tables ==> tables[key] == Frequencies(columns[key])
      invariant || (occurrence == 0 && forall key :: key in columns && key !in remaining ==> columns[key] == [])
                || (exists key :: key in columns && key !in remaining && columns[key] != [] && occurrence == |columns[key]|)
      decreases |remaining|
    {
      var key :| key in remaining;
      var table;
      table, occurrence := ColumnFrequencies(columns[key], occurrence);
      tables := tables[key := table];
      remaining := remaining - {key};
    }
  }

  /** `sum` of the occurrences. */
  method SumOccurrences(occurrence: map<string, nat>) returns (total: nat)
    ensures total as real == Total(occurrence)
  {
    total := 0;
    var remaining := occurrence.Keys;
    while remaining != {}
      invariant remaining <= occurrence.Keys
      invariant total as real == SetSum(occurrence.Keys - remaining, OccurrenceOf(occurrence))
      decreases |remaining|
    {
      var c :| c in remaining;
      ghost var done := occurrence.Keys - remaining;
      SetSumAdd(done, OccurrenceOf(occurrence), c);
      assert done + {c} == occurrence.Keys - (remaining - {c});
      total := total + occurrence[c];
      remaining := remaining - {c};
    }
    assert occurrence.Keys - remaining == occurrence.Keys;
  }

  // ---------------------------------------------------------------------
  // Means

  /** `[float(x) for x in values]`; None when a value is not a number
      (ValueError). */
  function ParseAll(values: seq<string>, parse: string -> Option<real>): Option<seq<real>>
  {
    if forall i :: 0 <= i < |values| ==> parse(values[i]).Some? then
      Some(seq(|values|, i requires 0 <= i < |values| => parse(values[i]).value))
    else None
  }

  /** The mean the column stores, or what the column's statistics raise:
      ValueError for a non-number, ZeroDivisionError for an empty column
      (the mean's divisor) or a one-value column (the sample deviation's
      divisor `length - 1`). */
  function ColumnMean(values: seq<string>, parse: string -> Option<real>): Result<real>
  {
    match ParseAll(values, parse)
    case None => Err(ValueError)
    case Some(xs) =>
      if |xs| == 0 || |xs| == 1 then Err(ZeroDivisionError) else Ok(Stats.Mean(xs))
  }

  /** A column has a mean exactly when every value is a number and there
      are at least two of them; the mean is the average of the numbers. A
      non-number raises ValueError before the length is looked at. */
  lemma ColumnMeanCases(values: seq<string>, parse: string -> Option<real>)
    ensures var r := ColumnMean(values, parse);
      && (r.Ok? <==> (forall i :: 0 <= i < |values| ==> parse(values[i]).Some?) && |values| >= 2)
      && (r.Ok? ==> Stats.Mean(ParseAll(values, parse).value) == r.value && |ParseAll(values, parse).value| == |values|)
      && (r.Err? && (exists i :: 0 <= i < |values| && parse(values[i]).None?) ==> r.error == ValueError)
      && (r.Err? && (forall i :: 0 <= i < |values| ==> parse(values[i]).Some?) ==> r.error == ZeroDivisionError)
  {
  }

  /** The stored means of a class whose columns all give one. */
  function MeansOf(columns: map<string, seq<string>>, parse: string -> Option<real>): map<string, real>
    requires MeansDefined(columns, parse)
  {
    map column | column in columns :: ColumnMean(columns[column], parse).value
  }

  /** `self.means.setdefault(c, dict.fromkeys(columns, 0))`. */
  function Defaults(means: map<string, map<string, real>>, c: string, format: seq<string>): map<string, real>
  {
    if c in means then means[c] else map column | column in AttributeColumns(format) :: 0.0
  }

  /** The column loop of `calculate_means_and_sample_standard_deviation`
      for one class: each column's mean goes into the row, and the first
      column whose statistics raise stops the loop (a one-value column
      raises after its mean is stored). */
  method ColumnMeans(row: map<string, real>, columns: map<string, seq<string>>, parse: string -> Option<real>)
    returns (rowAfter: map<string, real>, r: Result<()>)
    ensures r.Ok? <==> forall column :: column in columns ==> ColumnMean(columns[column], parse).Ok?
    ensures r.Err? ==> exists column :: column in columns && ColumnMean(columns[column], parse) == Err(r.error)
    ensures r.Ok? ==> rowAfter == row + MeansOf(columns, parse)
    ensures r.Err? ==> MeansStopped(row, columns, parse, rowAfter, r.error)
  {
    rowAfter := row;
    var remaining := columns.Keys;
    WithoutAll(columns);
    while remaining != {}
      invariant remaining <= columns.Keys
      invariant MeansDefined(Without(columns, remaining), parse)
      invariant rowAfter == row + MeansOf(Without(columns, remaining), parse)
      decreases |remaining|
    {
      var column :| column in remaining;
      var parsed := ParseAll(columns[column], parse);
      if parsed.None? {
        assert ColumnMean(columns[column], parse) == Err(ValueError);
        assert rowAfter == StoredBeforeRaise(rowAfter, column, columns[column], parse);
        return rowAfter, Err(ValueError);
      }
      var xs := parsed.value;
      if |xs| == 0 {
        assert ColumnMean(columns[column], parse) == Err(ZeroDivisionError);
        assert rowAfter == StoredBeforeRaise(rowAfter, column, columns[column], parse);
        return rowAfter, Err(ZeroDivisionError);
      }
      if |xs| == 1 {
        assert ColumnMean(columns[column], parse) == Err(ZeroDivisionError);
        assert |columns[column]| == 1;
        ghost var before := rowAfter;
        rowAfter := rowAfter[column := Stats.Mean(xs)];
        assert rowAfter == StoredBeforeRaise(before, column, columns[column], parse);
        return rowAfter, Err(ZeroDivisionError);
      }
      assert ColumnMean(columns[column], parse) == Ok(Stats.Mean(xs));
      MeansStep(row, columns, remaining, column, parse);
      rowAfter := rowAfter[column := Stats.Mean(xs)];
      remaining := remaining - {column};
    }
    WithoutNothing(columns);
    r := Ok(());
  }

  /** What a column that raises leaves in the row: a one-value column of
      numbers has its mean stored before the sample deviation divides by
      zero, any other failing column stores nothing. */
  function StoredBeforeRaise(row: map<string, real>, column: string, values: seq<string>,
                             parse: string -> Option<real>): (r: map<string, real>)
    ensures ColumnMean(values, parse).Err? && ParseAll(values, parse).Some? && |values| == 1 ==>
      r == row[column := parse(values[0]).value]
    ensures |values| != 1 || ParseAll(values, parse).None? ==> r == row
  {
    match ParseAll(values, parse)
    case Some(xs) =>
      if |xs| == 1 then
        assert Stats.Mean(xs) == xs[0] by {
          assert xs[..|xs| - 1] == [];
          assert Sum(xs) == Sum([]) + xs[0];
          assert (|xs| as real) == 1.0;
        }
        row[column := Stats.Mean(xs)]
      else row
    case None => row
  }

  /** The row a column loop stopped in with error e: the columns handled
      before the failing one have their means, and the failing column
      left what it stores before raising. */
  ghost predicate MeansStopped(row: map<string, real>, columns: map<string, seq<string>>, parse: string -> Option<real>,
                               rowAfter: map<string, real>, e: Error)
  {
    exists remaining: set<string>, k: string ::
      && remaining <= columns.Keys && k in remaining
      && MeansDefined(Without(columns, remaining), parse)
      && ColumnMean(columns[k], parse) == Err(e)
      && rowAfter == StoredBeforeRaise(row + MeansOf(Without(columns, remaining), parse), k, columns[k], parse)
  }

  ghost predicate MeansDefined(columns: map<string, seq<string>>, parse: string -> Option<real>)
  {
    forall column :: column in columns ==> ColumnMean(columns[column], parse).Ok?
  }

  lemma MeansStep(row: map<string, real>, columns: map<string, seq<string>>, remaining: set<string>, k: string,
                  parse: string -> Option<real>)
    requires k in remaining && k in columns
    requires MeansDefined(Without(columns, remaining), parse) && ColumnMean(columns[k], parse).Ok?
    ensures MeansDefined(Without(columns, remaining - {k}), parse)
    ensures row + MeansOf(Without(columns, remaining - {k}), parse)
         == (row + MeansOf(Without(columns, remaining), parse))[k := ColumnMean(columns[k], parse).value]
  {
    WithoutOneMore(columns, remaining, k);
    MeansOfUpdate(Without(columns, remaining), k, columns[k], parse);
    MergeUpdate(row, MeansOf(Without(columns, remaining), parse), k, ColumnMean(columns[k], parse).value);
  }

  /** One more column with a mean adds that mean to the stored means. */
  lemma MeansOfUpdate(columns: map<string, seq<string>>, k: string, values: seq<string>, parse: string -> Option<real>)
    requires MeansDefined(columns, parse) && ColumnMean(values, parse).Ok?
    ensures MeansDefined(columns[k := values], parse)
    ensures MeansOf(columns[k := values], parse) == MeansOf(columns, parse)[k := ColumnMean(values, parse).value]
  {
    var b := columns[k := values];
    var ma := MeansOf(columns, parse)[k := ColumnMean(values, parse).value];
    var mb := MeansOf(b, parse);
    assert mb.Keys == ma.Keys;
    forall column | column in mb
      ensures mb[column] == ma[column]
    {
    }
  }

  /** Updating the right operand of a merge updates the merge. */
  lemma MergeUpdate<V>(row: map<string, V>, m: map<string, V>, k: string, v: V)
    ensures row + m[k := v] == (row + m)[k := v]
  {
  }

  lemma WithoutAll<V>(m: map<string, V>)
    ensures Without(m, m.Keys) == map[]
  {
  }

  lemma WithoutNothing<V>(m: map<string, V>)
    ensures Without(m, {}) == m
  {
    assert Without(m, {}).Keys == m.Keys;
  }

  /** Keys of m outside `keys`. */
  function Without<V>(m: map<string, V>, keys: set<string>): (r: map<string, V>)
    ensures r.Keys == m.Keys - keys
  {
    map k | k in m && k !in keys :: m[k]
  }

  lemma WithoutOneMore<V>(m: map<string, V>, keys: set<string>, k: string)
    requires k in keys && k in m
    ensures Without(m, keys - {k}) == Without(m, keys)[k := m[k]]
  {
  }

  lemma PriorsStep(occurrence: map<string, nat>, keys: set<string>, k: string, total: real, base: map<string, real>)
    requires k in keys && k in occurrence && total != 0.0
    ensures base + Priors(Without(occurrence, keys - {k}), total)
         == (base + Priors(Without(occurrence, keys), total))[k := (occurrence[k] as real) / total]
  {
    WithoutOneMore(occurrence, keys, k);
  }

  /** Absorbing no attributes is `setdefault(c, {})`. */
  lemma AbsorbNothing(data: Values, c: string)
    ensures Absorb(data, c, map[]) == data[c := if c in data then data[c] else map[]]
  {
    var columns := if c in data then data[c] else map[];
    var m := Absorb(data, c, map[])[c];
    assert m.Keys == columns.Keys;
    forall key | key in m ensures m[key] == columns[key] {
      assert m[key] == columns[key] + [];
    }
    assert m == columns;
  }

  /** Absorbing one more attribute is `setdefault(key, [])` and `append`
      on the class's columns. */
  lemma AbsorbOneMore(data: Values, c: string, attributes: map<string, string>, key: string, value: string)
    requires key !in attributes
    ensures var a := Absorb(data, c, attributes);
      Absorb(data, c, attributes[key := value])
        == a[c := a[c][key := (if key in a[c] then a[c][key] else []) + [value]]]
  {
    var columns := if c in data then data[c] else map[];
    MergeOneMore(columns, attributes, key, value);
  }

  /** Merging one more attribute appends its value to its column. */
  lemma MergeOneMore(columns: map<string, seq<string>>, attributes: map<string, string>, key: string, value: string)
    requires key !in attributes
    ensures var m := Merge(columns, attributes);
      Merge(columns, attributes[key := value]) == m[key := (if key in m then m[key] else []) + [value]]
  {
    var m := Merge(columns, attributes);
    var expected := m[key := (if key in m then m[key] else []) + [value]];
    var b := Merge(columns, attributes[key := value]);
    assert b.Keys == expected.Keys;
    forall k | k in b ensures b[k] == expected[k] {
    }
  }

  /** The field loop of `load_data_from_lines` absorbs one more of the
      row's attributes. */
  lemma AbsorbStep(data: Values, c: string, attributes: map<string, string>, remaining: set<string>, key: string)
    requires key in remaining && key in attributes
    ensures var a := Absorb(data, c, Without(attributes, remaining));
      Absorb(data, c, Without(attributes, remaining - {key}))
        == a[c := a[c][key := (if key in a[c] then a[c][key] else []) + [attributes[key]]]]
  {
    WithoutOneMore(attributes, remaining, key);
    AbsorbOneMore(data, c, Without(attributes, remaining), key, attributes[key]);
  }

  // ---------------------------------------------------------------------
  // Loading, one line at a time

  /** The column loop of `load_data_from_lines` over one line's fields:
      IndexError at the first column past the last field. */
  method ScanFields(format: seq<string>, fields: seq<string>, parse: string -> Option<real>) returns (r: Result<Scanned>)
    ensures r.Err? <==> |fields| < |format|
    ensures r.Err? ==> r.error == IndexError
    ensures r.Ok? ==> r.value == Scan(format, fields, |format|, parse)
  {
    var classification: Option<string> := None;
    var attributes: map<string, string> := map[];
    var vector: seq<real> := [];
    var i := 0;
    while i < |format|
      invariant 0 <= i <= |format| && i <= |fields|
      invariant Scanned(classification, attributes, vector) == Scan(format, fields, i, parse)
    {
      if i >= |fields| {
        return Err(IndexError);
      }
      var column := format[i];
      var value := fields[i];
      if column == "class" {
        classification := Some(value);
      } else {
        attributes := attributes[column := value];
        var number := parse(value);
        if number.Some? {
          vector := vector + [number.value];
        }
      }
      i := i + 1;
    }
    return Ok(Scanned(classification, attributes, vector));
  }

  /** The class loop of `probabilities_from_data`: each class's tables and
      occurrence. */
  method BuildTables(values: Values) returns (tables: Tables, occurrence: map<string, nat>)
    ensures tables == TablesOf(values)
    ensures Occurrences(values, occurrence)
  {
    tables := map[];
    occurrence := map[];
    var remaining := values.Keys;
    while remaining != {}
      invariant remaining <= values.Keys
      invariant forall c :: c in tables <==> c in values && c !in remaining
      invariant forall c :: c in tables ==> tables[c] == TablesOf(values)[c]
      invariant occurrence.Keys == tables.Keys
      invariant forall c :: c in occurrence ==> OccursAs(values[c], occurrence[c])
      decreases |remaining|
    {
      var c :| c in remaining;
      var classTables, n := ClassTables(values[c]);
      occurrence := occurrence[c := n];
      tables := tables[c := classTables];
      remaining := remaining - {c};
    }
  }

  /** The prior loop of `probabilities_from_data`: each class's occurrence
      over the total, the total recomputed per class; a zero total raises
      ZeroDivisionError at the first class, before any prior is set. */
  method ComputePriors(occurrence: map<string, nat>, priors: map<string, real>) returns (r: Result<()>, priorsAfter: map<string, real>)
    ensures r.Err? <==> occurrence != map[] && Total(occurrence) == 0.0
    ensures r.Err? ==> r.error == ZeroDivisionError && priorsAfter == priors
    ensures r.Ok? && occurrence != map[] ==> Total(occurrence) != 0.0 && priorsAfter == priors + Priors(occurrence, Total(occurrence))
    ensures occurrence == map[] ==> priorsAfter == priors
  {
    priorsAfter := priors;
    var keys := occurrence.Keys;
    ghost var scale := if Total(occurrence) == 0.0 then 1.0 else Total(occurrence);
    WithoutAll(occurrence);
    assert Priors(Without(occurrence, keys), scale) == map[];
    while keys != {}
      invariant keys <= occurrence.Keys
      invariant priorsAfter == priors + Priors(Without(occurrence, keys), scale)
      invariant keys != occurrence.Keys ==> scale == Total(occurrence)
      decreases |keys|
    {
      var k :| k in keys;
      var total := SumOccurrences(occurrence);
      if total == 0 {
        return Err(ZeroDivisionError), priorsAfter;
      }
      PriorsStep(occurrence, keys, k, scale, priors);
      priorsAfter := priorsAfter[k := (occurrence[k] as real) / (total as real)];
      keys := keys - {k};
    }
    WithoutNothing(occurrence);
    r := Ok(());
  }

  /** Every class of `data` has a mean for every column. */
  ghost predicate AllMeansDefined(data: Values, parse: string -> Option<real>)
  {
    forall c :: c in data ==> MeansDefined(data[c], parse)
  }

  /** The rows the means of `data` give: each class's existing row (or the
      zero defaults) overwritten by the class's column means. */
  function ClassMeans(means: map<string, map<string, real>>, data: Values, format: seq<string>,
                      parse: string -> Option<real>): map<string, map<string, real>>
    requires AllMeansDefined(data, parse)
  {
    map c | c in data :: Defaults(means, c, format) + MeansOf(data[c], parse)
  }

  lemma ClassMeansStep(means: map<string, map<string, real>>, data: Values, remaining: set<string>, c: string,
                       format: seq<string>, parse: string -> Option<real>)
    requires c in remaining && c in data
    requires AllMeansDefined(Without(data, remaining), parse) && MeansDefined(data[c], parse)
    ensures AllMeansDefined(Without(data, remaining - {c}), parse)
    ensures means + ClassMeans(means, Without(data, remaining - {c}), format, parse)
         == (means + ClassMeans(means, Without(data, remaining), format, parse))[c := Defaults(means, c, format) + MeansOf(data[c], parse)]
  {
    WithoutOneMore(data, remaining, c);
    ClassMeansUpdate(means, Without(data, remaining), c, data[c], format, parse);
    MergeUpdate(means, ClassMeans(means, Without(data, remaining), format, parse), c,
                Defaults(means, c, format) + MeansOf(data[c], parse));
  }

  /** A class the loop has not reached yet still sees its old row or the
      defaults. */
  lemma ClassMeansPending(means: map<string, map<string, real>>, data: Values, remaining: set<string>, c: string,
                          format: seq<string>, parse: string -> Option<real>)
    requires c in remaining
    requires AllMeansDefined(Without(data, remaining), parse)
    ensures Defaults(means + ClassMeans(means, Without(data, remaining), format, parse), c, format) == Defaults(means, c, format)
  {
    assert c !in ClassMeans(means, Without(data, remaining), format, parse);
  }

  /** One more class whose columns all have means adds that class's row. */
  lemma ClassMeansUpdate(means: map<string, map<string, real>>, data: Values, c: string,
                         columns: map<string, seq<string>>, format: seq<string>, parse: string -> Option<real>)
    requires AllMeansDefined(data, parse) && MeansDefined(columns, parse)
    ensures AllMeansDefined(data[c := columns], parse)
    ensures ClassMeans(means, data[c := columns], format, parse)
         == ClassMeans(means, data, format, parse)[c := Defaults(means, c, format) + MeansOf(columns, parse)]
  {
    var b := data[c := columns];
    var ma := ClassMeans(means, data, format, parse)[c := Defaults(means, c, format) + MeansOf(columns, parse)];
    var mb := ClassMeans(means, b, format, parse);
    assert mb.Keys == ma.Keys;
    forall d | d in mb
      ensures mb[d] == ma[d]
    {
      if d != c {
        assert b[d] == data[d];
      }
    }
  }

  /** The means a class loop stopped in with error e: the classes handled
      before the failing one have their rows, and the failing class has its
      existing row (or the zero defaults) with the means its column loop
      stored before raising. */
  ghost predicate ClassesStopped(means: map<string, map<string, real>>, data: Values, format: seq<string>,
                                 parse: string -> Option<real>, meansAfter: map<string, map<string, real>>, e: Error)
  {
    exists remaining: set<string>, c: string ::
      && remaining <= data.Keys && c in remaining
      && AllMeansDefined(Without(data, remaining), parse)
      && c in meansAfter
      && meansAfter == (means + ClassMeans(means, Without(data, remaining), format, parse))[c := meansAfter[c]]
      && MeansStopped(Defaults(means, c, format), data[c], parse, meansAfter[c], e)
  }

  lemma StoppedAt(means: map<string, map<string, real>>, data: Values, format: seq<string>, parse: string -> Option<real>,
                  remaining: set<string>, c: string, before: map<string, map<string, real>>,
                  meansAfter: map<string, map<string, real>>, e: Error)
    requires remaining <= data.Keys && c in remaining
    requires AllMeansDefined(Without(data, remaining), parse)
    requires before == means + ClassMeans(means, Without(data, remaining), format, parse)
    requires c in meansAfter && meansAfter == before[c := meansAfter[c]]
    requires MeansStopped(Defaults(means, c, format), data[c], parse, meansAfter[c], e)
    ensures ClassesStopped(means, data, format, parse, meansAfter, e)
  {
  }

  /** The class loop of `calculate_means_and_sample_standard_deviation`:
      every class gets its means, and the first column whose statistics
      raise stops the loop with that class's row partly written. */
  method UpdateMeans(means: map<string, map<string, real>>, data: Values, format: seq<string>, parse: string -> Option<real>)
    returns (meansAfter: map<string, map<string, real>>, r: Result<()>)
    ensures r.Ok? <==> AllMeansDefined(data, parse)
    ensures r.Err? ==> exists c, column :: c in data && column in data[c] && ColumnMean(data[c][column], parse) == Err(r.error)
    ensures r.Ok? ==> meansAfter == means + ClassMeans(means, data, format, parse)
    ensures r.Err? ==> ClassesStopped(means, data, format, parse, meansAfter, r.error)
  {
    meansAfter := means;
    var remaining := data.Keys;
    WithoutAll(data);
    while remaining != {}
      invariant remaining <= data.Keys
      invariant AllMeansDefined(Without(data, remaining), parse)
      invariant meansAfter == means + ClassMeans(means, Without(data, remaining), format, parse)
      decreases |remaining|
    {
      var c :| c in remaining;
      ClassMeansPending(means, data, remaining, c, format, parse);
      var row, outcome := ColumnMeans(Defaults(meansAfter, c, format), data[c], parse);
      if outcome.Err? {
        assert !MeansDefined(data[c], parse);
        ghost var before := meansAfter;
        meansAfter := meansAfter[c := row];
        StoppedAt(means, data, format, parse, remaining, c, before, meansAfter, outcome.error);
        return meansAfter, Err(outcome.error);
      }
      ClassMeansStep(means, data, remaining, c, format, parse);
      meansAfter := meansAfter[c := row];
      remaining := remaining - {c};
    }
    WithoutNothing(data);
    r := Ok(());
  }

  // ---------------------------------------------------------------------
  // The classifier object

  class NaiveBayes {
    const name: string
    const columnFormat: seq<string>
    /** The training values, class -> column -> values. */
    var data: Values
    /** The test rows: class and numeric fields. */
    var testData: seq<(string, seq<real>)>
    /** The frequency tables `probabilities_from_data` leaves in `self.data`. */
    var tables: Tables
    var priorProbabilities: map<string, real>
    var means: map<string, map<string, real>>

    /** Every loaded class has the format's attribute columns, all of one
        length. */
    ghost predicate Valid()
      reads this
    {
      Rectangular(data, AttributeColumns(columnFormat))
    }

    constructor(name: string, columnFormat: seq<string>)
      ensures Valid()
      ensures this.name == name && this.columnFormat == columnFormat
      ensures data == map[] && testData == [] && tables == map[] && priorProbabilities == map[] && means == map[]
    {
      this.name := name;
      this.columnFormat := columnFormat;
      data := map[];
      testData := [];
      tables := map[];
      priorProbabilities := map[];
      means := map[];
    }

    /** `data.setdefault(c, {})`, then each attribute appended to its
        column. */
    method AbsorbRow(c: string, attributes: map<string, string>)
      modifies this`data
      ensures data == Absorb(old(data), c, attributes)
    {
      AbsorbNothing(data, c);
      WithoutAll(attributes);
      ghost var before := data;
      if c !in data {
        data := data[c := map[]];
      }
      var remaining := attributes.Keys;
      while remaining != {}
        invariant remaining <= attributes.Keys
        invariant data == Absorb(before, c, Without(attributes, remaining))
        decreases |remaining|
      {
        var key :| key in remaining;
        AbsorbStep(before, c, attributes, remaining, key);
        var columns := data[c];
        var cell := if key in columns then columns[key] else [];
        data := data[c := columns[key := cell + [attributes[key]]]];
        remaining := remaining - {key};
      }
      WithoutNothing(attributes);
    }

    /** `load_data_from_lines(lines, training)`: the lines before the first
        short one are loaded, as LoadLines states. */
    method LoadDataFromLines(lines: seq<string>, training: bool, parse: string -> Option<real>) returns (r: Result<()>)
      modifies this`data, this`testData
      ensures Load(data, testData, r) == LoadLines(columnFormat, lines, parse, training, old(data), old(testData))
      ensures old(Valid()) ==> Valid()
    {
      ghost var before := LoadLines(columnFormat, lines, parse, training, data, testData);
      if Valid() {
        LoadRectangular(columnFormat, lines, parse, training, data, testData);
      }
      var i := 0;
      while i < |lines|
        invariant 0 <= i <= |lines|
        invariant before == LoadLines(columnFormat, lines[i..], parse, training, data, testData)
      {
        var fields := SplitFields(lines[i]);
        var scanned := ScanFields(columnFormat, fields, parse);
        if scanned.Err? {
          LoadLineFails(columnFormat, lines, i, parse, training, data, testData);
          return Err(scanned.error);
        }
        var row := scanned.value;
        LoadLineScanned(columnFormat, lines, i, parse, training, data, testData, row);
        if row.classification.Some? && row.classification.value != "" {
          if training {
            AbsorbRow(row.classification.value, row.attributes);
          } else {
            testData := testData + [(row.classification.value, row.vector)];
          }
        }
        i := i + 1;
      }
      assert lines[i..] == [];
      return Ok(());
    }

    /** `probabilities_from_data`: the values become frequency tables, and
        each class's prior is its occurrence over their total. An all-zero
        total raises ZeroDivisionError before any prior is set. */
    method ProbabilitiesFromData() returns (r: Result<()>, ghost occurrence: map<string, nat>)
      modifies this`tables, this`priorProbabilities
      ensures tables == TablesOf(data)
      ensures Occurrences(data, occurrence)
      ensures r.Err? <==> data != map[] && Total(occurrence) == 0.0
      ensures r.Err? ==> r.error == ZeroDivisionError && priorProbabilities == old(priorProbabilities)
      ensures r.Ok? && data != map[] ==>
        Total(occurrence) != 0.0 && priorProbabilities == old(priorProbabilities) + Priors(occurrence, Total(occurrence))
      ensures data == map[] ==> priorProbabilities == old(priorProbabilities)
    {
      var newTables, occ := BuildTables(data);
      tables := newTables;
      occurrence := occ;
      var priors;
      r, priors := ComputePriors(occ, priorProbabilities);
      priorProbabilities := priors;
    }

    /** The column loop of `classify` for class c. */
    method ClassLikelihood(c: string, input: seq<string>) returns (r: Result<real>)
      ensures r == Likelihood(tables, c, columnFormat, input, 0, 1.0)
    {
      var product := 1.0;
      var index: nat := 0;
      var i := 0;
      while i < |columnFormat|
        invariant 0 <= i <= |columnFormat|
        invariant Likelihood(tables, c, columnFormat, input, 0, 1.0) == Likelihood(tables, c, columnFormat[i..], input, index, product)
      {
        var column := columnFormat[i];
        if column == "class" {
          LikelihoodSkipAt(tables, c, columnFormat, i, input, index, product);
        } else {
          if index >= |input| {
            return Err(IndexError);
          }
          var value := input[index];
          if c !in tables || column !in tables[c] || value !in tables[c][column] {
            return Err(KeyError);
          }
          var next := product * tables[c][column][value];
          LikelihoodStepAt(tables, c, columnFormat, i, input, index, product, next);
          product := next;
          index := index + 1;
        }
        i := i + 1;
      }
      return Ok(product);
    }

    /** `classify(input)`: the class whose `(likelihood * prior, class)`
        pair is greatest. No class raises ValueError; a class whose
        likelihood raises makes the call raise. */
    method Classify(input: seq<string>) returns (r: Result<string>)
      ensures priorProbabilities == map[] ==> r == Err(ValueError)
      ensures r.Ok? <==>
        priorProbabilities != map[] &&
        forall c :: c in priorProbabilities ==> Score(tables, priorProbabilities, columnFormat, input, c).Ok?
      ensures r.Err? && priorProbabilities != map[] ==>
        exists c :: c in priorProbabilities && Score(tables, priorProbabilities, columnFormat, input, c) == Err(r.error)
      ensures r.Ok? ==> IsBest(tables, priorProbabilities, columnFormat, input, r.value)
    {
      var hypotheses: seq<(real, string)> := [];
      var remaining := priorProbabilities.Keys;
      while remaining != {}
        invariant remaining <= priorProbabilities.Keys
        invariant forall h :: h in hypotheses ==>
          h.1 in priorProbabilities && h.1 !in remaining && Score(tables, priorProbabilities, columnFormat, input, h.1) == Ok(h.0)
        invariant forall c :: c in priorProbabilities && c !in remaining ==>
          Score(tables, priorProbabilities, columnFormat, input, c).Ok? &&
          (Score(tables, priorProbabilities, columnFormat, input, c).value, c) in hypotheses
        invariant hypotheses == [] ==> remaining == priorProbabilities.Keys
        decreases |remaining|
      {
        var c :| c in remaining;
        var pH := priorProbabilities[c];
        var likelihood := ClassLikelihood(c, input);
        if likelihood.Err? {
          assert Score(tables, priorProbabilities, columnFormat, input, c) == Err(likelihood.error);
          return Err(likelihood.error);
        }
        var score := Weighted(likelihood.value, pH);
        assert Score(tables, priorProbabilities, columnFormat, input, c) == Ok(score);
        hypotheses := hypotheses + [(score, c)];
        remaining := remaining - {c};
      }
      var best := MaxPair(hypotheses);
      if best.Err? {
        assert priorProbabilities.Keys == {};
        return Err(best.error);
      }
      return Ok(best.value.1);
    }

    /** `calculate_means_and_sample_standard_deviation`, its means: each
        class gets the default row of zeros if it has none, then each of
        its columns' mean. A column that does not parse, is empty or has a
        single value raises. */
    method CalculateMeans(parse: string -> Option<real>) returns (r: Result<()>)
      modifies this`means
      ensures r.Ok? <==> AllMeansDefined(data, parse)
      ensures r.Err? ==> exists c, column :: c in data && column in data[c] && ColumnMean(data[c][column], parse) == Err(r.error)
      ensures r.Ok? ==> means == old(means) + ClassMeans(old(means), data, columnFormat, parse)
      ensures r.Err? ==> ClassesStopped(old(means), data, columnFormat, parse, means, r.error)
    {
      var meansAfter;
      meansAfter, r := UpdateMeans(means, data, columnFormat, parse);
      means := meansAfter;
    }
  }
}
