/** Stratified k-fold cross-validation (fold_cross_validator.py): the
    training lines are dealt round-robin into buckets category by category,
    each fold trains on every bucket but one and tests on that one, and every
    test answer counts in a confusion matrix. The validator inherits the
    nearest-neighbour classifier; here it holds one and drives it. Reading and
    writing the bucket files is left to the caller: a bucket file is the
    sequence of its lines. */
module FoldCrossValidating {
  import opened Wrappers
  import opened Text
  import Classifying

  type Item = Classifying.Item

  // ---------------------------------------------------------------------
  // __split_line

  /** `__split_line(line)`: the comma-separated fields, each stripped and
      without newlines. None of them holds a comma or a newline or starts or
      ends with whitespace, and the raw pieces rebuild the line. */
  lemma SplitLineFields(line: string)
    ensures |SplitFields(line)| == |Split(line, ',')|
    ensures Join(Split(line, ','), ',') == line
    ensures forall i :: 0 <= i < |SplitFields(line)| ==>
      var field := SplitFields(line)[i];
      && ',' !in field && '\n' !in field
      && (field == [] || (!IsSpace(field[0]) && !IsSpace(field[|field| - 1])))
  {
    SplitJoin(line, ',');
    forall i | 0 <= i < |SplitFields(line)|
      ensures var field := SplitFields(line)[i];
        && ',' !in field && '\n' !in field
        && (field == [] || (!IsSpace(field[0]) && !IsSpace(field[|field| - 1])))
    {
      var piece := Split(line, ',')[i];
      SplitPiecesFree(line, ',', i);
      CleanKeeps(piece, ',');
      CleanEnds(piece);
    }
  }

  /** Cleaning a piece only removes characters. */
  lemma CleanKeeps(w: string, c: char)
    requires c !in w
    ensures c !in Clean(w)
  {
    TrimLeftKeeps(w, c);
    TrimRightKeeps(TrimLeft(w), c);
    DropNewlinesKeeps(Strip(w), c);
  }

  lemma {:induction false} TrimLeftKeeps(w: string, c: char)
    requires c !in w
    ensures c !in TrimLeft(w)
    decreases |w|
  {
    if w != [] && IsSpace(w[0]) {
      TrimLeftKeeps(w[1..], c);
    }
  }

  lemma {:induction false} TrimRightKeeps(w: string, c: char)
    requires c !in w
    ensures c !in TrimRight(w)
    decreases |w|
  {
    if w != [] && IsSpace(w[|w| - 1]) {
      TrimRightKeeps(w[..|w| - 1], c);
    }
  }

  lemma {:induction false} DropNewlinesKeeps(w: string, c: char)
    requires c !in w
    ensures c !in DropNewlines(w)
    decreases |w|
  {
    if w != [] {
      DropNewlinesKeeps(w[1..], c);
    }
  }

  /** A stripped piece neither starts nor ends with whitespace, and dropping
      its inner newlines keeps both ends. */
  lemma CleanEnds(w: string)
    ensures var field := Clean(w);
      field == [] || (!IsSpace(field[0]) && !IsSpace(field[|field| - 1]))
  {
    var s := Strip(w);
    if s != [] {
      DropNewlinesFirst(s);
      DropNewlinesLast(s);
    }
  }

  lemma DropNewlinesFirst(s: string)
    requires s != [] && s[0] != '\n'
    ensures DropNewlines(s) != [] && DropNewlines(s)[0] == s[0]
  {}

  lemma {:induction false} DropNewlinesLast(s: string)
    requires s != [] && s[|s| - 1] != '\n'
    ensures DropNewlines(s) != [] && DropNewlines(s)[|DropNewlines(s)| - 1] == s[|s| - 1]
    decreases |s|
  {
    if |s| > 1 {
      DropNewlinesLast(s[1..]);
    }
  }

  // ---------------------------------------------------------------------
  // __load_data_from_lines

  /** One line: the fields scanned by the column format with the class
      reset to None; a line whose class is missing or empty is dropped. */
  function LineItem(format: seq<string>, line: string, parse: string -> Option<real>): Result<Option<Item>>
  {
    var fields := SplitFields(line);
    var g :- Classifying.ScanFields(format, fields, |fields|, parse, None);
    if g.classification.None? || g.classification.value == "" then Ok(None)
    else Ok(Some(Classifying.Item(g.classification.value, g.vector, g.ignore)))
  }

  /** `for line in lines`: the rows kept, in line order, and whether a line
      raised; the rows before the failing line are kept. */
  function LinesItems(format: seq<string>, lines: seq<string>, parse: string -> Option<real>): Classifying.Loaded
  {
    LoadEach(line => LineItem(format, line, parse), lines)
  }

  /** The loop of `LinesItems`, for any loader of one line. */
  function LoadEach(load: string -> Result<Option<Item>>, lines: seq<string>): Classifying.Loaded
    decreases |lines|
  {
    if lines == [] then Classifying.Loaded([], Ok(()))
    else
      match load(lines[0])
      case Err(e) => Classifying.Loaded([], Err(e))
      case Ok(kept) =>
        var rest := LoadEach(load, lines[1..]);
        Classifying.Loaded((if kept.Some? then [kept.value] else []) + rest.items, rest.outcome)
  }

  /** Loading two runs of lines is loading the first, then (if it did not
      fail) the second after it: the training buckets may be read as one
      list of lines. */
  lemma LinesItemsAppend(format: seq<string>, a: seq<string>, b: seq<string>, parse: string -> Option<real>)
    ensures var first, second := LinesItems(format, a, parse), LinesItems(format, b, parse);
      LinesItems(format, a + b, parse)
        == if first.outcome.Err? then first
           else Classifying.Loaded(first.items + second.items, second.outcome)
  {
    LoadEachAppend(line => LineItem(format, line, parse), a, b);
  }

  /** `LinesItemsAppend` for any loader. */
  lemma {:induction false} LoadEachAppend(load: string -> Result<Option<Item>>, a: seq<string>, b: seq<string>)
    ensures var first, second := LoadEach(load, a), LoadEach(load, b);
      LoadEach(load, a + b)
        == if first.outcome.Err? then first
           else Classifying.Loaded(first.items + second.items, second.outcome)
    decreases |a|
  {
    if a != [] {
      assert (a + b)[0] == a[0];
      assert (a + b)[1..] == a[1..] + b;
      var head := load(a[0]);
      if head.Ok? {
        LoadEachAppend(load, a[1..], b);
        var kept := if head.value.Some? then [head.value.value] else [];
        var rest, second := LoadEach(load, a[1..]), LoadEach(load, b);
        if rest.outcome.Ok? {
          assert kept + (rest.items + second.items) == (kept + rest.items) + second.items;
        }
      }
    } else {
      assert a + b == b;
    }
  }

  /** The load fails exactly when some line fails, and there are at most
      as many rows as lines. */
  lemma LinesItemsOutcome(format: seq<string>, lines: seq<string>, parse: string -> Option<real>)
    ensures var loaded := LinesItems(format, lines, parse);
      && |loaded.items| <= |lines|
      && (loaded.outcome.Ok? <==> forall k :: 0 <= k < |lines| ==> LineItem(format, lines[k], parse).Ok?)
  {
    LoadEachOutcome(line => LineItem(format, line, parse), lines);
  }

  /** `LinesItemsOutcome` for any loader. */
  lemma {:induction false} LoadEachOutcome(load: string -> Result<Option<Item>>, lines: seq<string>)
    ensures var loaded := LoadEach(load, lines);
      && |loaded.items| <= |lines|
      && (loaded.outcome.Ok? <==> forall k :: 0 <= k < |lines| ==> load(lines[k]).Ok?)
    decreases |lines|
  {
    if lines != [] {
      LoadEachOutcome(load, lines[1..]);
      var rest := LoadEach(load, lines[1..]);
      if load(lines[0]).Ok? {
        if rest.outcome.Ok? {
          forall k | 0 <= k < |lines| ensures load(lines[k]).Ok? {
            if k > 0 {
              assert lines[k] == lines[1..][k - 1];
            }
          }
        } else {
          var k :| 0 <= k < |lines[1..]| && !load(lines[1..][k]).Ok?;
          assert !load(lines[k + 1]).Ok?;
        }
      }
    }
  }

  /** Every kept row has a non-empty class and is the row of one of the
      lines. */
  lemma {:induction false} LinesItemsKept(format: seq<string>, lines: seq<string>, parse: string -> Option<real>)
    ensures forall item :: item in LinesItems(format, lines, parse).items ==>
      item.classification != "" &&
      exists k :: 0 <= k < |lines| && LineItem(format, lines[k], parse) == Ok(Some(item))
    decreases |lines|
  {
    if lines != [] {
      LinesItemsKept(format, lines[1..], parse);
      var loaded, rest := LinesItems(format, lines, parse), LinesItems(format, lines[1..], parse);
      match LineItem(format, lines[0], parse)
      case Err(e) =>
      case Ok(kept) =>
        assert loaded.items == (if kept.Some? then [kept.value] else []) + rest.items;
        forall item | item in loaded.items
          ensures exists k :: 0 <= k < |lines| && LineItem(format, lines[k], parse) == Ok(Some(item))
        {
          if item in rest.items {
            var k :| 0 <= k < |lines[1..]| && LineItem(format, lines[1..][k], parse) == Ok(Some(item));
            assert LineItem(format, lines[k + 1], parse) == Ok(Some(item));
          } else {
            assert LineItem(format, lines[0], parse) == Ok(Some(item));
          }
        }
    }
  }

  // ---------------------------------------------------------------------
  // __load_training_buckets

  /** `numbers[0:exclude] + numbers[exclude + 1:n]` for
      `numbers = range(n)`: every bucket number below n except the excluded
      one, ascending. */
  function TrainingBuckets(n: nat, exclude: nat): (r: seq<nat>)
    ensures forall k: nat :: k in r <==> k < n && k != exclude
    ensures forall i, j :: 0 <= i < j < |r| ==> r[i] < r[j]
  {
    var low := if exclude < n then exclude else n;
    var high := if exclude + 1 < n then exclude + 1 else n;
    var below, above := Range(0, low), Range(high, n);
    assert forall k: nat :: k in below + above <==> k in below || k in above;
    below + above
  }

  /** `range(lo, hi)`. */
  function Range(lo: nat, hi: nat): (r: seq<nat>)
    requires lo <= hi
    ensures |r| == hi - lo
    ensures forall i :: 0 <= i < |r| ==> r[i] == lo + i
    ensures forall k: nat :: k in r <==> lo <= k < hi
  {
    var r := seq(hi - lo, i requires 0 <= i < hi - lo => lo + i);
    RangeMembers(lo, hi, r);
    r
  }

  lemma RangeMembers(lo: nat, hi: nat, r: seq<nat>)
    requires lo <= hi && |r| == hi - lo
    requires forall i :: 0 <= i < |r| ==> r[i] == lo + i
    ensures forall k: nat :: k in r <==> lo <= k < hi
  {
    forall k | lo <= k < hi ensures k in r {
      assert r[k - lo] == k;
    }
  }

  /** The lines of the chosen bucket files, one file after the other. */
  function Concat(files: seq<seq<string>>, numbers: seq<nat>): seq<string>
    requires forall j :: 0 <= j < |numbers| ==> numbers[j] < |files|
  {
    if numbers == [] then []
    else Concat(files, numbers[..|numbers| - 1]) + files[numbers[|numbers| - 1]]
  }

  // ---------------------------------------------------------------------
  // create_buckets

  /** `line.split()[class_column]`, the category a line is filed under. */
  function Category(line: string, classColumn: nat): Result<string>
  {
    var words := Words(line);
    if classColumn < |words| then Ok(words[classColumn]) else Err(IndexError)
  }

  /** The lines of category c, in input order. */
  function OfCategory(lines: seq<string>, c: string, classColumn: nat): seq<string>
  {
    if lines == [] then []
    else
      OfCategory(lines[..|lines| - 1], c, classColumn)
        + (if Category(lines[|lines| - 1], classColumn) == Ok(c) then [lines[|lines| - 1]] else [])
  }

  /** The lines whose category is in `cs`, in input order. */
  function InCategories(lines: seq<string>, cs: set<string>, classColumn: nat): seq<string>
  {
    if lines == [] then []
    else
      var c := Category(lines[|lines| - 1], classColumn);
      InCategories(lines[..|lines| - 1], cs, classColumn)
        + (if c.Ok? && c.value in cs then [lines[|lines| - 1]] else [])
  }

  /** The items at positions b, b + n, b + 2n, ...: what the round-robin
      loop, starting at bucket 0, puts into bucket b. */
  function Dealt(items: seq<string>, b: nat, n: nat): seq<string>
    requires n > 0
  {
    if items == [] then []
    else Dealt(items[..|items| - 1], b, n) + (if (|items| - 1) % n == b then [items[|items| - 1]] else [])
  }

  /** How many of m items dealt round-robin from bucket 0 land in bucket b:
      one more than the others for the first `m % n` buckets. */
  function Share(m: nat, b: nat, n: nat): nat
    requires n > 0
  {
    m / n + (if b < m % n then 1 else 0)
  }

  /** Shares are balanced: two buckets differ by at most one item, the
      lower-numbered one never holding fewer. */
  lemma ShareBalanced(m: nat, b: nat, b': nat, n: nat)
    requires n > 0 && b <= b' < n
    ensures Share(m, b', n) <= Share(m, b, n) <= Share(m, b', n) + 1
  {}

  lemma {:induction false} ShareTotal(m: nat, n: nat, k: nat)
    requires n > 0 && k <= n
    ensures SharesUpTo(m, n, k) == k * (m / n) + (if k < m % n then k else m % n)
  {
    if k > 0 {
      ShareTotal(m, n, k - 1);
      ShareStep(k, m / n, m % n, SharesUpTo(m, n, k - 1));
    }
  }

  /** Adding share k - 1, of q items plus one while k - 1 < r. */
  lemma ShareStep(k: nat, q: nat, r: nat, before: nat)
    requires k > 0 && before == (k - 1) * q + (if k - 1 < r then k - 1 else r)
    ensures before + (q + (if k - 1 < r then 1 else 0)) == k * q + (if k < r then k else r)
  {
    assert k * q == (k - 1) * q + q;
  }

  /** `Share(m, 0, n) + ... + Share(m, k - 1, n)`. */
  function SharesUpTo(m: nat, n: nat, k: nat): nat
    requires n > 0
  {
    if k == 0 then 0 else SharesUpTo(m, n, k - 1) + Share(m, k - 1, n)
  }

  /** All n shares together are the m items. */
  lemma SharesAll(m: nat, n: nat)
    requires n > 0
    ensures SharesUpTo(m, n, n) == m
  {
    ShareTotal(m, n, n);
    assert m == n * (m / n) + m % n;
  }

  /** One more item goes to bucket `m % n`. */
  lemma ShareNext(m: nat, b: nat, n: nat)
    requires n > 0 && b < n
    ensures Share(m + 1, b, n) == Share(m, b, n) + (if m % n == b then 1 else 0)
  {
    var q, r := m / n, m % n;
    assert m == q * n + r;
    if r + 1 < n {
      DivModUnique(m + 1, n, q, r + 1);
    } else {
      DivModUnique(m + 1, n, q + 1, 0);
    }
  }

  lemma DivModUnique(m: nat, n: nat, q: nat, r: nat)
    requires n > 0 && r < n && m == q * n + r
    ensures m / n == q && m % n == r
  {
    var q', r' := m / n, m % n;
    assert m == q' * n + r';
    if q' < q {
      MulAtLeast(q - q', n);
    } else if q' > q {
      MulAtLeast(q' - q, n);
    }
  }

  lemma MulAtLeast(d: int, n: nat)
    requires d >= 1
    ensures d * n >= n
  {}

  /** Bucket b receives `Share(|items|, b, n)` of the items. */
  lemma {:induction false} DealtSize(items: seq<string>, b: nat, n: nat)
    requires n > 0 && b < n
    ensures |Dealt(items, b, n)| == Share(|items|, b, n)
    decreases |items|
  {
    if items != [] {
      DealtSize(items[..|items| - 1], b, n);
      ShareNext(|items| - 1, b, n);
    }
  }

  /** Bucket b only receives items. */
  lemma {:induction false} DealtFrom(items: seq<string>, b: nat, n: nat)
    requires n > 0
    ensures multiset(Dealt(items, b, n)) <= multiset(items)
    decreases |items|
  {
    if items != [] {
      DealtFrom(items[..|items| - 1], b, n);
      assert items == items[..|items| - 1] + [items[|items| - 1]];
    }
  }

  /** The buckets one after the other. */
  function Flatten(buckets: seq<seq<string>>): seq<string>
  {
    if buckets == [] then [] else Flatten(buckets[..|buckets| - 1]) + buckets[|buckets| - 1]
  }

  /** Appending one item to one bucket adds that item to the whole. */
  lemma {:induction false} FlattenAppend(buckets: seq<seq<string>>, b: int, x: string)
    requires 0 <= b < |buckets|
    ensures multiset(Flatten(buckets[b := buckets[b] + [x]])) == multiset(Flatten(buckets)) + multiset{x}
    decreases |buckets|
  {
    var last := |buckets| - 1;
    var updated := buckets[b := buckets[b] + [x]];
    if b < last {
      assert updated[..last] == buckets[..last][b := buckets[b] + [x]];
      assert updated[last] == buckets[last];
      FlattenAppend(buckets[..last], b, x);
    } else {
      assert updated[..last] == buckets[..last];
    }
  }

  /** Filtering by category distributes over concatenation. */
  lemma {:induction false} OfCategoryAppend(a: seq<string>, b: seq<string>, c: string, classColumn: nat)
    ensures OfCategory(a + b, c, classColumn) == OfCategory(a, c, classColumn) + OfCategory(b, c, classColumn)
    decreases |b|
  {
    if b == [] {
      assert a + b == a;
    } else {
      var last := |b| - 1;
      assert (a + b)[..|a + b| - 1] == a + b[..last];
      OfCategoryAppend(a, b[..last], c, classColumn);
    }
  }

  /** Lines all of category c are kept whole by the filter for c and
      dropped whole by the filter for any other category. */
  lemma {:induction false} OfCategoryUniform(s: seq<string>, key: string, c: string, classColumn: nat)
    requires forall x :: x in s ==> Category(x, classColumn) == Ok(key)
    ensures OfCategory(s, c, classColumn) == if c == key then s else []
    decreases |s|
  {
    if s != [] {
      var init, last := s[..|s| - 1], s[|s| - 1];
      forall x | x in init ensures Category(x, classColumn) == Ok(key) {
        assert x in s;
      }
      OfCategoryUniform(init, key, c, classColumn);
      assert last in s;
      UniformStep(s, key, c, classColumn);
    }
  }

  /** A last line of category `key` after lines the filter for c treats
      uniformly. */
  lemma UniformStep(s: seq<string>, key: string, c: string, classColumn: nat)
    requires s != [] && Category(s[|s| - 1], classColumn) == Ok(key)
    requires OfCategory(s[..|s| - 1], c, classColumn) == if c == key then s[..|s| - 1] else []
    ensures OfCategory(s, c, classColumn) == if c == key then s else []
  {
    assert s == s[..|s| - 1] + [s[|s| - 1]];
  }

  /** Adding the category `key` to the filter adds its lines. */
  lemma {:induction false} InCategoriesAdd(lines: seq<string>, cs: set<string>, key: string, classColumn: nat)
    requires key !in cs
    ensures multiset(InCategories(lines, cs + {key}, classColumn))
         == multiset(InCategories(lines, cs, classColumn)) + multiset(OfCategory(lines, key, classColumn))
    decreases |lines|
  {
    if lines != [] {
      InCategoriesAdd(lines[..|lines| - 1], cs, key, classColumn);
    }
  }

  /** With every category in the filter, nothing is filtered out. */
  lemma {:induction false} InCategoriesAll(lines: seq<string>, cs: set<string>, classColumn: nat)
    requires forall k :: 0 <= k < |lines| ==> Category(lines[k], classColumn).Ok? && Category(lines[k], classColumn).value in cs
    ensures InCategories(lines, cs, classColumn) == lines
    decreases |lines|
  {
    if lines != [] {
      InCategoriesAll(lines[..|lines| - 1], cs, classColumn);
      assert lines == lines[..|lines| - 1] + [lines[|lines| - 1]];
    }
  }

  /** A category with no line has no line in the filter. */
  lemma {:induction false} OfCategoryAbsent(lines: seq<string>, c: string, classColumn: nat)
    requires forall k :: 0 <= k < |lines| ==> Category(lines[k], classColumn) != Ok(c)
    ensures OfCategory(lines, c, classColumn) == []
    decreases |lines|
  {
    if lines != [] {
      OfCategoryAbsent(lines[..|lines| - 1], c, classColumn);
    }
  }

  /** Every filtered line has the category. */
  lemma {:induction false} OfCategoryOnly(lines: seq<string>, c: string, classColumn: nat)
    ensures forall x :: x in OfCategory(lines, c, classColumn) ==> Category(x, classColumn) == Ok(c)
    decreases |lines|
  {
    if lines != [] {
      OfCategoryOnly(lines[..|lines| - 1], c, classColumn);
    }
  }

  // ---------------------------------------------------------------------
  // The confusion matrix

  /** `confusion_matrix[category][classified] += 1`, which raises KeyError
      when either key is missing. */
  function Bump(matrix: map<string, map<string, int>>, category: string, classified: string): Result<map<string, map<string, int>>>
  {
    if category !in matrix || classified !in matrix[category] then Err(KeyError)
    else Ok(matrix[category := matrix[category][classified := matrix[category][classified] + 1]])
  }

  /** The matrix after counting each (true class, answer) pair in turn. */
  function Tally(matrix: map<string, map<string, int>>, pairs: seq<(string, string)>): Result<map<string, map<string, int>>>
    decreases |pairs|
  {
    if pairs == [] then Ok(matrix)
    else
      var next :- Bump(matrix, pairs[0].0, pairs[0].1);
      Tally(next, pairs[1..])
  }

  /** A cell of the matrix. */
  predicate IsCell(matrix: map<string, map<string, int>>, a: string, b: string)
  {
    a in matrix && b in matrix[a]
  }

  /** Counting succeeds exactly when every pair names a cell; it keeps the
      rows and columns, and each cell grows by the number of pairs that name
      it: each test counts in exactly one cell. */
  lemma {:induction false} TallyCells(matrix: map<string, map<string, int>>, pairs: seq<(string, string)>)
    ensures Tally(matrix, pairs).Ok? <==> forall k :: 0 <= k < |pairs| ==> IsCell(matrix, pairs[k].0, pairs[k].1)
    ensures Tally(matrix, pairs).Ok? ==>
      var after := Tally(matrix, pairs).value;
      && after.Keys == matrix.Keys
      && (forall a :: a in matrix ==> after[a].Keys == matrix[a].Keys)
      && (forall a, b :: IsCell(matrix, a, b) ==> after[a][b] == matrix[a][b] + multiset(pairs)[(a, b)])
  {
    TallyDefined(matrix, pairs);
    if Tally(matrix, pairs).Ok? {
      TallyCounts(matrix, pairs);
    }
  }

  /** Counting fails exactly when some pair names no cell. */
  lemma {:induction false} TallyDefined(matrix: map<string, map<string, int>>, pairs: seq<(string, string)>)
    ensures Tally(matrix, pairs).Ok? <==> forall k :: 0 <= k < |pairs| ==> IsCell(matrix, pairs[k].0, pairs[k].1)
    decreases |pairs|
  {
    if pairs != [] {
      var p := pairs[0];
      if IsCell(matrix, p.0, p.1) {
        var next := Bump(matrix, p.0, p.1).value;
        TallyDefined(next, pairs[1..]);
        BumpCells(matrix, p.0, p.1);
        assert forall k :: 1 <= k < |pairs| ==> pairs[k] == pairs[1..][k - 1];
        if Tally(matrix, pairs).Ok? {
          forall k | 0 <= k < |pairs| ensures IsCell(matrix, pairs[k].0, pairs[k].1) {
            if k > 0 {
              assert IsCell(next, pairs[1..][k - 1].0, pairs[1..][k - 1].1);
            }
          }
        }
      }
    }
  }

  /** Bumping a cell keeps the cells. */
  lemma BumpCells(matrix: map<string, map<string, int>>, a: string, b: string)
    requires IsCell(matrix, a, b)
    ensures var next := Bump(matrix, a, b).value;
      && next.Keys == matrix.Keys
      && (forall a' :: a' in matrix ==> next[a'].Keys == matrix[a'].Keys)
      && (forall a', b' :: IsCell(next, a', b') <==> IsCell(matrix, a', b'))
      && (forall a', b' :: IsCell(matrix, a', b') ==> next[a'][b'] == matrix[a'][b'] + (if (a', b') == (a, b) then 1 else 0))
  {}

  /** Each cell grows by the number of pairs that name it. */
  lemma {:induction false} TallyCounts(matrix: map<string, map<string, int>>, pairs: seq<(string, string)>)
    requires Tally(matrix, pairs).Ok?
    ensures
      var after := Tally(matrix, pairs).value;
      && after.Keys == matrix.Keys
      && (forall a :: a in matrix ==> after[a].Keys == matrix[a].Keys)
      && (forall a, b :: IsCell(matrix, a, b) ==> after[a][b] == matrix[a][b] + multiset(pairs)[(a, b)])
    decreases |pairs|
  {
    if pairs != [] {
      var p := pairs[0];
      var next := Bump(matrix, p.0, p.1).value;
      TallyCounts(next, pairs[1..]);
      BumpCells(matrix, p.0, p.1);
      assert pairs == [p] + pairs[1..];
    }
  }

  /** `for cat in rows: confusion_matrix.setdefault(cat, dict.fromkeys(columns, 0))`:
      rows that already exist are kept, the others start at zero in every
      column. */
  function Installed(matrix: map<string, map<string, int>>, rows: set<string>, columns: set<string>): (r: map<string, map<string, int>>)
    ensures r.Keys == matrix.Keys + rows
    ensures forall a :: a in matrix ==> r[a] == matrix[a]
    ensures forall a :: a in rows && a !in matrix ==> r[a].Keys == columns && forall b :: b in columns ==> r[a][b] == 0
  {
    map a | a in matrix.Keys + rows :: if a in matrix then matrix[a] else Zeros(columns)
  }

  /** `dict.fromkeys(columns, 0)`. */
  function Zeros(columns: set<string>): map<string, int>
  {
    map b | b in columns :: 0
  }

  /** Installed into an empty matrix, the cells are exactly the pairs of
      categories, all at zero. */
  lemma FreshMatrix(categories: set<string>)
    ensures var m := Installed(map[], categories, categories);
      && (forall a, b :: IsCell(m, a, b) <==> a in categories && b in categories)
      && (forall a, b :: IsCell(m, a, b) ==> m[a][b] == 0)
  {
    var m := Installed(map[], categories, categories);
    forall a, b | IsCell(m, a, b) ensures a in categories && b in categories && m[a][b] == 0 {
      assert m[a] == Zeros(categories);
    }
  }

  /** The number of tests whose answer is their class. */
  function Correct(pairs: seq<(string, string)>): nat
  {
    if pairs == [] then 0 else Correct(pairs[..|pairs| - 1]) + (if pairs[|pairs| - 1].0 == pairs[|pairs| - 1].1 then 1 else 0)
  }

  /** At most every test is answered correctly, and all of them are
      exactly when every answer is the test's class. */
  lemma {:induction false} CorrectCounts(pairs: seq<(string, string)>)
    ensures Correct(pairs) <= |pairs|
    ensures Correct(pairs) == |pairs| <==> forall k :: 0 <= k < |pairs| ==> pairs[k].0 == pairs[k].1
    decreases |pairs|
  {
    if pairs != [] {
      var init := pairs[..|pairs| - 1];
      CorrectCounts(init);
      assert forall k :: 0 <= k < |init| ==> init[k] == pairs[k];
    }
  }

  // ---------------------------------------------------------------------
  // Testing one bucket

  /** The state of the inherited classifier that `classify` reads and
      rewrites. */
  datatype State = State(data: seq<Item>, minMax: seq<(real, real)>, medianDeviation: seq<(real, real)>)

  /** `classify(vector, standardize)`: the answer and the classifier
      state after it, as the classifier's own `Classify` states them. */
  function Classified(strategy: Option<Classifying.Scaling>, st: State, vector: seq<real>, root: real -> real): (Result<string>, State)
  {
    match strategy
    case None => (Err(if st.data == [] then ValueError else TypeError), st)
    case Some(scaling) =>
      var pairs := if scaling == Classifying.Normalization then st.minMax else st.medianDeviation;
      var after := Classifying.AllColumns(scaling, st.data, pairs);
      var next :=
        if scaling == Classifying.Normalization then st.(data := after.data, minMax := after.pairs)
        else st.(data := after.data, medianDeviation := after.pairs);
      (Classifying.Classification(scaling, after, vector, root), next)
  }

  /** What testing a run of items leaves: the classifier state, the
      matrix, the answers given and whether a test raised. */
  datatype Tested = Tested(state: State, matrix: map<string, map<string, int>>, answers: seq<string>, outcome: Result<()>)

  /** `for value in self.test_data`: classify the item, then count its
      (class, answer) cell; a failing `classify` or a missing cell stops
      the run. */
  function TestAll(strategy: Option<Classifying.Scaling>, st: State, matrix: map<string, map<string, int>>,
                   tests: seq<Item>, root: real -> real): (r: Tested)
    ensures |r.answers| <= |tests|
    ensures r.outcome.Ok? ==> |r.answers| == |tests|
    decreases |tests|
  {
    if tests == [] then Tested(st, matrix, [], Ok(()))
    else
      var (answer, next) := Classified(strategy, st, tests[0].vector, root);
      if answer.Err? then Tested(next, matrix, [], Err(answer.error))
      else
        match Bump(matrix, tests[0].classification, answer.value)
        case Err(e) => Tested(next, matrix, [], Err(e))
        case Ok(bumped) =>
          var rest := TestAll(strategy, next, bumped, tests[1..], root);
          rest.(answers := [answer.value] + rest.answers)
  }

  /** Each test's (class, answer) pair. */
  function Pairs(tests: seq<Item>, answers: seq<string>): (r: seq<(string, string)>)
    requires |answers| <= |tests|
    ensures |r| == |answers|
    ensures forall k :: 0 <= k < |r| ==> r[k] == (tests[k].classification, answers[k])
  {
    seq(|answers|, k requires 0 <= k < |answers| => (tests[k].classification, answers[k]))
  }

  /** The pairs past the first test are the pairs of the remaining tests. */
  lemma PairsTail(tests: seq<Item>, answer: string, answers: seq<string>)
    requires |answers| < |tests|
    ensures var pairs := Pairs(tests, [answer] + answers);
      pairs != [] && pairs[0] == (tests[0].classification, answer) && pairs[1..] == Pairs(tests[1..], answers)
  {
    var all := [answer] + answers;
    var pairs := Pairs(tests, all);
    var tail := Pairs(tests[1..], answers);
    assert |pairs[1..]| == |tail|;
    forall k | 0 <= k < |answers|
      ensures pairs[1..][k] == tail[k]
    {
      assert all[k + 1] == answers[k];
      assert tests[1..][k] == tests[k + 1];
    }
  }

  /** A run that raises nothing answers every test, and its matrix is the
      old one with each test counted in its (class, answer) cell. */
  lemma {:induction false} TestAllCounts(strategy: Option<Classifying.Scaling>, st: State, matrix: map<string, map<string, int>>,
                                         tests: seq<Item>, root: real -> real)
    ensures var t := TestAll(strategy, st, matrix, tests, root);
      && |t.answers| <= |tests|
      && (t.outcome.Ok? ==> |t.answers| == |tests| && Tally(matrix, Pairs(tests, t.answers)) == Ok(t.matrix))
    decreases |tests|
  {
    if tests != [] {
      var (answer, next) := Classified(strategy, st, tests[0].vector, root);
      if answer.Ok? && Bump(matrix, tests[0].classification, answer.value).Ok? {
        var bumped := Bump(matrix, tests[0].classification, answer.value).value;
        TestAllCounts(strategy, next, bumped, tests[1..], root);
        var rest := TestAll(strategy, next, bumped, tests[1..], root);
        if rest.outcome.Ok? {
          PairsTail(tests, answer.value, rest.answers);
        }
      }
    }
  }

  // ---------------------------------------------------------------------
  // Reading the buckets

  /** The lines of the chosen bucket files, one file after the other;
      `files[b]` is the content of bucket b, and a number past the files
      names a bucket that was never written. */
  function BucketLines(files: seq<seq<string>>, numbers: seq<nat>): Result<seq<string>>
  {
    if forall j :: 0 <= j < |numbers| ==> numbers[j] < |files| then Ok(Concat(files, numbers))
    else Err(IOError)
  }

  /** Reading buckets in two runs reads their lines one run after the
      other. */
  lemma {:induction false} ConcatAppend(files: seq<seq<string>>, a: seq<nat>, b: seq<nat>)
    requires forall j :: 0 <= j < |a| ==> a[j] < |files|
    requires forall j :: 0 <= j < |b| ==> b[j] < |files|
    ensures forall j :: 0 <= j < |a + b| ==> (a + b)[j] < |files|
    ensures Concat(files, a + b) == Concat(files, a) + Concat(files, b)
    decreases |b|
  {
    if b == [] {
      assert a + b == a;
    } else {
      var init, last := b[..|b| - 1], b[|b| - 1];
      assert (a + b)[..|a + b| - 1] == a + init;
      assert (a + b)[|a + b| - 1] == last;
      ConcatAppend(files, a, init);
      calc {
        Concat(files, a + b);
        Concat(files, a + init) + files[last];
        Concat(files, a) + Concat(files, init) + files[last];
        Concat(files, a) + (Concat(files, init) + files[last]);
      }
    }
  }

  /** One bucket read alone is its own lines. */
  lemma ConcatSingle(files: seq<seq<string>>, e: nat)
    requires e < |files|
    ensures Concat(files, [e]) == files[e]
  {
    assert [e][..0] == [];
  }

  /** `range(lo, hi)` is `range(lo, mid)` then `range(mid, hi)`. */
  lemma RangeSplit(lo: nat, mid: nat, hi: nat)
    requires lo <= mid <= hi
    ensures Range(lo, hi) == Range(lo, mid) + Range(mid, hi)
  {
    var a, b := Range(lo, mid), Range(mid, hi);
    assert forall k :: 0 <= k < |a + b| ==> (a + b)[k] == lo + k by {
      forall k | 0 <= k < |a + b| ensures (a + b)[k] == lo + k {
        if k >= |a| {
          assert (a + b)[k] == b[k - |a|];
        }
      }
    }
  }

  /** The buckets numbered 0 .. k - 1, in order, are the first k files. */
  lemma {:induction false} ConcatRange(files: seq<seq<string>>, k: nat)
    requires k <= |files|
    ensures Concat(files, Range(0, k)) == Flatten(files[..k])
    decreases k
  {
    if k > 0 {
      assert Range(0, k)[..k - 1] == Range(0, k - 1);
      assert files[..k][..k - 1] == files[..k - 1];
      ConcatRange(files, k - 1);
    }
  }

  /** Every fold sees all the lines: the training buckets of fold e and
      bucket e itself hold, together, every line of every bucket. */
  lemma TrainingAndTest(files: seq<seq<string>>, e: nat)
    requires e < |files|
    ensures BucketLines(files, TrainingBuckets(|files|, e)).Ok?
    ensures multiset(BucketLines(files, TrainingBuckets(|files|, e)).value) + multiset(files[e])
         == multiset(Flatten(files))
  {
    TrainingLines(files, e);
    AllLines(files, e);
    MultisetSwap(Concat(files, Range(0, e)), files[e], Concat(files, Range(e + 1, |files|)));
  }

  /** The training lines of fold e: the buckets below e, then those above. */
  lemma TrainingLines(files: seq<seq<string>>, e: nat)
    requires e < |files|
    ensures BucketLines(files, TrainingBuckets(|files|, e))
         == Ok(Concat(files, Range(0, e)) + Concat(files, Range(e + 1, |files|)))
  {
    var below, above := Range(0, e), Range(e + 1, |files|);
    assert TrainingBuckets(|files|, e) == below + above;
    ConcatAppend(files, below, above);
  }

  /** All the lines: the buckets below e, bucket e, then those above. */
  lemma AllLines(files: seq<seq<string>>, e: nat)
    requires e < |files|
    ensures Flatten(files) == Concat(files, Range(0, e)) + files[e] + Concat(files, Range(e + 1, |files|))
  {
    var n := |files|;
    var below, above := Range(0, e), Range(e + 1, n);
    RangeSplit(0, e, n);
    RangeSplit(e, e + 1, n);
    assert Range(e, e + 1) == [e];
    assert Range(0, n) == (below + [e]) + above;
    ConcatAppend(files, below, [e]);
    ConcatAppend(files, below + [e], above);
    ConcatSingle(files, e);
    ConcatRange(files, n);
    assert files[..n] == files;
  }

  lemma MultisetSwap(a: seq<string>, b: seq<string>, c: seq<string>)
    ensures multiset(a + b + c) == multiset(a + c) + multiset(b)
  {
    calc {
      multiset(a + b + c);
      multiset(a) + multiset(b) + multiset(c);
      multiset(a) + multiset(c) + multiset(b);
      multiset(a + c) + multiset(b);
    }
  }

  // ---------------------------------------------------------------------
  // Cross-validation

  /** What a run of folds leaves: the classifier state, the test rows, the
      matrix, `all_categories`, the correct count and whether a step
      raised. */
  datatype Validation = Validation(state: State, testData: seq<Item>, matrix: map<string, map<string, int>>,
                                   categories: set<string>, correct: nat, outcome: Result<()>)

  /** The classes of a table, `set([v[0] for v in rows])`. */
  function Classes(items: seq<Item>): set<string>
  {
    set k | 0 <= k < |items| :: items[k].classification
  }

  /** The rows a fold starts from: the training rows of every bucket but
      i and the test rows of bucket i, or the first error in reading them.
      Rows read before an error stay loaded. */
  datatype Prepared = Prepared(training: seq<Item>, test: seq<Item>, outcome: Result<()>)

  /** `__reset_data`, `__load_training_buckets(i)`, `__load_test_buckets(i)`. */
  function Prepare(files: seq<seq<string>>, format: seq<string>, n: nat, parse: string -> Option<real>, i: nat): Prepared
  {
    match BucketLines(files, TrainingBuckets(n, i))
    case Err(e) => Prepared([], [], Err(e))
    case Ok(lines) =>
      var training := LinesItems(format, lines, parse);
      if training.outcome.Err? then Prepared(training.items, [], training.outcome)
      else if i >= |files| then Prepared(training.items, [], Err(IOError))
      else
        var test := LinesItems(format, files[i], parse);
        Prepared(training.items, test.items, test.outcome)
  }

  /** The rest of a fold once its rows are loaded: install the matrix rows
      on the first fold that finds any class, then test every row. */
  function TestFold(strategy: Option<Classifying.Scaling>, root: real -> real, v: Validation,
                    training: seq<Item>, test: seq<Item>): Validation
  {
    var first := v.categories == {};
    var categories := if first then Classes(training + test) else v.categories;
    var matrix := if first then Installed(v.matrix, categories, categories) else v.matrix;
    var t := TestAll(strategy, v.state.(data := training), matrix, test, root);
    var right := if t.outcome.Ok? then Correct(Pairs(test, t.answers)) else 0;
    Validation(t.state, test, t.matrix, categories, v.correct + right, t.outcome)
  }

  /** Fold i of `test_training_bucket`. */
  function Fold(strategy: Option<Classifying.Scaling>, files: seq<seq<string>>, format: seq<string>, n: nat,
                parse: string -> Option<real>, root: real -> real, i: nat, v: Validation): Validation
  {
    var p := Prepare(files, format, n, parse, i);
    if p.outcome.Err? then v.(state := v.state.(data := p.training), testData := p.test, outcome := p.outcome)
    else TestFold(strategy, root, v, p.training, p.test)
  }

  /** A fold whose rows cannot all be read stops with the rows read so far. */
  lemma FoldFails(strategy: Option<Classifying.Scaling>, files: seq<seq<string>>, format: seq<string>, n: nat,
                  parse: string -> Option<real>, root: real -> real, i: nat, v: Validation)
    requires Prepare(files, format, n, parse, i).outcome.Err?
    ensures var p := Prepare(files, format, n, parse, i);
      Fold(strategy, files, format, n, parse, root, i, v)
        == v.(state := v.state.(data := p.training), testData := p.test, outcome := p.outcome)
  {}

  /** A fold whose rows are read is the test of those rows, whatever rows
      the previous fold left loaded. */
  lemma FoldLoaded(strategy: Option<Classifying.Scaling>, files: seq<seq<string>>, format: seq<string>, n: nat,
                   parse: string -> Option<real>, root: real -> real, i: nat, v: Validation, loaded: Validation)
    requires var p := Prepare(files, format, n, parse, i);
      && p.outcome.Ok?
      && loaded == v.(state := v.state.(data := p.training), testData := p.test)
    ensures var p := Prepare(files, format, n, parse, i);
      Fold(strategy, files, format, n, parse, root, i, v) == TestFold(strategy, root, loaded, p.training, p.test)
  {}

  /** Testing the rows on the matrix the fold installs. */
  lemma TestFoldIs(strategy: Option<Classifying.Scaling>, root: real -> real, v: Validation,
                   training: seq<Item>, test: seq<Item>, categories: set<string>,
                   matrix: map<string, map<string, int>>, t: Tested)
    requires v.state.data == training
    requires categories == (if v.categories == {} then Classes(training + test) else v.categories)
    requires matrix == (if v.categories == {} then Installed(v.matrix, categories, categories) else v.matrix)
    requires t == TestAll(strategy, v.state, matrix, test, root)
    ensures TestFold(strategy, root, v, training, test)
        == Validation(t.state, test, t.matrix, categories,
                      v.correct + (if t.outcome.Ok? then Correct(Pairs(test, t.answers)) else 0), t.outcome)
  {
    assert v.state.(data := training) == v.state;
  }

  /** A fold that raises nothing is followed by the next. */
  lemma FoldsStep(strategy: Option<Classifying.Scaling>, files: seq<seq<string>>, format: seq<string>, n: nat,
                  parse: string -> Option<real>, root: real -> real, i: nat, v: Validation)
    requires i < n && v.outcome.Ok?
    ensures Folds(strategy, files, format, n, parse, root, i, v)
         == Folds(strategy, files, format, n, parse, root, i + 1, Fold(strategy, files, format, n, parse, root, i, v))
  {}

  /** No fold follows one that raises, nor the last. */
  lemma FoldsEnd(strategy: Option<Classifying.Scaling>, files: seq<seq<string>>, format: seq<string>, n: nat,
                 parse: string -> Option<real>, root: real -> real, i: nat, v: Validation)
    requires v.outcome.Err? || i >= n
    ensures Folds(strategy, files, format, n, parse, root, i, v) == v
  {}

  /** A step that raises nothing has the one outcome `Ok(())`. */
  lemma UnitOutcome(r: Result<()>)
    requires r.Ok?
    ensures r == Ok(())
  {
    assert r.value == ();
  }

  /** Folds i .. n - 1, stopping at the first that raises. */
  function Folds(strategy: Option<Classifying.Scaling>, files: seq<seq<string>>, format: seq<string>, n: nat,
                 parse: string -> Option<real>, root: real -> real, i: nat, v: Validation): Validation
    decreases n - i
  {
    if v.outcome.Err? || i >= n then v
    else Folds(strategy, files, format, n, parse, root, i + 1, Fold(strategy, files, format, n, parse, root, i, v))
  }

  /** `float(correct) / (len(self.data) + len(self.test_data))` over the
      rows of the last fold. */
  function Accuracy(v: Validation): Result<real>
  {
    if v.outcome.Err? then Err(v.outcome.error)
    else if |v.state.data| + |v.testData| == 0 then Err(ZeroDivisionError)
    else Ok(v.correct as real / (|v.state.data| + |v.testData|) as real)
  }

  /** A fold whose tests raise nothing counts each test row once, in its
      (class, answer) cell of the matrix it starts from, and adds its
      correct answers to the count. */
  lemma TestFoldCounts(strategy: Option<Classifying.Scaling>, root: real -> real, v: Validation,
                       training: seq<Item>, test: seq<Item>)
    requires TestFold(strategy, root, v, training, test).outcome.Ok?
    ensures var after := TestFold(strategy, root, v, training, test);
      var start := if v.categories == {} then Installed(v.matrix, after.categories, after.categories) else v.matrix;
      exists answers: seq<string> ::
        (&& |answers| == |test|
         && Tally(start, Pairs(test, answers)) == Ok(after.matrix)
         && after.correct == v.correct + Correct(Pairs(test, answers)))
  {
    var after := TestFold(strategy, root, v, training, test);
    var start := if v.categories == {} then Installed(v.matrix, after.categories, after.categories) else v.matrix;
    TestAllCounts(strategy, v.state.(data := training), start, test, root);
    var t := TestAll(strategy, v.state.(data := training), start, test, root);
    assert Tally(start, Pairs(test, t.answers)) == Ok(after.matrix);
  }

  /** The first fold that finds a class installs a row and a column for
      every class of its rows, all at zero. */
  lemma FirstFoldMatrix(strategy: Option<Classifying.Scaling>, root: real -> real, v: Validation,
                        training: seq<Item>, test: seq<Item>)
    requires v.categories == {} && v.matrix == map[]
    ensures var after := TestFold(strategy, root, v, training, test);
      var start := Installed(map[], after.categories, after.categories);
      && after.categories == Classes(training + test)
      && (forall a, b :: IsCell(start, a, b) <==> a in after.categories && b in after.categories)
  {
    FreshMatrix(Classes(training + test));
  }

  // ---------------------------------------------------------------------
  // Grouping by category

  /** The categories of the lines whose category can be read. */
  function Categories(lines: seq<string>, classColumn: nat): set<string>
  {
    if lines == [] then {}
    else
      var c := Category(lines[|lines| - 1], classColumn);
      Categories(lines[..|lines| - 1], classColumn) + (if c.Ok? then {c.value} else {})
  }

  /** A category has lines exactly when it is one of the categories. */
  lemma {:induction false} CategoriesHaveLines(lines: seq<string>, c: string, classColumn: nat)
    ensures c in Categories(lines, classColumn) <==> OfCategory(lines, c, classColumn) != []
    decreases |lines|
  {
    if lines != [] {
      CategoriesHaveLines(lines[..|lines| - 1], c, classColumn);
    }
  }

  /** One more item dealt to bucket `j % n`. */
  lemma DealtNext(items: seq<string>, j: nat, b: nat, n: nat)
    requires n > 0 && j < |items|
    ensures Dealt(items[..j + 1], b, n) == Dealt(items[..j], b, n) + (if j % n == b then [items[j]] else [])
  {
    assert items[..j + 1][..j] == items[..j];
  }

  /** Dealing item j extends bucket `j % n` alone. */
  lemma DealStep(after: seq<seq<string>>, buckets: seq<seq<string>>, shuffled: seq<string>, j: nat, n: nat)
    requires n > 0 && j < |shuffled| && |after| == n && |buckets| == n
    requires forall b :: 0 <= b < n ==> after[b] == buckets[b] + Dealt(shuffled[..j], b, n)
    requires multiset(Flatten(after)) == multiset(Flatten(buckets)) + multiset(shuffled[..j])
    ensures var next := after[j % n := after[j % n] + [shuffled[j]]];
      && (forall b {:trigger next[b]} :: 0 <= b < n ==> next[b] == buckets[b] + Dealt(shuffled[..j + 1], b, n))
      && multiset(Flatten(next)) == multiset(Flatten(buckets)) + multiset(shuffled[..j + 1])
  {
    var next := after[j % n := after[j % n] + [shuffled[j]]];
    FlattenStep(after, buckets, shuffled, j, j % n);
    DealtStep(after, buckets, shuffled, j, n);
  }

  /** Item j joins the whole. */
  lemma FlattenStep(after: seq<seq<string>>, buckets: seq<seq<string>>, shuffled: seq<string>, j: nat, b: nat)
    requires j < |shuffled| && b < |after|
    requires multiset(Flatten(after)) == multiset(Flatten(buckets)) + multiset(shuffled[..j])
    ensures multiset(Flatten(after[b := after[b] + [shuffled[j]]])) == multiset(Flatten(buckets)) + multiset(shuffled[..j + 1])
  {
    var x := shuffled[j];
    assert shuffled[..j + 1] == shuffled[..j] + [x];
    assert multiset(shuffled[..j + 1]) == multiset(shuffled[..j]) + multiset{x};
    FlattenAppend(after, b, x);
  }

  /** Item j joins bucket `j % n` alone. */
  lemma DealtStep(after: seq<seq<string>>, buckets: seq<seq<string>>, shuffled: seq<string>, j: nat, n: nat)
    requires n > 0 && j < |shuffled| && |after| == n && |buckets| == n
    requires forall b :: 0 <= b < n ==> after[b] == buckets[b] + Dealt(shuffled[..j], b, n)
    ensures var next := after[j % n := after[j % n] + [shuffled[j]]];
      forall b {:trigger next[b]} :: 0 <= b < n ==> next[b] == buckets[b] + Dealt(shuffled[..j + 1], b, n)
  {
    var next := after[j % n := after[j % n] + [shuffled[j]]];
    forall b | 0 <= b < n ensures next[b] == buckets[b] + Dealt(shuffled[..j + 1], b, n) {
      DealtNext(shuffled, j, b, n);
    }
  }

  /** The rotating bucket number. */
  lemma ModNext(j: nat, n: nat)
    requires n > 0
    ensures (j % n + 1) % n == (j + 1) % n
  {
    var q, r := j / n, j % n;
    assert j == q * n + r;
    if r + 1 < n {
      DivModUnique(j + 1, n, q, r + 1);
      DivModUnique(r + 1, n, 0, r + 1);
    } else {
      assert (q + 1) * n == q * n + n;
      DivModUnique(j + 1, n, q + 1, 0);
      DivModUnique(r + 1, n, 1, 0);
    }
  }

  /** What the buckets hold once the categories in `done` are dealt: the
      lines of those categories, and in bucket b the share of each. */
  ghost predicate Stratified(buckets: seq<seq<string>>, lines: seq<string>, done: set<string>, n: nat, classColumn: nat)
  {
    && |buckets| == n
    && multiset(Flatten(buckets)) == multiset(InCategories(lines, done, classColumn))
    && Spread(buckets, lines, done, n, classColumn)
  }

  /** Bucket b holds the share of each dealt category and nothing of the
      others. */
  ghost predicate Spread(buckets: seq<seq<string>>, lines: seq<string>, done: set<string>, n: nat, classColumn: nat)
    requires |buckets| == n
  {
    forall b, c {:trigger OfCategory(buckets[b], c, classColumn)} :: 0 <= b < n ==>
      |OfCategory(buckets[b], c, classColumn)| == if c in done then Share(|OfCategory(lines, c, classColumn)|, b, n) else 0
  }

  /** `after` is `before` with the items dealt round-robin from bucket 0. */
  ghost predicate DealtInto(before: seq<seq<string>>, after: seq<seq<string>>, items: seq<string>, n: nat)
    requires n > 0
  {
    && |before| == n && |after| == n
    && (forall b :: 0 <= b < n ==> after[b] == before[b] + Dealt(items, b, n))
    && multiset(Flatten(after)) == multiset(Flatten(before)) + multiset(items)
  }

  /** Dealing the shuffled lines of one more category keeps the buckets
      stratified. */
  lemma DealCategory(before: seq<seq<string>>, after: seq<seq<string>>, shuffled: seq<string>, key: string,
                     lines: seq<string>, done: set<string>, n: nat, classColumn: nat)
    requires n > 0 && key !in done
    requires Stratified(before, lines, done, n, classColumn)
    requires multiset(shuffled) == multiset(OfCategory(lines, key, classColumn))
    requires DealtInto(before, after, shuffled, n)
    ensures Stratified(after, lines, done + {key}, n, classColumn)
  {
    InCategoriesAdd(lines, done, key, classColumn);
    OfCategoryOnly(lines, key, classColumn);
    forall x | x in shuffled ensures Category(x, classColumn) == Ok(key) {
      assert x in multiset(shuffled);
    }
    assert |shuffled| == |OfCategory(lines, key, classColumn)| by {
      assert |multiset(shuffled)| == |multiset(OfCategory(lines, key, classColumn))|;
    }
    DealSpread(before, after, shuffled, key, lines, done, n, classColumn);
  }

  lemma DealSpread(before: seq<seq<string>>, after: seq<seq<string>>, shuffled: seq<string>, key: string,
                   lines: seq<string>, done: set<string>, n: nat, classColumn: nat)
    requires n > 0 && key !in done && |before| == n && |after| == n
    requires Spread(before, lines, done, n, classColumn)
    requires forall x :: x in shuffled ==> Category(x, classColumn) == Ok(key)
    requires |shuffled| == |OfCategory(lines, key, classColumn)|
    requires forall b :: 0 <= b < n ==> after[b] == before[b] + Dealt(shuffled, b, n)
    ensures Spread(after, lines, done + {key}, n, classColumn)
  {
    forall b, c {:trigger OfCategory(after[b], c, classColumn)} | 0 <= b < n
      ensures |OfCategory(after[b], c, classColumn)|
           == if c in done + {key} then Share(|OfCategory(lines, c, classColumn)|, b, n) else 0
    {
      DealBucket(before[b], shuffled, key, lines, done, b, n, c, classColumn);
    }
  }

  /** One bucket, one category. */
  lemma DealBucket(bucket: seq<string>, shuffled: seq<string>, key: string, lines: seq<string>, done: set<string>,
                   b: nat, n: nat, c: string, classColumn: nat)
    requires b < n && key !in done
    requires |OfCategory(bucket, c, classColumn)| == if c in done then Share(|OfCategory(lines, c, classColumn)|, b, n) else 0
    requires forall x :: x in shuffled ==> Category(x, classColumn) == Ok(key)
    requires |shuffled| == |OfCategory(lines, key, classColumn)|
    ensures |OfCategory(bucket + Dealt(shuffled, b, n), c, classColumn)|
         == if c in done + {key} then Share(|OfCategory(lines, c, classColumn)|, b, n) else 0
  {
    var dealt := Dealt(shuffled, b, n);
    OfCategoryAppend(bucket, dealt, c, classColumn);
    DealtFrom(shuffled, b, n);
    forall x | x in dealt ensures Category(x, classColumn) == Ok(key) {
      assert x in multiset(dealt);
      assert x in multiset(shuffled);
    }
    OfCategoryUniform(dealt, key, c, classColumn);
    if c == key {
      DealtSize(shuffled, b, n);
    }
  }

  /** Once every category is dealt, the buckets hold exactly the lines,
      and each category is spread over them by its share. */
  lemma AllDealt(buckets: seq<seq<string>>, lines: seq<string>, n: nat, classColumn: nat)
    requires n > 0
    requires forall k :: 0 <= k < |lines| ==> Category(lines[k], classColumn).Ok?
    requires Stratified(buckets, lines, Categories(lines, classColumn), n, classColumn)
    ensures multiset(Flatten(buckets)) == multiset(lines)
    ensures forall b, c :: 0 <= b < n ==>
      |OfCategory(buckets[b], c, classColumn)| == Share(|OfCategory(lines, c, classColumn)|, b, n)
  {
    EveryCategory(lines, classColumn);
    AllShares(buckets, lines, n, classColumn);
  }

  /** With every category chosen, the filter keeps every line. */
  lemma EveryCategory(lines: seq<string>, classColumn: nat)
    requires forall k :: 0 <= k < |lines| ==> Category(lines[k], classColumn).Ok?
    ensures InCategories(lines, Categories(lines, classColumn), classColumn) == lines
  {
    var cs := Categories(lines, classColumn);
    forall k | 0 <= k < |lines| ensures Category(lines[k], classColumn).value in cs {
      var c := Category(lines[k], classColumn).value;
      OfCategoryHas(lines, k, classColumn);
      CategoriesHaveLines(lines, c, classColumn);
    }
    InCategoriesAll(lines, cs, classColumn);
  }

  /** A category with no line has a share of zero everywhere. */
  lemma AllShares(buckets: seq<seq<string>>, lines: seq<string>, n: nat, classColumn: nat)
    requires n > 0 && |buckets| == n
    requires Spread(buckets, lines, Categories(lines, classColumn), n, classColumn)
    ensures forall b, c :: 0 <= b < n ==>
      |OfCategory(buckets[b], c, classColumn)| == Share(|OfCategory(lines, c, classColumn)|, b, n)
  {
    var cs := Categories(lines, classColumn);
    forall b, c {:trigger OfCategory(buckets[b], c, classColumn)} | 0 <= b < n
      ensures |OfCategory(buckets[b], c, classColumn)| == Share(|OfCategory(lines, c, classColumn)|, b, n)
    {
      CategoriesHaveLines(lines, c, classColumn);
      if c !in cs {
        ShareZero(b, n);
      }
    }
  }

  /** No items, no share. */
  lemma ShareZero(b: nat, n: nat)
    requires n > 0
    ensures Share(0, b, n) == 0
  {}

  /** A line is among the lines of its own category. */
  lemma {:induction false} OfCategoryHas(lines: seq<string>, k: nat, classColumn: nat)
    requires k < |lines| && Category(lines[k], classColumn).Ok?
    ensures lines[k] in OfCategory(lines, Category(lines[k], classColumn).value, classColumn)
    decreases |lines|
  {
    if k < |lines| - 1 {
      OfCategoryHas(lines[..|lines| - 1], k, classColumn);
    }
  }

  /** The grouping loop of `create_buckets`: each category's lines, in
      input order; a line without enough words raises IndexError. */
  method GroupLines(lines: seq<string>, classColumn: nat) returns (r: Result<map<string, seq<string>>>)
    ensures r.Err? <==> exists k :: 0 <= k < |lines| && Category(lines[k], classColumn).Err?
    ensures r.Err? ==> r.error == IndexError
    ensures r.Ok? ==> Grouped(r.value, lines, classColumn)
  {
    var groups: map<string, seq<string>> := map[];
    for i := 0 to |lines|
      invariant forall k :: 0 <= k < i ==> Category(lines[k], classColumn).Ok?
      invariant Grouped(groups, lines[..i], classColumn)
    {
      var category := Category(lines[i], classColumn);
      if category.Err? {
        return Err(IndexError);
      }
      var c := category.value;
      GroupStep(groups, lines, i, classColumn, c);
      groups := groups[c := (if c in groups then groups[c] else []) + [lines[i]]];
    }
    assert lines[..|lines|] == lines;
    return Ok(groups);
  }

  /** Filing line i under its category c extends the groups of the lines
      before it to the groups of the lines up to it. */
  lemma GroupStep(groups: map<string, seq<string>>, lines: seq<string>, i: nat, classColumn: nat, c: string)
    requires i < |lines| && Category(lines[i], classColumn) == Ok(c)
    requires Grouped(groups, lines[..i], classColumn)
    ensures Grouped(groups[c := (if c in groups then groups[c] else []) + [lines[i]]], lines[..i + 1], classColumn)
  {
    CategoriesStep(lines, i, classColumn);
    CategoriesHaveLines(lines[..i], c, classColumn);
    forall d ensures OfCategory(lines[..i + 1], d, classColumn)
      == OfCategory(lines[..i], d, classColumn) + (if d == c then [lines[i]] else [])
    {
      OfCategoryStep(lines, i, d, classColumn);
    }
  }

  /** The categories of the lines up to i: those before it and line i's. */
  lemma CategoriesStep(lines: seq<string>, i: nat, classColumn: nat)
    requires i < |lines|
    ensures var c := Category(lines[i], classColumn);
      Categories(lines[..i + 1], classColumn) == Categories(lines[..i], classColumn) + (if c.Ok? then {c.value} else {})
  {
    assert lines[..i + 1][..i] == lines[..i];
  }

  /** The lines of category d up to line i: those before it, then line i
      when it has category d. */
  lemma OfCategoryStep(lines: seq<string>, i: nat, d: string, classColumn: nat)
    requires i < |lines|
    ensures OfCategory(lines[..i + 1], d, classColumn)
      == OfCategory(lines[..i], d, classColumn) + (if Category(lines[i], classColumn) == Ok(d) then [lines[i]] else [])
  {
    assert lines[..i + 1][..i] == lines[..i];
  }

  /** The dealing loop of `create_buckets` for one category: item j goes
      to bucket `j % n`. */
  method DealGroup(buckets: seq<seq<string>>, shuffled: seq<string>, n: nat) returns (after: seq<seq<string>>)
    requires n > 0 && |buckets| == n
    ensures DealtInto(buckets, after, shuffled, n)
  {
    after := buckets;
    var bucketNumber := 0;
    for j := 0 to |shuffled|
      invariant |after| == n && bucketNumber == j % n
      invariant forall b :: 0 <= b < n ==> after[b] == buckets[b] + Dealt(shuffled[..j], b, n)
      invariant multiset(Flatten(after)) == multiset(Flatten(buckets)) + multiset(shuffled[..j])
    {
      DealStep(after, buckets, shuffled, j, n);
      after := after[bucketNumber := after[bucketNumber] + [shuffled[j]]];
      ModNext(j, n);
      bucketNumber := (bucketNumber + 1) % n;
    }
    assert shuffled[..|shuffled|] == shuffled;
  }

  /** The groups of `create_buckets`: each category's lines, in order. */
  ghost predicate Grouped(groups: map<string, seq<string>>, lines: seq<string>, classColumn: nat)
  {
    && groups.Keys == Categories(lines, classColumn)
    && forall c :: c in groups ==> groups[c] == OfCategory(lines, c, classColumn)
  }

  /** The category loop of `create_buckets`: each group, in an arbitrary
      order and shuffled, is dealt round-robin from bucket 0. */
  method DealGroups(groups: map<string, seq<string>>, ghost lines: seq<string>, n: nat, classColumn: nat)
    returns (buckets: seq<seq<string>>)
    requires n > 0 && Grouped(groups, lines, classColumn)
    ensures Stratified(buckets, lines, Categories(lines, classColumn), n, classColumn)
  {
    buckets := seq(n, _ => []);
    EmptyBuckets(buckets, lines, n, classColumn);
    var remaining := groups.Keys;
    ghost var done: set<string> := {};
    while remaining != {}
      invariant remaining + done == groups.Keys && remaining !! done
      invariant Stratified(buckets, lines, done, n, classColumn)
      decreases remaining
    {
      var key :| key in remaining;
      var group := groups[key];
      assert group == OfCategory(lines, key, classColumn);
      var shuffled :| multiset(shuffled) == multiset(group);
      var before := buckets;
      buckets := DealGroup(buckets, shuffled, n);
      DealCategory(before, buckets, shuffled, key, lines, done, n, classColumn);
      remaining := remaining - {key};
      done := done + {key};
    }
  }

  // ---------------------------------------------------------------------
  // The validator

  /** `total` is what loading all the lines gives, once `rows` have been
      kept and `rest` is what loading the remaining lines gives. */
  ghost predicate Continues(total: Classifying.Loaded, rows: seq<Item>, rest: Classifying.Loaded)
  {
    total == Classifying.Loaded(rows + rest.items, rest.outcome)
  }

  /** A line that is read moves on to the next, keeping its row if it has
      one. */
  lemma LoadGoesOn(format: seq<string>, lines: seq<string>, parse: string -> Option<real>,
                   i: nat, total: Classifying.Loaded, rows: seq<Item>, kept: Option<Item>)
    requires i < |lines| && LineItem(format, lines[i], parse) == Ok(kept)
    requires Continues(total, rows, LinesItems(format, lines[i..], parse))
    ensures kept.None? ==> Continues(total, rows, LinesItems(format, lines[i + 1..], parse))
    ensures kept.Some? ==> Continues(total, rows + [kept.value], LinesItems(format, lines[i + 1..], parse))
  {
    assert lines[i..][0] == lines[i] && lines[i..][1..] == lines[i + 1..];
    var rest := LinesItems(format, lines[i + 1..], parse);
    if kept.Some? {
      assert rows + ([kept.value] + rest.items) == rows + [kept.value] + rest.items;
    } else {
      assert [] + rest.items == rest.items;
    }
  }

  /** A line that raises ends the load with the rows kept so far. */
  lemma LoadFails(format: seq<string>, lines: seq<string>, parse: string -> Option<real>,
                  i: nat, total: Classifying.Loaded, rows: seq<Item>, e: Error)
    requires i < |lines| && LineItem(format, lines[i], parse) == Err(e)
    requires Continues(total, rows, LinesItems(format, lines[i..], parse))
    ensures total == Classifying.Loaded(rows, Err(e))
  {
    assert lines[i..][0] == lines[i];
    assert rows + [] == rows;
  }

  /** Reading a run of lines into rows (the loop of
      `__load_data_from_lines`, without the appends). */
  method ReadItems(format: seq<string>, lines: seq<string>, parse: string -> Option<real>) returns (loaded: Classifying.Loaded)
    ensures loaded == LinesItems(format, lines, parse)
  {
    ghost var total := LinesItems(format, lines, parse);
    var rows: seq<Item> := [];
    assert lines[0..] == lines;
    for i := 0 to |lines|
      invariant Continues(total, rows, LinesItems(format, lines[i..], parse))
    {
      var fields := SplitFields(lines[i]);
      var gathered := Classifying.GatherFields(format, fields, parse, None);
      if gathered.Err? {
        LoadFails(format, lines, parse, i, total, rows, gathered.error);
        return Classifying.Loaded(rows, Err(gathered.error));
      }
      var classification := gathered.value.classification;
      if classification.Some? && classification.value != "" {
        var item := Classifying.Item(classification.value, gathered.value.vector, gathered.value.ignore);
        LoadGoesOn(format, lines, parse, i, total, rows, Some(item));
        rows := rows + [item];
      } else {
        LoadGoesOn(format, lines, parse, i, total, rows, None);
      }
    }
    assert lines[|lines|..] == [];
    assert rows + [] == rows;
    return Classifying.Loaded(rows, Ok(()));
  }

  /** The lines of the chosen buckets, read one file after the other. */
  method ReadBuckets(files: seq<seq<string>>, numbers: seq<nat>) returns (r: Result<seq<string>>)
    ensures r == BucketLines(files, numbers)
  {
    var lines: seq<string> := [];
    for j := 0 to |numbers|
      invariant forall k :: 0 <= k < j ==> numbers[k] < |files|
      invariant lines == Concat(files, numbers[..j])
    {
      if numbers[j] >= |files| {
        return Err(IOError);
      }
      assert numbers[..j + 1][..j] == numbers[..j];
      lines := lines + files[numbers[j]];
    }
    assert numbers[..|numbers|] == numbers;
    return Ok(lines);
  }

  /** The classifier state that `classify` reads and rewrites. */
  function StateOf(c: Classifying.Classifier): State
    reads c
  {
    State(c.data, c.normalizeMinMax, c.medianAndDeviation)
  }

  /** `classify` run on the classifier agrees with `Classified`. */
  lemma ClassifyAgrees(strategy: Option<Classifying.Scaling>, st: State, st': State, format: seq<string>,
                       vector: seq<real>, root: real -> real, answer: Result<string>)
    requires strategy.None? ==> st' == st && answer == Err(if st.data == [] then ValueError else TypeError)
    requires strategy == Some(Classifying.Normalization) ==>
      var after := Classifying.AllColumns(Classifying.Normalization, st.data, st.minMax);
      st' == st.(data := after.data, minMax := after.pairs)
      && answer == Classifying.Classification(Classifying.Normalization, after, vector, root)
    requires strategy == Some(Classifying.Standardization) ==>
      var after := Classifying.AllColumns(Classifying.Standardization, st.data, st.medianDeviation);
      st' == st.(data := after.data, medianDeviation := after.pairs)
      && answer == Classifying.Classification(Classifying.Standardization, after, vector, root)
    ensures (answer, st') == Classified(strategy, st, vector, root)
  {}

  /** `total` is what testing all the rows gives, once `answers` have
      been given and `rest` is what testing the remaining rows gives. */
  ghost predicate Resumes(total: Tested, answers: seq<string>, rest: Tested)
  {
    total == rest.(answers := answers + rest.answers)
  }

  /** A test that is answered and counted moves on to the next row. */
  lemma ResumeOk(strategy: Option<Classifying.Scaling>, total: Tested, answers: seq<string>, st: State,
                 matrix: map<string, map<string, int>>, tests: seq<Item>, root: real -> real,
                 answer: string, next: State, bumped: map<string, map<string, int>>)
    requires tests != []
    requires Classified(strategy, st, tests[0].vector, root) == (Ok(answer), next)
    requires Bump(matrix, tests[0].classification, answer) == Ok(bumped)
    requires Resumes(total, answers, TestAll(strategy, st, matrix, tests, root))
    ensures Resumes(total, answers + [answer], TestAll(strategy, next, bumped, tests[1..], root))
  {
    var rest := TestAll(strategy, next, bumped, tests[1..], root);
    TestAllAnswered(strategy, st, matrix, tests, root, answer, next, bumped);
    ResumeCons(total, answers, answer, TestAll(strategy, st, matrix, tests, root), rest);
  }

  /** A row answered and counted is followed by the test of the others. */
  lemma TestAllAnswered(strategy: Option<Classifying.Scaling>, st: State, matrix: map<string, map<string, int>>,
                        tests: seq<Item>, root: real -> real, answer: string, next: State,
                        bumped: map<string, map<string, int>>)
    requires tests != []
    requires Classified(strategy, st, tests[0].vector, root) == (Ok(answer), next)
    requires Bump(matrix, tests[0].classification, answer) == Ok(bumped)
    ensures var rest := TestAll(strategy, next, bumped, tests[1..], root);
      TestAll(strategy, st, matrix, tests, root) == rest.(answers := [answer] + rest.answers)
  {
  }

  /** Moving one answer from the run ahead to the answers given. */
  lemma ResumeCons(total: Tested, answers: seq<string>, answer: string, whole: Tested, rest: Tested)
    requires Resumes(total, answers, whole) && whole == rest.(answers := [answer] + rest.answers)
    ensures Resumes(total, answers + [answer], rest)
  {
    assert answers + ([answer] + rest.answers) == answers + [answer] + rest.answers;
  }

  /** A test that `classify` fails on ends the run with that error. */
  lemma ResumeUnanswered(strategy: Option<Classifying.Scaling>, total: Tested, answers: seq<string>, st: State,
                         matrix: map<string, map<string, int>>, tests: seq<Item>, root: real -> real,
                         e: Error, next: State)
    requires tests != []
    requires Classified(strategy, st, tests[0].vector, root) == (Err(e), next)
    requires Resumes(total, answers, TestAll(strategy, st, matrix, tests, root))
    ensures total == Tested(next, matrix, answers, Err(e))
  {
    assert answers + [] == answers;
  }

  /** A test whose cell is missing ends the run with that error. */
  lemma ResumeUncounted(strategy: Option<Classifying.Scaling>, total: Tested, answers: seq<string>, st: State,
                        matrix: map<string, map<string, int>>, tests: seq<Item>, root: real -> real,
                        answer: string, next: State, e: Error)
    requires tests != []
    requires Classified(strategy, st, tests[0].vector, root) == (Ok(answer), next)
    requires Bump(matrix, tests[0].classification, answer) == Err(e)
    requires Resumes(total, answers, TestAll(strategy, st, matrix, tests, root))
    ensures total == Tested(next, matrix, answers, Err(e))
  {
    assert answers + [] == answers;
  }

  /** With no rows left the run is over. */
  lemma ResumeEnd(strategy: Option<Classifying.Scaling>, total: Tested, answers: seq<string>, st: State,
                  matrix: map<string, map<string, int>>, root: real -> real)
    requires Resumes(total, answers, TestAll(strategy, st, matrix, [], root))
    ensures total == Tested(st, matrix, answers, Ok(()))
  {
    assert answers + [] == answers;
  }

  /** One more answer adds one to the count when it is the test's class. */
  lemma CorrectStep(tests: seq<Item>, answers: seq<string>, answer: string)
    requires |answers| < |tests|
    ensures Correct(Pairs(tests, answers + [answer]))
         == Correct(Pairs(tests, answers)) + (if tests[|answers|].classification == answer then 1 else 0)
  {
    assert Pairs(tests, answers + [answer])[..|answers|] == Pairs(tests, answers);
  }

  /** `classify` on one row, as `Classified` states it. */
  method ClassifyRow(c: Classifying.Classifier, strategy: Option<Classifying.Scaling>, vector: seq<real>, root: real -> real)
    returns (answer: Result<string>)
    modifies c
    ensures c.format == old(c.format)
    ensures (answer, StateOf(c)) == Classified(strategy, old(StateOf(c)), vector, root)
  {
    ghost var st := StateOf(c);
    answer := c.Classify(vector, strategy, root);
    ClassifyAgrees(strategy, st, StateOf(c), c.format, vector, root, answer);
  }

  /** One pass of the test loop on the first remaining row: classify it and
      count its (class, answer) cell, carrying the run's specification over
      to the rows after it. */
  method TestNext(c: Classifying.Classifier, strategy: Option<Classifying.Scaling>, matrix: map<string, map<string, int>>,
                  tests: seq<Item>, root: real -> real, ghost total: Tested, ghost answers: seq<string>)
    returns (answer: Result<string>, bumped: Result<map<string, map<string, int>>>)
    requires tests != []
    requires Resumes(total, answers, TestAll(strategy, StateOf(c), matrix, tests, root))
    modifies c
    ensures c.format == old(c.format)
    ensures answer.Err? ==> total == Tested(StateOf(c), matrix, answers, Err(answer.error))
    ensures answer.Ok? ==> bumped == Bump(matrix, tests[0].classification, answer.value)
    ensures answer.Ok? && bumped.Err? ==> total == Tested(StateOf(c), matrix, answers, Err(bumped.error))
    ensures answer.Ok? && bumped.Ok? ==>
      Resumes(total, answers + [answer.value], TestAll(strategy, StateOf(c), bumped.value, tests[1..], root))
  {
    ghost var st := StateOf(c);
    answer := ClassifyRow(c, strategy, tests[0].vector, root);
    if answer.Err? {
      ResumeUnanswered(strategy, total, answers, st, matrix, tests, root, answer.error, StateOf(c));
      return answer, Ok(matrix);
    }
    bumped := Bump(matrix, tests[0].classification, answer.value);
    if bumped.Err? {
      ResumeUncounted(strategy, total, answers, st, matrix, tests, root, answer.value, StateOf(c), bumped.error);
      return;
    }
    ResumeOk(strategy, total, answers, st, matrix, tests, root, answer.value, StateOf(c), bumped.value);
  }

  /** One pass of the test loop on row i: classify it, count its cell, and
      add one to the right answers when the answer is the row's class. The
      step is the answer and the counted matrix, or the error raised. */
  method TestPass(c: Classifying.Classifier, strategy: Option<Classifying.Scaling>, matrix: map<string, map<string, int>>,
                  tests: seq<Item>, i: nat, root: real -> real, ghost total: Tested, ghost answers: seq<string>, correct: nat)
    returns (step: Result<(string, map<string, map<string, int>>)>, counted: nat)
    requires i < |tests| && |answers| == i && correct == Correct(Pairs(tests, answers))
    requires Resumes(total, answers, TestAll(strategy, StateOf(c), matrix, tests[i..], root))
    modifies c
    ensures c.format == old(c.format)
    ensures step.Err? ==> total == Tested(StateOf(c), matrix, answers, Err(step.error))
    ensures step.Ok? ==>
      && counted == Correct(Pairs(tests, answers + [step.value.0]))
      && Resumes(total, answers + [step.value.0], TestAll(strategy, StateOf(c), step.value.1, tests[i + 1..], root))
  {
    assert tests[i..][0] == tests[i] && tests[i..][1..] == tests[i + 1..];
    var answer, bumped := TestNext(c, strategy, matrix, tests[i..], root, total, answers);
    counted := correct;
    if answer.Err? {
      return Err(answer.error), counted;
    }
    if bumped.Err? {
      return Err(bumped.error), counted;
    }
    CorrectStep(tests, answers, answer.value);
    if tests[i].classification == answer.value {
      counted := correct + 1;
    }
    step := Ok((answer.value, bumped.value));
  }

  /** The test loop of one fold, over the test rows: classify each row,
      count its cell, and count the right answers. */
  method TestItems(c: Classifying.Classifier, strategy: Option<Classifying.Scaling>, matrix: map<string, map<string, int>>,
                   tests: seq<Item>, root: real -> real)
    returns (matrixAfter: map<string, map<string, int>>, correct: nat, outcome: Result<()>, ghost answers: seq<string>)
    modifies c
    ensures c.format == old(c.format)
    ensures TestAll(strategy, old(StateOf(c)), matrix, tests, root) == Tested(StateOf(c), matrixAfter, answers, outcome)
    ensures correct == Correct(Pairs(tests, answers))
  {
    ghost var total := TestAll(strategy, StateOf(c), matrix, tests, root);
    matrixAfter, correct, outcome, answers := matrix, 0, Ok(()), [];
    assert tests[0..] == tests;
    for i := 0 to |tests|
      invariant c.format == old(c.format)
      invariant |answers| == i && correct == Correct(Pairs(tests, answers))
      invariant Resumes(total, answers, TestAll(strategy, StateOf(c), matrixAfter, tests[i..], root))
    {
      var step, counted := TestPass(c, strategy, matrixAfter, tests, i, root, total, answers, correct);
      if step.Err? {
        return matrixAfter, correct, Err(step.error), answers;
      }
      correct := counted;
      answers := answers + [step.value.0];
      matrixAfter := step.value.1;
    }
    assert tests[|tests|..] == [];
    ResumeEnd(strategy, total, answers, StateOf(c), matrixAfter, root);
  }

  class FoldCrossValidator {
    /** The inherited nearest-neighbour classifier: its `data` is the
        training rows. */
    const classifier: Classifying.Classifier
    var testData: seq<Item>
    var confusionMatrix: map<string, map<string, int>>
    const columnFormat: seq<string>
    const name: string
    const numberOfBuckets: nat

    constructor(name: string, columnFormat: seq<string>, numberOfBuckets: nat)
      ensures fresh(classifier)
      ensures classifier.data == [] && classifier.format == []
      ensures classifier.normalizeMinMax == [] && classifier.medianAndDeviation == []
      ensures testData == [] && confusionMatrix == map[]
      ensures this.name == name && this.columnFormat == columnFormat && this.numberOfBuckets == numberOfBuckets
    {
      classifier := new Classifying.Classifier([]);
      confusionMatrix := map[];
      this.columnFormat := columnFormat;
      this.name := name;
      this.numberOfBuckets := numberOfBuckets;
      testData := [];
    }

    /** `__reset_data`. */
    method ResetData()
      modifies this`testData, classifier`data
      ensures classifier.data == [] && testData == []
    {
      classifier.data := [];
      testData := [];
    }

    /** `__load_data_from_lines(lines, training)`: the rows kept are
        appended to the training rows or to the test rows. */
    method LoadDataFromLines(lines: seq<string>, training: bool, parse: string -> Option<real>) returns (r: Result<()>)
      modifies this`testData, classifier`data
      ensures var loaded := LinesItems(columnFormat, lines, parse);
        && r == loaded.outcome
        && (training ==> classifier.data == old(classifier.data) + loaded.items && testData == old(testData))
        && (!training ==> testData == old(testData) + loaded.items && classifier.data == old(classifier.data))
    {
      var loaded := ReadItems(columnFormat, lines, parse);
      if training {
        classifier.data := classifier.data + loaded.items;
      } else {
        testData := testData + loaded.items;
      }
      return loaded.outcome;
    }

    /** `__load_training_buckets(exclude)`: every bucket but the excluded
        one, ascending, loaded as training rows. */
    method LoadTrainingBuckets(files: seq<seq<string>>, exclude: nat, parse: string -> Option<real>) returns (r: Result<()>)
      modifies this`testData, classifier`data
      ensures testData == old(testData)
      ensures match BucketLines(files, TrainingBuckets(numberOfBuckets, exclude))
        case Err(e) => r == Err(e) && classifier.data == old(classifier.data)
        case Ok(lines) =>
          var loaded := LinesItems(columnFormat, lines, parse);
          r == loaded.outcome && classifier.data == old(classifier.data) + loaded.items
    {
      var lines := ReadBuckets(files, TrainingBuckets(numberOfBuckets, exclude));
      if lines.Err? {
        return Err(lines.error);
      }
      r := LoadDataFromLines(lines.value, true, parse);
    }

    /** `__load_test_buckets(bucket)`: that bucket, loaded as test rows. */
    method LoadTestBuckets(files: seq<seq<string>>, bucket: nat, parse: string -> Option<real>) returns (r: Result<()>)
      modifies this`testData, classifier`data
      ensures classifier.data == old(classifier.data)
      ensures bucket >= |files| ==> r == Err(IOError) && testData == old(testData)
      ensures bucket < |files| ==>
        var loaded := LinesItems(columnFormat, files[bucket], parse);
        r == loaded.outcome && testData == old(testData) + loaded.items
    {
      if bucket >= |files| {
        return Err(IOError);
      }
      r := LoadDataFromLines(files[bucket], false, parse);
    }

    /** `create_buckets(class_column)` on the training file's lines: the
        bucket contents, which the source then writes out one file per
        bucket. Lines are grouped by category, each group is shuffled and
        dealt round-robin from bucket 0. */
    method CreateBuckets(lines: seq<string>, classColumn: nat) returns (r: Result<seq<seq<string>>>)
      ensures r.Err? <==>
        (exists k :: 0 <= k < |lines| && Category(lines[k], classColumn).Err?) || (numberOfBuckets == 0 && lines != [])
      ensures r.Err? ==> r.error == IndexError
      ensures r.Ok? ==>
        && |r.value| == numberOfBuckets
        && multiset(Flatten(r.value)) == multiset(lines)
        && forall b, c :: 0 <= b < |r.value| ==>
             |OfCategory(r.value[b], c, classColumn)| == Share(|OfCategory(lines, c, classColumn)|, b, numberOfBuckets)
    {
      var grouped := GroupLines(lines, classColumn);
      if grouped.Err? {
        return Err(IndexError);
      }
      var groups := grouped.value;
      var n := numberOfBuckets;
      if n == 0 {
        if groups.Keys != {} {
          var key :| key in groups.Keys;
          LinesOfCategory(lines, key, classColumn);
          return Err(IndexError);
        }
        NoCategories(lines, classColumn);
        return Ok([]);
      }
      var buckets := DealGroups(groups, lines, n, classColumn);
      AllDealt(buckets, lines, n, classColumn);
      return Ok(buckets);
    }

    /** `for cat in categories: confusion_matrix.setdefault(cat, dict.fromkeys(categories, 0))`. */
    method InstallCategories(categories: set<string>)
      modifies this`confusionMatrix
      ensures confusionMatrix == Installed(old(confusionMatrix), categories, categories)
    {
      var remaining := categories;
      while remaining != {}
        invariant remaining <= categories
        invariant confusionMatrix == Installed(old(confusionMatrix), categories - remaining, categories)
        decreases remaining
      {
        var cat :| cat in remaining;
        if cat !in confusionMatrix {
          confusionMatrix := confusionMatrix[cat := Zeros(categories)];
        }
        remaining := remaining - {cat};
      }
    }

    /** The test loop of one fold: classify every test row, count it in
        the matrix, and return how many were answered correctly. */
    method TestBucket(strategy: Option<Classifying.Scaling>, root: real -> real) returns (right: nat, outcome: Result<()>)
      modifies this`confusionMatrix, classifier
      ensures classifier.format == old(classifier.format) && testData == old(testData)
      ensures var t := TestAll(strategy, old(StateOf(classifier)), old(confusionMatrix), testData, root);
        && StateOf(classifier) == t.state && confusionMatrix == t.matrix && outcome == t.outcome
        && right == Correct(Pairs(testData, t.answers))
    {
      var matrix;
      ghost var answers;
      matrix, right, outcome, answers := TestItems(classifier, strategy, confusionMatrix, testData, root);
      confusionMatrix := matrix;
    }

    /** The loading steps of one fold: reset the rows, load every bucket
        but i for training and bucket i for testing. */
    method LoadFold(files: seq<seq<string>>, i: nat, parse: string -> Option<real>) returns (r: Result<()>)
      modifies this`testData, classifier`data
      ensures var p := Prepare(files, columnFormat, numberOfBuckets, parse, i);
        classifier.data == p.training && testData == p.test && r == p.outcome
    {
      ResetData();
      r := LoadTrainingBuckets(files, i, parse);
      if r.Err? {
        return;
      }
      r := LoadTestBuckets(files, i, parse);
    }

    /** The testing part of one fold, on the rows loaded: install the
        matrix rows on the first fold that finds any class, then test
        every row. */
    method TestLoaded(strategy: Option<Classifying.Scaling>, root: real -> real, categories: set<string>, correct: nat)
      returns (categoriesAfter: set<string>, correctAfter: nat, outcome: Result<()>)
      modifies this`confusionMatrix, classifier
      ensures testData == old(testData)
      ensures Validation(StateOf(classifier), testData, confusionMatrix, categoriesAfter, correctAfter, outcome)
           == TestFold(strategy, root, Validation(old(StateOf(classifier)), old(testData), old(confusionMatrix), categories, correct, Ok(())),
                       old(classifier.data), old(testData))
    {
      ghost var v := Validation(StateOf(classifier), testData, confusionMatrix, categories, correct, Ok(()));
      ghost var training := classifier.data;
      categoriesAfter, correctAfter := categories, correct;
      if categories == {} {
        categoriesAfter := Classes(classifier.data + testData);
        InstallCategories(categoriesAfter);
      }
      assert StateOf(classifier) == v.state && testData == v.testData;
      ghost var matrix := confusionMatrix;
      ghost var t := TestAll(strategy, StateOf(classifier), matrix, testData, root);
      TestFoldIs(strategy, root, v, training, testData, categoriesAfter, matrix, t);
      var right;
      right, outcome := TestBucket(strategy, root);
      if outcome.Ok? {
        correctAfter := correct + right;
      }
    }

    /** One fold of `test_training_bucket`. */
    method RunFold(files: seq<seq<string>>, i: nat, strategy: Option<Classifying.Scaling>, root: real -> real,
                   parse: string -> Option<real>, categories: set<string>, correct: nat)
      returns (categoriesAfter: set<string>, correctAfter: nat, outcome: Result<()>)
      modifies this`testData, this`confusionMatrix, classifier
      ensures Validation(StateOf(classifier), testData, confusionMatrix, categoriesAfter, correctAfter, outcome)
           == Fold(strategy, files, columnFormat, numberOfBuckets, parse, root, i,
                   Validation(old(StateOf(classifier)), old(testData), old(confusionMatrix), categories, correct, Ok(())))
    {
      ghost var v := Validation(StateOf(classifier), testData, confusionMatrix, categories, correct, Ok(()));
      categoriesAfter, correctAfter := categories, correct;
      outcome := LoadFold(files, i, parse);
      if outcome.Err? {
        FoldFails(strategy, files, columnFormat, numberOfBuckets, parse, root, i, v);
        return;
      }
      ghost var loaded := Validation(StateOf(classifier), testData, confusionMatrix, categories, correct, Ok(()));
      FoldLoaded(strategy, files, columnFormat, numberOfBuckets, parse, root, i, v, loaded);
      categoriesAfter, correctAfter, outcome := TestLoaded(strategy, root, categories, correct);
    }

    /** The `for i in range(self.number_of_buckets)` loop of
        `test_training_bucket`: every fold in turn, stopping at the first
        that raises. */
    method RunFolds(files: seq<seq<string>>, strategy: Option<Classifying.Scaling>, root: real -> real,
                    parse: string -> Option<real>) returns (categories: set<string>, correct: nat, outcome: Result<()>)
      modifies this`testData, this`confusionMatrix, classifier
      ensures Folds(strategy, files, columnFormat, numberOfBuckets, parse, root, 0,
                    Validation(old(StateOf(classifier)), old(testData), old(confusionMatrix), {}, 0, Ok(())))
           == Validation(StateOf(classifier), testData, confusionMatrix, categories, correct, outcome)
    {
      categories, correct, outcome := {}, 0, Ok(());
      ghost var start := Validation(StateOf(classifier), testData, confusionMatrix, {}, 0, Ok(()));
      for i := 0 to numberOfBuckets
        invariant outcome == Ok(())
        invariant Folds(strategy, files, columnFormat, numberOfBuckets, parse, root, 0, start)
               == Folds(strategy, files, columnFormat, numberOfBuckets, parse, root, i,
                        Validation(StateOf(classifier), testData, confusionMatrix, categories, correct, Ok(())))
      {
        ghost var v := Validation(StateOf(classifier), testData, confusionMatrix, categories, correct, Ok(()));
        FoldsStep(strategy, files, columnFormat, numberOfBuckets, parse, root, i, v);
        categories, correct, outcome := RunFold(files, i, strategy, root, parse, categories, correct);
        if outcome.Err? {
          ghost var failed := Validation(StateOf(classifier), testData, confusionMatrix, categories, correct, outcome);
          FoldsEnd(strategy, files, columnFormat, numberOfBuckets, parse, root, i + 1, failed);
          assert Folds(strategy, files, columnFormat, numberOfBuckets, parse, root, 0, start) == failed;
          return;
        }
        UnitOutcome(outcome);
      }
      ghost var last := Validation(StateOf(classifier), testData, confusionMatrix, categories, correct, Ok(()));
      FoldsEnd(strategy, files, columnFormat, numberOfBuckets, parse, root, numberOfBuckets, last);
      assert Folds(strategy, files, columnFormat, numberOfBuckets, parse, root, 0, start) == last;
    }

    /** `test_training_bucket(standardize)`: every fold in turn, then the
        share of correct answers over the rows of the last fold. */
    method TestTrainingBucket(files: seq<seq<string>>, strategy: Option<Classifying.Scaling>, root: real -> real,
                              parse: string -> Option<real>) returns (r: Result<real>)
      modifies this`testData, this`confusionMatrix, classifier
      ensures var v := Folds(strategy, files, columnFormat, numberOfBuckets, parse, root, 0,
                             Validation(old(StateOf(classifier)), old(testData), old(confusionMatrix), {}, 0, Ok(())));
        && StateOf(classifier) == v.state && testData == v.testData && confusionMatrix == v.matrix
        && r == Accuracy(v)
    {
      var categories, correct, outcome := RunFolds(files, strategy, root, parse);
      if outcome.Err? {
        return Err(outcome.error);
      }
      if |classifier.data| + |testData| == 0 {
        return Err(ZeroDivisionError);
      }
      return Ok(correct as real / (|classifier.data| + |testData|) as real);
    }
  }

  /** A category that has a group has a line. */
  lemma LinesOfCategory(lines: seq<string>, key: string, classColumn: nat)
    requires key in Categories(lines, classColumn)
    ensures lines != []
  {
    CategoriesHaveLines(lines, key, classColumn);
  }

  /** Lines whose categories can all be read and that have no category
      are no lines. */
  lemma NoCategories(lines: seq<string>, classColumn: nat)
    requires forall k :: 0 <= k < |lines| ==> Category(lines[k], classColumn).Ok?
    requires Categories(lines, classColumn) == {}
    ensures lines == []
  {
    if lines != [] {
      OfCategoryHas(lines, 0, classColumn);
      CategoriesHaveLines(lines, Category(lines[0], classColumn).value, classColumn);
    }
  }

  /** Fresh buckets hold nothing, which is what dealing no category
      leaves. */
  lemma EmptyBuckets(buckets: seq<seq<string>>, lines: seq<string>, n: nat, classColumn: nat)
    requires |buckets| == n && forall b :: 0 <= b < n ==> buckets[b] == []
    ensures Stratified(buckets, lines, {}, n, classColumn)
  {
    FlattenEmpty(buckets);
    InCategoriesNone(lines, classColumn);
  }

  lemma {:induction false} FlattenEmpty(buckets: seq<seq<string>>)
    requires forall b :: 0 <= b < |buckets| ==> buckets[b] == []
    ensures Flatten(buckets) == []
    decreases |buckets|
  {
    if buckets != [] {
      FlattenEmpty(buckets[..|buckets| - 1]);
    }
  }

  lemma {:induction false} InCategoriesNone(lines: seq<string>, classColumn: nat)
    ensures InCategories(lines, {}, classColumn) == []
    decreases |lines|
  {
    if lines != [] {
      InCategoriesNone(lines[..|lines| - 1], classColumn);
    }
  }
}
