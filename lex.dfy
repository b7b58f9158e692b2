/** Python's built-in comparison of sequences: strings, lists and tuples
    compare lexicographically, and a proper prefix comes first. */
module Lex {
  import opened Sorting

  /** A strict total order on elements: what `<` is on chars and floats. */
  ghost predicate StrictTotal<T(!new)>(lt: (T, T) -> bool)
  {
    && (forall a :: !lt(a, a))
    && (forall a, b, c :: lt(a, b) && lt(b, c) ==> lt(a, c))
    && (forall a, b :: a == b || lt(a, b) || lt(b, a))
  }

  /** `a <= b` for Python sequences whose elements compare by `lt`. */
  function LexLe<T(==)>(a: seq<T>, b: seq<T>, lt: (T, T) -> bool): bool
  {
    if a == [] then true
    else if b == [] then false
    else if lt(a[0], b[0]) then true
    else a[0] == b[0] && LexLe(a[1..], b[1..], lt)
  }

  lemma {:induction false} LexReflexive<T(!new)>(a: seq<T>, lt: (T, T) -> bool)
    ensures LexLe(a, a, lt)
    decreases |a|
  {
    if a != [] {
      LexReflexive(a[1..], lt);
    }
  }

  lemma {:induction false} LexTotal<T(!new)>(a: seq<T>, b: seq<T>, lt: (T, T) -> bool)
    requires StrictTotal(lt)
    ensures LexLe(a, b, lt) || LexLe(b, a, lt)
    decreases |a|
  {
    if a != [] && b != [] && a[0] == b[0] {
      LexTotal(a[1..], b[1..], lt);
    }
  }

  lemma {:induction false} LexTransitive<T(!new)>(a: seq<T>, b: seq<T>, c: seq<T>, lt: (T, T) -> bool)
    requires StrictTotal(lt)
    requires LexLe(a, b, lt) && LexLe(b, c, lt)
    ensures LexLe(a, c, lt)
    decreases |a|
  {
    if a != [] && a[0] == b[0] && b[0] == c[0] {
      LexTransitive(a[1..], b[1..], c[1..], lt);
    }
  }

  lemma {:induction false} LexAntisymmetric<T(!new)>(a: seq<T>, b: seq<T>, lt: (T, T) -> bool)
    requires StrictTotal(lt)
    requires LexLe(a, b, lt) && LexLe(b, a, lt)
    ensures a == b
    decreases |a|
  {
    if a != [] {
      LexAntisymmetric(a[1..], b[1..], lt);
      assert a == [a[0]] + a[1..] && b == [b[0]] + b[1..];
    }
  }

  /** Lexicographic comparison of sequences is a total order whenever the
      element comparison is a strict total order. */
  lemma LexTotalOrder<T(!new)>(lt: (T, T) -> bool)
    requires StrictTotal(lt)
    ensures TotalOrder((a: seq<T>, b: seq<T>) => LexLe(a, b, lt))
  {
    forall a: seq<T>, b: seq<T> ensures LexLe(a, b, lt) || LexLe(b, a, lt) {
      LexTotal(a, b, lt);
    }
    forall a: seq<T>, b: seq<T>, c: seq<T> | LexLe(a, b, lt) && LexLe(b, c, lt)
      ensures LexLe(a, c, lt)
    {
      LexTransitive(a, b, c, lt);
    }
    forall a: seq<T>, b: seq<T> | LexLe(a, b, lt) && LexLe(b, a, lt) ensures a == b {
      LexAntisymmetric(a, b, lt);
    }
  }

  // ---------------------------------------------------------------------
  // The comparisons the source uses

  const CharLt: (char, char) -> bool := (x: char, y: char) => x < y
  const RealLt: (real, real) -> bool := (x: real, y: real) => x < y

  /** Python `str` comparison. */
  function StrLe(a: string, b: string): bool
  {
    LexLe(a, b, CharLt)
  }

  /** Python comparison of tuples of floats. */
  function RealsLe(a: seq<real>, b: seq<real>): bool
  {
    LexLe(a, b, RealLt)
  }

  const StrLt: (string, string) -> bool := (a: string, b: string) => StrLe(a, b) && a != b

  /** Python comparison of lists of strings. */
  function StrsLe(a: seq<string>, b: seq<string>): bool
  {
    LexLe(a, b, StrLt)
  }

  lemma CharLtStrictTotal()
    ensures StrictTotal(CharLt)
  {}

  lemma RealLtStrictTotal()
    ensures StrictTotal(RealLt)
  {}

  /** Strings compare strictly and totally, so lists of strings compare
      lexicographically in turn. */
  lemma StrLtStrictTotal()
    ensures StrictTotal(StrLt)
  {
    CharLtStrictTotal();
    forall a: string, b: string ensures a == b || StrLt(a, b) || StrLt(b, a) {
      LexTotal(a, b, CharLt);
    }
    forall a: string, b: string, c: string | StrLt(a, b) && StrLt(b, c) ensures StrLt(a, c) {
      LexTransitive(a, b, c, CharLt);
      if a == c {
        LexAntisymmetric(a, b, CharLt);
      }
    }
  }

  /** Python's order on `(float, str)` tuples: by the number, then by the
      string. */
  const PairLe: ((real, string), (real, string)) -> bool :=
    (a: (real, string), b: (real, string)) => a.0 < b.0 || (a.0 == b.0 && StrLe(a.1, b.1))

  lemma PairLeTotalOrder()
    ensures TotalOrder(PairLe)
  {
    CharLtStrictTotal();
    forall a: string, b: string ensures StrLe(a, b) || StrLe(b, a) {
      LexTotal(a, b, CharLt);
    }
    forall a: string, b: string, c: string | StrLe(a, b) && StrLe(b, c) ensures StrLe(a, c) {
      LexTransitive(a, b, c, CharLt);
    }
    forall a: string, b: string | StrLe(a, b) && StrLe(b, a) ensures a == b {
      LexAntisymmetric(a, b, CharLt);
    }
  }
}
