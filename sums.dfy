/** Exact sums: over a list (Python's `sum` and `total +=` loops over a list)
    and over a finite set of dictionary keys, whose iteration order Python
    leaves unspecified. With exact reals the order of the additions does not
    matter, and SetSumRemove is the statement of that. */
module Sums {

  /** Python `sum(s)`: the left-to-right total of a list. */
  function Sum(s: seq<real>): real
  {
    if s == [] then 0.0 else Sum(s[..|s| - 1]) + s[|s| - 1]
  }

  lemma {:induction false} SumAppend(a: seq<real>, b: seq<real>)
    ensures Sum(a + b) == Sum(a) + Sum(b)
    decreases |b|
  {
    if b == [] {
      assert a + b == a;
    } else {
      assert (a + b)[..|a + b| - 1] == a + b[..|b| - 1];
      SumAppend(a, b[..|b| - 1]);
    }
  }

  /** Summing from the front gives the same total. */
  lemma SumFront(s: seq<real>)
    requires s != []
    ensures Sum(s) == s[0] + Sum(s[1..])
  {
    assert s == [s[0]] + s[1..];
    SumAppend([s[0]], s[1..]);
    assert [s[0]][..0] == [];
  }

  lemma {:induction false} SumNonNegative(s: seq<real>)
    requires forall i :: 0 <= i < |s| ==> s[i] >= 0.0
    ensures Sum(s) >= 0.0
    decreases |s|
  {
    if s != [] {
      SumNonNegative(s[..|s| - 1]);
    }
  }

  /** A sum of non-negative terms is zero only when every term is zero. */
  lemma {:induction false} SumZeroOnlyIfAllZero(s: seq<real>, i: int)
    requires forall j :: 0 <= j < |s| ==> s[j] >= 0.0
    requires Sum(s) == 0.0 && 0 <= i < |s|
    ensures s[i] == 0.0
    decreases |s|
  {
    SumNonNegative(s[..|s| - 1]);
    if i < |s| - 1 {
      SumZeroOnlyIfAllZero(s[..|s| - 1], i);
    }
  }

  /** Scaling every term scales the sum. */
  lemma {:induction false} SumScale(s: seq<real>, t: seq<real>, c: real)
    requires |t| == |s|
    requires forall i :: 0 <= i < |s| ==> t[i] == c * s[i]
    ensures Sum(t) == c * Sum(s)
    decreases |s|
  {
    if s != [] {
      SumScale(s[..|s| - 1], t[..|t| - 1], c);
    }
  }

  /** Adding the same constant to every term adds |s| copies of it. */
  lemma {:induction false} SumShift(s: seq<real>, t: seq<real>, c: real)
    requires |t| == |s|
    requires forall i :: 0 <= i < |s| ==> t[i] == s[i] + c
    ensures Sum(t) == Sum(s) + (|s| as real) * c
    decreases |s|
  {
    if s != [] {
      SumShift(s[..|s| - 1], t[..|t| - 1], c);
    }
  }

  /** Pointwise addition of two lists adds their sums. */
  lemma {:induction false} SumPointwise(s: seq<real>, t: seq<real>, u: seq<real>)
    requires |t| == |s| && |u| == |s|
    requires forall i :: 0 <= i < |s| ==> u[i] == s[i] + t[i]
    ensures Sum(u) == Sum(s) + Sum(t)
    decreases |s|
  {
    if s != [] {
      SumPointwise(s[..|s| - 1], t[..|t| - 1], u[..|u| - 1]);
    }
  }

  /** A list of equal terms sums to their count times the term. */
  lemma {:induction false} SumConstant(s: seq<real>, c: real)
    requires forall i :: 0 <= i < |s| ==> s[i] == c
    ensures Sum(s) == (|s| as real) * c
    decreases |s|
  {
    if s != [] {
      SumConstant(s[..|s| - 1], c);
    }
  }

  /** Each term is bounded by the lower and upper bounds of the list. */
  lemma {:induction false} SumBounds(s: seq<real>, lo: real, hi: real)
    requires forall i :: 0 <= i < |s| ==> lo <= s[i] <= hi
    ensures (|s| as real) * lo <= Sum(s) <= (|s| as real) * hi
    decreases |s|
  {
    if s != [] {
      SumBounds(s[..|s| - 1], lo, hi);
    }
  }

  /** The total does not depend on the order of the terms. */
  lemma {:induction false} SumOrderFree(s: seq<real>, t: seq<real>)
    requires multiset(s) == multiset(t)
    ensures Sum(s) == Sum(t)
    decreases |s|
  {
    assert |t| == |s| by { assert |multiset(s)| == |s| && |multiset(t)| == |t|; }
    if s != [] {
      var x := s[|s| - 1];
      assert x in multiset(t) by { assert x in multiset(s); }
      var k :| 0 <= k < |t| && t[k] == x;
      var t' := t[..k] + t[k + 1..];
      DropMatching(s, t, k);
      SumOrderFree(s[..|s| - 1], t');
      SumWithout(t, k);
    }
  }

  /** Dropping the last element of s and an equal element of t keeps the
      two multisets equal. */
  lemma DropMatching(s: seq<real>, t: seq<real>, k: nat)
    requires s != [] && k < |t| && t[k] == s[|s| - 1] && multiset(s) == multiset(t)
    ensures multiset(s[..|s| - 1]) == multiset(t[..k] + t[k + 1..])
  {
    var x := t[k];
    assert s == s[..|s| - 1] + [x];
    assert t == t[..k] + [x] + t[k + 1..];
    assert multiset(s[..|s| - 1]) == multiset(s) - multiset{x};
    assert multiset(t[..k] + t[k + 1..]) == multiset(t) - multiset{x};
  }

  /** The sum is the sum without position k plus the element at k. */
  lemma SumWithout(t: seq<real>, k: nat)
    requires k < |t|
    ensures Sum(t) == Sum(t[..k] + t[k + 1..]) + t[k]
  {
    var a, x, b := t[..k], t[k], t[k + 1..];
    SplitAt(t, k);
    SumAppend(a + [x], b);
    SumAppend(a, [x]);
    SumAppend(a, b);
    SumSingle(x);
  }

  lemma SplitAt(t: seq<real>, k: nat)
    requires k < |t|
    ensures t == t[..k] + [t[k]] + t[k + 1..]
  {
  }

  lemma SumSingle(x: real)
    ensures Sum([x]) == x
  {
    assert [x][..0] == [];
  }

  // ---------------------------------------------------------------------
  // Sums over a finite set of keys

  /** The total of f over the keys in s, in an order Dafny picks. */
  ghost function SetSum<K>(s: set<K>, f: K -> real): real
    decreases |s|
  {
    if s == {} then 0.0
    else
      var k :| k in s;
      f(k) + SetSum(s - {k}, f)
  }

  /** Any key can be taken out first: the set total does not depend on the
      order in which a dictionary's keys are visited. */
  lemma {:induction false} SetSumRemove<K>(s: set<K>, f: K -> real, k: K)
    requires k in s
    ensures SetSum(s, f) == f(k) + SetSum(s - {k}, f)
    decreases |s|
  {
    var x :| x in s && SetSum(s, f) == f(x) + SetSum(s - {x}, f);
    if x != k {
      assert s - {x} - {k} == s - {k} - {x};
      SetSumRemove(s - {x}, f, k);
      SetSumRemove(s - {k}, f, x);
    }
  }

  /** Adding a new key adds its term. */
  lemma SetSumAdd<K>(s: set<K>, f: K -> real, k: K)
    requires k !in s
    ensures SetSum(s + {k}, f) == SetSum(s, f) + f(k)
  {
    SetSumRemove(s + {k}, f, k);
    assert s + {k} - {k} == s;
  }

  /** Two term functions that agree on the keys give the same total. */
  lemma {:induction false} SetSumCongruent<K>(s: set<K>, f: K -> real, g: K -> real)
    requires forall k :: k in s ==> f(k) == g(k)
    ensures SetSum(s, f) == SetSum(s, g)
    decreases |s|
  {
    if s != {} {
      var k :| k in s;
      SetSumRemove(s, f, k);
      SetSumRemove(s, g, k);
      SetSumCongruent(s - {k}, f, g);
    }
  }

  /** Negating every term negates the total. */
  lemma {:induction false} SetSumNegate<K>(s: set<K>, f: K -> real, g: K -> real)
    requires forall k {:trigger g(k)} :: k in s ==> g(k) == -f(k)
    ensures SetSum(s, g) == -SetSum(s, f)
    decreases |s|
  {
    if s != {} {
      var k :| k in s;
      SetSumRemove(s, f, k);
      SetSumRemove(s, g, k);
      SetSumNegate(s - {k}, f, g);
    }
  }

  /** Dividing every term by d divides the total by d. */
  lemma {:induction false} SetSumDivide<K>(s: set<K>, f: K -> real, g: K -> real, d: real)
    requires d != 0.0
    requires forall k {:trigger g(k)} :: k in s ==> g(k) == f(k) / d
    ensures SetSum(s, g) == SetSum(s, f) / d
    decreases |s|
  {
    if s != {} {
      var k :| k in s;
      SetSumRemove(s, f, k);
      SetSumRemove(s, g, k);
      SetSumDivide(s - {k}, f, g, d);
      QuotientSum(f(k), SetSum(s - {k}, f), d);
    }
  }

  lemma QuotientSum(a: real, b: real, d: real)
    requires d != 0.0
    ensures a / d + b / d == (a + b) / d
  {
  }

  /** Adding two term functions adds the totals. */
  lemma {:induction false} SetSumPointwise<K>(s: set<K>, f: K -> real, g: K -> real, h: K -> real)
    requires forall k {:trigger h(k)} :: k in s ==> h(k) == f(k) + g(k)
    ensures SetSum(s, h) == SetSum(s, f) + SetSum(s, g)
    decreases |s|
  {
    if s != {} {
      var k :| k in s;
      SetSumRemove(s, f, k);
      SetSumRemove(s, g, k);
      SetSumRemove(s, h, k);
      SetSumPointwise(s - {k}, f, g, h);
    }
  }

  /** A constant term c over n keys totals n * c. */
  lemma {:induction false} SetSumConstant<K>(s: set<K>, f: K -> real, c: real)
    requires forall k :: k in s ==> f(k) == c
    ensures SetSum(s, f) == (|s| as real) * c
    decreases |s|
  {
    if s != {} {
      var k :| k in s;
      SetSumRemove(s, f, k);
      SetSumConstant(s - {k}, f, c);
    }
  }

  lemma {:induction false} SetSumNonNegative<K>(s: set<K>, f: K -> real)
    requires forall k :: k in s ==> f(k) >= 0.0
    ensures SetSum(s, f) >= 0.0
    decreases |s|
  {
    if s != {} {
      var k :| k in s;
      SetSumRemove(s, f, k);
      SetSumNonNegative(s - {k}, f);
    }
  }

  /** Non-negative terms total zero only when each term is zero. */
  lemma SetSumZeroOnlyIfAllZero<K>(s: set<K>, f: K -> real, k: K)
    requires forall j :: j in s ==> f(j) >= 0.0
    requires SetSum(s, f) == 0.0 && k in s
    ensures f(k) == 0.0
  {
    SetSumRemove(s, f, k);
    SetSumNonNegative(s - {k}, f);
  }

  /** Keys whose term is zero can be dropped from the total. */
  lemma {:induction false} SetSumZeroOutside<K>(s: set<K>, t: set<K>, f: K -> real)
    requires t <= s
    requires forall k :: k in s && k !in t ==> f(k) == 0.0
    ensures SetSum(s, f) == SetSum(t, f)
    decreases |s|
  {
    if s != t {
      var k :| k in s && k !in t;
      SetSumRemove(s, f, k);
      SetSumZeroOutside(s - {k}, t, f);
    }
  }

  /** Termwise smaller terms give a smaller total. */
  lemma {:induction false} SetSumMonotone<K>(s: set<K>, f: K -> real, g: K -> real)
    requires forall k :: k in s ==> f(k) <= g(k)
    ensures SetSum(s, f) <= SetSum(s, g)
    decreases |s|
  {
    if s != {} {
      var k :| k in s;
      SetSumRemove(s, f, k);
      SetSumRemove(s, g, k);
      SetSumMonotone(s - {k}, f, g);
    }
  }

  /** Terms within plus or minus their weights sum to within plus or minus
      the total weight, which is not negative. */
  lemma SetSumWithin<K>(s: set<K>, f: K -> real, g: K -> real)
    requires forall k :: k in s ==> -1.0 * g(k) <= f(k) <= g(k)
    ensures -1.0 * SetSum(s, g) <= SetSum(s, f) <= SetSum(s, g) && SetSum(s, g) >= 0.0
  {
    var minusG := (k: K) => -g(k);
    SetSumMonotone(s, f, g);
    SetSumMonotone(s, minusG, f);
    SetSumNegate(s, g, minusG);
    SetSumNonNegative(s, g);
  }

  /** A term of one per key counts the keys. */
  lemma {:induction false} SetSumCount<K>(s: set<K>, f: K -> real)
    requires forall k :: k in s ==> f(k) == 1.0
    ensures SetSum(s, f) == |s| as real
    decreases |s|
  {
    if s != {} {
      var k :| k in s;
      SetSumRemove(s, f, k);
      SetSumCount(s - {k}, f);
    }
  }
}
