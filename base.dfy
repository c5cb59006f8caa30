/** Shared building blocks: an optional value, uniqueness of integer division,
    the order-preserving filter that every listing page uses
    (`Array.prototype.filter`), and the category filter whose value 'todos'
    stands for "no filter". */
module Base {

  datatype Option<T> = None | Some(value: T)

  /** `xs` is obtained from `ys` by deleting elements, keeping the order. */
  predicate IsSubsequence<T(==)>(xs: seq<T>, ys: seq<T>)
    decreases |ys|
  {
    if xs == [] then true
    else if ys == [] then false
    else if xs[0] == ys[0] then IsSubsequence(xs[1..], ys[1..])
    else IsSubsequence(xs, ys[1..])
  }

  /** A positive multiple of `n` is at least `n`. */
  lemma {:induction false} PositiveMultiple(d: int, n: int)
    requires d >= 1 && n > 0
    ensures d * n >= n
    decreases d
  {
    if d > 1 {
      PositiveMultiple(d - 1, n);
      assert d * n == (d - 1) * n + n;
    }
  }

  /** Division by `n` has one quotient and one remainder. */
  lemma DivisionUnique(a: int, n: int, q: int, r: int)
    requires n > 0 && 0 <= r < n && a == q * n + r
    ensures a / n == q && a % n == r
  {
    var q2, r2 := a / n, a % n;
    assert a == q2 * n + r2;
    assert q2 * n - q * n == (q2 - q) * n;
    if q2 > q {
      PositiveMultiple(q2 - q, n);
    } else if q2 < q {
      assert q * n - q2 * n == (q - q2) * n;
      PositiveMultiple(q - q2, n);
    }
  }

  /** The number of elements of `xs` that satisfy `p`. */
  function Count<T(==)>(xs: seq<T>, p: T -> bool): nat
  {
    if xs == [] then 0 else (if p(xs[0]) then 1 else 0) + Count(xs[1..], p)
  }

  /** The elements of `xs` that satisfy `p`, in their original order. */
  function Filter<T(==)>(xs: seq<T>, p: T -> bool): (r: seq<T>)
    ensures |r| == Count(xs, p) <= |xs|
    ensures forall i :: 0 <= i < |r| ==> p(r[i])
    ensures forall i :: 0 <= i < |r| ==> r[i] in xs
    ensures forall i :: 0 <= i < |xs| && p(xs[i]) ==> xs[i] in r
  {
    if xs == [] then []
    else if p(xs[0]) then [xs[0]] + Filter(xs[1..], p)
    else Filter(xs[1..], p)
  }

  /** Skipping the head of `ys` keeps any subsequence of its tail. */
  lemma {:induction false} SubsequenceSkip<T>(xs: seq<T>, ys: seq<T>)
    requires ys != [] && IsSubsequence(xs, ys[1..])
    ensures IsSubsequence(xs, ys)
    decreases |ys|, 0
  {
    if xs != [] && xs[0] == ys[0] {
      // Here IsSubsequence(xs, ys) unfolds to IsSubsequence(xs[1..], ys[1..]).
      SubsequenceTail(xs, ys[1..]);
    }
  }

  /** Dropping the first element of a subsequence keeps it a subsequence. */
  lemma {:induction false} SubsequenceTail<T>(xs: seq<T>, ys: seq<T>)
    requires xs != [] && IsSubsequence(xs, ys)
    ensures IsSubsequence(xs[1..], ys)
    decreases |ys|, 1
  {
    assert ys != [];
    if xs[0] == ys[0] {
      if xs[1..] != [] {
        SubsequenceSkip(xs[1..], ys);
      }
    } else {
      SubsequenceTail(xs, ys[1..]);
      if xs[1..] != [] {
        SubsequenceSkip(xs[1..], ys);
      }
    }
  }

  /** A filtered list is an order-preserving subsequence of its source. */
  lemma {:induction false} FilterIsSubsequence<T>(xs: seq<T>, p: T -> bool)
    ensures IsSubsequence(Filter(xs, p), xs)
  {
    if xs != [] {
      FilterIsSubsequence(xs[1..], p);
      var r := Filter(xs, p);
      if p(xs[0]) {
        assert r[0] == xs[0] && r[1..] == Filter(xs[1..], p);
      } else {
        SubsequenceSkip(Filter(xs[1..], p), xs);
      }
    }
  }

  /** A filter that every element passes returns its input unchanged. */
  lemma {:induction false} FilterKeepsAll<T>(xs: seq<T>, p: T -> bool)
    requires forall i :: 0 <= i < |xs| ==> p(xs[i])
    ensures Filter(xs, p) == xs
  {
    if xs != [] {
      FilterKeepsAll(xs[1..], p);
      assert [xs[0]] + xs[1..] == xs;
    }
  }

  /** A filter that no element passes returns nothing. */
  lemma {:induction false} FilterKeepsNone<T>(xs: seq<T>, p: T -> bool)
    requires forall i :: 0 <= i < |xs| ==> !p(xs[i])
    ensures Filter(xs, p) == []
  {
    if xs != [] {
      FilterKeepsNone(xs[1..], p);
    }
  }

  /** The head of a filtered list is the first element that passes. */
  lemma {:induction false} FilterFirst<T>(xs: seq<T>, p: T -> bool)
    requires Filter(xs, p) != []
    ensures exists i :: 0 <= i < |xs| && xs[i] == Filter(xs, p)[0] && p(xs[i])
                        && forall j :: 0 <= j < i ==> !p(xs[j])
  {
    if !p(xs[0]) {
      FilterFirst(xs[1..], p);
      var i :| 0 <= i < |xs[1..]| && xs[1..][i] == Filter(xs[1..], p)[0] && p(xs[1..][i])
                && forall j :: 0 <= j < i ==> !p(xs[1..][j]);
      assert xs[i + 1] == Filter(xs, p)[0];
      forall j | 0 <= j < i + 1
        ensures !p(xs[j])
      {
        if j > 0 { assert xs[j] == xs[1..][j - 1]; }
      }
    } else {
      assert xs[0] == Filter(xs, p)[0];
    }
  }

  /** Filters by predicates that agree everywhere give the same result. */
  lemma {:induction false} FilterEquivalent<T>(xs: seq<T>, p: T -> bool, q: T -> bool)
    requires forall x :: p(x) == q(x)
    ensures Filter(xs, p) == Filter(xs, q)
  {
    if xs != [] {
      FilterEquivalent(xs[1..], p, q);
    }
  }

  /** Filtering twice is filtering once by the conjunction. */
  lemma {:induction false} FilterFilter<T>(xs: seq<T>, p: T -> bool, q: T -> bool, pq: T -> bool)
    requires forall x :: pq(x) == (p(x) && q(x))
    ensures Filter(Filter(xs, p), q) == Filter(xs, pq)
  {
    if xs != [] {
      FilterFilter(xs[1..], p, q, pq);
      if p(xs[0]) {
        var f := Filter(xs, p);
        assert f == [xs[0]] + Filter(xs[1..], p);
        assert f[0] == xs[0] && f[1..] == Filter(xs[1..], p);
      }
    }
  }

  /** The filter used by the events, news and gallery pages: the value 'todos'
      returns the list itself, any other value keeps exactly the elements whose
      category equals it. */
  function PorCategoria<T(==)>(xs: seq<T>, filtro: string, categoria: T -> string): (r: seq<T>)
    ensures filtro == "todos" ==> r == xs
    ensures filtro != "todos" ==> forall i :: 0 <= i < |r| ==> r[i] in xs && categoria(r[i]) == filtro
    ensures filtro != "todos" ==> forall i :: 0 <= i < |xs| && categoria(xs[i]) == filtro ==> xs[i] in r
    ensures |r| <= |xs|
  {
    if filtro == "todos" then xs else Filter(xs, x => categoria(x) == filtro)
  }

  /** Whatever the filter, the result is an order-preserving subsequence. */
  lemma PorCategoriaIsSubsequence<T>(xs: seq<T>, filtro: string, categoria: T -> string)
    ensures IsSubsequence(PorCategoria(xs, filtro, categoria), xs)
  {
    if filtro == "todos" {
      SubsequenceRefl(xs);
    } else {
      FilterIsSubsequence(xs, x => categoria(x) == filtro);
    }
  }

  /** Under a category, the head of the result is the first element of that category. */
  lemma PorCategoriaFirst<T>(xs: seq<T>, filtro: string, categoria: T -> string)
    requires filtro != "todos" && PorCategoria(xs, filtro, categoria) != []
    ensures exists i :: 0 <= i < |xs| && xs[i] == PorCategoria(xs, filtro, categoria)[0]
                        && categoria(xs[i]) == filtro
                        && forall j :: 0 <= j < i ==> categoria(xs[j]) != filtro
  {
    FilterFirst(xs, x => categoria(x) == filtro);
  }

  lemma {:induction false} SubsequenceRefl<T>(xs: seq<T>)
    ensures IsSubsequence(xs, xs)
  {
    if xs != [] { SubsequenceRefl(xs[1..]); }
  }
}
