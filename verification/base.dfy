/** Vocabulary shared by every view of the application: optional values,
    error-or-value results, the "redirected to sign-in" guard, JavaScript's
    `||` default on strings, and the array operations (`filter`, `sort`,
    `reduce`, `slice`, `reverse`) the event handlers are built from. */
module Base {

  datatype Option<+T> = None | Some(value: T)

  /** A handler's outcome: the new value, or the error message it shows. */
  datatype Result<+T> = Ok(value: T) | Err(error: string)

  /** What a guarded view does on mount: redirect to the sign-in page without
      loading anything, or show what it loaded. */
  datatype Guarded<+T> = Redirected | Shown(value: T)

  /** `s || d` on a JavaScript string: the empty string is falsy. */
  function OrElse(s: string, d: string): string
  {
    if s == "" then d else s
  }

  /* ---------------------------------------------------------------------- */
  /* Array.prototype.filter                                                  */

  function Filter<T>(xs: seq<T>, p: T -> bool): (r: seq<T>)
    ensures |r| <= |xs|
  {
    if xs == [] then []
    else
      var rest := Filter(xs[1..], p);
      if p(xs[0]) then [xs[0]] + rest else rest
  }

  /** The filter keeps exactly the elements that satisfy the predicate. */
  lemma {:induction false} FilterMembers<T>(xs: seq<T>, p: T -> bool)
    ensures forall i :: 0 <= i < |Filter(xs, p)| ==> Filter(xs, p)[i] in xs && p(Filter(xs, p)[i])
    ensures forall i :: 0 <= i < |xs| && p(xs[i]) ==> xs[i] in Filter(xs, p)
  {
    if xs != [] {
      FilterMembers(xs[1..], p);
      assert forall i :: 1 <= i < |xs| ==> xs[i] == xs[1..][i - 1];
    }
  }

  /** Filtering distributes over concatenation: the kept elements stay in
      their original relative order. */
  lemma {:induction false} FilterAppend<T>(a: seq<T>, b: seq<T>, p: T -> bool)
    ensures Filter(a + b, p) == Filter(a, p) + Filter(b, p)
  {
    if a == [] {
      assert a + b == b;
    } else {
      assert (a + b)[1..] == a[1..] + b;
      FilterAppend(a[1..], b, p);
    }
  }

  /** Filtering a sequence extended by one element extends the filtered
      sequence by that element exactly when it is kept. */
  lemma FilterSnoc<T>(xs: seq<T>, x: T, p: T -> bool)
    ensures Filter(xs + [x], p) == Filter(xs, p) + (if p(x) then [x] else [])
  {
    FilterAppend(xs, [x], p);
    assert [x][1..] == [];
  }

  /** Each kept value occurs as often as in the input; dropped values not at all. */
  lemma {:induction false} FilterCount<T>(xs: seq<T>, p: T -> bool, x: T)
    ensures multiset(Filter(xs, p))[x] == if p(x) then multiset(xs)[x] else 0
  {
    if xs != [] {
      assert xs == [xs[0]] + xs[1..];
      FilterCount(xs[1..], p, x);
    }
  }

  /** A filter that keeps nothing yields the empty sequence. */
  lemma {:induction false} FilterNone<T>(xs: seq<T>, p: T -> bool)
    requires forall i :: 0 <= i < |xs| ==> !p(xs[i])
    ensures Filter(xs, p) == []
  {
    if xs != [] {
      FilterNone(xs[1..], p);
    }
  }

  /** Filtering out a single rejected element leaves its neighbours joined. */
  lemma FilterDropOne<T>(a: seq<T>, x: T, b: seq<T>, p: T -> bool)
    requires forall i :: 0 <= i < |a| ==> p(a[i])
    requires forall i :: 0 <= i < |b| ==> p(b[i])
    requires !p(x)
    ensures Filter(a + [x] + b, p) == a + b
  {
    var ax := a + [x];
    FilterAppend(ax, b, p);
    FilterAppend(a, [x], p);
    FilterAll(a, p);
    FilterAll(b, p);
    assert Filter([x], p) == [] by {
      assert [x][1..] == [];
    }
    assert Filter(ax, p) == a;
    assert Filter(ax + b, p) == a + b;
  }

  /** A filter that keeps everything is the identity. */
  lemma {:induction false} FilterAll<T>(xs: seq<T>, p: T -> bool)
    requires forall i :: 0 <= i < |xs| ==> p(xs[i])
    ensures Filter(xs, p) == xs
  {
    if xs != [] {
      FilterAll(xs[1..], p);
    }
  }

  /* ---------------------------------------------------------------------- */
  /* Array.prototype.sort with a "newest first" comparator `key(b) - key(a)`. */

  ghost predicate SortedDesc<T>(xs: seq<T>, key: T -> int)
  {
    forall i, j :: 0 <= i < j < |xs| ==> key(xs[i]) >= key(xs[j])
  }

  /** Inserts `x` in front of the first element whose key is not larger, so
      that `x` stays ahead of later elements with an equal key (the sort is
      stable, as ECMAScript requires). */
  function InsertDesc<T>(x: T, xs: seq<T>, key: T -> int): (r: seq<T>)
    requires SortedDesc(xs, key)
    ensures SortedDesc(r, key)
    ensures multiset(r) == multiset(xs) + multiset{x}
    ensures |r| == |xs| + 1
    ensures r[0] == x || (xs != [] && r[0] == xs[0])
  {
    if xs == [] || key(xs[0]) <= key(x) then [x] + xs
    else
      var rest := InsertDesc(x, xs[1..], key);
      assert xs == [xs[0]] + xs[1..];
      assert key(xs[0]) >= key(rest[0]);
      [xs[0]] + rest
  }

  function SortDesc<T>(xs: seq<T>, key: T -> int): (r: seq<T>)
    ensures SortedDesc(r, key)
    ensures multiset(r) == multiset(xs)
    ensures |r| == |xs|
  {
    if xs == [] then []
    else
      assert xs == [xs[0]] + xs[1..];
      InsertDesc(xs[0], SortDesc(xs[1..], key), key)
  }

  /** Filtering keeps a newest-first list newest first. */
  lemma {:induction false} FilterSortedDesc<T>(xs: seq<T>, p: T -> bool, key: T -> int)
    requires SortedDesc(xs, key)
    ensures SortedDesc(Filter(xs, p), key)
  {
    if xs != [] {
      var rest := Filter(xs[1..], p);
      FilterSortedDesc(xs[1..], p, key);
      FilterMembers(xs[1..], p);
      forall j | 0 <= j < |rest| ensures key(xs[0]) >= key(rest[j]) {
        var m :| 0 <= m < |xs[1..]| && xs[1..][m] == rest[j];
        assert xs[1..][m] == xs[m + 1];
      }
    }
  }

  /** Membership is what a permutation preserves. */
  lemma SortDescMembers<T>(xs: seq<T>, key: T -> int)
    ensures forall x :: x in SortDesc(xs, key) <==> x in xs
  {
    var r := SortDesc(xs, key);
    forall x ensures x in r <==> x in xs {
      assert x in r <==> x in multiset(r);
      assert x in xs <==> x in multiset(xs);
    }
  }

  /* ---------------------------------------------------------------------- */
  /* Array.prototype.reduce((sum, e) => sum + f(e), 0) and the mean.          */

  function Sum<T>(xs: seq<T>, f: T -> int): int
  {
    if xs == [] then 0 else f(xs[0]) + Sum(xs[1..], f)
  }

  /** Smallest value of `f` over a non-empty sequence. */
  function MinOf<T>(xs: seq<T>, f: T -> int): (m: int)
    requires xs != []
    ensures forall i :: 0 <= i < |xs| ==> m <= f(xs[i])
    ensures exists i :: 0 <= i < |xs| && f(xs[i]) == m
  {
    if |xs| == 1 then f(xs[0])
    else
      var rest := MinOf(xs[1..], f);
      assert forall i :: 1 <= i < |xs| ==> xs[i] == xs[1..][i - 1];
      if f(xs[0]) <= rest then f(xs[0]) else rest
  }

  /** Largest value of `f` over a non-empty sequence. */
  function MaxOf<T>(xs: seq<T>, f: T -> int): (m: int)
    requires xs != []
    ensures forall i :: 0 <= i < |xs| ==> f(xs[i]) <= m
    ensures exists i :: 0 <= i < |xs| && f(xs[i]) == m
  {
    if |xs| == 1 then f(xs[0])
    else
      var rest := MaxOf(xs[1..], f);
      assert forall i :: 1 <= i < |xs| ==> xs[i] == xs[1..][i - 1];
      if f(xs[0]) >= rest then f(xs[0]) else rest
  }

  /** The sum lies between |xs| times any lower and any upper bound. */
  lemma {:induction false} SumBounds<T>(xs: seq<T>, f: T -> int, lo: int, hi: int)
    requires forall i :: 0 <= i < |xs| ==> lo <= f(xs[i]) <= hi
    ensures lo * |xs| <= Sum(xs, f) <= hi * |xs|
  {
    if xs != [] {
      assert forall i :: 0 <= i < |xs[1..]| ==> xs[1..][i] == xs[i + 1];
      SumBounds(xs[1..], f, lo, hi);
    }
  }

  /** Exact arithmetic mean of `f` over a non-empty sequence. */
  function Mean<T>(xs: seq<T>, f: T -> int): (m: real)
    requires xs != []
    ensures MinOf(xs, f) as real <= m <= MaxOf(xs, f) as real
  {
    SumBounds(xs, f, MinOf(xs, f), MaxOf(xs, f));
    DivideBounds(Sum(xs, f), |xs|, MinOf(xs, f), MaxOf(xs, f));
    Sum(xs, f) as real / |xs| as real
  }

  lemma DivideBounds(s: int, n: int, lo: int, hi: int)
    requires n > 0 && lo * n <= s <= hi * n
    ensures lo as real <= s as real / n as real <= hi as real
  {
    var q := s as real / n as real;
    assert q * n as real == s as real;
    assert (lo * n) as real == lo as real * n as real;
    assert (hi * n) as real == hi as real * n as real;
  }

  /* ---------------------------------------------------------------------- */
  /* Array.prototype.slice(0, k) and reverse().                              */

  function Take<T>(xs: seq<T>, k: nat): (r: seq<T>)
    ensures |r| == if |xs| < k then |xs| else k
    ensures r == xs[..|r|]
  {
    if |xs| <= k then xs else xs[..k]
  }

  function Reverse<T>(xs: seq<T>): (r: seq<T>)
    ensures |r| == |xs|
    ensures forall i :: 0 <= i < |xs| ==> r[i] == xs[|xs| - 1 - i]
  {
    if xs == [] then [] else Reverse(xs[1..]) + [xs[0]]
  }
}
