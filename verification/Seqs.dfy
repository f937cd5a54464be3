/** Filters, projections and the one stable sort the runtime relies on. */
module Seqs {

  function Filter<T(!new)>(p: T -> bool, xs: seq<T>): (r: seq<T>)
    ensures forall x :: x in r <==> x in xs && p(x)
    ensures |r| <= |xs|
  {
    if xs == [] then []
    else if p(xs[0]) then [xs[0]] + Filter(p, xs[1..])
    else Filter(p, xs[1..])
  }

  lemma {:induction false} FilterConcat<T(!new)>(p: T -> bool, xs: seq<T>, ys: seq<T>)
    ensures Filter(p, xs + ys) == Filter(p, xs) + Filter(p, ys)
  {
    if xs == [] {
      assert xs + ys == ys;
    } else {
      assert (xs + ys)[1..] == xs[1..] + ys;
      FilterConcat(p, xs[1..], ys);
    }
  }

  lemma FilterAppend<T(!new)>(p: T -> bool, xs: seq<T>, x: T)
    ensures Filter(p, xs + [x]) == if p(x) then Filter(p, xs) + [x] else Filter(p, xs)
  {
    FilterConcat(p, xs, [x]);
    assert [x][1..] == [];
  }

  lemma {:induction false} FilterAll<T(!new)>(p: T -> bool, xs: seq<T>)
    requires forall x | x in xs :: p(x)
    ensures Filter(p, xs) == xs
  {
    if xs != [] {
      FilterAll(p, xs[1..]);
    }
  }

  lemma {:induction false} FilterNone<T(!new)>(p: T -> bool, xs: seq<T>)
    requires forall x | x in xs :: !p(x)
    ensures Filter(p, xs) == []
  {
    if xs != [] {
      FilterNone(p, xs[1..]);
    }
  }

  lemma {:induction false} SameFilter<T(!new)>(p: T -> bool, q: T -> bool, xs: seq<T>)
    requires forall x | x in xs :: p(x) == q(x)
    ensures Filter(p, xs) == Filter(q, xs)
  {
    if xs != [] {
      SameFilter(p, q, xs[1..]);
      assert xs[0] in xs;
    }
  }

  function Map<S, T>(f: S -> T, xs: seq<S>): (r: seq<T>)
    ensures |r| == |xs| && forall i | 0 <= i < |xs| :: r[i] == f(xs[i])
  {
    if xs == [] then [] else [f(xs[0])] + Map(f, xs[1..])
  }

  // ---- One stable insertion sort ------------------------------------------

  /** Insert before the first element that `x` may precede: ties keep their order. */
  function InsertWith<T(!new)>(leq: (T, T) -> bool, x: T, sorted: seq<T>): (r: seq<T>)
    ensures forall y :: y in r <==> y == x || y in sorted
  {
    if sorted == [] || leq(x, sorted[0]) then [x] + sorted
    else [sorted[0]] + InsertWith(leq, x, sorted[1..])
  }

  /** Python's stable `sorted` for any order on the keys. */
  function SortWith<T(!new)>(leq: (T, T) -> bool, xs: seq<T>): (r: seq<T>)
    ensures forall y :: y in r <==> y in xs
  {
    if xs == [] then [] else InsertWith(leq, xs[0], SortWith(leq, xs[1..]))
  }

  ghost predicate Preorder<T(!new)>(leq: (T, T) -> bool) {
    && (forall x, y :: leq(x, y) || leq(y, x))
    && (forall x, y, z :: leq(x, y) && leq(y, z) ==> leq(x, z))
  }

  predicate SortedWith<T(!new)>(leq: (T, T) -> bool, xs: seq<T>) {
    forall i, j | 0 <= i < j < |xs| :: leq(xs[i], xs[j])
  }

  lemma PreorderTotal<T(!new)>(leq: (T, T) -> bool, x: T, y: T)
    requires Preorder(leq) && !leq(x, y)
    ensures leq(y, x)
  {
  }

  lemma PreorderTrans<T(!new)>(leq: (T, T) -> bool, x: T, y: T, z: T)
    requires Preorder(leq) && leq(x, y) && leq(y, z)
    ensures leq(x, z)
  {
  }

  lemma {:induction false} InsertWithPermutes<T(!new)>(leq: (T, T) -> bool, x: T, s: seq<T>)
    ensures multiset(InsertWith(leq, x, s)) == multiset{x} + multiset(s)
  {
    if s != [] && !leq(x, s[0]) {
      InsertWithPermutes(leq, x, s[1..]);
      assert s == [s[0]] + s[1..];
    }
  }

  lemma {:induction false} InsertWithSorted<T(!new)>(leq: (T, T) -> bool, x: T, s: seq<T>)
    requires Preorder(leq) && SortedWith(leq, s)
    ensures SortedWith(leq, InsertWith(leq, x, s))
  {
    hide Preorder;
    if s == [] {
    } else if leq(x, s[0]) {
      forall j | 0 < j < |s| ensures leq(x, s[j]) {
        PreorderTrans(leq, x, s[0], s[j]);
      }
    } else {
      PreorderTotal(leq, x, s[0]);
      InsertWithSorted(leq, x, s[1..]);
      var r := InsertWith(leq, x, s[1..]);
      forall j | 0 <= j < |r| ensures leq(s[0], r[j]) {
        assert r[j] in r;
        if r[j] != x {
          var i :| 0 <= i < |s[1..]| && s[1..][i] == r[j];
          assert s[i + 1] == r[j];
        }
      }
    }
  }

  lemma NothingSorted<T(!new)>(leq: (T, T) -> bool)
    ensures SortedWith(leq, [])
  {
  }

  /** Sorting gives an ordered permutation. */
  lemma {:induction false} SortWithSorts<T(!new)>(leq: (T, T) -> bool, xs: seq<T>)
    requires Preorder(leq)
    ensures SortedWith(leq, SortWith(leq, xs)) && multiset(SortWith(leq, xs)) == multiset(xs)
  {
    hide Preorder, SortedWith;
    if xs == [] {
      NothingSorted(leq);
    } else {
      SortWithSorts(leq, xs[1..]);
      InsertWithSorted(leq, xs[0], SortWith(leq, xs[1..]));
      InsertWithPermutes(leq, xs[0], SortWith(leq, xs[1..]));
      assert xs == [xs[0]] + xs[1..];
    }
  }

  /** Sorting what already ascends changes nothing. */
  lemma {:induction false} SortWithFixed<T(!new)>(leq: (T, T) -> bool, xs: seq<T>)
    requires forall i | 0 < i < |xs| :: leq(xs[i - 1], xs[i])
    ensures SortWith(leq, xs) == xs
  {
    if xs != [] {
      forall i | 0 < i < |xs[1..]| ensures leq(xs[1..][i - 1], xs[1..][i]) {
        assert leq(xs[i], xs[i + 1]);
      }
      SortWithFixed(leq, xs[1..]);
      assert xs == [xs[0]] + xs[1..];
    }
  }

  lemma {:induction false} FilterInsertWith<T(!new)>(p: T -> bool, leq: (T, T) -> bool, x: T, s: seq<T>)
    requires Preorder(leq) && SortedWith(leq, s)
    ensures Filter(p, InsertWith(leq, x, s)) == if p(x) then InsertWith(leq, x, Filter(p, s)) else Filter(p, s)
  {
    hide Preorder;
    if s == [] || leq(x, s[0]) {
      assert ([x] + s)[1..] == s;
      var f := Filter(p, s);
      if f != [] {
        assert f[0] in s;
        var i :| 0 <= i < |s| && s[i] == f[0];
        if i > 0 {
          PreorderTrans(leq, x, s[0], s[i]);
        }
      }
    } else {
      FilterInsertWith(p, leq, x, s[1..]);
      var r := InsertWith(leq, x, s[1..]);
      assert ([s[0]] + r)[1..] == r;
      if p(s[0]) {
        assert Filter(p, s)[1..] == Filter(p, s[1..]);
      }
    }
  }

  /** A stable sort and a filter commute. */
  lemma {:induction false} FilterSortWith<T(!new)>(p: T -> bool, leq: (T, T) -> bool, xs: seq<T>)
    requires Preorder(leq)
    ensures Filter(p, SortWith(leq, xs)) == SortWith(leq, Filter(p, xs))
  {
    if xs != [] {
      var s := SortWith(leq, xs[1..]);
      SortWithSorts(leq, xs[1..]);
      FilterSortWith(p, leq, xs[1..]);
      FilterInsertWith(p, leq, xs[0], s);
      if p(xs[0]) {
        assert Filter(p, xs)[1..] == Filter(p, xs[1..]);
      }
    }
  }

  // ---- Sorting by a number ------------------------------------------------

  function ByKey<T(!new)>(key: T -> real): (T, T) -> bool { (x: T, y: T) => key(x) <= key(y) }

  /** Python's stable `sorted(xs, key=key)`. */
  function SortBy<T(!new)>(key: T -> real, xs: seq<T>): (r: seq<T>)
    ensures forall y :: y in r <==> y in xs
  {
    SortWith(ByKey(key), xs)
  }

  lemma SortByFixed<T(!new)>(key: T -> real, xs: seq<T>)
    requires forall i | 0 < i < |xs| :: key(xs[i - 1]) <= key(xs[i])
    ensures SortBy(key, xs) == xs
  {
    SortWithFixed(ByKey(key), xs);
  }

  predicate SortedBy<T(!new)>(key: T -> real, xs: seq<T>) {
    forall i, j | 0 <= i < j < |xs| :: key(xs[i]) <= key(xs[j])
  }

  lemma SortBySorted<T(!new)>(key: T -> real, xs: seq<T>)
    ensures SortedBy(key, SortBy(key, xs))
  {
    SortWithSorts(ByKey(key), xs);
    var r := SortBy(key, xs);
    forall i, j | 0 <= i < j < |r| ensures key(r[i]) <= key(r[j]) {
      assert ByKey(key)(r[i], r[j]);
    }
  }

  lemma FilterSortBy<T(!new)>(p: T -> bool, key: T -> real, xs: seq<T>)
    ensures Filter(p, SortBy(key, xs)) == SortBy(key, Filter(p, xs))
  {
    FilterSortWith(p, ByKey(key), xs);
  }

  lemma FilterFilter<T(!new)>(p: T -> bool, q: T -> bool, xs: seq<T>)
    requires forall x | x in xs :: q(x) ==> p(x)
    ensures Filter(q, Filter(p, xs)) == Filter(q, xs)
  {
    if xs != [] {
      FilterFilter(p, q, xs[1..]);
      assert xs[0] in xs;
      if p(xs[0]) {
        assert Filter(p, xs)[1..] == Filter(p, xs[1..]);
      }
    }
  }
}
