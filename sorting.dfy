/**
 * The row ordering both report generators ask pandas for: a stable sort by a comparison.
 * A multi-column `sort_values` is stable, so rows that compare equal keep their input order;
 * insertion from the back, stopping at the first row not greater than the new one, does the same.
 */
module Sorting {

  /** `less` is a strict weak order: asymmetric, and "not less" is transitive. */
  ghost predicate StrictWeakOrder<T(!new)>(less: (T, T) -> bool) {
    && (forall a, b :: less(a, b) ==> !less(b, a))
    && (forall a, b, c :: !less(a, b) && !less(b, c) ==> !less(a, c))
  }

  /** No element is preceded by one that should come after it. */
  predicate Sorted<T>(s: seq<T>, less: (T, T) -> bool) {
    forall i, j :: 0 <= i < j < |s| ==> !less(s[j], s[i])
  }

  /** Inserts `x` after the last element of `r` that `x` is not less than. */
  function Insert<T>(x: T, r: seq<T>, less: (T, T) -> bool): (out: seq<T>)
    ensures |out| == |r| + 1
    ensures multiset(out) == multiset(r) + multiset{x}
  {
    if r == [] || !less(x, r[|r| - 1]) then r + [x]
    else
      var init := r[..|r| - 1];
      assert r == init + [r[|r| - 1]];
      Insert(x, init, less) + [r[|r| - 1]]
  }

  /** The stable sort of `s` under `less`. */
  function Sort<T>(s: seq<T>, less: (T, T) -> bool): (r: seq<T>)
    ensures |r| == |s|
    ensures multiset(r) == multiset(s)
  {
    if s == [] then []
    else
      var init := s[..|s| - 1];
      assert s == init + [s[|s| - 1]];
      Insert(s[|s| - 1], Sort(init, less), less)
  }

  lemma {:induction false} InsertSorted<T(!new)>(x: T, r: seq<T>, less: (T, T) -> bool)
    requires StrictWeakOrder(less) && Sorted(r, less)
    ensures Sorted(Insert(x, r, less), less)
    decreases |r|
  {
    var out := Insert(x, r, less);
    if r == [] || !less(x, r[|r| - 1]) {
      forall i, j | 0 <= i < j < |out|
        ensures !less(out[j], out[i])
      {
        if j == |r| {
          assert out[j] == x && out[i] == r[i];
          if i < |r| - 1 {
            assert !less(r[|r| - 1], r[i]);
          }
        }
      }
    } else {
      var init := r[..|r| - 1];
      var last := r[|r| - 1];
      assert Sorted(init, less);
      InsertSorted(x, init, less);
      var mid := Insert(x, init, less);
      assert out == mid + [last];
      forall i | 0 <= i < |mid|
        ensures !less(last, mid[i])
      {
        if mid[i] != x {
          assert mid[i] in multiset(mid);
          assert mid[i] in multiset(init);
          var k :| 0 <= k < |init| && init[k] == mid[i];
          assert !less(r[|r| - 1], r[k]);
        }
      }
      forall i, j | 0 <= i < j < |out|
        ensures !less(out[j], out[i])
      {
        if j < |mid| {
          assert out[i] == mid[i] && out[j] == mid[j];
        }
      }
    }
  }

  /** The result is ordered: no row is preceded by one it should come before. */
  lemma {:induction false} SortSorted<T(!new)>(s: seq<T>, less: (T, T) -> bool)
    requires StrictWeakOrder(less)
    ensures Sorted(Sort(s, less), less)
    decreases |s|
  {
    if s != [] {
      SortSorted(s[..|s| - 1], less);
      InsertSorted(s[|s| - 1], Sort(s[..|s| - 1], less), less);
    }
  }

  /** Rows already in order are left exactly as they are, ties included. */
  lemma {:induction false} SortOfSorted<T>(s: seq<T>, less: (T, T) -> bool)
    requires Sorted(s, less)
    ensures Sort(s, less) == s
    decreases |s|
  {
    if s != [] {
      var init := s[..|s| - 1];
      assert Sorted(init, less);
      SortOfSorted(init, less);
      if init != [] {
        assert !less(s[|s| - 1], init[|init| - 1]);
      }
      assert init + [s[|s| - 1]] == s;
    }
  }

  /** Neither element should come before the other. */
  predicate Tied<T>(a: T, b: T, less: (T, T) -> bool) {
    !less(a, b) && !less(b, a)
  }

  /** The elements of `s` tied with `x`, in their order in `s`. */
  function Ties<T>(s: seq<T>, x: T, less: (T, T) -> bool): (r: seq<T>)
    ensures |r| <= |s|
  {
    if s == [] then []
    else Ties(s[..|s| - 1], x, less) + (if Tied(s[|s| - 1], x, less) then [s[|s| - 1]] else [])
  }

  lemma TiesSnoc<T>(r: seq<T>, y: T, x: T, less: (T, T) -> bool)
    ensures Ties(r + [y], x, less) == Ties(r, x, less) + (if Tied(y, x, less) then [y] else [])
  {
    assert (r + [y])[..|r|] == r;
  }

  /** Inserting `y` places it after every element tied with it, so the ties keep their order. */
  lemma {:induction false} InsertTies<T(!new)>(y: T, r: seq<T>, x: T, less: (T, T) -> bool)
    requires StrictWeakOrder(less)
    ensures Ties(Insert(y, r, less), x, less) == Ties(r, x, less) + (if Tied(y, x, less) then [y] else [])
    decreases |r|
  {
    if r == [] || !less(y, r[|r| - 1]) {
      TiesSnoc(r, y, x, less);
    } else {
      var init := r[..|r| - 1];
      var last := r[|r| - 1];
      assert r == init + [last];
      InsertTies(y, init, x, less);
      TiesSnoc(Insert(y, init, less), last, x, less);
      TiesSnoc(init, last, x, less);
      // `y` comes before `last`, so the two cannot both be tied with `x`.
      assert !(Tied(y, x, less) && Tied(last, x, less));
    }
  }

  /** Stability: for any `x`, the elements tied with `x` come out in their input order. */
  lemma {:induction false} SortStable<T(!new)>(s: seq<T>, x: T, less: (T, T) -> bool)
    requires StrictWeakOrder(less)
    ensures Ties(Sort(s, less), x, less) == Ties(s, x, less)
    decreases |s|
  {
    if s != [] {
      var init := s[..|s| - 1];
      SortStable(init, x, less);
      InsertTies(s[|s| - 1], Sort(init, less), x, less);
    }
  }
}
