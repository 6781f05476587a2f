/**
 * A stable sort by a natural-number rank: sorted by rank, a permutation, and every rank's
 * elements in their original order. Such a result is unique, so any stable sort by the
 * same ranks (JavaScript's `Array.prototype.sort` with a consistent comparator among them)
 * gives what `Sort` gives.
 */
module StableSort {

  predicate SortedByRank<T>(rank: T -> nat, xs: seq<T>) {
    forall i, j :: 0 <= i < j < |xs| ==> rank(xs[i]) <= rank(xs[j])
  }

  /** The elements of rank `n`, in their order in `xs`. Equal ranks keeping their order is what stability means. */
  function WithRank<T>(rank: T -> nat, xs: seq<T>, n: nat): seq<T>
    decreases |xs|
  {
    if xs == [] then []
    else WithRank(rank, xs[..|xs| - 1], n) + (if rank(xs[|xs| - 1]) == n then [xs[|xs| - 1]] else [])
  }

  /** Some element has rank `n` exactly when the elements of rank `n` are not none. */
  lemma {:induction false} WithRankNonEmpty<T>(rank: T -> nat, xs: seq<T>, n: nat)
    ensures WithRank(rank, xs, n) != [] <==> exists i :: 0 <= i < |xs| && rank(xs[i]) == n
    decreases |xs|
  {
    if xs != [] {
      var init := xs[..|xs| - 1];
      WithRankNonEmpty(rank, init, n);
      if i :| 0 <= i < |init| && rank(init[i]) == n {
        assert xs[i] == init[i];
      }
      if i :| 0 <= i < |xs| && rank(xs[i]) == n {
        if i < |init| {
          assert init[i] == xs[i];
        }
      }
    }
  }

  /** Appending one element adds it to the elements of its own rank only. */
  lemma WithRankSnoc<T>(rank: T -> nat, xs: seq<T>, y: T, n: nat)
    ensures WithRank(rank, xs + [y], n) == WithRank(rank, xs, n) + (if rank(y) == n then [y] else [])
  {
    assert (xs + [y])[..|xs|] == xs;
  }

  /** Inserting `x` into a sorted sequence after every element of rank at most its own. */
  function Insert<T>(rank: T -> nat, x: T, s: seq<T>): (r: seq<T>)
    ensures multiset(r) == multiset(s) + multiset{x}
    decreases |s|
  {
    if s == [] then [x]
    else
      var last := s[|s| - 1];
      var init := s[..|s| - 1];
      assert s == init + [last];
      if rank(last) <= rank(x) then s + [x]
      else Insert(rank, x, init) + [last]
  }

  /** No element ranks above `b`. */
  predicate Bounded<T>(rank: T -> nat, s: seq<T>, b: nat) {
    forall i :: 0 <= i < |s| ==> rank(s[i]) <= b
  }

  /** Appending an element that ranks at least every element keeps the sequence sorted. */
  lemma SnocSorted<T>(rank: T -> nat, s: seq<T>, y: T)
    requires SortedByRank(rank, s) && Bounded(rank, s, rank(y))
    ensures SortedByRank(rank, s + [y])
  {
    var r := s + [y];
    forall i, j | 0 <= i < j < |r| ensures rank(r[i]) <= rank(r[j]) {
      assert r[i] == s[i];
      if j < |s| {
        assert r[j] == s[j];
      }
    }
  }

  /** A sorted sequence is bounded by the rank of its last element. */
  lemma SortedBoundedByLast<T>(rank: T -> nat, s: seq<T>)
    requires s != [] && SortedByRank(rank, s)
    ensures Bounded(rank, s[..|s| - 1], rank(s[|s| - 1]))
    ensures SortedByRank(rank, s[..|s| - 1])
  {
    var init := s[..|s| - 1];
    assert forall i :: 0 <= i < |init| ==> init[i] == s[i];
  }

  /** Inserting an element within a bound keeps the sequence within it. */
  lemma {:induction false} InsertBounded<T>(rank: T -> nat, x: T, s: seq<T>, b: nat)
    requires Bounded(rank, s, b) && rank(x) <= b
    ensures Bounded(rank, Insert(rank, x, s), b)
    decreases |s|
  {
    if s != [] {
      var last := s[|s| - 1];
      var init := s[..|s| - 1];
      if rank(last) <= rank(x) {
        var r := s + [x];
        assert forall i :: 0 <= i < |s| ==> r[i] == s[i];
      } else {
        assert Bounded(rank, init, b) by {
          assert forall i :: 0 <= i < |init| ==> init[i] == s[i];
        }
        InsertBounded(rank, x, init, b);
        var mid := Insert(rank, x, init);
        var r := mid + [last];
        assert forall i :: 0 <= i < |mid| ==> r[i] == mid[i];
      }
    }
  }

  /** Insertion keeps the sequence sorted. */
  lemma {:induction false} InsertSorted<T>(rank: T -> nat, x: T, s: seq<T>)
    requires SortedByRank(rank, s)
    ensures SortedByRank(rank, Insert(rank, x, s))
    decreases |s|
  {
    if s != [] {
      var last := s[|s| - 1];
      var init := s[..|s| - 1];
      SortedBoundedByLast(rank, s);
      if rank(last) <= rank(x) {
        assert Bounded(rank, s, rank(x)) by {
          assert s == init + [last];
          assert forall i :: 0 <= i < |init| ==> s[i] == init[i];
        }
        SnocSorted(rank, s, x);
      } else {
        InsertSorted(rank, x, init);
        InsertBounded(rank, x, init, rank(last));
        SnocSorted(rank, Insert(rank, x, init), last);
      }
    }
  }

  /** Insertion puts `x` last among the elements of its rank and leaves the other ranks alone. */
  lemma {:induction false} InsertStable<T>(rank: T -> nat, x: T, s: seq<T>, n: nat)
    ensures WithRank(rank, Insert(rank, x, s), n) == WithRank(rank, s, n) + (if rank(x) == n then [x] else [])
    decreases |s|
  {
    if s == [] {
      WithRankSnoc(rank, [], x, n);
      assert [] + [x] == [x];
    } else {
      var last := s[|s| - 1];
      var init := s[..|s| - 1];
      assert s == init + [last];
      if rank(last) <= rank(x) {
        WithRankSnoc(rank, s, x, n);
      } else {
        InsertStable(rank, x, init, n);
        WithRankSnoc(rank, Insert(rank, x, init), last, n);
        WithRankSnoc(rank, init, last, n);
      }
    }
  }

  /** The stable sort of the elements by rank. */
  function Sort<T>(rank: T -> nat, xs: seq<T>): (r: seq<T>)
    ensures SortedByRank(rank, r)
    ensures multiset(r) == multiset(xs)
    decreases |xs|
  {
    if xs == [] then []
    else
      var init := xs[..|xs| - 1];
      assert xs == init + [xs[|xs| - 1]];
      InsertSorted(rank, xs[|xs| - 1], Sort(rank, init));
      Insert(rank, xs[|xs| - 1], Sort(rank, init))
  }

  /** The sort is stable: the elements of each rank keep their relative order. */
  lemma {:induction false} SortStable<T>(rank: T -> nat, xs: seq<T>, n: nat)
    ensures WithRank(rank, Sort(rank, xs), n) == WithRank(rank, xs, n)
    decreases |xs|
  {
    if xs != [] {
      var init := xs[..|xs| - 1];
      assert xs == init + [xs[|xs| - 1]];
      SortStable(rank, init, n);
      InsertStable(rank, xs[|xs| - 1], Sort(rank, init), n);
      WithRankSnoc(rank, init, xs[|xs| - 1], n);
    }
  }

  /** Two sequences sorted by rank that hold the same elements of every rank, in the same
      order, are equal: a stable sort has exactly one possible result. */
  lemma {:induction false} StableSortIsUnique<T>(rank: T -> nat, a: seq<T>, b: seq<T>)
    requires SortedByRank(rank, a) && SortedByRank(rank, b)
    requires forall n: nat :: WithRank(rank, a, n) == WithRank(rank, b, n)
    ensures a == b
    decreases |a| + |b|
  {
    if a == [] {
      if b != [] {
        var n := rank(b[0]);
        WithRankNonEmpty(rank, b, n);
        WithRankNonEmpty(rank, a, n);
      }
    } else if b == [] {
      var n := rank(a[0]);
      WithRankNonEmpty(rank, a, n);
      WithRankNonEmpty(rank, b, n);
    } else {
      var la, lb := a[|a| - 1], b[|b| - 1];
      var ia, ib := a[..|a| - 1], b[..|b| - 1];
      assert a == ia + [la] && b == ib + [lb];
      var ma, mb := rank(la), rank(lb);
      SameTopRank(rank, a, b);
      assert ma == mb;
      WithRankSnoc(rank, ia, la, ma);
      WithRankSnoc(rank, ib, lb, ma);
      var wa, wb := WithRank(rank, ia, ma), WithRank(rank, ib, ma);
      assert wa + [la] == wb + [lb];
      assert (wa + [la])[|wa|] == la && (wb + [lb])[|wb|] == lb;
      assert la == lb;
      assert wa == (wa + [la])[..|wa|] && wb == (wb + [lb])[..|wb|];
      forall n: nat
        ensures WithRank(rank, ia, n) == WithRank(rank, ib, n)
      {
        WithRankSnoc(rank, ia, la, n);
        WithRankSnoc(rank, ib, lb, n);
      }
      assert SortedByRank(rank, ia) by {
        assert forall i :: 0 <= i < |ia| ==> ia[i] == a[i];
      }
      assert SortedByRank(rank, ib) by {
        assert forall i :: 0 <= i < |ib| ==> ib[i] == b[i];
      }
      StableSortIsUnique(rank, ia, ib);
    }
  }

  /** Two sorted sequences with the same elements of every rank end with elements of the same rank. */
  lemma SameTopRank<T>(rank: T -> nat, a: seq<T>, b: seq<T>)
    requires a != [] && b != []
    requires SortedByRank(rank, a) && SortedByRank(rank, b)
    requires forall n: nat :: WithRank(rank, a, n) == WithRank(rank, b, n)
    ensures rank(a[|a| - 1]) == rank(b[|b| - 1])
  {
    TopRankBelow(rank, a, b);
    TopRankBelow(rank, b, a);
  }

  /** The last rank of `a` occurs in `b`, so it is at most the last rank of the sorted `b`. */
  lemma TopRankBelow<T>(rank: T -> nat, a: seq<T>, b: seq<T>)
    requires a != [] && b != []
    requires SortedByRank(rank, b)
    requires forall n: nat :: WithRank(rank, a, n) == WithRank(rank, b, n)
    ensures rank(a[|a| - 1]) <= rank(b[|b| - 1])
  {
    var m := rank(a[|a| - 1]);
    WithRankNonEmpty(rank, a, m);
    assert WithRank(rank, a, m) != [];
    assert WithRank(rank, b, m) != [];
    WithRankNonEmpty(rank, b, m);
    var j :| 0 <= j < |b| && rank(b[j]) == m;
    assert j == |b| - 1 || rank(b[j]) <= rank(b[|b| - 1]);
  }

  /** Any stable sort by the ranks gives what `Sort` gives. */
  lemma AnyStableSortIsSort<T>(rank: T -> nat, xs: seq<T>, ys: seq<T>)
    requires SortedByRank(rank, ys)
    requires forall n: nat :: WithRank(rank, ys, n) == WithRank(rank, xs, n)
    ensures ys == Sort(rank, xs)
  {
    forall n: nat ensures WithRank(rank, ys, n) == WithRank(rank, Sort(rank, xs), n) {
      SortStable(rank, xs, n);
    }
    StableSortIsUnique(rank, ys, Sort(rank, xs));
  }
}
