/**
 * Ordered traversal of integer-keyed maps. A range-for over a `std::map<int, T>` visits
 * the keys in ascending order; `Ascending(m.Keys)` is that visiting order.
 */
module Keys {

  /** `m` is the least element of `s`. */
  predicate IsMin(s: set<int>, m: int) {
    m in s && forall y :: y in s ==> m <= y
  }

  lemma HasElement(s: set<int>)
    requires s != {}
    ensures exists x :: x in s
  {
    assert (forall x :: x in s <==> x in {}) ==> s == {};
    assert !(forall x :: x !in s);
  }

  /** Every non-empty finite set of integers has a least element. */
  lemma MinExists(s: set<int>)
    requires s != {}
    ensures exists m :: IsMin(s, m)
    decreases |s|
  {
    HasElement(s);
    var x :| x in s;
    if s == {x} {
      assert IsMin(s, x);
    } else {
      var rest := s - {x};
      assert rest != {} by { assert s != {x}; }
      MinExists(rest);
      var m :| IsMin(rest, m);
      if x < m {
        forall y | y in s ensures x <= y { if y != x { assert y in rest; } }
        assert IsMin(s, x);
      } else {
        forall y | y in s ensures m <= y { if y != x { assert y in rest; } }
        assert IsMin(s, m);
      }
    }
  }

  function Min(s: set<int>): (m: int)
    requires s != {}
    ensures IsMin(s, m)
  {
    MinExists(s);
    var m :| IsMin(s, m);
    m
  }

  /** The elements of `s`, each once, in strictly ascending order. */
  function Ascending(s: set<int>): (r: seq<int>)
    ensures forall k :: k in r <==> k in s
    ensures |r| == |s|
    ensures forall i, j :: 0 <= i < j < |r| ==> r[i] < r[j]
    decreases |s|
  {
    if s == {} then []
    else
      var m := Min(s);
      var rest := Ascending(s - {m});
      assert forall j :: 0 <= j < |rest| ==> m < rest[j];
      [m] + rest
  }

  /** No element occurs twice. */
  predicate Distinct<T(==)>(xs: seq<T>) {
    forall i, j :: 0 <= i < j < |xs| ==> xs[i] != xs[j]
  }

  /** A sequence without repetitions is exactly as long as the set of its elements. */
  lemma {:induction false} DistinctCard<T>(xs: seq<T>)
    requires Distinct(xs)
    ensures |set x | x in xs| == |xs|
  {
    if xs != [] {
      var tail := xs[1..];
      assert Distinct(tail) by {
        forall i, j | 0 <= i < j < |tail| ensures tail[i] != tail[j] {
          assert tail[i] == xs[i + 1] && tail[j] == xs[j + 1];
        }
      }
      DistinctCard(tail);
      assert xs[0] !in tail by {
        forall i | 0 <= i < |tail| ensures tail[i] != xs[0] { assert tail[i] == xs[i + 1]; }
      }
      assert (set x | x in xs) == {xs[0]} + (set x | x in tail) by {
        assert xs == [xs[0]] + tail;
      }
    }
  }
}
