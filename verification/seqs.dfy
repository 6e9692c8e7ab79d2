/** Sequence helpers shared by the modules: distinctness and JavaScript's
    `Array.prototype.filter`. */
module Seqs {

  /** No element occurs twice. */
  predicate Distinct<T(==)>(xs: seq<T>) {
    forall i, j :: 0 <= i < j < |xs| ==> xs[i] != xs[j]
  }

  /** `xs.filter(keep)`: the elements that pass, in their original order. */
  function Filter<T(!new)>(xs: seq<T>, keep: T -> bool): (r: seq<T>)
    ensures forall y :: y in r <==> y in xs && keep(y)
    ensures |r| <= |xs|
    decreases |xs|
  {
    if xs == [] then []
    else if keep(xs[0]) then [xs[0]] + Filter(xs[1..], keep)
    else Filter(xs[1..], keep)
  }

  /** Filtering works element by element: filtering a concatenation filters each
      part, so what stays keeps its order and its multiplicity. */
  lemma {:induction false} FilterDistributes<T(!new)>(a: seq<T>, b: seq<T>, keep: T -> bool)
    ensures Filter(a + b, keep) == Filter(a, keep) + Filter(b, keep)
    decreases |a|
  {
    if a == [] {
      assert a + b == b;
    } else {
      assert (a + b)[1..] == a[1..] + b;
      FilterDistributes(a[1..], b, keep);
      if keep(a[0]) {
        assert [a[0]] + (Filter(a[1..], keep) + Filter(b, keep))
          == ([a[0]] + Filter(a[1..], keep)) + Filter(b, keep);
      }
    }
  }

  /** A one-element list is kept or dropped as a whole. */
  lemma FilterSingle<T(!new)>(x: T, keep: T -> bool)
    ensures Filter([x], keep) == if keep(x) then [x] else []
  {
    assert [x][1..] == [];
  }

  /** When every element passes, nothing is dropped; filtering twice is filtering once. */
  lemma {:induction false} FilterKeepsAllAndIdempotent<T(!new)>(xs: seq<T>, keep: T -> bool)
    ensures (forall y :: y in xs ==> keep(y)) ==> Filter(xs, keep) == xs
    ensures Filter(Filter(xs, keep), keep) == Filter(xs, keep)
    decreases |xs|
  {
    if xs != [] {
      FilterKeepsAllAndIdempotent(xs[1..], keep);
      if keep(xs[0]) {
        var rest := Filter(xs[1..], keep);
        assert ([xs[0]] + rest)[1..] == rest;
      }
    }
  }

  /** Filtering a list without duplicates leaves a list without duplicates. */
  lemma {:induction false} FilterKeepsDistinct<T(!new)>(xs: seq<T>, keep: T -> bool)
    requires Distinct(xs)
    ensures Distinct(Filter(xs, keep))
    decreases |xs|
  {
    if xs != [] {
      assert Distinct(xs[1..]) by {
        forall i, j | 0 <= i < j < |xs[1..]| ensures xs[1..][i] != xs[1..][j] {
          assert xs[1..][i] == xs[i + 1] && xs[1..][j] == xs[j + 1];
        }
      }
      FilterKeepsDistinct(xs[1..], keep);
      if keep(xs[0]) {
        var rest := Filter(xs[1..], keep);
        assert xs[0] !in xs[1..] by {
          forall j | 0 <= j < |xs[1..]| ensures xs[1..][j] != xs[0] {
            assert xs[1..][j] == xs[j + 1];
          }
        }
        var r := [xs[0]] + rest;
        forall i, j | 0 <= i < j < |r| ensures r[i] != r[j] {
          if i == 0 {
            assert r[j] == rest[j - 1];
          } else {
            assert r[i] == rest[i - 1] && r[j] == rest[j - 1];
          }
        }
      }
    }
  }

  /** The set of a list's elements. */
  function Elements<T(!new)>(xs: seq<T>): set<T> {
    set x | x in xs
  }

  /** A list has at least as many positions as different elements, and exactly as
      many when it has no duplicates. */
  lemma {:induction false} ElementsSize<T(!new)>(xs: seq<T>)
    ensures |Elements(xs)| <= |xs|
    ensures Distinct(xs) ==> |Elements(xs)| == |xs|
    decreases |xs|
  {
    if xs != [] {
      var n := |xs| - 1;
      var init := xs[..n];
      ElementsSize(init);
      assert Elements(xs) == Elements(init) + {xs[n]} by {
        forall y | y in Elements(xs) ensures y in Elements(init) + {xs[n]} {
          var k :| 0 <= k < |xs| && xs[k] == y;
          if k < n { assert init[k] == y; }
        }
        forall y | y in Elements(init) ensures y in Elements(xs) {
          var k :| 0 <= k < |init| && init[k] == y;
          assert xs[k] == y;
        }
      }
      if Distinct(xs) {
        assert Distinct(init) by {
          forall i, j | 0 <= i < j < |init| ensures init[i] != init[j] {
            assert init[i] == xs[i] && init[j] == xs[j];
          }
        }
        assert xs[n] !in Elements(init) by {
          forall k | 0 <= k < |init| ensures init[k] != xs[n] {
            assert init[k] == xs[k];
          }
        }
      }
    }
  }

  /** A subset has at most as many elements as its superset. */
  lemma {:induction false} SubsetSize<T(!new)>(a: set<T>, b: set<T>)
    requires a <= b
    ensures |a| <= |b|
    decreases |a|
  {
    if a != {} {
      var x :| x in a;
      SubsetSize(a - {x}, b - {x});
    }
  }
}
