/** Sequences sorted by a strict total order, as the keys of an ordered map are. */
module Sorting {

  ghost predicate StrictTotal<T(!new)>(less: (T, T) -> bool) {
    && (forall x :: !less(x, x))
    && (forall x, y :: less(x, y) || less(y, x) || x == y)
    && (forall x, y, z :: less(x, y) && less(y, z) ==> less(x, z))
  }

  ghost predicate Sorted<T>(less: (T, T) -> bool, r: seq<T>) {
    forall i, j :: 0 <= i < j < |r| ==> less(r[i], r[j])
  }

  function Members<T>(s: seq<T>): set<T> {
    set x | x in s
  }

  /** Places a new element into a sorted sequence. */
  method Insert<T(==, !new)>(less: (T, T) -> bool, r: seq<T>, x: T) returns (r': seq<T>)
    requires StrictTotal(less) && Sorted(less, r) && x !in r
    ensures Sorted(less, r') && Members(r') == Members(r) + {x}
  {
    var k := 0;
    while k < |r| && less(r[k], x)
      invariant 0 <= k <= |r|
      invariant forall i :: 0 <= i < k ==> less(r[i], x)
    {
      k := k + 1;
    }
    assert forall j :: k <= j < |r| ==> less(x, r[j]);
    r' := r[..k] + [x] + r[k..];
    assert forall y :: y in r' <==> y in r[..k] || y == x || y in r[k..];
    assert r == r[..k] + r[k..];
  }

  method SortSet<T(==, !new)>(less: (T, T) -> bool, s: set<T>) returns (r: seq<T>)
    requires StrictTotal(less)
    ensures Sorted(less, r) && Members(r) == s
  {
    r := [];
    var todo := s;
    while todo != {}
      invariant todo <= s && Sorted(less, r) && Members(r) == s - todo
      decreases todo
    {
      var x :| x in todo;
      assert x !in Members(r);
      r := Insert(less, r, x);
      todo := todo - {x};
    }
  }

  /** Two sorted sequences with the same members are the same sequence. */
  lemma {:induction false} SortedUnique<T(!new)>(less: (T, T) -> bool, a: seq<T>, b: seq<T>)
    requires StrictTotal(less) && Sorted(less, a) && Sorted(less, b) && Members(a) == Members(b)
    ensures a == b
    decreases |a|
  {
    assert a != [] ==> a[0] in Members(a);
    assert b != [] ==> b[0] in Members(b);
    if a != [] {
      assert a[0] == b[0];
      forall x ensures x in a[1..] <==> x in b[1..] {
        assert x in a <==> x in Members(a);
        assert x in b <==> x in Members(b);
        assert x in a <==> x == a[0] || x in a[1..];
        assert x in b <==> x == b[0] || x in b[1..];
        assert a[0] !in a[1..] && b[0] !in b[1..];
      }
      assert Members(a[1..]) == Members(b[1..]);
      SortedUnique(less, a[1..], b[1..]);
    }
  }
}
