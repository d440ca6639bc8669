/** The ORM queryset shapes the views use, over a table held as a sequence:
    `filter(...)` keeps the matching rows in table order, and the primary key
    of a row is its position. */
module Queries {

  /** `queryset.filter(keep)`: the rows that match, in table order. */
  function Filter<T(!new)>(s: seq<T>, keep: T -> bool): (r: seq<T>)
    ensures |r| <= |s|
    ensures forall x :: x in r <==> x in s && keep(x)
    ensures forall i :: 0 <= i < |r| ==> keep(r[i])
    decreases |s|
  {
    if s == [] then []
    else
      var init, last := s[..|s| - 1], s[|s| - 1];
      assert s == init + [last];
      Filter(init, keep) + (if keep(last) then [last] else [])
  }

  /** A filter keeps each matching row as many times as it occurs in the
      table, and no other row. */
  lemma {:induction false} FilterMultiset<T(!new)>(s: seq<T>, keep: T -> bool)
    ensures forall x :: multiset(Filter(s, keep))[x] == if keep(x) then multiset(s)[x] else 0
    decreases |s|
  {
    if s != [] {
      var init, last := s[..|s| - 1], s[|s| - 1];
      FilterMultiset(init, keep);
      assert s == init + [last];
    }
  }

  /** `filter(keep)` and `exclude(keep)` split the rows between them. */
  lemma FilterPartition<T(!new)>(s: seq<T>, keep: T -> bool, drop: T -> bool)
    requires forall x :: drop(x) == !keep(x)
    ensures multiset(Filter(s, keep)) + multiset(Filter(s, drop)) == multiset(s)
    ensures |Filter(s, keep)| + |Filter(s, drop)| == |s|
  {
    var k, d := Filter(s, keep), Filter(s, drop);
    FilterMultiset(s, keep);
    FilterMultiset(s, drop);
    assert forall x :: (multiset(k) + multiset(d))[x] == multiset(s)[x];
    assert multiset(k) + multiset(d) == multiset(s);
    assert |multiset(k) + multiset(d)| == |k| + |d|;
  }

  /** The primary keys of the matching rows, in increasing order. */
  function IndicesWhere<T>(s: seq<T>, keep: T -> bool): (r: seq<nat>)
    ensures forall i :: i in r <==> 0 <= i < |s| && keep(s[i])
    ensures forall a, b :: 0 <= a < b < |r| ==> r[a] < r[b]
    ensures forall a :: 0 <= a < |r| ==> r[a] < |s|
    decreases |s|
  {
    if s == [] then []
    else IndicesWhere(s[..|s| - 1], keep) + (if keep(s[|s| - 1]) then [|s| - 1] else [])
  }
}
