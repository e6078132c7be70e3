/** Ordering a finite set by a strict total order: the meaning of an SQL
    `ORDER BY` over a key that identifies each row. */
module Sorting {

  ghost predicate StrictTotalOn<T>(s: set<T>, less: (T, T) -> bool) {
    && (forall x :: x in s ==> !less(x, x))
    && (forall x, y, z :: x in s && y in s && z in s && less(x, y) && less(y, z) ==> less(x, z))
    && (forall x, y :: x in s && y in s && x != y ==> less(x, y) || less(y, x))
  }

  lemma StrictTotalOnSubset<T>(s: set<T>, t: set<T>, less: (T, T) -> bool)
    requires StrictTotalOn(s, less) && t <= s
    ensures StrictTotalOn(t, less)
  {
  }

  /** `r` lists its elements in strictly increasing order. */
  ghost predicate Increasing<T>(r: seq<T>, less: (T, T) -> bool) {
    forall i, j :: 0 <= i < j < |r| ==> less(r[i], r[j])
  }

  lemma {:induction false} LeastExists<T>(s: set<T>, less: (T, T) -> bool)
    requires s != {} && StrictTotalOn(s, less)
    ensures exists m :: m in s && forall x | x in s && x != m :: less(m, x)
    decreases |s|
  {
    var y :| y in s;
    var rest := s - {y};
    if rest == {} {
      assert s == rest + {y};
      assert s == {y};
    } else {
      StrictTotalOnSubset(s, rest, less);
      LeastExists(rest, less);
      var m :| m in rest && forall x | x in rest && x != m :: less(m, x);
      if less(m, y) {
        forall x | x in s && x != m ensures less(m, x) {
          if x != y {
            assert x in rest;
          }
        }
      } else {
        assert less(y, m);
        forall x | x in s && x != y ensures less(y, x) {
          if x != m {
            assert x in rest && less(m, x);
            assert less(y, m) && less(m, x);
          }
        }
      }
    }
  }

  /** The element that comes first. */
  function Least<T(==)>(s: set<T>, less: (T, T) -> bool): (m: T)
    requires s != {} && StrictTotalOn(s, less)
    ensures m in s && forall x | x in s && x != m :: less(m, x)
  {
    LeastExists(s, less);
    var m :| m in s && forall x | x in s && x != m :: less(m, x);
    m
  }

  /** The elements of `s` listed in order. */
  function SortSet<T(==)>(s: set<T>, less: (T, T) -> bool): (r: seq<T>)
    requires StrictTotalOn(s, less)
    ensures |r| == |s|
    ensures (forall x :: x in r ==> x in s) && (forall x :: x in s ==> x in r)
    ensures Increasing(r, less)
    decreases |s|
  {
    if s == {} then []
    else
      var m := Least(s, less);
      StrictTotalOnSubset(s, s - {m}, less);
      [m] + SortSet(s - {m}, less)
  }
}
