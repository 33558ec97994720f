/** Small vocabulary shared by every module. */
module Basics {

  datatype Option<+T> = None | Some(value: T)

  function ToSet<T>(s: seq<T>): set<T> {
    set x | x in s
  }

  ghost predicate Distinct<T>(s: seq<T>) {
    forall i, j :: 0 <= i < j < |s| ==> s[i] != s[j]
  }

  /** The rows of a query, in whatever order the server returns them. */
  ghost predicate Enumerates<T>(rows: seq<T>, s: set<T>) {
    Distinct(rows) && ToSet(rows) == s
  }

  method Fetch<T(==)>(s: set<T>) returns (rows: seq<T>)
    ensures Enumerates(rows, s)
  {
    rows := [];
    var rest := s;
    while rest != {}
      invariant Distinct(rows) && ToSet(rows) + rest == s && ToSet(rows) !! rest
      decreases rest
    {
      var x :| x in rest;
      assert ToSet(rows + [x]) == ToSet(rows) + {x};
      rows := rows + [x];
      rest := rest - {x};
    }
  }

  lemma SubsetSize<T>(a: set<T>, b: set<T>)
    requires a <= b
    ensures |a| <= |b|
  {
    assert b == a + (b - a);
  }

  lemma {:induction false} DistinctLength<T>(rows: seq<T>)
    requires Distinct(rows)
    ensures |ToSet(rows)| == |rows|
  {
    if rows != [] {
      var last := |rows| - 1;
      DistinctLength(rows[..last]);
      assert rows == rows[..last] + [rows[last]];
      assert ToSet(rows) == ToSet(rows[..last]) + {rows[last]};
    }
  }
}
