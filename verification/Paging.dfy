/** listApps: a filtered table, newest first, cut into pages by LIMIT and OFFSET. */
module Paging {
  import opened Basics
  import opened Tables
  import opened Binding

  // ---- order and pages ---------------------------------------------------------------------------------

  function Hits(db: DB, f: Filter): set<nat> {
    set id | id in db.apps && Matches(db.apps[id], f)
  }

  predicate Descending(ids: seq<nat>) {
    forall i, j :: 0 <= i < j < |ids| ==> ids[i] > ids[j]
  }

  /** ORDER BY id DESC. */
  method SortDescending(ids: set<nat>) returns (sorted: seq<nat>)
    ensures Descending(sorted) && ToSet(sorted) == ids
  {
    sorted := [];
    var rest := ids;
    while rest != {}
      invariant Descending(sorted) && ToSet(sorted) + rest == ids && ToSet(sorted) !! rest
      invariant forall i, x :: 0 <= i < |sorted| && x in rest ==> sorted[i] > x
      decreases rest
    {
      var top := Max(rest);
      assert ToSet(sorted + [top]) == ToSet(sorted) + {top};
      sorted := sorted + [top];
      rest := rest - {top};
    }
  }

  method Max(s: set<nat>) returns (top: nat)
    requires s != {}
    ensures top in s && forall x :: x in s ==> x <= top
  {
    top :| top in s;
    var rest := s - {top};
    while rest != {}
      invariant rest <= s && top in s
      invariant forall x :: x in s && x !in rest ==> x <= top
      decreases rest
    {
      var x :| x in rest;
      if x > top { top := x; }
      rest := rest - {x};
    }
  }

  /** Descending lists of one set are one list: the order is stable from page to page. */
  lemma {:induction false} DescendingUnique(a: seq<nat>, b: seq<nat>)
    requires Descending(a) && Descending(b) && ToSet(a) == ToSet(b)
    ensures a == b
  {
    assert (a == [] <==> ToSet(a) == {}) && (b == [] <==> ToSet(b) == {}) by { EmptySet(a); EmptySet(b); }
    if a != [] {
      assert a[0] in ToSet(b) && b[0] in ToSet(a);
      var i :| 0 <= i < |b| && b[i] == a[0];
      var j :| 0 <= j < |a| && a[j] == b[0];
      assert a[0] == b[0];
      assert ToSet(a[1..]) == ToSet(a) - {a[0]} by { TailSet(a); }
      assert ToSet(b[1..]) == ToSet(b) - {b[0]} by { TailSet(b); }
      DescendingUnique(a[1..], b[1..]);
      assert a == [a[0]] + a[1..] && b == [b[0]] + b[1..];
    }
  }

  lemma EmptySet(a: seq<nat>)
    ensures a == [] <==> ToSet(a) == {}
  {
    if a != [] { assert a[0] in ToSet(a); }
  }

  lemma TailSet(a: seq<nat>)
    requires a != [] && Descending(a)
    ensures ToSet(a[1..]) == ToSet(a) - {a[0]}
  {
    assert a == [a[0]] + a[1..];
    forall x | x in ToSet(a[1..]) ensures x != a[0] {
      var i :| 0 <= i < |a[1..]| && a[1..][i] == x;
      assert a[0] > a[i + 1];
    }
  }

  const INT32 := 0x8000_0000

  /** int32_t arithmetic of `(page - 1) * page_size`, wrapping. */
  function Offset(page: int, size: int): int {
    Wrap((page - 1) * size)
  }

  function Wrap(x: int): int {
    (x + INT32) % (2 * INT32) - INT32
  }

  /** It is the 32-bit number congruent to the product. */
  lemma OffsetFits(page: int, size: int)
    ensures -0x8000_0000 <= Offset(page, size) < 0x8000_0000
    ensures (Offset(page, size) - (page - 1) * size) % 0x1_0000_0000 == 0
  {
  }

  /** LIMIT size OFFSET offset; a negative offset is an SQL error and yields no rows. */
  function Window(ids: seq<nat>, size: int, offset: int): seq<nat> {
    if offset < 0 || size < 0 || offset >= |ids| then []
    else if offset + size <= |ids| then ids[offset..offset + size] else ids[offset..]
  }

  /** The page a caller means. */
  function Page(ids: seq<nat>, page: int, size: int): seq<nat> {
    Window(ids, size, (page - 1) * size)
  }

  /** The filtered apps, newest id first; by DescendingUnique there is one such list. */
  ghost predicate Filtered(db: DB, f: Filter, all: seq<nat>) {
    Descending(all) && ToSet(all) == Hits(db, f) && |all| == |Hits(db, f)|
  }

  method ListApps(db: DB, page: int, pageSize: int, f: Filter, connected: bool, statements: nat)
    returns (ids: seq<nat>, total: nat)
    ensures total == if connected && statements >= 1 then |Hits(db, f)| else 0
    ensures exists all ::
      Filtered(db, f, all) &&
      ids == if connected && statements >= 2 then Window(all, pageSize, Offset(page, pageSize)) else []
  {
    ids, total := [], 0;
    var clauses, values := BuildWhere(f);
    var hits := set id | id in db.apps && Passes(db.apps[id], clauses, values);
    assert hits == Hits(db, f);
    var sorted := SortDescending(hits);
    DescendingIsDistinct(sorted);
    DistinctLength(sorted);
    assert Filtered(db, f, sorted);
    if !connected || statements < 1 { return; }
    total := |hits|;
    if statements < 2 { return; }
    var offset := Offset(page, pageSize);
    if offset < 0 || pageSize < 0 { return; }
    var i := offset;
    while i < |sorted| && |ids| < pageSize
      invariant offset <= i && |ids| == i - offset <= pageSize
      invariant i <= |sorted| || i == offset
      invariant offset <= |sorted| ==> ids == sorted[offset..i]
    {
      ids := ids + [sorted[i]];
      i := i + 1;
    }
  }

  /** The handler's defaults, then the DAO: within a table of at most 2^31 matches every page is the one meant. */
  method HandleListApps(db: DB, askedPage: int, askedSize: int, f: Filter, connected: bool, statements: nat)
    returns (ids: seq<nat>, total: nat, page: int, pageSize: int)
    ensures page == (if askedPage > 0 then askedPage else 1) && pageSize == if askedSize > 0 then askedSize else 20
    ensures connected && statements >= 2 && |Hits(db, f)| <= INT32 ==>
      total == |Hits(db, f)| &&
      exists all :: Filtered(db, f, all) && (page <= Pages(total, pageSize) ==> ids == Page(all, page, pageSize))
  {
    page := if askedPage > 0 then askedPage else 1;
    pageSize := if askedSize > 0 then askedSize else 20;
    ids, total := ListApps(db, page, pageSize, f, connected, statements);
    if |Hits(db, f)| <= INT32 && page <= Pages(|Hits(db, f)|, pageSize) {
      PagesFit(|Hits(db, f)|, pageSize, page);
    }
  }

  lemma DescendingIsDistinct(ids: seq<nat>)
    requires Descending(ids)
    ensures Distinct(ids)
  {
  }

  // ---- pages partition the result ------------------------------------------------------------------------

  function Pages(total: nat, size: int): nat
    requires size > 0
  {
    (total + size - 1) / size
  }

  function Concat(ids: seq<nat>, pages: nat, size: int): seq<nat> {
    if pages == 0 then [] else Concat(ids, pages - 1, size) + Page(ids, pages, size)
  }

  lemma {:induction false} FirstPages(ids: seq<nat>, pages: nat, size: int)
    requires size > 0 && pages * size < |ids| + size
    ensures Concat(ids, pages, size) == ids[..if pages * size <= |ids| then pages * size else |ids|]
  {
    if pages > 0 {
      var done := (pages - 1) * size;
      assert pages * size == done + size;
      FirstPages(ids, pages - 1, size);
      WindowExtends(ids, size, done);
    }
  }

  lemma WindowExtends(ids: seq<nat>, size: int, done: int)
    requires 0 <= done < |ids| && size > 0
    ensures ids[..done] + Window(ids, size, done) == ids[..if done + size <= |ids| then done + size else |ids|]
  {
  }

  /** Pages 1 to ceil(total / size) are the whole list, each app once, in order. */
  lemma PagesPartition(ids: seq<nat>, size: int)
    requires size > 0 && Descending(ids)
    ensures Concat(ids, Pages(|ids|, size), size) == ids && Distinct(ids)
  {
    var n := Pages(|ids|, size);
    assert |ids| <= n * size < |ids| + size;
    FirstPages(ids, n, size);
    assert ids[..|ids|] == ids;
  }

  /** For a table of at most 2^31 matching rows every one of those pages is computed without overflow. */
  lemma PagesFit(total: nat, size: int, page: int)
    requires size > 0 && total <= INT32 && 1 <= page <= Pages(total, size)
    ensures Offset(page, size) == (page - 1) * size < total
  {
    var n := Pages(total, size);
    assert n * size < total + size;
    assert page * size <= n * size;
    assert (page - 1) * size == page * size - size;
    assert (page - 1) * size >= 0;
    WrapFixes((page - 1) * size);
  }

  /** A page comes back as meant exactly when the product fits, or overflows out of the list again. */
  lemma PageAsMeantIff(ids: seq<nat>, page: int, size: int)
    requires size > 0 && page > 0 && |ids| <= INT32
    ensures Window(ids, size, Offset(page, size)) == Page(ids, page, size)
       <==> (page - 1) * size < INT32 || Offset(page, size) < 0 || Offset(page, size) >= |ids|
  {
    var meant := (page - 1) * size;
    assert meant >= 0;
    WrapFixes(meant);
    EmptyWindow(ids, size, meant);
    EmptyWindow(ids, size, Offset(page, size));
  }

  lemma WrapFixes(x: nat)
    ensures x < INT32 ==> Wrap(x) == x
  {
  }

  lemma EmptyWindow(ids: seq<nat>, size: int, offset: int)
    requires size > 0
    ensures Window(ids, size, offset) == [] <==> offset < 0 || offset >= |ids|
  {
  }
}
