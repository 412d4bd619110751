/** Cursor paging (internal/usecase/record/query.go and the ordered queries of
    internal/infra/repository/postgres/record.go): inclusive bounds, one row peeked past
    the window, and its sort key as the next cursor. */
module Paging {
  import opened Wrappers

  /** A matching row with its sort key in listing direction: for descending listings the
      key counts backwards. */
  datatype Row = Row(key: int, id: nat)

  /** The table in ORDER BY order; rows of one sort key in a fixed order, by document id. */
  ghost predicate Sorted(rows: seq<Row>) {
    forall i, j :: 0 <= i <= j < |rows| ==> rows[i].key <= rows[j].key
  }

  /** The first row at or after the bound. */
  function First(rows: seq<Row>, since: int): (i: nat)
    ensures i <= |rows|
    ensures forall k :: 0 <= k < i ==> rows[k].key < since
    ensures i < |rows| ==> since <= rows[i].key
  {
    if rows == [] || since <= rows[0].key then 0 else 1 + First(rows[1..], since)
  }

  function Start(rows: seq<Row>, since: Option<int>): (i: nat)
    ensures i <= |rows|
  {
    if since.None? then 0 else First(rows, since.value)
  }

  function Min(a: nat, b: nat): nat {
    if a < b then a else b
  }

  /** The query's answer: rows from the inclusive bound on, at most n of them. */
  function Query(rows: seq<Row>, since: Option<int>, n: nat): seq<Row> {
    var i := Start(rows, since);
    rows[i..Min(i + n, |rows|)]
  }

  datatype Page = Page(items: seq<Row>, prev: Option<int>, next: Option<int>)

  function Cursor(row: Row): int {
    row.key
  }

  /** paginateWindow over rows fetched with limit + 1. */
  method PaginateWindow(rows: seq<Row>, limit: nat) returns (page: Page)
    ensures page.items == rows[..Min(limit, |rows|)]
    ensures page.next == if limit < |rows| then Some(Cursor(rows[limit])) else None
    ensures page.prev == if page.items != [] then Some(Cursor(page.items[0])) else None
  {
    var prev: Option<int>, next: Option<int> := None, None;
    var window := rows;
    if |rows| > limit {
      next := Some(Cursor(rows[limit]));
      window := rows[..limit];
    }
    if |window| > 0 {
      prev := Some(Cursor(window[0]));
    }
    var items: seq<Row> := [];
    for i := 0 to |window|
      invariant items == window[..i]
    {
      items := items + [window[i]];
    }
    page := Page(items, prev, next);
  }

  /** One page by its cursor. */
  method Fetch(rows: seq<Row>, since: Option<int>, limit: nat) returns (page: Page)
    ensures page.items == Window(rows, Start(rows, since), limit)
    ensures page.next == NextCursor(rows, Start(rows, since), limit)
  {
    page := PaginateWindow(Query(rows, since, limit + 1), limit);
  }

  function Window(rows: seq<Row>, i: nat, limit: nat): seq<Row>
    requires i <= |rows|
  {
    rows[i..Min(i + limit, |rows|)]
  }

  function NextCursor(rows: seq<Row>, i: nat, limit: nat): Option<int>
    requires i <= |rows|
  {
    if i + limit < |rows| then Some(rows[i + limit].key) else None
  }

  // ---- Progress ----

  /** More than `limit` rows share one sort key, the first of them at i. */
  predicate Crowded(rows: seq<Row>, limit: nat, i: nat) {
    i + limit < |rows| && rows[i + limit].key == rows[i].key
  }

  /** No sort key is shared by more than `limit` rows. */
  ghost predicate Uncrowded(rows: seq<Row>, limit: nat) {
    forall i :: 0 <= i < |rows| ==> !Crowded(rows, limit, i)
  }

  lemma FirstUpTo(rows: seq<Row>, since: int, x: nat)
    requires x < |rows| && since <= rows[x].key
    ensures First(rows, since) <= x
  {
  }

  lemma FirstAfter(rows: seq<Row>, since: int, x: nat)
    requires Sorted(rows) && x < |rows| && rows[x].key < since
    ensures x < First(rows, since)
  {
  }

  /** The next page starts past this one's start and not past its end. */
  lemma NextStart(rows: seq<Row>, limit: nat, i: nat)
    requires Sorted(rows) && i + limit < |rows|
    ensures First(rows, rows[i + limit].key) <= i + limit
    ensures !Crowded(rows, limit, i) ==> i < First(rows, rows[i + limit].key)
  {
    FirstUpTo(rows, rows[i + limit].key, i + limit);
    if !Crowded(rows, limit, i) { FirstAfter(rows, rows[i + limit].key, i); }
  }

  /** Pages of the table, each starting inside or right after the one before. */
  ghost predicate InOrder(rows: seq<Row>, limit: nat, pages: seq<seq<Row>>, starts: seq<nat>) {
    && |starts| == |pages| > 0 && starts[0] == 0
    && (forall k :: 0 <= k < |pages| ==> starts[k] <= |rows| && pages[k] == Window(rows, starts[k], limit))
    && (forall k :: 0 <= k < |pages| - 1 ==> starts[k] < starts[k + 1] <= starts[k] + limit)
  }

  predicate IsIn(pages: seq<seq<Row>>, starts: seq<nat>, k: nat, x: nat) {
    k < |pages| == |starts| && starts[k] <= x < starts[k] + |pages[k]|
  }

  /** Row x is in one of the pages. */
  ghost predicate Comes(pages: seq<seq<Row>>, starts: seq<nat>, x: nat) {
    exists k :: IsIn(pages, starts, k, x)
  }

  lemma OnePageMore(rows: seq<Row>, limit: nat, pages: seq<seq<Row>>, starts: seq<nat>, i: nat)
    requires InOrder(rows, limit, pages, starts) && i <= |rows|
    requires starts[|starts| - 1] < i <= starts[|starts| - 1] + limit
    ensures InOrder(rows, limit, pages + [Window(rows, i, limit)], starts + [i])
  {
  }

  /** Following the cursors from the first page comes to an end, and every row comes at
      least once and in order. */
  method PageThrough(rows: seq<Row>, limit: nat) returns (pages: seq<seq<Row>>, starts: seq<nat>)
    requires Sorted(rows) && Uncrowded(rows, limit)
    ensures InOrder(rows, limit, pages, starts)
    ensures forall x :: 0 <= x < |rows| ==> Comes(pages, starts, x)
  {
    var page := Fetch(rows, None, limit);
    pages, starts := [page.items], [0];
    var i := 0;
    while page.next.Some?
      invariant InOrder(rows, limit, pages, starts) && i == starts[|starts| - 1]
      invariant page.next == NextCursor(rows, i, limit)
      decreases |rows| - i
    {
      NextStart(rows, limit, i);
      var j := First(rows, page.next.value);
      page := Fetch(rows, page.next, limit);
      OnePageMore(rows, limit, pages, starts, j);
      pages, starts, i := pages + [page.items], starts + [j], j;
    }
    forall x | 0 <= x < |rows| ensures Comes(pages, starts, x) {
      var k := Holding(rows, limit, pages, starts, x);
    }
  }

  /** The page that holds row x. */
  lemma Holding(rows: seq<Row>, limit: nat, pages: seq<seq<Row>>, starts: seq<nat>, x: nat) returns (k: nat)
    requires InOrder(rows, limit, pages, starts) && starts[|starts| - 1] + limit >= |rows| && x < |rows|
    ensures IsIn(pages, starts, k, x)
  {
    k := |starts| - 1;
    while x < starts[k]
      invariant k < |starts| && x < starts[k] + limit
    {
      k := k - 1;
    }
  }

  // ---- Distinct keys ----

  ghost predicate DistinctKeys(rows: seq<Row>) {
    forall i, j :: 0 <= i < j < |rows| ==> rows[i].key < rows[j].key
  }

  lemma FirstOfOwnKey(rows: seq<Row>, x: nat)
    requires DistinctKeys(rows) && x < |rows|
    ensures First(rows, rows[x].key) == x
  {
  }

  function Concat(pages: seq<seq<Row>>): seq<Row> {
    if pages == [] then [] else Concat(pages[..|pages| - 1]) + pages[|pages| - 1]
  }

  lemma ConcatMore(pages: seq<seq<Row>>, page: seq<Row>)
    ensures Concat(pages + [page]) == Concat(pages) + page
  {
    assert (pages + [page])[..|pages|] == pages;
  }

  /** In key order each row comes exactly once: the pages put together are the table. */
  method PageThroughKeys(rows: seq<Row>, limit: nat) returns (pages: seq<seq<Row>>)
    requires DistinctKeys(rows) && limit > 0
    ensures Concat(pages) == rows
  {
    var page := Fetch(rows, None, limit);
    pages := [page.items];
    ConcatMore([], page.items);
    ghost var i := 0;
    while page.next.Some?
      invariant i <= |rows| && page.next == NextCursor(rows, i, limit)
      invariant Concat(pages) == rows[..Min(i + limit, |rows|)]
      decreases |rows| - i
    {
      i := i + limit;
      FirstOfOwnKey(rows, i);
      Windows(rows, i, limit);
      page := Fetch(rows, page.next, limit);
      ConcatMore(pages, page.items);
      pages := pages + [page.items];
    }
  }

  lemma Windows(rows: seq<Row>, i: nat, limit: nat)
    requires i <= |rows|
    ensures rows[..i] + Window(rows, i, limit) == rows[..Min(i + limit, |rows|)]
  {
  }

  // ---- The condition is exact ----

  /** Where the page after the one at i starts, if there is one. */
  function NextPage(rows: seq<Row>, limit: nat, i: nat): (r: Option<nat>)
    requires i <= |rows|
    ensures r.Some? ==> r.value <= |rows|
  {
    if i + limit < |rows| then Some(First(rows, rows[i + limit].key)) else None
  }

  /** Where the n-th page starts, as long as there is one. */
  function PageStart(rows: seq<Row>, limit: nat, n: nat): (r: Option<nat>)
    ensures r.Some? ==> r.value <= |rows|
  {
    if n == 0 then Some(0)
    else
      var i := PageStart(rows, limit, n - 1);
      if i.None? then None else NextPage(rows, limit, i.value)
  }

  ghost predicate Ends(rows: seq<Row>, limit: nat) {
    exists n :: PageStart(rows, limit, n).None?
  }

  lemma StopsAtCrowd(rows: seq<Row>, limit: nat, c: nat, i: nat)
    requires Sorted(rows) && c < |rows| && Crowded(rows, limit, c) && i <= c
    ensures NextPage(rows, limit, i).Some? && NextPage(rows, limit, i).value <= c
  {
    assert rows[i + limit].key <= rows[c + limit].key;
    FirstUpTo(rows, rows[i + limit].key, c);
  }

  /** A crowd of rows under one key is never passed. */
  lemma {:induction false} NeverPasses(rows: seq<Row>, limit: nat, c: nat, n: nat)
    requires Sorted(rows) && c < |rows| && Crowded(rows, limit, c)
    ensures PageStart(rows, limit, n).Some? && PageStart(rows, limit, n).value <= c
  {
    if n > 0 {
      NeverPasses(rows, limit, c, n - 1);
      StopsAtCrowd(rows, limit, c, PageStart(rows, limit, n - 1).value);
    }
  }

  lemma {:induction false} Advances(rows: seq<Row>, limit: nat, n: nat)
    requires Sorted(rows) && Uncrowded(rows, limit)
    ensures PageStart(rows, limit, n).Some? ==> n <= PageStart(rows, limit, n).value
  {
    if n > 0 && PageStart(rows, limit, n).Some? {
      Advances(rows, limit, n - 1);
      NextStart(rows, limit, PageStart(rows, limit, n - 1).value);
    }
  }

  /** Following the cursors comes to an end exactly when no sort key is shared by more
      than `limit` rows. */
  lemma EndsIffUncrowded(rows: seq<Row>, limit: nat)
    requires Sorted(rows)
    ensures Ends(rows, limit) <==> Uncrowded(rows, limit)
  {
    if Uncrowded(rows, limit) {
      Advances(rows, limit, |rows| + 1);
      assert PageStart(rows, limit, |rows| + 1).None?;
    } else {
      var c :| 0 <= c < |rows| && Crowded(rows, limit, c);
      forall n: nat ensures PageStart(rows, limit, n).Some? {
        NeverPasses(rows, limit, c, n);
      }
    }
  }
}
