/** The home server's iterator and body queries over its key table
    (internal/infra/repository/postgres/chunkline.go), and the proof that any way the
    database may order equal timestamps honours the contract readers rely on. */
module ChunklineServer {
  import opened Wrappers
  import opened Chunkline
  import Merge
  import MergeCost

  // A child key of the timeline that holds a record: its record_created_at and the
  // href a reader sees (the redirect of a reference, the key itself otherwise).
  datatype Row = Row(uri: string, createdAt: nat, href: Id)

  const CHUNK_SIZE: nat := 600
  const DEFAULT_CHUNK_SIZE: nat := 32

  function Before(rows: set<Row>, t: int): set<Row> {
    set r | r in rows && r.createdAt < t
  }

  function Between(rows: set<Row>, lo: int, hi: int): set<Row> {
    set r | r in rows && lo <= r.createdAt < hi
  }

  /** `out` is a possible answer of SELECT … ORDER BY record_created_at DESC: all of
      `rows`, newest first, equal timestamps in any order. */
  ghost predicate Ordered(rows: set<Row>, out: seq<Row>) {
    && (forall r :: r in out <==> r in rows)
    && (forall j, k :: 0 <= j < k < |out| ==> out[j].createdAt >= out[k].createdAt)
    && (forall j, k :: 0 <= j < k < |out| ==> out[j] != out[k])
  }

  /** The same query under LIMIT n. */
  ghost predicate OrderedLimit(rows: set<Row>, n: nat, out: seq<Row>) {
    exists all: seq<Row> :: Ordered(rows, all) && out == all[..if |all| < n then |all| else n]
  }

  function ToItem(r: Row): Item {
    Item(r.createdAt, r.href)
  }

  function ToItems(rows: seq<Row>): (items: seq<Item>)
    ensures |items| == |rows|
    ensures forall k :: 0 <= k < |rows| ==> items[k] == ToItem(rows[k])
  {
    seq(|rows|, k requires 0 <= k < |rows| => ToItem(rows[k]))
  }

  function Contents(rows: set<Row>): set<Item> {
    set r | r in rows :: ToItem(r)
  }

  /** LookupLocalItrs for one timeline, given the answer of its sub-query. */
  function LookupLocalItr(newest: seq<Row>): Option<nat> {
    if newest == [] then None else Some(Time2Chunk(CHUNK_SIZE, newest[0].createdAt))
  }

  /** LoadLocalBody, given the answers of its two queries. */
  function LoadLocalBody(c: nat, members: seq<Row>, window: seq<Row>): seq<Item> {
    if members == [] || Chunk2Time(CHUNK_SIZE, c - 1) <= members[|members| - 1].createdAt
    then ToItems(window)
    else ToItems(members)
  }

  // ---- The iterator contract ----

  lemma LookupHonoursContract(rows: set<Row>, q: nat, newest: seq<Row>, s: Source)
    requires s.size == CHUNK_SIZE && s.items == Contents(rows)
    requires OrderedLimit(Before(rows, Chunk2Time(CHUNK_SIZE, q + 1)), 1, newest)
    requires s.lookup(q) == LookupLocalItr(newest)
    ensures LookupContract(s, q)
    ensures s.lookup(q).None? ==> forall i :: i in s.items ==> q < Time2Chunk(s.size, i.ts)
  {
    var inRange := Before(rows, Chunk2Time(CHUNK_SIZE, q + 1));
    var all: seq<Row> :| Ordered(inRange, all) && newest == all[..if |all| < 1 then |all| else 1];
    forall i | i in s.items && Time2Chunk(s.size, i.ts) <= q
      ensures newest != [] && Time2Chunk(s.size, i.ts) <= Time2Chunk(s.size, newest[0].createdAt)
    {
      var r :| r in rows && ToItem(r) == i;
      ChunkSpan(CHUNK_SIZE, i.ts, q + 1);
      assert r in all;
      var k :| 0 <= k < |all| && all[k] == r;
      ChunkMonotone(CHUNK_SIZE, i.ts, all[0].createdAt);
    }
    if newest != [] {
      assert newest[0] in all;
      ChunkSpan(CHUNK_SIZE, newest[0].createdAt, q + 1);
      assert ToItem(newest[0]) in s.items;
    }
  }

  // ---- The body contract ----

  /** An ordered cut of the rows before `hi` that reaches below `lo` holds everything
      from `lo` on, and everything newer than anything it holds. */
  lemma CutCovers(rows: set<Row>, hi: int, n: nat, out: seq<Row>, r: Row, b: Row)
    requires OrderedLimit(Before(rows, hi), n, out)
    requires r in rows && r.createdAt < hi
    requires b in out && b.createdAt < r.createdAt
    ensures r in out
  {
    var all: seq<Row> :| Ordered(Before(rows, hi), all) && out == all[..if |all| < n then |all| else n];
    var k :| 0 <= k < |out| && out[k] == b;
    assert r in all;
    var j :| 0 <= j < |all| && all[j] == r;
    assert all[k] == b;
    assert j < k;
    assert out[j] == r;
  }

  lemma CutSound(rows: set<Row>, hi: int, n: nat, out: seq<Row>)
    requires OrderedLimit(Before(rows, hi), n, out)
    ensures Descending(ToItems(out))
    ensures forall r :: r in out ==> r in rows && r.createdAt < hi
    ensures |out| <= n
    ensures forall j, k :: 0 <= j < k < |out| ==> out[j] != out[k] && out[j].createdAt >= out[k].createdAt
    ensures |out| < n ==> forall r :: r in Before(rows, hi) ==> r in out
  {
    var all: seq<Row> :| Ordered(Before(rows, hi), all) && out == all[..if |all| < n then |all| else n];
    forall r | r in out ensures r in all { }
  }

  /** Either query alone, or the choice LoadLocalBody makes between them, is a
      gap-free newest-first body holding all of chunks c and c-1. */
  lemma BodyHonoursContract(rows: set<Row>, c: nat, members: seq<Row>, window: seq<Row>, s: Source)
    requires s.size == CHUNK_SIZE && s.items == Contents(rows)
    requires OrderedLimit(Before(rows, Chunk2Time(CHUNK_SIZE, c + 1)), DEFAULT_CHUNK_SIZE, members)
    requires Ordered(Between(rows, Chunk2Time(CHUNK_SIZE, c - 1), Chunk2Time(CHUNK_SIZE, c + 1)), window)
    requires s.body(c) == LoadLocalBody(c, members, window)
    ensures BodyContract(s, c)
  {
    BodySound(rows, c, members, window);
    forall i | i in s.items && Time2Chunk(s.size, i.ts) <= c
        && (c <= Time2Chunk(s.size, i.ts) + 1 || exists b :: b in s.body(c) && b.ts < i.ts)
      ensures i in s.body(c)
    {
      var r :| r in rows && ToItem(r) == i;
      ChunkSpan(CHUNK_SIZE, i.ts, c + 1);
      ChunkSpan(CHUNK_SIZE, i.ts, c - 1);
      RowInBody(rows, c, members, window, r);
    }
  }

  function Chosen(c: nat, members: seq<Row>, window: seq<Row>): (r: seq<Row>)
    ensures ToItems(r) == LoadLocalBody(c, members, window)
  {
    if members == [] || Chunk2Time(CHUNK_SIZE, c - 1) <= members[|members| - 1].createdAt then window else members
  }

  lemma BodySound(rows: set<Row>, c: nat, members: seq<Row>, window: seq<Row>)
    requires OrderedLimit(Before(rows, Chunk2Time(CHUNK_SIZE, c + 1)), DEFAULT_CHUNK_SIZE, members)
    requires Ordered(Between(rows, Chunk2Time(CHUNK_SIZE, c - 1), Chunk2Time(CHUNK_SIZE, c + 1)), window)
    ensures Descending(LoadLocalBody(c, members, window))
    ensures forall i :: i in LoadLocalBody(c, members, window) ==> i in Contents(rows) && Time2Chunk(CHUNK_SIZE, i.ts) <= c
  {
    CutSound(rows, Chunk2Time(CHUNK_SIZE, c + 1), DEFAULT_CHUNK_SIZE, members);
    var chosen := Chosen(c, members, window);
    forall i | i in LoadLocalBody(c, members, window)
      ensures i in Contents(rows) && Time2Chunk(CHUNK_SIZE, i.ts) <= c
    {
      var k :| 0 <= k < |chosen| && ToItem(chosen[k]) == i;
      assert chosen[k] in chosen;
      ChunkSpan(CHUNK_SIZE, i.ts, c + 1);
    }
  }

  lemma RowInBody(rows: set<Row>, c: nat, members: seq<Row>, window: seq<Row>, r: Row)
    requires OrderedLimit(Before(rows, Chunk2Time(CHUNK_SIZE, c + 1)), DEFAULT_CHUNK_SIZE, members)
    requires Ordered(Between(rows, Chunk2Time(CHUNK_SIZE, c - 1), Chunk2Time(CHUNK_SIZE, c + 1)), window)
    requires r in rows && r.createdAt < Chunk2Time(CHUNK_SIZE, c + 1)
    requires Chunk2Time(CHUNK_SIZE, c - 1) <= r.createdAt || exists b :: b in LoadLocalBody(c, members, window) && b.ts < r.createdAt
    ensures ToItem(r) in LoadLocalBody(c, members, window)
  {
    var lo, hi := Chunk2Time(CHUNK_SIZE, c - 1), Chunk2Time(CHUNK_SIZE, c + 1);
    if members == [] || lo <= members[|members| - 1].createdAt {
      forall k | 0 <= k < |window|
        ensures lo <= window[k].createdAt
      {
        assert window[k] in window;
      }
      assert forall b :: b in ToItems(window) ==> lo <= b.ts;
    } else {
      if lo <= r.createdAt {
        CutCovers(rows, hi, DEFAULT_CHUNK_SIZE, members, r, members[|members| - 1]);
      } else {
        var b :| b in LoadLocalBody(c, members, window) && b.ts < r.createdAt;
        var k :| 0 <= k < |members| && ToItem(members[k]) == b;
        CutCovers(rows, hi, DEFAULT_CHUNK_SIZE, members, r, members[k]);
      }
    }
    var chosen := Chosen(c, members, window);
    assert r in chosen;
    var k :| 0 <= k < |chosen| && chosen[k] == r;
    assert ToItems(chosen)[k] == ToItem(r);
  }

  // ---- When a timeline is dropped ----

  function Distincts(out: seq<Row>): set<Row> {
    set r | r in out
  }

  lemma DistinctCount(out: seq<Row>)
    requires forall j, k :: 0 <= j < k < |out| ==> out[j] != out[k]
    ensures |Distincts(out)| == |out|
  {
    if out != [] {
      var front, last := out[..|out| - 1], out[|out| - 1];
      DistinctCount(front);
      assert last !in front;
      assert Distincts(out) == Distincts(front) + {last};
    }
  }

  lemma SubsetCount(a: set<Row>, b: set<Row>)
    requires a <= b
    ensures |a| <= |b|
  {
    assert b == a + (b - a);
  }

  /** The two chunks up to c hold at least 32 rows, and none before the bound. */
  predicate Flooded(rows: set<Row>, c: nat, until: nat) {
    && |Between(rows, Chunk2Time(CHUNK_SIZE, c - 1), Chunk2Time(CHUNK_SIZE, c + 1))| >= DEFAULT_CHUNK_SIZE
    && forall r :: r in rows && Chunk2Time(CHUNK_SIZE, c - 1) <= r.createdAt ==> until <= r.createdAt
  }

  /** A body of a timeline that still has something to offer lies wholly at or after the
      bound exactly when its two newest chunks hold at least 32 rows, all at or after the bound. */
  lemma DroppedExactly(rows: set<Row>, c: nat, until: nat, members: seq<Row>, window: seq<Row>)
    requires OrderedLimit(Before(rows, Chunk2Time(CHUNK_SIZE, c + 1)), DEFAULT_CHUNK_SIZE, members)
    requires Ordered(Between(rows, Chunk2Time(CHUNK_SIZE, c - 1), Chunk2Time(CHUNK_SIZE, c + 1)), window)
    // the iterator answered c for the chunk of the bound
    requires c <= Time2Chunk(CHUNK_SIZE, until)
    requires forall r :: r in rows && r.createdAt < until ==> Time2Chunk(CHUNK_SIZE, r.createdAt) <= c
    requires exists r :: r in rows && r.createdAt < until
    ensures
      (forall i :: i in LoadLocalBody(c, members, window) ==> until <= i.ts) <==> Flooded(rows, c, until)
  {
    var lo, hi := Chunk2Time(CHUNK_SIZE, c - 1), Chunk2Time(CHUNK_SIZE, c + 1);
    var span := Between(rows, lo, hi);
    ChunkSpan(CHUNK_SIZE, until, c - 1);
    forall r | r in rows && r.createdAt < until
      ensures r.createdAt < hi
    {
      ChunkSpan(CHUNK_SIZE, r.createdAt, c + 1);
    }
    CutSound(rows, hi, DEFAULT_CHUNK_SIZE, members);
    DistinctCount(members);
    if members == [] || lo <= members[|members| - 1].createdAt {
      WindowChosen(rows, lo, hi, until, members, window);
    } else {
      MembersChosen(rows, lo, hi, members);
      var last := members[|members| - 1];
      assert ToItems(members)[|members| - 1] == ToItem(last);
      assert ToItem(last) in LoadLocalBody(c, members, window);
    }
  }

  /** The limited query reached below the window: the window holds fewer than 32 rows. */
  lemma MembersChosen(rows: set<Row>, lo: int, hi: int, members: seq<Row>)
    requires OrderedLimit(Before(rows, hi), DEFAULT_CHUNK_SIZE, members)
    requires members != [] && members[|members| - 1].createdAt < lo
    ensures |Between(rows, lo, hi)| < DEFAULT_CHUNK_SIZE
  {
    var last := members[|members| - 1];
    CutSound(rows, hi, DEFAULT_CHUNK_SIZE, members);
    DistinctCount(members);
    forall r | r in Between(rows, lo, hi)
      ensures r in members && r != last
    {
      CutCovers(rows, hi, DEFAULT_CHUNK_SIZE, members, r, last);
    }
    SubsetCount(Between(rows, lo, hi), Distincts(members) - {last});
    assert last in Distincts(members);
  }

  lemma WindowChosen(rows: set<Row>, lo: int, hi: int, until: nat, members: seq<Row>, window: seq<Row>)
    requires OrderedLimit(Before(rows, hi), DEFAULT_CHUNK_SIZE, members)
    requires Ordered(Between(rows, lo, hi), window)
    requires members == [] || lo <= members[|members| - 1].createdAt
    requires forall r :: r in rows && r.createdAt < until ==> r.createdAt < hi
    requires exists r :: r in rows && r.createdAt < until
    ensures
      (forall i :: i in ToItems(window) ==> until <= i.ts) <==>
      (&& |Between(rows, lo, hi)| >= DEFAULT_CHUNK_SIZE
       && forall r :: r in rows && lo <= r.createdAt ==> until <= r.createdAt)
  {
    CutSound(rows, hi, DEFAULT_CHUNK_SIZE, members);
    forall r | r in rows && lo <= r.createdAt < until
      ensures ToItem(r) in ToItems(window)
    {
      assert r in window;
      var k :| 0 <= k < |window| && window[k] == r;
      assert ToItems(window)[k] == ToItem(r);
    }
    forall i | i in ToItems(window)
      ensures exists r :: r in Between(rows, lo, hi) && ToItem(r) == i
    {
      var k :| 0 <= k < |window| && ToItem(window[k]) == i;
      assert window[k] in window;
    }
    if forall r :: r in rows && lo <= r.createdAt ==> until <= r.createdAt {
      FullWindow(rows, lo, hi, until, members);
    }
  }

  lemma FullWindow(rows: set<Row>, lo: int, hi: int, until: nat, members: seq<Row>)
    requires OrderedLimit(Before(rows, hi), DEFAULT_CHUNK_SIZE, members)
    requires members == [] || lo <= members[|members| - 1].createdAt
    requires forall r :: r in rows && lo <= r.createdAt ==> until <= r.createdAt
    requires forall r :: r in rows && r.createdAt < until ==> r.createdAt < hi
    requires exists r :: r in rows && r.createdAt < until
    ensures |Between(rows, lo, hi)| >= DEFAULT_CHUNK_SIZE
  {
    CutSound(rows, hi, DEFAULT_CHUNK_SIZE, members);
    DistinctCount(members);
    assert Distincts(members) <= Between(rows, lo, hi) by {
      forall k | 0 <= k < |members|
        ensures members[k] in Between(rows, lo, hi)
      {
        assert members[k] in members;
        assert members[|members| - 1].createdAt <= members[k].createdAt;
      }
    }
    SubsetCount(Distincts(members), Between(rows, lo, hi));
    var r :| r in rows && r.createdAt < until;
    assert r in Before(rows, hi) && r !in Between(rows, lo, hi);
    assert r in members ==> r in Distincts(members);
  }

  // ---- The server as a source ----

  ghost predicate IteratorAnswer(rows: set<Row>, q: nat, newest: seq<Row>) {
    OrderedLimit(Before(rows, Chunk2Time(CHUNK_SIZE, q + 1)), 1, newest)
  }

  ghost predicate BodyAnswer(rows: set<Row>, c: nat, members: seq<Row>, window: seq<Row>) {
    && OrderedLimit(Before(rows, Chunk2Time(CHUNK_SIZE, c + 1)), DEFAULT_CHUNK_SIZE, members)
    && Ordered(Between(rows, Chunk2Time(CHUNK_SIZE, c - 1), Chunk2Time(CHUNK_SIZE, c + 1)), window)
  }

  ghost predicate AnswersIterator(rows: set<Row>, s: Source, q: nat) {
    exists newest :: IteratorAnswer(rows, q, newest) && s.lookup(q) == LookupLocalItr(newest)
  }

  ghost predicate AnswersBody(rows: set<Row>, s: Source, c: nat) {
    exists members, window :: BodyAnswer(rows, c, members, window) && s.body(c) == LoadLocalBody(c, members, window)
  }

  /** s answers every request the way this server does, over the key rows `rows`. */
  ghost predicate Serves(rows: set<Row>, s: Source) {
    && s.size == CHUNK_SIZE
    && s.items == Contents(rows)
    && (s.firstChunk.Some? ==> forall r :: r in rows ==> s.firstChunk.value <= Time2Chunk(CHUNK_SIZE, r.createdAt))
    && (forall q: nat :: AnswersIterator(rows, s, q))
    && (forall c: nat :: AnswersBody(rows, s, c))
  }

  /** Whatever the database does with equal timestamps, a served timeline meets the
      reader's contract and never hides an item behind a failed lookup. */
  lemma ServedTimelineIsValid(rows: set<Row>, s: Source)
    requires Serves(rows, s)
    requires forall r :: r in rows ==> r.createdAt >= CHUNK_SIZE * NANOS
    ensures ValidSource(s)
    ensures Reliable(s)
  {
    forall i | i in s.items
      ensures Time2Chunk(s.size, i.ts) >= 1
    {
      ChunkSpan(CHUNK_SIZE, i.ts, 1);
    }
    forall q: nat
      ensures LookupContract(s, q)
      ensures s.lookup(q).None? ==> forall i :: i in s.items ==> q < Time2Chunk(s.size, i.ts)
    {
      assert AnswersIterator(rows, s, q);
      var newest :| IteratorAnswer(rows, q, newest) && s.lookup(q) == LookupLocalItr(newest);
      LookupHonoursContract(rows, q, newest, s);
    }
    forall c: nat
      ensures BodyContract(s, c)
    {
      assert AnswersBody(rows, s, c);
      var members, window :| BodyAnswer(rows, c, members, window) && s.body(c) == LoadLocalBody(c, members, window);
      BodyHonoursContract(rows, c, members, window, s);
    }
  }

  lemma ChosenOnce(rows: set<Row>, c: nat, members: seq<Row>, window: seq<Row>)
    requires BodyAnswer(rows, c, members, window)
    requires forall r, x :: r in rows && x in rows && ToItem(r) == ToItem(x) ==> r == x
    ensures MergeCost.Once(LoadLocalBody(c, members, window))
  {
    CutSound(rows, Chunk2Time(CHUNK_SIZE, c + 1), DEFAULT_CHUNK_SIZE, members);
    var chosen := Chosen(c, members, window);
    forall j, k | 0 <= j < k < |chosen| ensures ToItem(chosen[j]) != ToItem(chosen[k]) {
      assert chosen[j] in chosen && chosen[k] in chosen;
    }
  }

  /** Where no two keys of a timeline share instant and href, no body lists an item twice. */
  lemma ServedListsOnce(rows: set<Row>, s: Source)
    requires Serves(rows, s)
    requires forall r, x :: r in rows && x in rows && ToItem(r) == ToItem(x) ==> r == x
    ensures MergeCost.ListsOnce(s)
  {
    forall c: nat ensures MergeCost.Once(s.body(c)) {
      assert AnswersBody(rows, s, c);
      var members, window :| BodyAnswer(rows, c, members, window) && s.body(c) == LoadLocalBody(c, members, window);
      ChosenOnce(rows, c, members, window);
    }
  }

  // ---- The reader's drop, on the server's rows ----

  lemma FoundChunk(rows: set<Row>, s: Source, until: nat)
    requires Serves(rows, s) && exists r :: r in rows && r.createdAt < until
    ensures
      var c := s.lookup(Time2Chunk(CHUNK_SIZE, until));
      && c.Some? && c.value <= Time2Chunk(CHUNK_SIZE, until)
      && Merge.GetChunk(s, until) == Some(Body(c.value, s.body(c.value)))
      && forall r :: r in rows && r.createdAt < until ==> Time2Chunk(CHUNK_SIZE, r.createdAt) <= c.value
  {
    var asked := Time2Chunk(CHUNK_SIZE, until);
    forall r | r in rows && r.createdAt < until ensures Time2Chunk(CHUNK_SIZE, r.createdAt) <= asked && ToItem(r) in s.items {
      ChunkMonotone(CHUNK_SIZE, r.createdAt, until);
    }
    assert AnswersIterator(rows, s, asked);
    var newest :| IteratorAnswer(rows, asked, newest) && s.lookup(asked) == LookupLocalItr(newest);
    LookupHonoursContract(rows, asked, newest, s);
  }

  lemma FloodedExactly(rows: set<Row>, s: Source, c: nat, until: nat)
    requires AnswersBody(rows, s, c) && c <= Time2Chunk(CHUNK_SIZE, until)
    requires forall r :: r in rows && r.createdAt < until ==> Time2Chunk(CHUNK_SIZE, r.createdAt) <= c
    requires exists r :: r in rows && r.createdAt < until
    ensures (forall i :: i in s.body(c) ==> until <= i.ts) <==> Flooded(rows, c, until)
  {
    var members, window :| BodyAnswer(rows, c, members, window) && s.body(c) == LoadLocalBody(c, members, window);
    DroppedExactly(rows, c, until, members, window);
  }

  /** The merge drops a served timeline that has something before the bound exactly when
      the newest chunks its iterator finds are flooded. */
  lemma MergeDropsExactly(q: Merge.Query, tl: Timeline, rows: set<Row>)
    requires tl in q.sources && Serves(rows, q.sources[tl])
    requires exists r :: r in rows && r.createdAt < q.until
    ensures
      var found := q.sources[tl].lookup(Time2Chunk(CHUNK_SIZE, q.until));
      found.Some? && (Merge.Dropped(q, tl) <==> Flooded(rows, found.value, q.until))
  {
    var s := q.sources[tl];
    FoundChunk(rows, s, q.until);
    var c := s.lookup(Time2Chunk(CHUNK_SIZE, q.until)).value;
    assert AnswersBody(rows, s, c);
    FloodedExactly(rows, s, c, q.until);
  }

  // ---- Every table is served ----

  lemma {:induction false} NewestRow(rows: set<Row>) returns (r: Row)
    requires rows != {}
    ensures r in rows && forall x :: x in rows ==> x.createdAt <= r.createdAt
    decreases |rows|
  {
    r :| r in rows;
    if rows != {r} {
      var rest := NewestRow(rows - {r});
      if r.createdAt < rest.createdAt { r := rest; }
    }
  }

  lemma {:induction false} CanOrder(rows: set<Row>) returns (out: seq<Row>)
    ensures Ordered(rows, out)
    decreases |rows|
  {
    if rows == {} {
      out := [];
    } else {
      var r := NewestRow(rows);
      var rest := CanOrder(rows - {r});
      assert r !in rest;
      out := [r] + rest;
      forall j, k | 0 <= j < k < |out| ensures out[j].createdAt >= out[k].createdAt && out[j] != out[k] {
        assert out[k] in rest;
      }
    }
  }

  ghost function Sorted(rows: set<Row>): (out: seq<Row>)
    ensures Ordered(rows, out)
  {
    OrderExists(rows);
    var out :| Ordered(rows, out);
    out
  }

  lemma OrderExists(rows: set<Row>)
    ensures exists out :: Ordered(rows, out)
  {
    var out := CanOrder(rows);
  }

  ghost function Limited(rows: set<Row>, n: nat): (out: seq<Row>)
    ensures OrderedLimit(rows, n, out)
  {
    var all := Sorted(rows);
    all[..if |all| < n then |all| else n]
  }

  ghost function SomeIterator(rows: set<Row>, q: nat): Option<nat> {
    LookupLocalItr(Limited(Before(rows, Chunk2Time(CHUNK_SIZE, q + 1)), 1))
  }

  ghost function SomeBody(rows: set<Row>, c: nat): seq<Item> {
    var lo, hi := Chunk2Time(CHUNK_SIZE, c - 1), Chunk2Time(CHUNK_SIZE, c + 1);
    LoadLocalBody(c, Limited(Before(rows, hi), DEFAULT_CHUNK_SIZE), Sorted(Between(rows, lo, hi)))
  }

  /** Any table of keys is served by some timeline. */
  lemma ServedBy(rows: set<Row>) returns (s: Source)
    ensures Serves(rows, s)
  {
    s := Source(CHUNK_SIZE, None, Contents(rows), (q: nat) => SomeIterator(rows, q), (c: nat) => SomeBody(rows, c));
    forall q: nat ensures AnswersIterator(rows, s, q) {
      SomeIteratorAnswers(rows, s, q);
    }
    forall c: nat ensures AnswersBody(rows, s, c) {
      SomeBodyAnswers(rows, s, c);
    }
  }

  lemma SomeIteratorAnswers(rows: set<Row>, s: Source, q: nat)
    requires s.lookup(q) == SomeIterator(rows, q)
    ensures AnswersIterator(rows, s, q)
  {
    assert IteratorAnswer(rows, q, Limited(Before(rows, Chunk2Time(CHUNK_SIZE, q + 1)), 1));
  }

  lemma SomeBodyAnswers(rows: set<Row>, s: Source, c: nat)
    requires s.body(c) == SomeBody(rows, c)
    ensures AnswersBody(rows, s, c)
  {
    var lo, hi := Chunk2Time(CHUNK_SIZE, c - 1), Chunk2Time(CHUNK_SIZE, c + 1);
    assert BodyAnswer(rows, c, Limited(Before(rows, hi), DEFAULT_CHUNK_SIZE), Sorted(Between(rows, lo, hi)));
  }

  // ---- A table that loses an item ----

  /** The uri column is unique. */
  ghost predicate UniqueUris(rows: set<Row>) {
    forall r, x :: r in rows && x in rows && r.uri == x.uri ==> r == x
  }

  function Tally(k: nat): (s: string)
    ensures |s| == k
  {
    seq(k, _ => 'k')
  }

  /** 32 keys of their own, a microsecond apart, as finely as the column holds instants. */
  function Burst(from: nat): (rows: seq<Row>)
    ensures |rows| == 32
    ensures forall k :: 0 <= k < 32 ==> rows[k] == Row(Tally(k), from + (31 - k) * 1000, Tally(k))
  {
    seq(32, k requires 0 <= k < 32 => Row(Tally(k), from + (31 - k) * 1000, Tally(k)))
  }

  const UNTIL: nat := 4 * CHUNK_SIZE * NANOS
  const OLDER: Row := Row("an older key than all of them", CHUNK_SIZE * NANOS, "an older key than all of them")

  lemma BurstIsDistinct(rows: set<Row>)
    requires rows == Distincts(Burst(UNTIL)) + {OLDER}
    ensures UniqueUris(rows) && |Distincts(Burst(UNTIL))| == 32
  {
    var burst := Burst(UNTIL);
    forall r, x | r in rows && x in rows && r.uri == x.uri ensures r == x {
      if r in burst && x in burst {
        var j :| 0 <= j < 32 && burst[j] == r;
        var k :| 0 <= k < 32 && burst[k] == x;
        assert |r.uri| == j && |x.uri| == k;
      } else if r in burst {
        var j :| 0 <= j < 32 && burst[j] == r;
        BurstIsNotOlder(j);
      } else if x in burst {
        var k :| 0 <= k < 32 && burst[k] == x;
        BurstIsNotOlder(k);
      }
    }
    DistinctCount(burst);
  }

  lemma BurstIsNotOlder(k: nat)
    ensures Tally(k) != OLDER.uri
  {
    if k > 0 { assert Tally(k)[0] == 'k' && OLDER.uri[0] == 'a'; }
  }

  lemma BurstFloods(rows: set<Row>)
    requires rows == Distincts(Burst(UNTIL)) + {OLDER}
    ensures Flooded(rows, 4, UNTIL)
  {
    var lo, hi := Chunk2Time(CHUNK_SIZE, 3), Chunk2Time(CHUNK_SIZE, 5);
    var burst := Distincts(Burst(UNTIL));
    BurstIsDistinct(rows);
    InBurst();
    assert burst <= Between(rows, lo, hi);
    SubsetCount(burst, Between(rows, lo, hi));
  }

  lemma InBurst()
    ensures forall r :: r in Distincts(Burst(UNTIL)) ==> UNTIL <= r.createdAt < UNTIL + 32_000
    ensures exists r :: r in Distincts(Burst(UNTIL)) && r.createdAt == UNTIL
  {
    var burst := Burst(UNTIL);
    forall r | r in Distincts(burst) ensures UNTIL <= r.createdAt < UNTIL + 32_000 {
      var k :| 0 <= k < 32 && burst[k] == r;
    }
    assert burst[31] in Distincts(burst);
  }

  /** A table of distinct keys, however the server orders it, with a row before the bound
      that no answer of the merge can hold: the reader drops the timeline. */
  lemma DropLosesAnItem() returns (rows: set<Row>, q: Merge.Query, tl: Timeline)
    ensures UniqueUris(rows) && tl in q.sources && Serves(rows, q.sources[tl]) && Merge.ValidQuery(q) && Reliable(q.sources[tl])
    ensures OLDER in rows && Merge.Eligible(q, Merge.Entry(ToItem(OLDER), tl))
    ensures Merge.Dropped(q, tl)
    ensures forall answer :: Merge.Answer(q, answer) ==> answer == []
  {
    rows, tl := Distincts(Burst(UNTIL)) + {OLDER}, "timeline";
    BurstIsDistinct(rows);
    BurstFloods(rows);
    InBurst();
    ChunkStart(CHUNK_SIZE, 4);
    var s := ServedBy(rows);
    ServedTimelineIsValid(rows, s);
    q := Merge.Query(map[tl := s], map[], UNTIL);
    assert OLDER in rows && OLDER.createdAt < UNTIL;
    MergeDropsExactly(q, tl, rows);
    FindsBurst(rows, s);
    forall answer | Merge.Answer(q, answer) ensures answer == [] {
      HasFirst(answer);
    }
  }

  lemma HasFirst(answer: seq<Merge.Entry>)
    ensures |answer| > 0 ==> answer[0] in answer
  {
  }

  lemma FindsBurst(rows: set<Row>, s: Source)
    requires ValidSource(s) && s.size == CHUNK_SIZE && s.items == Contents(rows) && s.lookup(4).Some?
    requires exists r :: r in rows && Time2Chunk(CHUNK_SIZE, r.createdAt) == 4
    ensures s.lookup(4) == Some(4)
  {
    var r :| r in rows && Time2Chunk(CHUNK_SIZE, r.createdAt) == 4;
    assert ToItem(r) in s.items && LookupContract(s, 4);
  }
}
