/** How many pops a descending query takes of its cap (chunkline/client.go): a reload asks
    again for the chunk the last body ended in, so an item is popped at most twice. */
module MergeCost {
  import opened Wrappers
  import opened Chunkline
  import opened Merge

  predicate Once(items: seq<Item>) {
    forall j, k :: 0 <= j < k < |items| ==> items[j] != items[k]
  }

  /** No body lists an item twice. */
  ghost predicate ListsOnce(s: Source) {
    forall c: nat :: Once(s.body(c))
  }

  /** What the timelines that are not dropped hold before the bound, retracted or not. */
  ghost function Readable(q: Query, tls: set<Timeline>): set<Entry>
    requires ValidQuery(q)
  {
    set tl, i | tl in tls && tl in q.sources && i in q.sources[tl].items && i.ts < q.until && !Dropped(q, tl) :: Entry(i, tl)
  }

  /** What a timeline holds before the bound, up to a chunk. */
  ghost function UpTo(s: Source, tl: Timeline, until: nat, p: int): set<Entry>
    requires s.size > 0
  {
    set i | i in s.items && i.ts < until && Time2Chunk(s.size, i.ts) <= p :: Entry(i, tl)
  }

  function Entries(items: seq<Item>, tl: Timeline): set<Entry> {
    set i | i in items :: Entry(i, tl)
  }

  lemma {:induction false} CountOnce(items: seq<Item>, tl: Timeline)
    requires Once(items)
    ensures |Entries(items, tl)| == |items|
  {
    if items != [] {
      var n := |items| - 1;
      CountOnce(items[..n], tl);
      assert items == items[..n] + [items[n]];
      assert Entries(items, tl) == Entries(items[..n], tl) + {Entry(items[n], tl)};
    }
  }

  lemma Fewer(a: set<Entry>, b: set<Entry>)
    requires a <= b
    ensures |a| <= |b|
  {
    assert b == a + (b - a);
  }

  lemma Disjoint(a: set<Entry>, b: set<Entry>, all: set<Entry>)
    requires a !! b && a <= all && b <= all
    ensures |a| + |b| <= |all|
  {
    assert |a + b| == |a| + |b|;
    Fewer(a + b, all);
  }

  /** Items of chunks p to c, read before everything up to chunk p is read: those above p are
      read now and those in p for the first time of two. */
  lemma ReadOnce(s: Source, tl: Timeline, until: nat, c: nat, p: nat, read: seq<Item>)
    requires s.size > 0 && p < c && Once(read)
    requires forall i :: i in read ==> i in s.items && i.ts < until && p <= Time2Chunk(s.size, i.ts) <= c
    ensures |read| + |UpTo(s, tl, until, p)| + |UpTo(s, tl, until, p - 1)| <= |UpTo(s, tl, until, c)| + |UpTo(s, tl, until, c - 1)|
  {
    var now := Entries(read, tl);
    var above := set e | e in now && p < Time2Chunk(s.size, e.item.ts);
    CountOnce(read, tl);
    Disjoint(above, UpTo(s, tl, until, p), UpTo(s, tl, until, c));
    Disjoint(now - above, UpTo(s, tl, until, p - 1), UpTo(s, tl, until, c - 1));
    assert now == above + (now - above) && |now| == |above| + |now - above|;
  }

  /** What is read of a body from an index on: everything before the bound, and no chunk
      older than the one asked for next. */
  lemma TailOf(s: Source, c: nat, index: nat, until: nat)
    requires ValidSource(s) && index < |s.body(c)| && s.body(c)[index].ts < until
    ensures
      var last := s.body(c)[|s.body(c)| - 1];
      var p := PreviousChunk(s, Body(c, s.body(c)), last);
      forall i :: i in s.body(c)[index..] ==> i in s.items && i.ts < until && p <= Time2Chunk(s.size, i.ts) <= c
  {
    assert BodyContract(s, c);
    var last := s.body(c)[|s.body(c)| - 1];
    forall k | index <= k < |s.body(c)|
      ensures s.body(c)[k].ts < until && s.body(c)[k] in s.items
      ensures Time2Chunk(s.size, last.ts) <= Time2Chunk(s.size, s.body(c)[k].ts) <= c
    {
      assert s.body(c)[k] in s.body(c);
      ChunkMonotone(s.size, last.ts, s.body(c)[k].ts);
    }
  }

  lemma StartsBefore(s: Source, c: nat, until: nat)
    requires ValidSource(s) && s.body(c) != [] && c < Time2Chunk(s.size, until)
    ensures s.body(c)[0].ts < until
  {
    assert BodyContract(s, c) && s.body(c)[0] in s.body(c);
    if until <= s.body(c)[0].ts { ChunkMonotone(s.size, until, s.body(c)[0].ts); }
  }

  lemma UpToGrows(s: Source, tl: Timeline, until: nat, a: int, b: int)
    requires s.size > 0 && a <= b
    ensures |UpTo(s, tl, until, a)| <= |UpTo(s, tl, until, b)|
  {
    Fewer(UpTo(s, tl, until, a), UpTo(s, tl, until, b));
  }

  lemma TailCost(s: Source, tl: Timeline, until: nat, c: nat, index: nat, p: nat)
    requires ValidSource(s) && ListsOnce(s)
    requires index < |s.body(c)| && s.body(c)[index].ts < until
    requires p < c && p == PreviousChunk(s, Body(c, s.body(c)), s.body(c)[|s.body(c)| - 1])
    ensures |s.body(c)| - index + |UpTo(s, tl, until, p)| + |UpTo(s, tl, until, p - 1)| <= |UpTo(s, tl, until, c)| + |UpTo(s, tl, until, c - 1)|
  {
    TailOf(s, c, index, until);
    assert Once(s.body(c));
    ReadOnce(s, tl, until, c, p, s.body(c)[index..]);
  }

  /** From an index of a body on, an item of the body's own chunk is popped once and any
      older one at most twice. */
  lemma {:induction false} BodyCost(s: Source, tl: Timeline, until: nat, c: nat, index: nat)
    requires ValidSource(s) && ListsOnce(s) && c <= Time2Chunk(s.size, until)
    requires index < |s.body(c)| && s.body(c)[index].ts < until
    ensures |s.body(c)| - index + Reloaded(s, c) <= |UpTo(s, tl, until, c)| + |UpTo(s, tl, until, c - 1)|
    decreases c
  {
    PreviousLower(s, c);
    var p := PreviousChunk(s, Body(c, s.body(c)), s.body(c)[|s.body(c)| - 1]);
    TailCost(s, tl, until, c, index, p);
    var older := GetChunk(s, Chunk2Time(s.size, p));
    if older.Some? && older.value.items != [] {
      var d := older.value.chunk;
      StartsBefore(s, d, until);
      BodyCost(s, tl, until, d, 0);
      UpToGrows(s, tl, until, d, p);
      UpToGrows(s, tl, until, d - 1, p - 1);
    }
  }

  lemma {:induction false} UnreadStart(items: seq<Item>, until: nat)
    requires Unread(items, until) > 0
    ensures Unread(items, until) <= |items| && items[|items| - Unread(items, until)].ts < until
  {
    if items[0].ts >= until { UnreadStart(items[1..], until); }
  }

  lemma FirstChunkNotAbove(s: Source, until: nat)
    requires ValidSource(s) && GetChunk(s, until).Some?
    ensures GetChunk(s, until).value.chunk <= Time2Chunk(s.size, until)
  {
    assert LookupContract(s, Time2Chunk(s.size, until));
  }

  lemma WalkBound(q: Query, tl: Timeline)
    requires ValidQuery(q) && (tl in q.sources ==> ListsOnce(q.sources[tl]))
    ensures Walk(q, tl) <= 2 * |Readable(q, {tl})|
  {
    if Walk(q, tl) > 0 {
      var s := q.sources[tl];
      var first := GetChunk(s, q.until).value;
      UnreadStart(first.items, q.until);
      FirstChunkNotAbove(s, q.until);
      var index := |first.items| - Unread(first.items, q.until);
      assert first.items[index] in first.items;
      BodyCost(s, tl, q.until, first.chunk, index);
      Fewer(UpTo(s, tl, q.until, first.chunk), Readable(q, {tl}));
      Fewer(UpTo(s, tl, q.until, first.chunk - 1), Readable(q, {tl}));
    }
  }

  lemma {:induction false} WalksBound(q: Query, tls: set<Timeline>)
    requires ValidQuery(q) && forall tl :: tl in tls && tl in q.sources ==> ListsOnce(q.sources[tl])
    ensures Walks(q, tls) <= 2 * |Readable(q, tls)|
    decreases |tls|
  {
    if tl :| tl in tls {
      WalksWithout(q, tls, tl);
      WalkBound(q, tl);
      WalksBound(q, tls - {tl});
      Disjoint(Readable(q, {tl}), Readable(q, tls - {tl}), Readable(q, tls));
    }
  }

  /** A query pops each item before the bound at most twice, so one over no more than 500
      items of timelines that are not dropped always drains or fills the limit. */
  lemma CostBound(q: Query)
    requires ValidQuery(q) && forall tl :: tl in q.sources ==> ListsOnce(q.sources[tl])
    ensures Cost(q) <= 2 * |Readable(q, q.sources.Keys)|
    ensures |Readable(q, q.sources.Keys)| <= 500 ==> Cost(q) <= ITERATION_CAP
  {
    WalksBound(q, q.sources.Keys);
  }
}
