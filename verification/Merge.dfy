/** The newest-first k-way merge of many timelines (chunkline/client.go). */
module Merge {
  import opened Wrappers
  import opened Chunkline

  // An item as returned: with the timeline it was read from.
  datatype Entry = Entry(item: Item, source: Timeline)

  datatype QueueItem = QueueItem(timeline: Timeline, item: Item, index: nat)

  // One query: the resolved timelines, their removal lists, and the upper bound.
  datatype Query = Query(sources: map<Timeline, Source>, removed: map<Timeline, seq<Id>>, until: nat)

  const ITERATION_CAP: nat := 1000

  ghost predicate ValidQuery(q: Query) {
    forall tl :: tl in q.sources ==> ValidSource(q.sources[tl])
  }

  predicate Retracted(q: Query, tl: Timeline, id: Id) {
    tl in q.removed && id in q.removed[tl]
  }

  /** getChunks for one timeline: iterator lookup, then the body it points at. */
  function GetChunk(s: Source, until: nat): (r: Option<Body>)
    requires s.size > 0
  {
    var c := Time2Chunk(s.size, until);
    if s.firstChunk.Some? && c < s.firstChunk.value then None
    else if s.lookup(c).None? then None
    else Some(Body(s.lookup(c).value, s.body(s.lookup(c).value)))
  }

  // ---- What a query asks for ----

  ghost predicate Eligible(q: Query, e: Entry) {
    && e.source in q.sources
    && e.item in q.sources[e.source].items
    && e.item.ts < q.until
    && !Retracted(q, e.source, e.item.id)
  }

  /** A timeline is dropped outright when its first body lies wholly at or after
      the bound. */
  ghost predicate Dropped(q: Query, tl: Timeline)
    requires tl in q.sources && q.sources[tl].size > 0
  {
    var first := GetChunk(q.sources[tl], q.until);
    first.Some? && forall i :: i in first.value.items ==> q.until <= i.ts
  }

  /** The timelines the merge answers for. */
  ghost predicate Kept(q: Query, tl: Timeline)
    requires ValidQuery(q)
  {
    tl in q.sources && Reliable(q.sources[tl]) && !Dropped(q, tl)
  }

  ghost function Ids(r: seq<Entry>): set<Id> {
    set e | e in r :: e.item.id
  }

  ghost predicate Newest(r: seq<Entry>) {
    forall j, k :: 0 <= j < k < |r| ==> r[j].item.ts >= r[k].item.ts
  }

  ghost predicate Distinct(r: seq<Entry>) {
    forall j, k :: 0 <= j < k < |r| ==> r[j].item.id != r[k].item.id
  }

  /** Nothing eligible in tl is strictly newer than the last item returned and
      yet missing. */
  ghost predicate GapFree(q: Query, r: seq<Entry>, tl: Timeline) {
    forall i :: Eligible(q, Entry(i, tl)) && i.id !in Ids(r) && r != [] ==> i.ts <= r[|r| - 1].item.ts
  }

  ghost predicate Complete(q: Query, r: seq<Entry>, tl: Timeline) {
    forall i :: Eligible(q, Entry(i, tl)) ==> i.id in Ids(r)
  }

  /** Each returned item is the newest eligible carrier of its id in tl. */
  ghost predicate NewestCarrier(q: Query, r: seq<Entry>, tl: Timeline) {
    forall i, k :: Eligible(q, Entry(i, tl)) && 0 <= k < |r| && r[k].item.id == i.id ==> i.ts <= r[k].item.ts
  }

  // ---- Loop invariant ----

  ghost predicate Seen(q: Query, uniq: set<Id>, tl: Timeline, i: Item) {
    i.id in uniq || Retracted(q, tl, i.id)
  }

  /** Every item of tl beyond chunk c, or newer than ts, has been dealt with. */
  ghost predicate Covered(q: Query, uniq: set<Id>, tl: Timeline, c: nat, ts: nat)
    requires tl in q.sources && q.sources[tl].size > 0
  {
    forall i :: i in q.sources[tl].items && i.ts < q.until && (c < Time2Chunk(q.sources[tl].size, i.ts) || ts < i.ts)
      ==> Seen(q, uniq, tl, i)
  }

  ghost predicate Exhausted(q: Query, uniq: set<Id>, tl: Timeline)
    requires tl in q.sources
  {
    forall i :: i in q.sources[tl].items && i.ts < q.until ==> Seen(q, uniq, tl, i)
  }

  ghost predicate Head(q: Query, uniq: set<Id>, chunks: map<Timeline, Body>, e: QueueItem)
    requires ValidQuery(q)
  {
    && e.timeline in q.sources
    && e.timeline in chunks
    && !Dropped(q, e.timeline)
    && var s := q.sources[e.timeline];
    && var b := chunks[e.timeline];
    && b.items == s.body(b.chunk)
    && b.chunk <= Time2Chunk(s.size, q.until)
    && e.index < |b.items|
    && e.item == b.items[e.index]
    && Covered(q, uniq, e.timeline, b.chunk, e.item.ts)
    && (forall k :: 0 <= k < e.index && b.items[k].ts < q.until ==> Seen(q, uniq, e.timeline, b.items[k]))
    && (forall k :: e.index <= k < |b.items| ==> b.items[k].ts < q.until)
  }

  ghost predicate Queued(pq: seq<QueueItem>, tl: Timeline) {
    exists e :: e in pq && e.timeline == tl
  }

  ghost predicate Heads(q: Query, uniq: set<Id>, chunks: map<Timeline, Body>, pq: seq<QueueItem>)
    requires ValidQuery(q)
  {
    && (forall j, k :: 0 <= j < k < |pq| ==> pq[j].timeline != pq[k].timeline)
    && (forall e :: e in pq ==> Head(q, uniq, chunks, e))
  }

  /** Kept timelines outside `todo` that left the queue have nothing more to give. */
  ghost predicate Drained(q: Query, uniq: set<Id>, pq: seq<QueueItem>, todo: set<Timeline>)
    requires ValidQuery(q)
  {
    forall tl :: Kept(q, tl) && tl !in todo && !Queued(pq, tl) ==> Exhausted(q, uniq, tl)
  }

  /** The bound every item still to come respects. */
  ghost predicate BelowLast(q: Query, uniq: set<Id>, pq: seq<QueueItem>, r: seq<Entry>)
    requires ValidQuery(q)
  {
    r != [] ==>
      (forall e, i ::
        && e in pq
        && e.timeline in q.sources
        && i in q.sources[e.timeline].items
        && i.ts < q.until
        && !Seen(q, uniq, e.timeline, i)
        ==> i.ts <= r[|r| - 1].item.ts)
  }

  ghost predicate Answer(q: Query, r: seq<Entry>)
    requires ValidQuery(q)
  {
    && Newest(r)
    && Distinct(r)
    && (forall e :: e in r ==> Eligible(q, e) && !Dropped(q, e.source))
    && (forall tl :: Kept(q, tl) ==> NewestCarrier(q, r, tl))
  }

  // ---- Steps ----

  lemma SeenMonotone(q: Query, uniq: set<Id>, more: set<Id>, chunks: map<Timeline, Body>, pq: seq<QueueItem>, todo: set<Timeline>)
    requires ValidQuery(q)
    requires uniq <= more
    requires Heads(q, uniq, chunks, pq)
    requires Drained(q, uniq, pq, todo)
    ensures Heads(q, more, chunks, pq)
    ensures Drained(q, more, pq, todo)
  {
  }

  /** Whatever is newer than a body's item, and not beyond the body, sits before it. */
  lemma FoundBefore(s: Source, c: nat, i: Item, j: nat)
    requires s.size > 0 && BodyContract(s, c)
    requires j < |s.body(c)| && s.body(c)[j].ts < i.ts
    requires i in s.items && Time2Chunk(s.size, i.ts) <= c
    ensures exists k :: 0 <= k < j && s.body(c)[k] == i
  {
    var b := s.body(c)[j];
    assert b in s.body(c);
    var k :| 0 <= k < |s.body(c)| && s.body(c)[k] == i;
    assert k < j;
  }

  /** The first body of a timeline, entered at the first item before the bound. */
  lemma FirstHead(q: Query, chunks: map<Timeline, Body>, tl: Timeline, index: nat)
    requires ValidQuery(q)
    requires tl in q.sources && tl in chunks
    requires GetChunk(q.sources[tl], q.until) == Some(chunks[tl])
    requires index < |chunks[tl].items| && chunks[tl].items[index].ts < q.until
    requires forall k :: 0 <= k < index ==> q.until <= chunks[tl].items[k].ts
    ensures Head(q, {}, chunks, QueueItem(tl, chunks[tl].items[index], index))
  {
    var s := q.sources[tl];
    var b := chunks[tl];
    var ask := Time2Chunk(s.size, q.until);
    assert b.items[index] in b.items;
    assert LookupContract(s, ask) && BodyContract(s, b.chunk);
    forall i | i in s.items && i.ts < q.until
      ensures Time2Chunk(s.size, i.ts) <= b.chunk
    {
      ChunkMonotone(s.size, i.ts, q.until);
    }
    forall i | i in s.items && Time2Chunk(s.size, i.ts) <= b.chunk && b.items[index].ts < i.ts
      ensures q.until <= i.ts
    {
      FoundBefore(s, b.chunk, i, index);
    }
  }

  /** The chunk asked for when the body under e has been read to its end. */
  function PreviousChunk(s: Source, b: Body, last: Item): (p: int)
    requires s.size > 0
  {
    var p := Time2Chunk(s.size, last.ts);
    if p == b.chunk then p - 1 else p
  }

  /** Reading a body to its end leaves only items of the chunk asked for next, or older. */
  lemma Behind(q: Query, uniq: set<Id>, chunks: map<Timeline, Body>, e: QueueItem, i: Item)
    requires ValidQuery(q)
    requires Head(q, uniq, chunks, e)
    requires e.index == |chunks[e.timeline].items| - 1
    requires Seen(q, uniq, e.timeline, e.item)
    requires i in q.sources[e.timeline].items && i.ts < q.until
    requires !Seen(q, uniq, e.timeline, i)
    ensures Time2Chunk(q.sources[e.timeline].size, i.ts) <= PreviousChunk(q.sources[e.timeline], chunks[e.timeline], e.item)
  {
    var s := q.sources[e.timeline];
    var b := chunks[e.timeline];
    assert BodyContract(s, b.chunk);
    assert i.ts <= e.item.ts;
    ChunkMonotone(s.size, i.ts, e.item.ts);
    assert i !in b.items;
  }

  lemma PreviousChunkLower(q: Query, uniq: set<Id>, chunks: map<Timeline, Body>, e: QueueItem)
    requires ValidQuery(q)
    requires Head(q, uniq, chunks, e)
    ensures 0 <= PreviousChunk(q.sources[e.timeline], chunks[e.timeline], e.item) < chunks[e.timeline].chunk
  {
    var s := q.sources[e.timeline];
    assert BodyContract(s, chunks[e.timeline].chunk);
    assert e.item in s.items;
  }

  /** Entering the body of an older chunk at its newest item. */
  lemma NextHead(q: Query, uniq: set<Id>, chunks: map<Timeline, Body>, e: QueueItem, b: Body)
    requires ValidQuery(q)
    requires Head(q, uniq, chunks, e)
    requires e.index == |chunks[e.timeline].items| - 1
    requires Seen(q, uniq, e.timeline, e.item)
    requires
      var s := q.sources[e.timeline];
      var p := PreviousChunk(s, chunks[e.timeline], e.item);
      p >= 0 && GetChunk(s, Chunk2Time(s.size, p)) == Some(b) && |b.items| > 0
    ensures b.chunk < chunks[e.timeline].chunk
    ensures Head(q, uniq, chunks[e.timeline := b], QueueItem(e.timeline, b.items[0], 0))
  {
    var tl := e.timeline;
    var s := q.sources[tl];
    var p := PreviousChunk(s, chunks[tl], e.item);
    PreviousChunkLower(q, uniq, chunks, e);
    ChunkStart(s.size, p);
    assert LookupContract(s, p) && BodyContract(s, b.chunk);
    forall i | i in s.items && i.ts < q.until && !Seen(q, uniq, tl, i)
      ensures Time2Chunk(s.size, i.ts) <= b.chunk
    {
      Behind(q, uniq, chunks, e, i);
    }
    forall i | i in s.items && Time2Chunk(s.size, i.ts) <= b.chunk
      ensures i.ts <= b.items[0].ts
    {
      assert b.items[0].ts < i.ts ==> i in b.items;
    }
    forall k | 0 <= k < |b.items|
      ensures b.items[k].ts < q.until
    {
      assert b.items[k] in b.items;
      if q.until <= b.items[k].ts {
        ChunkMonotone(s.size, q.until, b.items[k].ts);
      }
    }
  }

  /** An unanswered lookup behind a finished body means the timeline is finished. */
  lemma NoNext(q: Query, uniq: set<Id>, chunks: map<Timeline, Body>, e: QueueItem)
    requires ValidQuery(q)
    requires Head(q, uniq, chunks, e)
    requires e.index == |chunks[e.timeline].items| - 1
    requires Seen(q, uniq, e.timeline, e.item)
    requires Reliable(q.sources[e.timeline])
    requires
      var s := q.sources[e.timeline];
      var p := PreviousChunk(s, chunks[e.timeline], e.item);
      p >= 0 && GetChunk(s, Chunk2Time(s.size, p)).None?
    ensures Exhausted(q, uniq, e.timeline)
  {
    var s := q.sources[e.timeline];
    var p := PreviousChunk(s, chunks[e.timeline], e.item);
    ChunkStart(s.size, p);
    forall i | i in s.items && i.ts < q.until && !Seen(q, uniq, e.timeline, i)
      ensures Time2Chunk(s.size, i.ts) <= p
    {
      Behind(q, uniq, chunks, e, i);
    }
  }

  /** Moving on within a body. */
  lemma NextIndex(q: Query, uniq: set<Id>, chunks: map<Timeline, Body>, e: QueueItem)
    requires ValidQuery(q)
    requires Head(q, uniq, chunks, e)
    requires e.index + 1 < |chunks[e.timeline].items|
    requires Seen(q, uniq, e.timeline, e.item)
    ensures Head(q, uniq, chunks, QueueItem(e.timeline, chunks[e.timeline].items[e.index + 1], e.index + 1))
  {
    var b := chunks[e.timeline];
    forall k | 0 <= k < e.index + 1 && b.items[k].ts < q.until
      ensures Seen(q, uniq, e.timeline, b.items[k])
    {
    }
    NextCovered(q, uniq, e.timeline, b, e.index, e.item.ts);
  }

  lemma NextCovered(q: Query, uniq: set<Id>, tl: Timeline, b: Body, index: nat, ts: nat)
    requires tl in q.sources && ValidSource(q.sources[tl])
    requires b.items == q.sources[tl].body(b.chunk) && index + 1 < |b.items|
    requires Covered(q, uniq, tl, b.chunk, ts)
    requires forall k :: 0 <= k <= index && b.items[k].ts < q.until ==> Seen(q, uniq, tl, b.items[k])
    ensures Covered(q, uniq, tl, b.chunk, b.items[index + 1].ts)
  {
    var s := q.sources[tl];
    assert BodyContract(s, b.chunk);
    forall i | i in s.items && i.ts < q.until && Time2Chunk(s.size, i.ts) <= b.chunk && b.items[index + 1].ts < i.ts
      ensures Seen(q, uniq, tl, i)
    {
      FoundBefore(s, b.chunk, i, index + 1);
      var k :| 0 <= k < index + 1 && b.items[k] == i;
    }
  }

  function Without(pq: seq<QueueItem>, k: nat): (r: seq<QueueItem>)
    requires k < |pq|
    ensures forall e :: e in r ==> e in pq
  {
    pq[..k] + pq[k + 1..]
  }

  ghost predicate IsMax(pq: seq<QueueItem>, k: nat) {
    k < |pq| && forall j :: 0 <= j < |pq| ==> pq[j].item.ts <= pq[k].item.ts
  }

  /** Returning the popped maximum keeps the answer sound and bounds what follows. */
  lemma Emit(q: Query, uniq: set<Id>, chunks: map<Timeline, Body>, pq: seq<QueueItem>, r: seq<Entry>, k: nat)
    requires ValidQuery(q)
    requires Heads(q, uniq, chunks, pq) && Drained(q, uniq, pq, {})
    requires Answer(q, r) && Ids(r) == uniq && BelowLast(q, uniq, pq, r)
    requires IsMax(pq, k)
    requires !Seen(q, uniq, pq[k].timeline, pq[k].item)
    ensures
      var r' := r + [Entry(pq[k].item, pq[k].timeline)];
      var uniq' := uniq + {pq[k].item.id};
      Answer(q, r') && Ids(r') == uniq' && BelowLast(q, uniq', pq, r')
  {
    var x := Entry(pq[k].item, pq[k].timeline);
    IdsGrow(r, x);
    EmitBelow(q, uniq, chunks, pq, r, k);
    EmitOrder(q, uniq, chunks, pq, r, k);
    forall tl | Kept(q, tl)
      ensures NewestCarrier(q, r + [x], tl)
    {
      EmitCarrier(q, uniq, chunks, pq, r, k, tl);
    }
  }

  lemma IdsGrow(r: seq<Entry>, x: Entry)
    ensures Ids(r + [x]) == Ids(r) + {x.item.id}
  {
    assert x in r + [x];
    forall e | e in r ensures e in r + [x] { }
  }

  lemma EmitBelow(q: Query, uniq: set<Id>, chunks: map<Timeline, Body>, pq: seq<QueueItem>, r: seq<Entry>, k: nat)
    requires ValidQuery(q)
    requires Heads(q, uniq, chunks, pq)
    requires IsMax(pq, k)
    ensures BelowLast(q, uniq + {pq[k].item.id}, pq, r + [Entry(pq[k].item, pq[k].timeline)])
  {
    forall d, i | d in pq && i in q.sources[d.timeline].items && i.ts < q.until && !Seen(q, uniq, d.timeline, i)
      ensures i.ts <= pq[k].item.ts
    {
      assert Head(q, uniq, chunks, d);
    }
  }

  lemma EmitOrder(q: Query, uniq: set<Id>, chunks: map<Timeline, Body>, pq: seq<QueueItem>, r: seq<Entry>, k: nat)
    requires ValidQuery(q)
    requires Heads(q, uniq, chunks, pq)
    requires Newest(r) && Distinct(r) && Ids(r) == uniq && BelowLast(q, uniq, pq, r)
    requires k < |pq|
    requires !Seen(q, uniq, pq[k].timeline, pq[k].item)
    ensures
      var x := Entry(pq[k].item, pq[k].timeline);
      Newest(r + [x]) && Distinct(r + [x]) && Eligible(q, x) && !Dropped(q, x.source)
  {
    var e := pq[k];
    assert Head(q, uniq, chunks, e);
    assert BodyContract(q.sources[e.timeline], chunks[e.timeline].chunk);
    assert e.item in q.sources[e.timeline].items;
    forall j | 0 <= j < |r|
      ensures r[j].item.id != e.item.id && e.item.ts <= r[j].item.ts
    {
      assert r[j].item.id in Ids(r);
      assert r[|r| - 1].item.ts <= r[j].item.ts;
    }
  }

  lemma EmitCarrier(q: Query, uniq: set<Id>, chunks: map<Timeline, Body>, pq: seq<QueueItem>, r: seq<Entry>, k: nat, tl: Timeline)
    requires ValidQuery(q)
    requires Heads(q, uniq, chunks, pq) && Drained(q, uniq, pq, {})
    requires Ids(r) == uniq && NewestCarrier(q, r, tl)
    requires IsMax(pq, k)
    requires !Seen(q, uniq, pq[k].timeline, pq[k].item)
    requires Kept(q, tl)
    ensures NewestCarrier(q, r + [Entry(pq[k].item, pq[k].timeline)], tl)
  {
    var x := pq[k].item;
    forall i | Eligible(q, Entry(i, tl)) && i.id == x.id
      ensures i.ts <= x.ts
    {
      assert !Seen(q, uniq, tl, i);
      assert Queued(pq, tl);
      var d :| d in pq && d.timeline == tl;
      assert Head(q, uniq, chunks, d);
    }
  }

  /** The popped timeline re-enters the queue at its next head. */
  lemma Requeue(q: Query, uniq: set<Id>, chunks: map<Timeline, Body>, chunks': map<Timeline, Body>,
                pq: seq<QueueItem>, r: seq<Entry>, k: nat, next: QueueItem)
    requires ValidQuery(q)
    requires Heads(q, uniq, chunks, pq) && Drained(q, uniq, pq, {}) && BelowLast(q, uniq, pq, r)
    requires k < |pq| && next.timeline == pq[k].timeline
    requires forall tl :: tl in chunks && tl != next.timeline ==> tl in chunks' && chunks'[tl] == chunks[tl]
    requires Head(q, uniq, chunks', next)
    ensures
      var pq' := Without(pq, k) + [next];
      Heads(q, uniq, chunks', pq') && Drained(q, uniq, pq', {}) && BelowLast(q, uniq, pq', r)
  {
    var pq' := Without(pq, k) + [next];
    forall e | e in Without(pq, k)
      ensures e.timeline != next.timeline && Head(q, uniq, chunks', e)
    {
      assert Head(q, uniq, chunks, e);
    }
    forall tl
      ensures Queued(pq, tl) <==> Queued(pq', tl)
    {
      SameTimelines(pq, k, next, tl);
    }
    SameBelow(q, uniq, pq, pq', r);
  }

  lemma SameTimelines(pq: seq<QueueItem>, k: nat, next: QueueItem, tl: Timeline)
    requires k < |pq| && next.timeline == pq[k].timeline
    ensures Queued(pq, tl) <==> Queued(Without(pq, k) + [next], tl)
  {
    if Queued(pq, tl) {
      RequeueKeeps(pq, k, next, tl);
    }
    assert pq[k] in pq;
  }

  lemma SameBelow(q: Query, uniq: set<Id>, pq: seq<QueueItem>, pq': seq<QueueItem>, r: seq<Entry>)
    requires ValidQuery(q)
    requires BelowLast(q, uniq, pq, r)
    requires forall tl :: Queued(pq', tl) ==> Queued(pq, tl)
    ensures BelowLast(q, uniq, pq', r)
  {
    forall e | e in pq'
      ensures exists d :: d in pq && d.timeline == e.timeline
    {
      assert Queued(pq', e.timeline);
    }
  }

  lemma RequeueKeeps(pq: seq<QueueItem>, k: nat, next: QueueItem, tl: Timeline)
    requires k < |pq| && next.timeline == pq[k].timeline
    requires Queued(pq, tl)
    ensures Queued(Without(pq, k) + [next], tl)
  {
    var pq' := Without(pq, k) + [next];
    var j :| 0 <= j < |pq| && pq[j].timeline == tl;
    if j < k {
      assert pq'[j] in pq';
    } else if j == k {
      assert next in pq';
    } else {
      assert pq'[j - 1] in pq';
    }
  }

  /** The popped timeline leaves the queue for good. */
  lemma Leave(q: Query, uniq: set<Id>, chunks: map<Timeline, Body>, pq: seq<QueueItem>, r: seq<Entry>, k: nat)
    requires ValidQuery(q)
    requires Heads(q, uniq, chunks, pq) && Drained(q, uniq, pq, {}) && BelowLast(q, uniq, pq, r)
    requires k < |pq|
    requires Kept(q, pq[k].timeline) ==> Exhausted(q, uniq, pq[k].timeline)
    ensures Heads(q, uniq, chunks, Without(pq, k)) && Drained(q, uniq, Without(pq, k), {})
    ensures BelowLast(q, uniq, Without(pq, k), r)
  {
    var pq' := Without(pq, k);
    forall tl | Queued(pq, tl) && tl != pq[k].timeline
      ensures Queued(pq', tl)
    {
      RequeueKeeps(pq, k, pq[k], tl);
      var e :| e in pq' + [pq[k]] && e.timeline == tl;
      assert e in pq';
    }
  }

  // ---- How many pops a query takes ----

  /** Behind a body that holds something there is a strictly lower chunk to ask for. */
  lemma PreviousLower(s: Source, c: nat)
    requires ValidSource(s) && s.body(c) != []
    ensures
      var p := PreviousChunk(s, Body(c, s.body(c)), s.body(c)[|s.body(c)| - 1]);
      && 0 <= p < c && 0 <= Chunk2Time(s.size, p)
      && var older := GetChunk(s, Chunk2Time(s.size, p));
         older.Some? ==> older.value.chunk <= p && older.value.items == s.body(older.value.chunk)
  {
    var last := s.body(c)[|s.body(c)| - 1];
    assert BodyContract(s, c) && last in s.body(c);
    var p := PreviousChunk(s, Body(c, s.body(c)), last);
    ChunkStart(s.size, p);
    assert LookupContract(s, p);
  }

  /** The pops a timeline still takes once the body of chunk c has been read: the bodies
      reloaded one after another, each from its newest item. */
  ghost function Reloaded(s: Source, c: nat): nat
    requires ValidSource(s)
    decreases c
  {
    if s.body(c) == [] then 0
    else
      PreviousLower(s, c);
      var p := PreviousChunk(s, Body(c, s.body(c)), s.body(c)[|s.body(c)| - 1]);
      var older := GetChunk(s, Chunk2Time(s.size, p));
      if older.None? then 0 else |older.value.items| + Reloaded(s, older.value.chunk)
  }

  ghost function Left(q: Query, chunks: map<Timeline, Body>, e: QueueItem): nat
    requires ValidQuery(q)
  {
    if e.timeline in q.sources && e.timeline in chunks && e.index <= |chunks[e.timeline].items|
    then |chunks[e.timeline].items| - e.index + Reloaded(q.sources[e.timeline], chunks[e.timeline].chunk)
    else 0
  }

  ghost function Work(q: Query, chunks: map<Timeline, Body>, pq: seq<QueueItem>): nat
    requires ValidQuery(q)
  {
    if pq == [] then 0 else Left(q, chunks, pq[0]) + Work(q, chunks, pq[1..])
  }

  lemma {:induction false} WorkSplit(q: Query, chunks: map<Timeline, Body>, a: seq<QueueItem>, b: seq<QueueItem>)
    requires ValidQuery(q)
    ensures Work(q, chunks, a + b) == Work(q, chunks, a) + Work(q, chunks, b)
  {
    if a == [] {
      assert a + b == b;
    } else {
      assert (a + b)[1..] == a[1..] + b;
      WorkSplit(q, chunks, a[1..], b);
    }
  }

  lemma {:induction false} WorkElsewhere(q: Query, chunks: map<Timeline, Body>, chunks': map<Timeline, Body>, pq: seq<QueueItem>)
    requires ValidQuery(q)
    requires forall e :: e in pq && e.timeline in chunks ==> e.timeline in chunks' && chunks'[e.timeline] == chunks[e.timeline]
    requires forall e :: e in pq && e.timeline in chunks' ==> e.timeline in chunks
    ensures Work(q, chunks, pq) == Work(q, chunks', pq)
  {
    if pq != [] {
      assert pq[0] in pq;
      forall e | e in pq[1..] ensures e in pq { }
      WorkElsewhere(q, chunks, chunks', pq[1..]);
    }
  }

  lemma WorkPush(q: Query, chunks: map<Timeline, Body>, pq: seq<QueueItem>, e: QueueItem)
    requires ValidQuery(q)
    ensures Work(q, chunks, pq + [e]) == Work(q, chunks, pq) + Left(q, chunks, e)
  {
    WorkSplit(q, chunks, pq, [e]);
    assert [e][1..] == [];
  }

  lemma WorkWithout(q: Query, chunks: map<Timeline, Body>, pq: seq<QueueItem>, k: nat)
    requires ValidQuery(q) && k < |pq|
    ensures Work(q, chunks, pq) == Work(q, chunks, Without(pq, k)) + Left(q, chunks, pq[k])
  {
    assert pq == pq[..k] + [pq[k]] + pq[k + 1..];
    WorkSplit(q, chunks, pq[..k] + [pq[k]], pq[k + 1..]);
    WorkPush(q, chunks, pq[..k], pq[k]);
    WorkSplit(q, chunks, pq[..k], pq[k + 1..]);
  }

  lemma WorkRequeue(q: Query, chunks: map<Timeline, Body>, chunks': map<Timeline, Body>, pq: seq<QueueItem>, k: nat, next: QueueItem)
    requires ValidQuery(q)
    requires k < |pq| && next.timeline == pq[k].timeline
    requires forall i, j :: 0 <= i < j < |pq| ==> pq[i].timeline != pq[j].timeline
    requires next.timeline in chunks && next.timeline in chunks'
    requires chunks' == chunks[next.timeline := chunks'[next.timeline]]
    requires Left(q, chunks', next) == Left(q, chunks, pq[k]) - 1
    ensures Work(q, chunks', Without(pq, k) + [next]) == Work(q, chunks, pq) - 1
  {
    WorkWithout(q, chunks, pq, k);
    WorkPush(q, chunks', Without(pq, k), next);
    WorkElsewhere(q, chunks, chunks', Without(pq, k));
  }

  /** The pops one timeline takes from where the bound enters its first body. */
  ghost function Walk(q: Query, tl: Timeline): nat
    requires ValidQuery(q)
  {
    if tl in q.sources && GetChunk(q.sources[tl], q.until).Some? then
      var first := GetChunk(q.sources[tl], q.until).value;
      if Unread(first.items, q.until) == 0 then 0
      else Unread(first.items, q.until) + Reloaded(q.sources[tl], first.chunk)
    else 0
  }

  /** What is left of a body from its first item before the bound. */
  function Unread(items: seq<Item>, until: nat): nat {
    if items == [] then 0 else if items[0].ts < until then |items| else Unread(items[1..], until)
  }

  lemma {:induction false} UnreadFrom(items: seq<Item>, until: nat, index: nat)
    requires index <= |items| && (forall k :: 0 <= k < index ==> until <= items[k].ts)
    requires index < |items| ==> items[index].ts < until
    ensures Unread(items, until) == |items| - index
  {
    if index > 0 { UnreadFrom(items[1..], until, index - 1); }
  }

  ghost function Walks(q: Query, tls: set<Timeline>): nat
    requires ValidQuery(q)
  {
    if tls == {} then 0
    else
      var tl :| tl in tls;
      Walk(q, tl) + Walks(q, tls - {tl})
  }

  /** The pops the whole query takes. */
  ghost function Cost(q: Query): nat
    requires ValidQuery(q)
  {
    Walks(q, q.sources.Keys)
  }

  lemma {:induction false} WalksWithout(q: Query, tls: set<Timeline>, tl: Timeline)
    requires ValidQuery(q) && tl in tls
    ensures Walks(q, tls) == Walk(q, tl) + Walks(q, tls - {tl})
    decreases |tls|
  {
    var first :| first in tls && Walks(q, tls) == Walk(q, first) + Walks(q, tls - {first});
    if first != tl {
      WalksWithout(q, tls - {first}, tl);
      WalksWithout(q, tls - {tl}, first);
      assert tls - {first} - {tl} == tls - {tl} - {first};
    }
  }

  // ---- The query ----

  /** sort.Search for the first item before the bound. */
  method FirstBefore(items: seq<Item>, until: nat) returns (index: nat)
    requires Descending(items)
    ensures index <= |items|
    ensures forall k :: 0 <= k < index ==> until <= items[k].ts
    ensures forall k :: index <= k < |items| ==> items[k].ts < until
  {
    var lo, hi := 0, |items|;
    while lo < hi
      invariant 0 <= lo <= hi <= |items|
      invariant forall k :: 0 <= k < lo ==> until <= items[k].ts
      invariant forall k :: hi <= k < |items| ==> items[k].ts < until
    {
      var mid := (lo + hi) / 2;
      if items[mid].ts < until {
        hi := mid;
      } else {
        lo := mid + 1;
      }
    }
    index := lo;
  }

  lemma Push(q: Query, chunks: map<Timeline, Body>, pq: seq<QueueItem>, todo: set<Timeline>, head: QueueItem)
    requires ValidQuery(q)
    requires Heads(q, {}, chunks, pq) && Drained(q, {}, pq, todo)
    requires head.timeline in todo && forall e :: e in pq ==> e.timeline !in todo
    requires Head(q, {}, chunks, head)
    ensures Heads(q, {}, chunks, pq + [head])
    ensures Drained(q, {}, pq + [head], todo - {head.timeline})
  {
    assert head in pq + [head];
    assert forall e :: e in pq ==> e in pq + [head];
  }

  /** What holds while the timelines of `todo` have yet to enter the queue. */
  ghost predicate Filling(q: Query, chunks: map<Timeline, Body>, pq: seq<QueueItem>, todo: set<Timeline>)
    requires ValidQuery(q)
  {
    && Heads(q, {}, chunks, pq)
    && (forall e :: e in pq ==> e.timeline !in todo)
    && Drained(q, {}, pq, todo)
    && Work(q, chunks, pq) + Walks(q, todo) == Cost(q)
  }

  /** The chunks the query begins with. */
  function FirstChunks(q: Query): (chunks: map<Timeline, Body>)
    requires ValidQuery(q)
    ensures chunks.Keys <= q.sources.Keys
    ensures forall tl :: tl in q.sources ==>
      GetChunk(q.sources[tl], q.until) == if tl in chunks then Some(chunks[tl]) else None
  {
    map tl | tl in q.sources && GetChunk(q.sources[tl], q.until).Some? :: GetChunk(q.sources[tl], q.until).value
  }

  lemma StartFilling(q: Query)
    requires ValidQuery(q)
    ensures Filling(q, FirstChunks(q), [], FirstChunks(q).Keys)
  {
    var chunks := FirstChunks(q);
    WalksFound(q, q.sources.Keys, chunks.Keys);
    forall tl | Kept(q, tl) && tl !in chunks
      ensures Exhausted(q, {}, tl)
    {
      NoFirst(q, tl);
    }
  }

  /** The timeline enters at its first item before the bound. */
  lemma Enter(q: Query, pq: seq<QueueItem>, todo: set<Timeline>, head: QueueItem)
    requires ValidQuery(q) && Filling(q, FirstChunks(q), pq, todo)
    requires head.timeline in todo && head.timeline in FirstChunks(q)
    requires
      var items := FirstChunks(q)[head.timeline].items;
      && head.index < |items| && head.item == items[head.index] && head.item.ts < q.until
      && forall k :: 0 <= k < head.index ==> q.until <= items[k].ts
    ensures Filling(q, FirstChunks(q), pq + [head], todo - {head.timeline})
  {
    var chunks := FirstChunks(q);
    UnreadFrom(chunks[head.timeline].items, q.until, head.index);
    FirstHead(q, chunks, head.timeline, head.index);
    Push(q, chunks, pq, todo, head);
    WalksWithout(q, todo, head.timeline);
    WorkPush(q, chunks, pq, head);
  }

  /** A timeline whose first body has nothing before the bound is dropped. */
  lemma Skip(q: Query, pq: seq<QueueItem>, todo: set<Timeline>, tl: Timeline)
    requires ValidQuery(q) && Filling(q, FirstChunks(q), pq, todo)
    requires tl in todo && tl in FirstChunks(q)
    requires forall k :: 0 <= k < |FirstChunks(q)[tl].items| ==> q.until <= FirstChunks(q)[tl].items[k].ts
    ensures Filling(q, FirstChunks(q), pq, todo - {tl})
  {
    var items := FirstChunks(q)[tl].items;
    UnreadFrom(items, q.until, |items|);
    WalksWithout(q, todo, tl);
  }

  method FillQueue(q: Query, chunks: map<Timeline, Body>) returns (pq: seq<QueueItem>)
    requires ValidQuery(q) && chunks == FirstChunks(q)
    ensures Heads(q, {}, chunks, pq)
    ensures Drained(q, {}, pq, {})
    ensures Work(q, chunks, pq) == Cost(q)
  {
    pq := [];
    var todo := chunks.Keys;
    StartFilling(q);
    while todo != {}
      invariant todo <= chunks.Keys && Filling(q, chunks, pq, todo)
    {
      var tl :| tl in todo;
      var items := chunks[tl].items;
      assert BodyContract(q.sources[tl], chunks[tl].chunk);
      var index := FirstBefore(items, q.until);
      if index < |items| {
        var head := QueueItem(tl, items[index], index);
        Enter(q, pq, todo, head);
        pq := pq + [head];
      } else {
        Skip(q, pq, todo, tl);
      }
      todo := todo - {tl};
    }
  }

  /** Timelines without a first body take no pops. */
  lemma {:induction false} WalksFound(q: Query, tls: set<Timeline>, found: set<Timeline>)
    requires ValidQuery(q) && found <= tls
    requires forall tl :: tl in tls && tl !in found ==> Walk(q, tl) == 0
    ensures Walks(q, tls) == Walks(q, found)
    decreases |tls|
  {
    if tl :| tl in tls && tl !in found {
      WalksWithout(q, tls, tl);
      WalksFound(q, tls - {tl}, found);
    } else {
      assert tls == found;
    }
  }

  /** No first body on a reliable timeline: nothing there is old enough. */
  lemma NoFirst(q: Query, tl: Timeline)
    requires ValidQuery(q)
    requires tl in q.sources && Reliable(q.sources[tl])
    requires GetChunk(q.sources[tl], q.until).None?
    ensures Exhausted(q, {}, tl)
  {
    var s := q.sources[tl];
    forall i | i in s.items
      ensures q.until <= i.ts
    {
      if i.ts < q.until {
        ChunkMonotone(s.size, i.ts, q.until);
      }
    }
  }

  method PopMax(pq: seq<QueueItem>) returns (k: nat)
    requires pq != []
    ensures IsMax(pq, k)
  {
    // container/heap may surface any of several equal maxima
    var maxima := set j | 0 <= j < |pq| && forall i :: 0 <= i < |pq| ==> pq[i].item.ts <= pq[j].item.ts;
    assert maxima != {} by {
      MaxExists(pq);
      var j: nat :| IsMax(pq, j);
      assert j in maxima;
    }
    k :| k in maxima;
  }

  lemma MaxExists(pq: seq<QueueItem>)
    requires pq != []
    ensures exists k: nat :: IsMax(pq, k)
  {
    if |pq| == 1 {
      assert IsMax(pq, 0);
    } else {
      var front := pq[..|pq| - 1];
      MaxExists(front);
      var k: nat :| IsMax(front, k);
      var last := |pq| - 1;
      if pq[last].item.ts <= pq[k].item.ts {
        assert IsMax(pq, k);
      } else {
        forall j | 0 <= j < |pq| ensures pq[j].item.ts <= pq[last].item.ts {
          if j < last { assert pq[j] == front[j]; }
        }
        assert IsMax(pq, last);
      }
    }
  }

  /** What holds between two pops. */
  ghost predicate Ready(q: Query, uniq: set<Id>, chunks: map<Timeline, Body>, pq: seq<QueueItem>, r: seq<Entry>)
    requires ValidQuery(q)
  {
    Heads(q, uniq, chunks, pq) && Drained(q, uniq, pq, {}) && BelowLast(q, uniq, pq, r)
  }

  lemma ToNextItem(q: Query, uniq: set<Id>, chunks: map<Timeline, Body>, pq: seq<QueueItem>, r: seq<Entry>, k: nat, next: QueueItem)
    requires ValidQuery(q) && Ready(q, uniq, chunks, pq, r)
    requires k < |pq| && Seen(q, uniq, pq[k].timeline, pq[k].item)
    requires Head(q, uniq, chunks, pq[k]) && pq[k].index + 1 < |chunks[pq[k].timeline].items|
    requires next == QueueItem(pq[k].timeline, chunks[pq[k].timeline].items[pq[k].index + 1], pq[k].index + 1)
    ensures Ready(q, uniq, chunks, Without(pq, k) + [next], r)
    ensures Work(q, chunks, Without(pq, k) + [next]) == Work(q, chunks, pq) - 1
  {
    NextIndex(q, uniq, chunks, pq[k]);
    Requeue(q, uniq, chunks, chunks, pq, r, k, next);
    WorkRequeue(q, chunks, chunks, pq, k, next);
  }

  lemma ToOlderBody(q: Query, uniq: set<Id>, chunks: map<Timeline, Body>, pq: seq<QueueItem>, r: seq<Entry>, k: nat, b: Body)
    requires ValidQuery(q) && Ready(q, uniq, chunks, pq, r)
    requires k < |pq| && Seen(q, uniq, pq[k].timeline, pq[k].item)
    requires Head(q, uniq, chunks, pq[k]) && pq[k].index == |chunks[pq[k].timeline].items| - 1
    requires
      var s := q.sources[pq[k].timeline];
      var p := PreviousChunk(s, chunks[pq[k].timeline], pq[k].item);
      p >= 0 && GetChunk(s, Chunk2Time(s.size, p)) == Some(b) && |b.items| > 0
    ensures
      var tl := pq[k].timeline;
      var pq' := Without(pq, k) + [QueueItem(tl, b.items[0], 0)];
      Ready(q, uniq, chunks[tl := b], pq', r) && Work(q, chunks[tl := b], pq') == Work(q, chunks, pq) - 1
  {
    var tl := pq[k].timeline;
    var next := QueueItem(tl, b.items[0], 0);
    NextHead(q, uniq, chunks, pq[k], b);
    Requeue(q, uniq, chunks, chunks[tl := b], pq, r, k, next);
    WorkRequeue(q, chunks, chunks[tl := b], pq, k, next);
  }

  lemma ToNothing(q: Query, uniq: set<Id>, chunks: map<Timeline, Body>, pq: seq<QueueItem>, r: seq<Entry>, k: nat)
    requires ValidQuery(q) && Ready(q, uniq, chunks, pq, r)
    requires k < |pq| && Seen(q, uniq, pq[k].timeline, pq[k].item)
    requires Head(q, uniq, chunks, pq[k]) && pq[k].index == |chunks[pq[k].timeline].items| - 1
    requires
      var s := q.sources[pq[k].timeline];
      var p := PreviousChunk(s, chunks[pq[k].timeline], pq[k].item);
      p >= 0 && GetChunk(s, Chunk2Time(s.size, p)).None?
    ensures Ready(q, uniq, chunks, Without(pq, k), r) && Work(q, chunks, Without(pq, k)) == Work(q, chunks, pq) - 1
  {
    if Kept(q, pq[k].timeline) { NoNext(q, uniq, chunks, pq[k]); }
    Leave(q, uniq, chunks, pq, r, k);
    WorkWithout(q, chunks, pq, k);
  }

  /** Moves the popped timeline on: to its next item, to an older body, or out of
      the queue. Each pop takes exactly one off the work left. */
  method Advance(q: Query, ghost uniq: set<Id>, chunks: map<Timeline, Body>, pq: seq<QueueItem>, ghost r: seq<Entry>, k: nat)
    returns (chunks': map<Timeline, Body>, pq': seq<QueueItem>)
    requires ValidQuery(q) && Ready(q, uniq, chunks, pq, r)
    requires k < |pq| && Seen(q, uniq, pq[k].timeline, pq[k].item)
    ensures Ready(q, uniq, chunks', pq', r)
    ensures Work(q, chunks', pq') == Work(q, chunks, pq) - 1
  {
    var smallest := pq[k];
    var timeline := smallest.timeline;
    assert Head(q, uniq, chunks, smallest);
    var items := chunks[timeline].items;
    if smallest.index + 1 < |items| {
      var next := QueueItem(timeline, items[smallest.index + 1], smallest.index + 1);
      ToNextItem(q, uniq, chunks, pq, r, k, next);
      chunks', pq' := chunks, Without(pq, k) + [next];
    } else {
      var s := q.sources[timeline];
      var prev := PreviousChunk(s, chunks[timeline], smallest.item);
      PreviousChunkLower(q, uniq, chunks, smallest);
      NonEmptyBody(s, prev);
      var older := GetChunk(s, Chunk2Time(s.size, prev));
      if older.Some? && |older.value.items| > 0 {
        ToOlderBody(q, uniq, chunks, pq, r, k, older.value);
        chunks' := chunks[timeline := older.value];
        pq' := Without(pq, k) + [QueueItem(timeline, older.value.items[0], 0)];
      } else {
        ToNothing(q, uniq, chunks, pq, r, k);
        chunks', pq' := chunks, Without(pq, k);
      }
    }
  }

  /** Returning the popped item keeps everything in place for the next pop. */
  lemma Return(q: Query, uniq: set<Id>, chunks: map<Timeline, Body>, pq: seq<QueueItem>, r: seq<Entry>, k: nat)
    requires ValidQuery(q) && Ready(q, uniq, chunks, pq, r)
    requires Answer(q, r) && Ids(r) == uniq && IsMax(pq, k)
    requires !Seen(q, uniq, pq[k].timeline, pq[k].item)
    ensures
      var r' := r + [Entry(pq[k].item, pq[k].timeline)];
      var uniq' := uniq + {pq[k].item.id};
      Answer(q, r') && Ids(r') == uniq' && Ready(q, uniq', chunks, pq, r')
  {
    Emit(q, uniq, chunks, pq, r, k);
    SeenMonotone(q, uniq, uniq + {pq[k].item.id}, chunks, pq, {});
  }

  /** QueryDescending. `drained` tells whether the queue was empty at the end: of a query
      that returned less than the limit, exactly where its cost is within the cap. */
  method QueryDescending(q: Query, limit: int) returns (result: seq<Entry>, drained: bool)
    requires ValidQuery(q)
    ensures limit >= 0 ==> |result| <= limit
    ensures Answer(q, result)
    ensures forall tl :: Kept(q, tl) ==> GapFree(q, result, tl)
    ensures drained ==> forall tl :: Kept(q, tl) ==> Complete(q, result, tl)
    ensures drained ==> Cost(q) <= ITERATION_CAP
    ensures |result| < limit ==> (drained <==> Cost(q) <= ITERATION_CAP)
  {
    var chunks := FirstChunks(q);
    var pq := FillQueue(q, chunks);
    var uniq: set<Id> := {};
    result := [];
    var itrlimit := ITERATION_CAP;
    while |result| < limit && pq != [] && itrlimit > 0
      invariant limit >= 0 ==> |result| <= limit
      invariant Ready(q, uniq, chunks, pq, result)
      invariant Answer(q, result) && Ids(result) == uniq
      invariant 0 <= itrlimit && ITERATION_CAP - itrlimit + Work(q, chunks, pq) == Cost(q)
      decreases itrlimit
    {
      itrlimit := itrlimit - 1;
      var k := PopMax(pq);
      var smallest := pq[k];
      if smallest.item.id !in uniq && !Retracted(q, smallest.timeline, smallest.item.id) {
        Return(q, uniq, chunks, pq, result, k);
        result := result + [Entry(smallest.item, smallest.timeline)];
        uniq := uniq + {smallest.item.id};
      }
      chunks, pq := Advance(q, uniq, chunks, pq, result, k);
    }
    drained := pq == [];
    WorkPositive(q, uniq, chunks, pq);
    Finish(q, uniq, chunks, pq, result);
  }

  lemma WorkPositive(q: Query, uniq: set<Id>, chunks: map<Timeline, Body>, pq: seq<QueueItem>)
    requires ValidQuery(q)
    requires Heads(q, uniq, chunks, pq)
    ensures pq != [] ==> Work(q, chunks, pq) > 0
  {
    if pq != [] {
      assert pq[0] in pq && Head(q, uniq, chunks, pq[0]);
    }
  }

  /** A body the iterator points at is never empty. */
  lemma NonEmptyBody(s: Source, p: nat)
    requires ValidSource(s)
    ensures
      Chunk2Time(s.size, p) >= 0 &&
      (GetChunk(s, Chunk2Time(s.size, p)).Some? ==> |GetChunk(s, Chunk2Time(s.size, p)).value.items| > 0)
  {
    ChunkStart(s.size, p);
    assert LookupContract(s, p);
    if GetChunk(s, Chunk2Time(s.size, p)).Some? {
      assert BodyContract(s, s.lookup(p).value);
    }
  }

  lemma Finish(q: Query, uniq: set<Id>, chunks: map<Timeline, Body>, pq: seq<QueueItem>, r: seq<Entry>)
    requires ValidQuery(q)
    requires Heads(q, uniq, chunks, pq) && Drained(q, uniq, pq, {})
    requires Ids(r) == uniq && BelowLast(q, uniq, pq, r)
    ensures forall tl :: Kept(q, tl) ==> GapFree(q, r, tl)
    ensures pq == [] ==> forall tl :: Kept(q, tl) ==> Complete(q, r, tl)
  {
    forall tl, i | Kept(q, tl) && Eligible(q, Entry(i, tl)) && i.id !in Ids(r)
      ensures Queued(pq, tl) && (r != [] ==> i.ts <= r[|r| - 1].item.ts)
    {
      assert !Seen(q, uniq, tl, i);
      var e :| e in pq && e.timeline == tl;
    }
  }
}
