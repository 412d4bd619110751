/** The plain reading of a descending query: gather every eligible entry, repeatedly
    take a newest one whose id is not taken yet, stop at the limit. */
module MergeReference {
  import opened Chunkline
  import opened Merge

  /** Everything the timelines the merge answers for have to offer. */
  ghost function Pool(q: Query): set<Entry>
    requires ValidQuery(q)
  {
    set tl, i | tl in q.sources && i in q.sources[tl].items && Kept(q, tl) && Eligible(q, Entry(i, tl)) :: Entry(i, tl)
  }

  ghost predicate NewestOf(pool: set<Entry>, e: Entry) {
    e in pool && forall d :: d in pool ==> d.item.ts <= e.item.ts
  }

  ghost function OtherIds(pool: set<Entry>, id: Id): set<Entry> {
    set e | e in pool && e.item.id != id
  }

  /** r sorts the pool newest first, one entry per id, and cuts at the limit. Entries of
      one instant may come in any order. */
  ghost predicate SortedCut(pool: set<Entry>, limit: nat, r: seq<Entry>)
    decreases limit
  {
    if limit == 0 || pool == {} then r == []
    else r != [] && NewestOf(pool, r[0]) && SortedCut(OtherIds(pool, r[0].item.id), limit - 1, r[1..])
  }

  /** Each item returned is the newest carrier of its id. */
  ghost predicate Carries(pool: set<Entry>, r: seq<Entry>) {
    forall e, k :: e in pool && 0 <= k < |r| && r[k].item.id == e.item.id ==> e.item.ts <= r[k].item.ts
  }

  /** Nothing strictly newer than an item returned is missing. */
  ghost predicate NoGap(pool: set<Entry>, r: seq<Entry>) {
    forall e, k :: e in pool && 0 <= k < |r| && r[k].item.ts < e.item.ts ==> e.item.id in Ids(r)
  }

  ghost predicate Drawn(pool: set<Entry>, r: seq<Entry>) {
    Newest(r) && Distinct(r) && forall k :: 0 <= k < |r| ==> r[k] in pool
  }

  /** What a merge promises, read against a pool of entries. */
  ghost predicate Merged(pool: set<Entry>, limit: nat, r: seq<Entry>) {
    && Drawn(pool, r) && Carries(pool, r) && NoGap(pool, r)
    && |r| <= limit
    && (|r| < limit ==> forall e :: e in pool ==> e.item.id in Ids(r))
  }

  // ---- The merge's promises are the sorted cut ----

  /** Every answer that keeps the merge's promises is a sorted cut of the pool. */
  lemma {:induction false} MergedIsSortedCut(pool: set<Entry>, limit: nat, r: seq<Entry>)
    requires Merged(pool, limit, r)
    ensures SortedCut(pool, limit, r)
    decreases limit
  {
    if limit == 0 || pool == {} {
      if r != [] { FirstInPool(pool, limit, r); }
    } else {
      FirstTaken(pool, limit, r);
      RestMerged(pool, limit, r);
      MergedIsSortedCut(OtherIds(pool, r[0].item.id), limit - 1, r[1..]);
    }
  }

  lemma FirstInPool(pool: set<Entry>, limit: nat, r: seq<Entry>)
    requires Merged(pool, limit, r) && r != []
    ensures r[0] in pool && limit > 0
  {
    assert r[0] in r;
  }

  lemma FirstTaken(pool: set<Entry>, limit: nat, r: seq<Entry>)
    requires Merged(pool, limit, r) && limit > 0 && pool != {}
    ensures r != [] && NewestOf(pool, r[0])
  {
    var some :| some in pool;
    assert r == [] ==> some.item.id in Ids([]);
    assert r[0] in r;
    forall e | e in pool ensures e.item.ts <= r[0].item.ts {
      if e.item.id in Ids(r) {
        var d :| d in r && d.item.id == e.item.id;
        var k :| 0 <= k < |r| && r[k] == d;
        assert e.item.ts <= r[k].item.ts <= r[0].item.ts;
      }
    }
  }

  lemma RestMerged(pool: set<Entry>, limit: nat, r: seq<Entry>)
    requires Merged(pool, limit, r) && limit > 0 && r != []
    ensures Merged(OtherIds(pool, r[0].item.id), limit - 1, r[1..])
  {
    IdsCons(r);
    RestDrawn(pool, r);
    RestPromises(pool, r);
  }

  lemma RestDrawn(pool: set<Entry>, r: seq<Entry>)
    requires r != [] && Drawn(pool, r)
    ensures Drawn(OtherIds(pool, r[0].item.id), r[1..])
  {
    assert forall k :: 0 <= k < |r| - 1 ==> r[1..][k] == r[k + 1];
  }

  lemma RestPromises(pool: set<Entry>, r: seq<Entry>)
    requires r != [] && Carries(pool, r) && NoGap(pool, r)
    ensures Carries(OtherIds(pool, r[0].item.id), r[1..]) && NoGap(OtherIds(pool, r[0].item.id), r[1..])
  {
    var others, rest := OtherIds(pool, r[0].item.id), r[1..];
    IdsCons(r);
    forall e, k | e in others && 0 <= k < |rest|
      ensures rest[k].item.id == e.item.id ==> e.item.ts <= rest[k].item.ts
      ensures rest[k].item.ts < e.item.ts ==> e.item.id in Ids(rest)
    {
      assert r[k + 1] == rest[k];
    }
  }

  lemma IdsCons(r: seq<Entry>)
    requires r != []
    ensures Ids(r) == Ids(r[1..]) + {r[0].item.id}
  {
    assert r == [r[0]] + r[1..];
  }

  // ---- and the sorted cut keeps them ----

  /** Every sorted cut keeps the merge's promises. */
  lemma {:induction false} SortedCutIsMerged(pool: set<Entry>, limit: nat, r: seq<Entry>)
    requires SortedCut(pool, limit, r)
    ensures Merged(pool, limit, r)
    decreases limit
  {
    if limit > 0 && pool != {} {
      SortedCutIsMerged(OtherIds(pool, r[0].item.id), limit - 1, r[1..]);
      ConsMerged(pool, limit, r);
    }
  }

  lemma ConsMerged(pool: set<Entry>, limit: nat, r: seq<Entry>)
    requires limit > 0 && r != [] && NewestOf(pool, r[0])
    requires Merged(OtherIds(pool, r[0].item.id), limit - 1, r[1..])
    ensures Merged(pool, limit, r)
  {
    IdsCons(r);
    ConsDrawn(pool, r);
    ConsPromises(pool, r);
  }

  lemma ConsDrawn(pool: set<Entry>, r: seq<Entry>)
    requires r != [] && NewestOf(pool, r[0]) && Drawn(OtherIds(pool, r[0].item.id), r[1..])
    ensures Drawn(pool, r)
  {
    assert forall k :: 1 <= k < |r| ==> r[k] == r[1..][k - 1];
  }

  lemma ConsPromises(pool: set<Entry>, r: seq<Entry>)
    requires r != [] && NewestOf(pool, r[0])
    requires Carries(OtherIds(pool, r[0].item.id), r[1..]) && NoGap(OtherIds(pool, r[0].item.id), r[1..])
    requires Distinct(r)
    ensures Carries(pool, r) && NoGap(pool, r)
  {
    var others, rest := OtherIds(pool, r[0].item.id), r[1..];
    IdsCons(r);
    forall e, k | e in pool && 0 <= k < |r|
      ensures r[k].item.id == e.item.id ==> e.item.ts <= r[k].item.ts
      ensures r[k].item.ts < e.item.ts ==> e.item.id in Ids(r)
    {
      if e.item.id != r[0].item.id && k > 0 {
        assert e in others && rest[k - 1] == r[k];
      }
    }
  }

  // ---- How far it is determined ----

  /** No two ids compete for the same instant. */
  ghost predicate NoTies(pool: set<Entry>) {
    forall d, e :: d in pool && e in pool && d.item.ts == e.item.ts ==> d.item.id == e.item.id
  }

  /** Where no two ids share an instant there is one sorted cut, item by item. */
  lemma {:induction false} SortedCutIsUnique(pool: set<Entry>, limit: nat, r: seq<Entry>, t: seq<Entry>)
    requires SortedCut(pool, limit, r) && SortedCut(pool, limit, t) && NoTies(pool)
    ensures |r| == |t| && forall k :: 0 <= k < |r| ==> r[k].item == t[k].item
    decreases limit
  {
    if limit > 0 && pool != {} {
      assert r[0].item == t[0].item;
      SortedCutIsUnique(OtherIds(pool, r[0].item.id), limit - 1, r[1..], t[1..]);
      forall k | 0 <= k < |r| ensures r[k].item == t[k].item {
        if k > 0 { assert r[k] == r[1..][k - 1] && t[k] == t[1..][k - 1]; }
      }
    }
  }

  // ---- The answer of the merge ----

  /** Where no lookup failed, an answer of the merge, full or drained, is a sorted cut of
      everything the kept timelines offer, ties, shared ids and dropped timelines or not. */
  lemma AnswerIsSortedCut(q: Query, limit: nat, r: seq<Entry>)
    requires ValidQuery(q) && forall tl :: tl in q.sources ==> Reliable(q.sources[tl])
    requires Answer(q, r) && |r| <= limit
    requires forall tl :: Kept(q, tl) ==> GapFree(q, r, tl)
    requires |r| < limit ==> forall tl :: Kept(q, tl) ==> Complete(q, r, tl)
    ensures SortedCut(Pool(q), limit, r)
  {
    var pool := Pool(q);
    forall k | 0 <= k < |r|
      ensures r[k] in pool
    {
      assert r[k] in r && r[k] == Entry(r[k].item, r[k].source) && Kept(q, r[k].source);
    }
    forall e, k | e in pool && 0 <= k < |r|
      ensures r[k].item.id == e.item.id ==> e.item.ts <= r[k].item.ts
      ensures r[k].item.ts < e.item.ts ==> e.item.id in Ids(r)
    {
      AgainstPool(q, r, e, k);
    }
    assert |r| < limit ==> forall e :: e in pool ==> e.item.id in Ids(r) by {
      forall e | e in pool && |r| < limit
        ensures e.item.id in Ids(r)
      {
        assert Eligible(q, Entry(e.item, e.source)) && Complete(q, r, e.source);
      }
    }
    MergedIsSortedCut(pool, limit, r);
  }

  lemma AgainstPool(q: Query, r: seq<Entry>, e: Entry, k: nat)
    requires Newest(r) && k < |r|
    requires Eligible(q, e)
    requires NewestCarrier(q, r, e.source) && GapFree(q, r, e.source)
    ensures r[k].item.id == e.item.id ==> e.item.ts <= r[k].item.ts
    ensures r[k].item.ts < e.item.ts ==> e.item.id in Ids(r)
  {
    assert Eligible(q, Entry(e.item, e.source));
    assert r[|r| - 1].item.ts <= r[k].item.ts;
  }

  /** Some timeline that was not dropped offers this id. */
  ghost predicate Offered(q: Query, id: Id)
    requires ValidQuery(q)
  {
    exists tl, i :: Kept(q, tl) && Eligible(q, Entry(i, tl)) && i.id == id
  }

  /** A drained merge returns everything a timeline has to offer if and only if each of
      its eligible ids is also offered by a timeline that was not dropped; for a kept
      timeline that is itself. */
  lemma CompleteExactly(q: Query, r: seq<Entry>, tl: Timeline)
    requires ValidQuery(q) && Answer(q, r)
    requires forall t :: t in q.sources ==> Reliable(q.sources[t])
    requires forall t :: Kept(q, t) ==> Complete(q, r, t)
    ensures Complete(q, r, tl) <==> forall i :: Eligible(q, Entry(i, tl)) ==> Offered(q, i.id)
  {
    forall i | Eligible(q, Entry(i, tl)) ensures i.id in Ids(r) <==> Offered(q, i.id) {
      if i.id in Ids(r) {
        var e :| e in r && e.item.id == i.id;
        assert Kept(q, e.source) && Eligible(q, Entry(e.item, e.source));
      }
      if Offered(q, i.id) {
        var t, j :| Kept(q, t) && Eligible(q, Entry(j, t)) && j.id == i.id;
        assert Complete(q, r, t);
      }
    }
  }
}
