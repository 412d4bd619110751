/** Chunked timelines as the merging reader sees them (chunkline/types.go,
    chunkline/interface.go): chunk arithmetic, and the contract between the
    iterator and body queries of one timeline. */
module Chunkline {
  import opened Wrappers

  type Id = string
  type Timeline = string

  // Instants are unix nanoseconds; every instant in play is non-negative.
  const NANOS: nat := 1_000_000_000

  function Time2Chunk(size: nat, t: nat): nat
    requires size > 0
  {
    t / NANOS / size
  }

  function Chunk2Time(size: nat, c: int): int {
    c * size * NANOS
  }

  datatype Item = Item(ts: nat, id: Id)

  datatype Body = Body(chunk: nat, items: seq<Item>)

  /** One resolved timeline: its chunk size, the first chunk its manifest
      advertises, what its server holds, and the answers of the iterator and body
      endpoints. `lookup` answers None when the endpoint fails or knows no chunk. */
  datatype Source = Source(
    size: nat,
    firstChunk: Option<nat>,
    items: set<Item>,
    lookup: nat -> Option<nat>,
    body: nat -> seq<Item>)

  predicate Descending(s: seq<Item>) {
    forall j, k :: 0 <= j < k < |s| ==> s[j].ts >= s[k].ts
  }

  /** What a body for chunk c promises: a newest-first run of the items before the
      end of c, without a gap, that holds all of chunks c and c-1. */
  ghost predicate BodyContract(s: Source, c: nat)
    requires s.size > 0
  {
    && Descending(s.body(c))
    && (forall i :: i in s.body(c) ==> i in s.items && Time2Chunk(s.size, i.ts) <= c)
    && (forall i :: i in s.items && c <= Time2Chunk(s.size, i.ts) + 1 <= c + 1 ==> i in s.body(c))
    && (forall i, b :: i in s.items && b in s.body(c) && Time2Chunk(s.size, i.ts) <= c && b.ts < i.ts
          ==> i in s.body(c))
  }

  /** What an iterator promises when it answers: the newest non-empty chunk at or
      before the one asked for. */
  ghost predicate LookupContract(s: Source, q: nat)
    requires s.size > 0
  {
    s.lookup(q).Some? ==>
      && s.lookup(q).value <= q
      && (exists i :: i in s.items && Time2Chunk(s.size, i.ts) == s.lookup(q).value)
      && (forall i :: i in s.items && Time2Chunk(s.size, i.ts) <= q ==> Time2Chunk(s.size, i.ts) <= s.lookup(q).value)
  }

  /** A usable timeline. Chunk 0 is the 1970 bucket and holds nothing. */
  ghost predicate ValidSource(s: Source) {
    && s.size > 0
    && (forall i :: i in s.items ==> Time2Chunk(s.size, i.ts) >= 1)
    && (s.firstChunk.Some? ==> forall i :: i in s.items ==> s.firstChunk.value <= Time2Chunk(s.size, i.ts))
    && (forall q: nat :: LookupContract(s, q))
    && (forall c: nat :: BodyContract(s, c))
  }

  /** No lookup ever failed: an unanswered one means there was nothing to find. */
  ghost predicate Reliable(s: Source)
    requires s.size > 0
  {
    forall q: nat, i :: s.lookup(q).None? && i in s.items ==> q < Time2Chunk(s.size, i.ts)
  }

  lemma DivBelow(t: nat, d: nat, c: int)
    requires d > 0
    ensures t / d < c <==> t < c * d
  {
    var q := t / d;
    assert t == d * q + t % d;
    if q < c {
      assert (q + 1) * d <= c * d;
    } else {
      assert c * d <= q * d;
    }
  }

  lemma DivMonotone(a: nat, b: nat, d: nat)
    requires d > 0
    requires a <= b
    ensures a / d <= b / d
  {
    DivBelow(a, d, b / d + 1);
    DivBelow(b, d, b / d + 1);
  }

  lemma ChunkMonotone(size: nat, a: nat, b: nat)
    requires size > 0
    requires a <= b
    ensures Time2Chunk(size, a) <= Time2Chunk(size, b)
  {
    DivMonotone(a, b, NANOS);
    DivMonotone(a / NANOS, b / NANOS, size);
  }

  /** A chunk is the half-open span between its start and the next chunk's start. */
  lemma ChunkSpan(size: nat, t: nat, c: int)
    requires size > 0
    ensures Time2Chunk(size, t) < c <==> t < Chunk2Time(size, c)
  {
    DivBelow(t / NANOS, size, c);
    DivBelow(t, NANOS, c * size);
  }

  lemma ChunkStart(size: nat, c: nat)
    requires size > 0
    ensures Chunk2Time(size, c) >= 0
    ensures Time2Chunk(size, Chunk2Time(size, c)) == c
  {
    assert c * size >= 0;
    ChunkSpan(size, Chunk2Time(size, c), c);
    ChunkSpan(size, Chunk2Time(size, c), c + 1);
    assert (c + 1) * size == c * size + size;
  }

  // ---- A manifest with a last chunk ----

  /** LookupChunkItrs never asks past the last chunk a manifest advertises. */
  function Clamped(s: Source, last: nat): Source {
    s.(lookup := (q: nat) => s.lookup(if last < q then last else q))
  }

  /** Where the manifest tells the truth about its last chunk, not asking past it changes
      nothing the reader relies on. */
  lemma ClampedIsValid(s: Source, last: nat)
    requires ValidSource(s) && forall i :: i in s.items ==> Time2Chunk(s.size, i.ts) <= last
    ensures ValidSource(Clamped(s, last)) && (Reliable(s) ==> Reliable(Clamped(s, last)))
  {
    var t := Clamped(s, last);
    forall q: nat ensures LookupContract(t, q) {
      assert LookupContract(s, if last < q then last else q);
    }
    forall c: nat ensures BodyContract(t, c) {
      assert BodyContract(s, c);
    }
    if Reliable(s) {
      forall q: nat, i | t.lookup(q).None? && i in t.items ensures q < Time2Chunk(t.size, i.ts) {
        assert s.lookup(if last < q then last else q).None?;
      }
    }
  }
}
