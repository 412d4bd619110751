/** Whole runs of commits, clock ticks and collections: what the server stored never
    takes effect twice, and collection is invisible. */
module Replay {
  import opened Wrappers
  import opened Store
  import opened StoreInvariant
  import Cdid

  /** The tables, the clock, and the receipt time column of the commit log. */
  datatype World = World(db: Db, now: int, received: map<Id, int>)

  datatype Step = Submit(doc: Document, env: Env) | Tick(elapsed: nat) | Gc(retention: int)

  function Next(w: World, step: Step): World {
    match step
    case Submit(doc, env) =>
      var after := Commit(w.db, w.now, doc, env).0;
      w.(db := after, received := if doc.id in after.logs && doc.id !in w.db.logs then w.received[doc.id := w.now] else w.received)
    case Tick(elapsed) => w.(now := w.now + elapsed)
    case Gc(retention) => w.(db := Collect(w.db, w.now, retention))
  }

  /** A run: the worlds between the steps, from an initial one that meets the invariant. */
  datatype Run = Run(worlds: seq<World>, steps: seq<Step>)

  ghost predicate IsRun(run: Run) {
    && |run.worlds| == |run.steps| + 1
    && Good(run.worlds[0].db)
    && (forall k :: 0 <= k < |run.steps| ==> Stepped(run, k))
  }

  predicate Stepped(run: Run, k: nat)
    requires k < |run.steps| && |run.worlds| == |run.steps| + 1
  {
    run.worlds[k + 1] == Next(run.worlds[k], run.steps[k])
  }

  // ---- The invariant over runs ----

  lemma NextGood(w: World, step: Step)
    requires Good(w.db)
    ensures Good(Next(w, step).db)
  {
    match step
    case Submit(doc, env) => CommitGood(w.db, w.now, doc, env);
    case Tick(_) =>
    case Gc(retention) => CollectGood(w.db, w.now, retention);
  }

  lemma {:induction false} RunGood(run: Run, n: nat)
    requires IsRun(run) && n <= |run.steps|
    ensures Good(run.worlds[n].db)
  {
    if n > 0 {
      RunGood(run, n - 1);
      assert Stepped(run, n - 1);
      NextGood(run.worlds[n - 1], run.steps[n - 1]);
    }
  }

  // ---- The replay guard ----

  /** The millisecond the author's instant is filed under. */
  function Stamp(doc: Document): nat {
    Cdid.Clamp(doc.createdAt)
  }

  lemma SameIdSameStamp(d: Document, e: Document)
    requires Identified(d) && Identified(e) && d.id == e.id
    ensures Stamp(d) == Stamp(e)
  {
    Cdid.ParsePrint(Cdid.New(d.digest, d.createdAt));
    Cdid.ParsePrint(Cdid.New(e.digest, e.createdAt));
    Cdid.TimeRoundTrip(d.digest, d.createdAt);
    Cdid.TimeRoundTrip(e.digest, e.createdAt);
  }

  /** Either the log still deduplicates the document, or the backdate window refuses it. */
  predicate Guarded(w: World, doc: Document) {
    doc.id in w.db.logs || Stamp(doc) < Cdid.Clamp(w.now - MAX_BACKDATE)
  }

  /** What sorts below the cutoff is past the backdate window. */
  lemma CollectedIsOld(now: int, retention: int, doc: Document)
    requires Identified(doc) && MAX_BACKDATE <= retention
    requires Cdid.Before(doc.id, Cutoff(now, retention))
    ensures Stamp(doc) < Cdid.Clamp(now - MAX_BACKDATE)
  {
    BelowCutoff(now, retention, doc);
    Cdid.ClampMonotone(now - retention, now - MAX_BACKDATE);
  }

  lemma BelowCutoff(now: int, retention: int, doc: Document)
    requires Identified(doc)
    ensures Cdid.Before(doc.id, Cutoff(now, retention)) <==> Stamp(doc) < Cdid.Clamp(now - retention)
  {
    Cdid.CutoffBetween(doc.id, doc.digest, doc.createdAt, Cutoff(now, retention), now - retention);
  }

  lemma CollectKeepsOthers(db: Db, now: int, retention: int, id: Id)
    requires id in db.logs && id !in Collectable(db, Cutoff(now, retention))
    ensures id in Collect(db, now, retention).logs
  {
  }

  lemma GcKeepsGuard(w: World, doc: Document, retention: int)
    requires Identified(doc) && Guarded(w, doc)
    ensures Guarded(Next(w, Gc(retention)), doc)
  {
    if doc.id in w.db.logs {
      if doc.id !in Collectable(w.db, Cutoff(w.now, retention)) {
        CollectKeepsOthers(w.db, w.now, retention, doc.id);
      } else if MAX_BACKDATE <= retention {
        CollectedIsOld(w.now, retention, doc);
      }
    }
  }

  lemma NextGuarded(w: World, step: Step, doc: Document)
    requires Good(w.db) && Identified(doc) && Guarded(w, doc)
    ensures Guarded(Next(w, step), doc)
  {
    match step
    case Submit(d, env) => CommitExtends(w.db, w.now, d, env);
    case Tick(elapsed) => Cdid.ClampMonotone(w.now - MAX_BACKDATE, w.now + elapsed - MAX_BACKDATE);
    case Gc(retention) => GcKeepsGuard(w, doc, retention);
  }

  lemma {:induction false} StaysGuarded(run: Run, i: nat, j: nat, doc: Document)
    requires IsRun(run) && i <= j <= |run.steps|
    requires Identified(doc) && Guarded(run.worlds[i], doc)
    ensures Guarded(run.worlds[j], doc)
  {
    if i < j {
      StaysGuarded(run, i, j - 1, doc);
      RunGood(run, j - 1);
      assert Stepped(run, j - 1);
      NextGuarded(run.worlds[j - 1], run.steps[j - 1], doc);
    }
  }

  /** No exemption applies: not the service account, not the requester's own import, not
      an entity or acked document. */
  predicate Ordinary(step: Step) {
    step.Submit? && !BackdateExempt(step.doc, step.env)
  }

  /** A commit of the same id, and with it the same stamp, by an ordinary path. */
  predicate Replays(step: Step, doc: Document) {
    Ordinary(step) && step.doc.id == doc.id && Stamp(step.doc) == Stamp(doc)
  }

  /** The stamp is no further demand: the id alone decides it. */
  lemma SameIdReplays(step: Step, doc: Document)
    requires Ordinary(step) && Identified(step.doc) && Identified(doc)
    ensures step.doc.id == doc.id <==> Replays(step, doc)
  {
    if step.doc.id == doc.id { SameIdSameStamp(step.doc, doc); }
  }

  lemma ReplayRefused(w: World, doc: Document, step: Step)
    requires Guarded(w, doc) && Replays(step, doc)
    ensures Next(w, step) == w
  {
    if w.now - MAX_BACKDATE <= step.doc.createdAt {
      Cdid.ClampMonotone(w.now - MAX_BACKDATE, step.doc.createdAt);
    }
  }

  /** In every run, once a document's log is stored, committing that id again by any
      ordinary path changes nothing, however much was deleted, overwritten or collected
      in between. */
  lemma ReplayChangesNothing(run: Run, i: nat, j: nat, doc: Document)
    requires IsRun(run) && i <= j < |run.steps|
    requires Identified(doc) && doc.id in run.worlds[i].db.logs
    requires Replays(run.steps[j], doc)
    ensures run.worlds[j + 1] == run.worlds[j]
  {
    StaysGuarded(run, i, j, doc);
    assert Stepped(run, j);
    ReplayRefused(run.worlds[j], doc, run.steps[j]);
  }

  /** Step k stored its document. */
  predicate TookEffect(run: Run, k: nat)
    requires k < |run.steps| && |run.worlds| == |run.steps| + 1
  {
    && run.steps[k].Submit?
    && run.steps[k].doc.id !in run.worlds[k].db.logs
    && run.steps[k].doc.id in run.worlds[k + 1].db.logs
  }

  /** In every run, no document takes effect twice unless the second commit is exempt. */
  lemma NeverTwice(run: Run, i: nat, j: nat)
    requires IsRun(run) && i < j < |run.steps| && TookEffect(run, i)
    requires Identified(run.steps[i].doc) && Replays(run.steps[j], run.steps[i].doc)
    ensures !TookEffect(run, j)
  {
    ReplayChangesNothing(run, i + 1, j, run.steps[i].doc);
  }

  /** Stored once, and no row hangs off it any more. */
  predicate Retired(w: World, doc: Document) {
    Guarded(w, doc) && doc.id !in w.db.records && doc.id !in w.db.associations
  }

  lemma NextRetired(w: World, step: Step, doc: Document)
    requires Good(w.db) && Identified(doc) && Retired(w, doc)
    requires step.Submit? && step.doc.id == doc.id ==> Replays(step, doc)
    ensures Retired(Next(w, step), doc)
  {
    NextGuarded(w, step, doc);
    match step
    case Submit(d, env) =>
      CommitExtends(w.db, w.now, d, env);
      if d.id == doc.id { ReplayRefused(w, doc, step); }
    case Tick(_) =>
    case Gc(retention) => CollectGood(w.db, w.now, retention);
  }

  /** If step k resubmits the document, then by an ordinary path. */
  predicate OrdinaryAt(run: Run, k: nat, doc: Document)
    requires k < |run.steps|
  {
    run.steps[k].Submit? && run.steps[k].doc.id == doc.id ==> Replays(run.steps[k], doc)
  }

  /** A deletion or an overwrite cannot be undone by replay: a stored document whose row
      is gone stays gone in every run that resubmits it by ordinary paths only. */
  lemma {:induction false} NoResurrection(run: Run, i: nat, j: nat, doc: Document)
    requires IsRun(run) && i <= j <= |run.steps| && Identified(doc)
    requires Retired(run.worlds[i], doc)
    requires forall k :: i <= k < j ==> OrdinaryAt(run, k, doc)
    ensures Retired(run.worlds[j], doc)
  {
    if i < j {
      NoResurrection(run, i, j - 1, doc);
      RunGood(run, j - 1);
      assert Stepped(run, j - 1) && OrdinaryAt(run, j - 1, doc);
      NextRetired(run.worlds[j - 1], run.steps[j - 1], doc);
    }
  }

  // ---- Collection while the server runs ----

  /** If the log is still there it is still flagged. */
  predicate Doomed(w: World, doc: Document) {
    Guarded(w, doc) && (doc.id in w.db.logs ==> w.db.logs[doc.id].flagged)
  }

  lemma CollectOnlyDrops(db: Db, now: int, retention: int, id: Id)
    ensures id in Collect(db, now, retention).logs ==> id in db.logs && Collect(db, now, retention).logs[id] == db.logs[id]
  {
  }

  lemma NextDoomed(w: World, step: Step, doc: Document)
    requires Good(w.db) && Identified(doc) && Doomed(w, doc)
    requires step.Submit? && step.doc.id == doc.id ==> Replays(step, doc)
    ensures Doomed(Next(w, step), doc)
  {
    NextGuarded(w, step, doc);
    match step
    case Submit(d, env) =>
      CommitExtends(w.db, w.now, d, env);
      if d.id == doc.id { ReplayRefused(w, doc, step); }
    case Tick(_) =>
    case Gc(retention) => CollectOnlyDrops(w.db, w.now, retention, doc.id);
  }

  lemma {:induction false} StaysDoomed(run: Run, i: nat, j: nat, doc: Document)
    requires IsRun(run) && i <= j <= |run.steps| && Identified(doc) && Doomed(run.worlds[i], doc)
    requires forall k :: i <= k < j ==> OrdinaryAt(run, k, doc)
    ensures Doomed(run.worlds[j], doc)
  {
    if i < j {
      StaysDoomed(run, i, j - 1, doc);
      RunGood(run, j - 1);
      assert Stepped(run, j - 1) && OrdinaryAt(run, j - 1, doc);
      NextDoomed(run.worlds[j - 1], run.steps[j - 1], doc);
    }
  }

  /** The document is flagged when the snapshot is taken, and from then on resubmitted by
      ordinary paths only. */
  ghost predicate BackedUp(run: Run, i: nat, j: nat, doc: Document)
    requires IsRun(run) && i <= j <= |run.steps|
  {
    && Identified(doc)
    && doc.id in run.worlds[i].db.logs && run.worlds[i].db.logs[doc.id].flagged
    && (forall k :: i <= k < j ==> OrdinaryAt(run, k, doc))
  }

  /** A collection may take its snapshot, upload it, and delete the snapshot's ids later
      while the server goes on: whatever was committed, deleted or collected in between,
      deleting them takes their logs and no row. */
  lemma LateDeleteIsInvisible(run: Run, i: nat, j: nat, docs: set<Document>, ids: set<Id>)
    requires IsRun(run) && i <= j <= |run.steps|
    requires forall doc :: doc in docs ==> BackedUp(run, i, j, doc)
    requires forall id :: id in ids ==> id in run.worlds[j].db.logs && exists doc :: doc in docs && doc.id == id
    ensures DropLogs(run.worlds[j].db, ids) == run.worlds[j].db.(logs := run.worlds[j].db.logs - ids)
  {
    RunGood(run, j);
    forall id | id in ids ensures run.worlds[j].db.logs[id].flagged {
      var doc :| doc in docs && doc.id == id;
      assert BackedUp(run, i, j, doc);
      StaysDoomed(run, i, j, doc);
    }
    NothingHangsOff(run.worlds[j].db, ids);
  }

  // ---- Collection is invisible ----

  /** GetSignedDocument of a key. */
  function Resolve(db: Db, uri: Uri): Option<Document> {
    if IsLive(db, uri) then Some(db.logs[Live(db, uri).value].document) else None
  }

  /** GetSignedDocument of a document id, which reads the log alone. */
  function Fetch(db: Db, id: Id): Option<Document> {
    if id in db.logs then Some(db.logs[id].document) else None
  }

  /** In every reachable state, collection changes no row and no answer by key, by
      association, by edge or by entity; fetching by id it changes exactly for the
      collected documents. */
  lemma GcInvisible(run: Run, n: nat, retention: int)
    requires IsRun(run) && n <= |run.steps| && MAX_BACKDATE <= retention
    ensures
      var w := run.worlds[n];
      var after := Next(w, Gc(retention)).db;
      && after == w.db.(logs := after.logs)
      && (forall u :: Resolve(after, u) == Resolve(w.db, u))
      && (forall a :: a in w.db.associations ==> Fetch(after, a) == Fetch(w.db, a) && Fetch(after, a).Some?)
      && (forall e :: e in w.db.acks ==> Fetch(after, w.db.acks[e].document) == Fetch(w.db, w.db.acks[e].document))
      && (forall e :: e in w.db.ackeds ==> Fetch(after, w.db.ackeds[e].document) == Fetch(w.db, w.db.ackeds[e].document))
      && (forall c :: c in w.db.entities ==> Fetch(after, w.db.entities[c].document) == Fetch(w.db, w.db.entities[c].document))
      && (forall id :: Fetch(after, id) != Fetch(w.db, id) <==> id in Collectable(w.db, Cutoff(w.now, retention)))
  {
    RunGood(run, n);
    var w := run.worlds[n];
    var gone := Collectable(w.db, Cutoff(w.now, retention));
    NothingHangsOff(w.db, gone);
    RowsSpared(w.db, gone);
  }

  lemma RowsSpared(db: Db, gone: set<Id>)
    requires Good(db)
    requires forall id :: id in gone ==> id in db.logs && db.logs[id].flagged
    ensures
      var after := db.(logs := db.logs - gone);
      && (forall u :: Resolve(after, u) == Resolve(db, u))
      && (forall a :: a in db.associations ==> Fetch(after, a) == Fetch(db, a) && Fetch(after, a).Some?)
      && (forall e :: e in db.acks ==> Fetch(after, db.acks[e].document) == Fetch(db, db.acks[e].document))
      && (forall e :: e in db.ackeds ==> Fetch(after, db.ackeds[e].document) == Fetch(db, db.ackeds[e].document))
      && (forall c :: c in db.entities ==> Fetch(after, db.entities[c].document) == Fetch(db, db.entities[c].document))
  {
    assert forall id :: id in gone ==> id !in db.records;
  }
}
