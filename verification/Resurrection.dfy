/** When a commit stores its document, exactly, and what that makes of collected ones: the
    exemption from the backdate window is what it takes to bring one back. */
module Resurrection {
  import opened Wrappers
  import opened Store
  import opened StoreInvariant
  import opened Replay
  import Deletion
  import KeyTaking
  import Cdid

  /** A record, association or delete document: the kinds that are ever collected. */
  predicate Collected(doc: Document) {
    doc.content.Record? || doc.content.Association? || doc.content.Delete?
  }

  /** The tables let the document in: its key is free or held by an older record; its
      associate is here and nothing says the same; its targets are found and deletable. */
  predicate Applicable(db: Db, doc: Document, env: Env)
    requires Collected(doc)
  {
    match doc.content
    case Record(key, at, _, _) => TakesKey(db, key, at)
    case Association(associate, _, unique, _) =>
      env.local && associate in db.keys && doc.id !in db.associations &&
      forall b :: b in db.associations ==> db.associations[b].unique != unique
    case Delete(_) => Deletion.Deletes(db, doc, env)
  }

  lemma RecordStores(db: Db, doc: Document, env: Env)
    requires doc.content.Record? && doc.id !in db.logs
    ensures
      var a := ApplyContent(db, doc, env);
      && (a.Done? <==> Applicable(db, doc, env))
      && (a.Done? ==> doc.id in a.db.logs)
  {
    var logged := PutLog(db, doc);
    assert logged.keys == db.keys && doc.id in logged.logs;
    CreateRecordExtends(logged, doc, env);
  }

  lemma AssociationStores(db: Db, doc: Document, env: Env)
    requires doc.content.Association? && doc.id !in db.logs
    ensures
      var a := ApplyContent(db, doc, env);
      && (a.Done? && env.local <==> Applicable(db, doc, env))
      && (a.Done? ==> (doc.id in a.db.logs <==> env.local))
  {
    var logged := PutLog(db, doc);
    assert logged.keys == db.keys && logged.associations == db.associations && doc.id in logged.logs;
    CreateAssociationExtends(logged, doc);
  }

  lemma DeleteLogged(db: Db, doc: Document, env: Env)
    requires Good(db) && doc.content.Delete? && doc.id !in db.logs
    requires DeleteRecord(db, PutLog(db, doc), doc, env).Done?
    ensures doc.id in DeleteRecord(db, PutLog(db, doc), doc, env).db.logs
  {
    DeleteSweeps(db, doc, env);
  }

  lemma DeleteStores(db: Db, doc: Document, env: Env)
    requires Good(db) && doc.content.Delete? && doc.id !in db.logs
    ensures
      var a := ApplyContent(db, doc, env);
      && (a.Done? <==> Applicable(db, doc, env))
      && (a.Done? ==> doc.id in a.db.logs)
  {
    var a := DeleteRecord(db, PutLog(db, doc), doc, env);
    assert ApplyContent(db, doc, env) == a && Applicable(db, doc, env) == Deletion.Deletes(db, doc, env);
    Deletion.DeleteAppliesExactly(db, doc, env);
    if a.Done? { DeleteLogged(db, doc, env); }
  }

  /** A commit stores its new document exactly when the windows, the checks and the tables
      let it in. */
  lemma StoresExactly(db: Db, now: int, doc: Document, env: Env)
    requires Good(db) && Collected(doc) && doc.id !in db.logs
    ensures doc.id in Commit(db, now, doc, env).0.logs <==> InWindow(doc, env, now) && env.vetted && Applicable(db, doc, env)
  {
    if doc.content.Record? {
      RecordStores(db, doc, env);
    } else if doc.content.Association? {
      AssociationStores(db, doc, env);
    } else {
      DeleteStores(db, doc, env);
    }
  }

  /** A document that was stored once and is no longer in the log takes effect again exactly
      when its commit is exempt from the window and everything else lets it in. */
  lemma GoneTakesEffectIffExempt(w: World, doc: Document, env: Env)
    requires Good(w.db) && Identified(doc) && Collected(doc) && Guarded(w, doc) && doc.id !in w.db.logs
    ensures
      doc.id in Next(w, Submit(doc, env)).db.logs <==>
        env.exempt && env.vetted && doc.createdAt <= w.now + MAX_FUTURE_SKEW && Applicable(w.db, doc, env)
  {
    if env.exempt {
      StoresExactly(w.db, w.now, doc, env);
    } else {
      ReplayRefused(w, doc, Submit(doc, env));
    }
  }

  /** In every run and at every moment at which a document stored before has been collected,
      a commit of it takes effect exactly when it is exempt from the window and everything
      else lets it in. */
  lemma CollectedTakesEffectIffExempt(run: Run, i: nat, j: nat, doc: Document, env: Env)
    requires IsRun(run) && i <= j <= |run.steps| && Identified(doc) && Collected(doc)
    requires doc.id in run.worlds[i].db.logs && doc.id !in run.worlds[j].db.logs
    ensures
      var w := run.worlds[j];
      doc.id in Next(w, Submit(doc, env)).db.logs <==>
        env.exempt && env.vetted && doc.createdAt <= w.now + MAX_FUTURE_SKEW && Applicable(w.db, doc, env)
  {
    StaysGuarded(run, i, j, doc);
    RunGood(run, j);
    GoneTakesEffectIffExempt(run.worlds[j], doc, env);
  }

  /** An association that brings its associated document along may be attached to a
      placeholder key; while the key holds nothing it cannot be deleted again. */
  lemma StuckOnPlaceholder(db: Db, now: int, doc: Document, env: Env, del: Document, later: Env)
    requires Good(db) && doc.content.Association? && doc.id !in db.logs
    requires InWindow(doc, env, now) && env.vetted && Applicable(db, doc, env)
    requires Live(db, doc.content.associate).None?
    requires del.content == Delete(ById(doc.id)) && later.authoritative && del.id != doc.id && del.id !in db.logs
    ensures
      var after := Commit(db, now, doc, env).0;
      && doc.id in after.logs && doc.id in after.associations
      && Commit(after, now, del, later) == (after, Rejected)
  {
    var after := Commit(db, now, doc, env).0;
    StoresExactly(db, now, doc, env);
    CommitGood(db, now, doc, env);
    CommitExtends(db, now, doc, env);
    assert Targets(after, del, later) == [Found(None, doc.id, doc)];
    Deletion.DeleteAppliesExactly(after, del, later);
    assert !Deletion.Sweepable(after, later, Found(None, doc.id, doc));
  }

  // ---- A run that brings a deleted record back ----

  function Anywhere(exempt: bool): Env {
    Env(exempt, true, true, [], true, [], [], {}, (dest, href) => dest, u => true)
  }

  /** A note, and the delete its author sends for it, both in time at `start`. */
  predicate NoteAndDelete(start: int, note: Document, del: Document) {
    && NoteFor(note, del)
    && Identified(note) && Identified(del) && note.id != del.id
    && InWindow(note, Anywhere(false), start) && InWindow(del, Anywhere(false), start)
    // ids can tell the clock apart from what it was when the note was written
    && 0 <= start && Stamp(note) < Cdid.MAX_MILLI
  }

  predicate NoteFor(note: Document, del: Document) {
    note.content.Record? && !note.content.retain && del.content == Delete(ByKey(note.content.key))
  }

  predicate Holds(db: Db, note: Document)
    requires note.content.Record?
  {
    Live(db, note.content.key) == Some(note.id) && note.id in db.logs && db.logs[note.id].document == note
  }

  lemma StoreNote(w: World, note: Document)
    requires w.db == EMPTY && note.content.Record? && InWindow(note, Anywhere(false), w.now)
    ensures
      var after := Next(w, Submit(note, Anywhere(false)));
      Good(after.db) && after.now == w.now && after.db.logs.Keys == {note.id} && Holds(after.db, note)
  {
    EmptyGood();
    var env := Anywhere(false);
    CommitGood(w.db, w.now, note, env);
    StoresExactly(w.db, w.now, note, env);
    CommitExtends(w.db, w.now, note, env);
    KeyTaking.TakesExactly(w.db, note, env);
  }

  lemma FindsNote(db: Db, note: Document, del: Document)
    requires NoteFor(note, del) && Holds(db, note)
    ensures Targets(db, del, Anywhere(false)) == [Found(Some(note.content.key), note.id, note)]
  {
    var f := FoundByKey(db, note.content.key);
    assert [note.content.key][1..] == [];
    assert FindKeys(db, [note.content.key]) == [f] + [];
  }

  lemma NoteAddressed(db: Db, env: Env, f: Found)
    requires env.authoritative && f.document.content.Record?
    ensures f.id in Deletion.AllAddressed(db, env, [f])
  {
    assert f.id in Deletion.TargetAddressed(db, env, f);
  }

  /** The delete takes the key and flags the note. */
  lemma DeletesNote(db: Db, note: Document, del: Document)
    requires Good(db) && del.id !in db.logs && NoteFor(note, del) && Holds(db, note)
    ensures
      var a := DeleteRecord(db, PutLog(db, del), del, Anywhere(false));
      a.Done? && note.id in a.db.logs && a.db.logs[note.id].flagged && note.content.key !in a.db.keys
  {
    var env := Anywhere(false);
    var f := Found(Some(note.content.key), note.id, note);
    FindsNote(db, note, del);
    NoteAddressed(db, env, f);
    Deletion.DeleteAppliesExactly(db, del, env);
    Deletion.DeleteFlagsExactly(db, del, env);
    Deletion.DeleteExact(db, del, env, note.content.key);
    assert Deletion.Hit(db, env, f, note.content.key);
  }

  lemma DeleteNote(w: World, note: Document, del: Document)
    requires Good(w.db) && del.id !in w.db.logs && InWindow(del, Anywhere(false), w.now)
    requires NoteFor(note, del) && Holds(w.db, note)
    ensures
      var after := Next(w, Submit(del, Anywhere(false)));
      && Good(after.db) && after.now == w.now && note.id in after.db.logs && after.db.logs[note.id].flagged
      && note.content.key !in after.db.keys
  {
    CommitGood(w.db, w.now, del, Anywhere(false));
    DeletesNote(w.db, note, del);
  }

  const EIGHT_DAYS: nat := 8 * 24 * HOUR

  lemma CollectNote(w: World, start: int, note: Document)
    requires Good(w.db) && w.now == start + EIGHT_DAYS && 0 <= start && Identified(note)
    requires note.createdAt <= start + MAX_FUTURE_SKEW && Stamp(note) < Cdid.MAX_MILLI
    requires note.id in w.db.logs && w.db.logs[note.id].flagged
    ensures note.id in Collectable(w.db, Cutoff(w.now, MAX_BACKDATE))
  {
    BelowCutoff(w.now, MAX_BACKDATE, note);
  }

  lemma StillStepped(run: Run, step: Step, w: World, k: nat)
    requires |run.worlds| == |run.steps| + 1 && k < |run.steps| && Stepped(run, k)
    ensures Stepped(Run(run.worlds + [w], run.steps + [step]), k)
  {
  }

  lemma NewlyStepped(run: Run, step: Step, w: World)
    requires |run.worlds| == |run.steps| + 1 && w == Next(run.worlds[|run.steps|], step)
    ensures Stepped(Run(run.worlds + [w], run.steps + [step]), |run.steps|)
  {
  }

  lemma Extend(run: Run, step: Step, w: World) returns (longer: Run)
    requires IsRun(run) && w == Next(run.worlds[|run.steps|], step)
    ensures IsRun(longer) && longer == Run(run.worlds + [w], run.steps + [step])
  {
    longer := Run(run.worlds + [w], run.steps + [step]);
    NewlyStepped(run, step, w);
    forall k | 0 <= k < |longer.steps| ensures Stepped(longer, k) {
      if k < |run.steps| {
        assert Stepped(run, k);
        StillStepped(run, step, w, k);
      }
    }
  }

  lemma StoreFirst(start: int, note: Document) returns (run: Run)
    requires note.content.Record? && InWindow(note, Anywhere(false), start)
    ensures IsRun(run) && |run.steps| == 1 && run.worlds[0] == World(EMPTY, start, map[])
    ensures run.steps[0] == Submit(note, Anywhere(false))
    ensures
      var w := run.worlds[1];
      Good(w.db) && w.now == start && w.db.logs.Keys == {note.id} && Holds(w.db, note)
  {
    var w0 := World(EMPTY, start, map[]);
    EmptyGood();
    StoreNote(w0, note);
    run := Extend(Run([w0], []), Submit(note, Anywhere(false)), Next(w0, Submit(note, Anywhere(false))));
  }

  /** The note was stored and deleted again: the key is gone and the log flagged. */
  ghost predicate Undone(w: World, note: Document)
    requires note.content.Record?
  {
    Good(w.db) && note.id in w.db.logs && w.db.logs[note.id].flagged && note.content.key !in w.db.keys
  }

  lemma StoreAndDelete(start: int, note: Document, del: Document) returns (run: Run)
    requires NoteAndDelete(start, note, del)
    ensures IsRun(run) && |run.steps| == 2 && run.worlds[0] == World(EMPTY, start, map[])
    ensures run.steps[0] == Submit(note, Anywhere(false)) && note.id in run.worlds[1].db.logs
    ensures Undone(run.worlds[2], note) && run.worlds[2].now == start
  {
    run := StoreFirst(start, note);
    var w := run.worlds[1];
    DeleteNote(w, note, del);
    run := Extend(run, Submit(del, Anywhere(false)), Next(w, Submit(del, Anywhere(false))));
  }

  /** The collection takes the note, and its author's own import puts it back. */
  lemma NoteIsBack(w: World, start: int, note: Document)
    requires note.content.Record? && Undone(w, note)
    requires w.now == start + EIGHT_DAYS && 0 <= start && Identified(note)
    requires note.createdAt <= start + MAX_FUTURE_SKEW && Stamp(note) < Cdid.MAX_MILLI
    ensures
      var after := Next(w, Gc(MAX_BACKDATE));
      var back := Next(after, Submit(note, Anywhere(true)));
      note.id !in after.db.logs && note.id in back.db.logs && Live(back.db, note.content.key) == Some(note.id)
  {
    var after := Next(w, Gc(MAX_BACKDATE));
    CollectNote(w, start, note);
    NothingHangsOff(w.db, Collectable(w.db, Cutoff(w.now, MAX_BACKDATE)));
    NextGood(w, Gc(MAX_BACKDATE));
    StoresExactly(after.db, after.now, note, Anywhere(true));
    ImportTakesKey(after.db, after.now, note);
  }

  lemma ImportTakesKey(db: Db, now: int, note: Document)
    requires Good(db) && note.content.Record? && note.id !in db.logs && note.content.key !in db.keys
    ensures
      var after := Commit(db, now, note, Anywhere(true)).0;
      note.id in after.logs ==> Live(after, note.content.key) == Some(note.id)
  {
    if CreateRecord(PutLog(db, note), note.id, note.content, Anywhere(true)).Done? {
      KeyTaking.TakesExactly(db, note, Anywhere(true));
    }
  }

  lemma StoreToCollect(start: int, note: Document, del: Document) returns (run: Run)
    requires NoteAndDelete(start, note, del)
    ensures IsRun(run) && |run.steps| == 3 && run.worlds[0] == World(EMPTY, start, map[])
    ensures run.steps[0] == Submit(note, Anywhere(false)) && note.id in run.worlds[1].db.logs
    ensures note.content.key !in run.worlds[2].db.keys
    ensures Undone(run.worlds[3], note) && run.worlds[3].now == start + EIGHT_DAYS
  {
    run := StoreAndDelete(start, note, del);
    run := Extend(run, Tick(EIGHT_DAYS), run.worlds[2].(now := start + EIGHT_DAYS));
  }

  lemma StoreThenCollect(start: int, note: Document, del: Document) returns (run: Run)
    requires NoteAndDelete(start, note, del)
    ensures IsRun(run) && |run.steps| == 4 && run.worlds[0] == World(EMPTY, start, map[])
    ensures run.steps[0] == Submit(note, Anywhere(false)) && note.id in run.worlds[1].db.logs
    ensures note.content.key !in run.worlds[2].db.keys && note.id !in run.worlds[4].db.logs
    ensures
      var back := Next(run.worlds[4], Submit(note, Anywhere(true)));
      note.id in back.db.logs && Live(back.db, note.content.key) == Some(note.id)
  {
    run := StoreToCollect(start, note, del);
    var w := run.worlds[3];
    NoteIsBack(w, start, note);
    run := Extend(run, Gc(MAX_BACKDATE), Next(w, Gc(MAX_BACKDATE)));
  }

  /** Whatever the note, its delete and the instant they are sent: commit, delete, eight
      days, collection, and the author's own import of the very document are a run in
      which it takes effect a second time and the deleted key is back. */
  lemma ImportUndoesDelete(start: int, note: Document, del: Document) returns (run: Run)
    requires NoteAndDelete(start, note, del)
    ensures IsRun(run) && |run.steps| == 5 && run.worlds[0] == World(EMPTY, start, map[])
    ensures run.steps[0] == Submit(note, Anywhere(false)) && run.steps[4] == Submit(note, Anywhere(true))
    ensures TookEffect(run, 0) && TookEffect(run, 4) && Ordinary(run.steps[0])
    ensures note.content.key !in run.worlds[2].db.keys && Live(run.worlds[5].db, note.content.key) == Some(note.id)
  {
    run := StoreThenCollect(start, note, del);
    run := Extend(run, Submit(note, Anywhere(true)), Next(run.worlds[4], Submit(note, Anywhere(true))));
  }

  /** There is such a note and delete at every instant the clock of ids can hold. */
  lemma NoteAndItsDelete(start: nat, key: Uri) returns (note: Document, del: Document)
    requires Cdid.Clamp(start) < Cdid.MAX_MILLI
    ensures NoteAndDelete(start, note, del) && note.content.key == key
  {
    var other := [1, 0, 0, 0, 0, 0, 0, 0, 0, 0];
    assert other[0] != Cdid.NO_DATA[0];
    note := Document(Cdid.Print(Cdid.New(Cdid.NO_DATA, start)), Cdid.NO_DATA, start, "alice", Record(key, start, false, []));
    del := Document(Cdid.Print(Cdid.New(other, start)), other, start, "alice", Delete(ByKey(key)));
    Cdid.PrintDiffers(Cdid.NO_DATA, start, other, start);
  }
}
