/** What an applied delete removes: exactly the targets' keys and the references their
    distribution left here, unless the destination's policy keeps them. */
module Deletion {
  import opened Wrappers
  import opened Store
  import opened StoreInvariant
  import RangeDelete

  /** A live reference one of these destinations holds to the href, which may go. */
  predicate RefHit(before: Db, env: Env, href: Uri, dests: seq<Uri>, u: Uri) {
    Live(before, u).Some? && env.permits(u) && exists k :: 0 <= k < |dests| && u == env.refKey(dests[k], href)
  }

  /** The target itself lives under this key. */
  predicate OwnHit(before: Db, env: Env, f: Found, u: Uri) {
    env.authoritative && Live(before, u) == Some(f.id)
  }

  /** The key holds a reference to the target that may go. */
  predicate SweepHit(before: Db, env: Env, f: Found, u: Uri) {
    SweptHref(f.document).Some? && RefHit(before, env, SweptHref(f.document).value, Distributes(f.document), u)
  }

  predicate Hit(before: Db, env: Env, f: Found, u: Uri) {
    OwnHit(before, env, f, u) || SweepHit(before, env, f, u)
  }

  /** Two keys never hold the same record. */
  lemma OneKeyPerRecord(db: Db, u: Uri, v: Uri)
    requires Good(db) && Live(db, u).Some? && Live(db, u) == Live(db, v)
    ensures u == v
  {
    assert Names(db.logs, Live(db, u).value, u);
    assert Names(db.logs, Live(db, v).value, v);
  }

  lemma DropByKeyExact(before: Db, s: Sweep, own: Document, uri: Uri)
    requires Good(before) && Sweeping(before, s.db, own)
    ensures forall u :: u in DropByKey(s.db, uri).keys <==> u in s.db.keys && !(u == uri && Live(before, u).Some?)
  {
    if Live(s.db, uri).Some? {
      var id := Live(s.db, uri).value;
      forall u | u in KeysOf(s.db, {id}) ensures u == uri {
        OneKeyPerRecord(s.db, u, uri);
      }
    }
  }

  lemma DropByIdExact(before: Db, s: Sweep, own: Document, id: Id)
    requires Good(before) && Sweeping(before, s.db, own)
    ensures forall u :: u in DropRecords(s.db, {id}).keys <==> u in s.db.keys && Live(before, u) != Some(id)
  {
  }

  lemma SweepReferenceExact(before: Db, s: Sweep, own: Document, env: Env, key: Uri, u: Uri)
    requires Good(before) && Sweeping(before, s.db, own)
    ensures u in SweepReference(before, s, env, key).db.keys
      <==> u in s.db.keys && !(u == key && Live(before, u).Some? && env.permits(u))
  {
    if Live(before, key).Some? && env.permits(key) {
      DropByKeyExact(before, s, own, key);
      FlagKeepsKeys(s.(db := DropByKey(s.db, key)), Live(before, key).value, Retains(before, Live(before, key).value));
    }
  }

  lemma FlagKeepsKeys(s: Sweep, id: Id, retain: bool)
    ensures FlagDeleted(s, id, retain).db.keys == s.db.keys
  {
  }

  lemma {:induction false} SweepReferencesExact(before: Db, s: Sweep, own: Document, env: Env, href: Uri, dests: seq<Uri>, u: Uri)
    requires Good(before) && Sweeping(before, s.db, own)
    ensures u in SweepReferences(before, s, env, href, dests).db.keys
      <==> u in s.db.keys && !RefHit(before, env, href, dests, u)
    decreases |dests|
  {
    if dests != [] {
      var key := env.refKey(dests[0], href);
      SweepReferenceExact(before, s, own, env, key, u);
      SweepReferenceGood(before, s, own, env, key);
      SweepReferencesExact(before, SweepReference(before, s, env, key), own, env, href, dests[1..], u);
      RefHitSplit(before, env, href, dests, u);
    }
  }

  lemma RefHitSplit(before: Db, env: Env, href: Uri, dests: seq<Uri>, u: Uri)
    requires dests != []
    ensures RefHit(before, env, href, dests, u)
      <==> (u == env.refKey(dests[0], href) && Live(before, u).Some? && env.permits(u)) || RefHit(before, env, href, dests[1..], u)
  {
    if k :| 0 <= k < |dests| && u == env.refKey(dests[k], href) {
      assert k > 0 ==> dests[1..][k - 1] == dests[k];
    }
    if k :| 0 <= k < |dests| - 1 && u == env.refKey(dests[1..][k], href) {
      assert dests[k + 1] == dests[1..][k];
    }
  }

  lemma RemoveRecordExact(before: Db, s: Sweep, own: Document, env: Env, f: Found, u: Uri)
    requires Good(before) && Sweeping(before, s.db, own) && FoundOk(before, f) && env.authoritative
    requires f.document.content.Record?
    ensures RemoveTarget(s, f).Some?
    ensures u in RemoveTarget(s, f).value.db.keys <==> u in s.db.keys && !OwnHit(before, env, f, u)
  {
    var db := if f.key.Some? then DropByKey(s.db, f.key.value) else DropRecords(s.db, {f.id});
    FlagKeepsKeys(s.(db := db), f.id, f.document.content.retain);
    if f.key.Some? {
      DropByKeyExact(before, s, own, f.key.value);
      if Live(before, u) == Some(f.id) { OneKeyPerRecord(before, u, f.key.value); }
    } else {
      DropByIdExact(before, s, own, f.id);
    }
  }

  lemma RemoveTargetExact(before: Db, s: Sweep, own: Document, env: Env, f: Found, u: Uri)
    requires Good(before) && Sweeping(before, s.db, own) && FoundOk(before, f) && env.authoritative
    requires RemoveTarget(s, f).Some?
    ensures u in RemoveTarget(s, f).value.db.keys <==> u in s.db.keys && !OwnHit(before, env, f, u)
  {
    if f.document.content.Record? {
      RemoveRecordExact(before, s, own, env, f, u);
    } else {
      assert Live(before, u).Some? ==> Names(before.logs, Live(before, u).value, u);
    }
  }

  lemma SweepTargetExact(before: Db, s: Sweep, own: Document, env: Env, f: Found, u: Uri)
    requires Good(before) && Sweeping(before, s.db, own)
    requires env.authoritative ==> FoundOk(before, f)
    requires SweepTarget(before, s, env, f).Some?
    ensures u in SweepTarget(before, s, env, f).value.db.keys <==> u in s.db.keys && !Hit(before, env, f, u)
  {
    if env.authoritative {
      RemoveTargetGood(before, s, own, f);
      RemoveTargetExact(before, s, own, env, f, u);
    }
    var removed := (if env.authoritative then RemoveTarget(s, f) else Some(s)).value;
    SweepReferencesExact(before, removed, own, env, SweptHref(f.document).value, Distributes(f.document), u);
  }

  lemma {:induction false} DeleteTargetsExact(before: Db, s: Sweep, own: Document, env: Env, targets: seq<Found>, u: Uri)
    requires Good(before) && Sweeping(before, s.db, own)
    requires env.authoritative ==> forall f :: f in targets ==> FoundOk(before, f)
    requires DeleteTargets(before, s, env, targets).Some?
    ensures u in DeleteTargets(before, s, env, targets).value.db.keys
      <==> u in s.db.keys && forall f :: f in targets ==> !Hit(before, env, f, u)
    decreases |targets|
  {
    if targets != [] {
      var f := targets[0];
      SweepTargetGood(before, s, own, env, f);
      SweepTargetExact(before, s, own, env, f, u);
      var swept := SweepTarget(before, s, env, f).value;
      DeleteTargetsExact(before, swept, own, env, targets[1..], u);
      assert forall g :: g in targets <==> g == f || g in targets[1..];
    }
  }

  /** An applied delete removes a key exactly when it hits one of the targets, and leaves
      every other key row as it was. */
  lemma DeleteExact(db: Db, doc: Document, env: Env, u: Uri)
    requires Good(db) && doc.content.Delete? && doc.id !in db.logs
    requires DeleteRecord(db, PutLog(db, doc), doc, env).Done?
    ensures
      var after := DeleteRecord(db, PutLog(db, doc), doc, env).db;
      && (u in after.keys <==> u in db.keys && forall f :: f in Targets(db, doc, env) ==> !Hit(db, env, f, u))
      && (u in after.keys ==> after.keys[u] == db.keys[u])
  {
    var targets := Targets(db, doc, env);
    if env.authoritative { TargetsOk(db, doc, env); }
    var s := Sweep(PutLog(db, doc), false, false);
    StartsSweeping(db, doc);
    DeleteTargetsExact(db, s, doc, env, targets, u);
    DeleteTargetsGood(db, s, doc, env, targets);
    FlagKeepsKeys(DeleteTargets(db, s, env, targets).value, doc.id, false);
  }

  // ---- What a delete flags ----

  /** The references a sweep over these destinations removes. */
  function RefsRemoved(before: Db, env: Env, href: Uri, dests: seq<Uri>): seq<Id> {
    if dests == [] then []
    else
      var key := env.refKey(dests[0], href);
      (if Live(before, key).Some? && env.permits(key) then [Live(before, key).value] else []) + RefsRemoved(before, env, href, dests[1..])
  }

  /** The documents a delete acts on for one target: the target itself where this server
      decides, whether or not a row is left of it, and the references to it. */
  function TargetAddressed(before: Db, env: Env, f: Found): seq<Id> {
    (if env.authoritative then [f.id] else []) +
    (if SweptHref(f.document).Some? then RefsRemoved(before, env, SweptHref(f.document).value, Distributes(f.document)) else [])
  }

  function AllAddressed(before: Db, env: Env, targets: seq<Found>): seq<Id> {
    if targets == [] then [] else TargetAddressed(before, env, targets[0]) + AllAddressed(before, env, targets[1..])
  }

  predicate Flagged(db: Db, id: Id) {
    id in db.logs && db.logs[id].flagged
  }

  /** Between s and t exactly these documents were acted on: flagged unless they ask to be
      retained, and counted either way. */
  ghost predicate Marks(before: Db, s: Sweep, t: Sweep, ids: seq<Id>) {
    && s.db.logs.Keys == t.db.logs.Keys
    && (forall id :: id in s.db.logs ==> (Flagged(t.db, id) <==> Flagged(s.db, id) || (id in ids && !Retains(before, id))))
    && (t.any <==> s.any || ids != [])
    && (t.retained <==> s.retained || exists id :: id in ids && Retains(before, id))
  }

  lemma MarksNothing(before: Db, s: Sweep)
    ensures Marks(before, s, s, [])
  {
  }

  lemma MarksTogether(before: Db, s: Sweep, t: Sweep, u: Sweep, a: seq<Id>, b: seq<Id>)
    requires Marks(before, s, t, a) && Marks(before, t, u, b)
    ensures Marks(before, s, u, a + b)
  {
    assert forall id :: id in a + b <==> id in a || id in b;
  }

  /** Rows may go without touching the logs. */
  lemma FlagMarks(before: Db, s: Sweep, db: Db, id: Id)
    requires db.logs == s.db.logs
    ensures Marks(before, s, FlagDeleted(s.(db := db), id, Retains(before, id)), [id])
  {
    var t := FlagDeleted(s.(db := db), id, Retains(before, id));
    assert Retains(before, id) ==> exists x :: x in [id] && Retains(before, x);
    if !Retains(before, id) && id in db.logs {
      assert t.db.logs == db.logs[id := db.logs[id].(flagged := true)];
    }
  }

  lemma DropKeepsLogs(db: Db, ids: set<Id>, uri: Uri)
    ensures DropRecords(db, ids).logs == db.logs && DropByKey(db, uri).logs == db.logs
  {
  }

  lemma {:induction false} RefsMark(before: Db, s: Sweep, env: Env, href: Uri, dests: seq<Uri>)
    ensures Marks(before, s, SweepReferences(before, s, env, href, dests), RefsRemoved(before, env, href, dests))
    decreases |dests|
  {
    if dests == [] {
      MarksNothing(before, s);
    } else {
      var key := env.refKey(dests[0], href);
      var t := SweepReference(before, s, env, key);
      RefsMark(before, t, env, href, dests[1..]);
      var rest := RefsRemoved(before, env, href, dests[1..]);
      if Live(before, key).Some? && env.permits(key) {
        DropKeepsLogs(s.db, {}, key);
        FlagMarks(before, s, DropByKey(s.db, key), Live(before, key).value);
        MarksTogether(before, s, t, SweepReferences(before, t, env, href, dests[1..]), [Live(before, key).value], rest);
      } else {
        assert [] + rest == rest;
      }
    }
  }

  lemma OwnMarks(before: Db, s: Sweep, f: Found)
    requires FoundOk(before, f) && RemoveTarget(s, f).Some?
    ensures Marks(before, s, RemoveTarget(s, f).value, [f.id])
  {
    if f.document.content.Record? {
      var db := if f.key.Some? then DropByKey(s.db, f.key.value) else DropRecords(s.db, {f.id});
      DropKeepsLogs(s.db, {f.id}, if f.key.Some? then f.key.value else "");
      FlagMarks(before, s, db, f.id);
    } else {
      FlagMarks(before, s, s.db.(associations := s.db.associations - {f.id}), f.id);
    }
  }

  lemma TargetMarks(before: Db, s: Sweep, env: Env, f: Found)
    requires (env.authoritative ==> FoundOk(before, f)) && SweepTarget(before, s, env, f).Some?
    ensures Marks(before, s, SweepTarget(before, s, env, f).value, TargetAddressed(before, env, f))
  {
    var href, dests := SweptHref(f.document).value, Distributes(f.document);
    var refs := RefsRemoved(before, env, href, dests);
    if env.authoritative {
      var removed := RemoveTarget(s, f).value;
      OwnMarks(before, s, f);
      RefsMark(before, removed, env, href, dests);
      MarksTogether(before, s, removed, SweepReferences(before, removed, env, href, dests), [f.id], refs);
    } else {
      RefsMark(before, s, env, href, dests);
      assert [] + refs == refs;
    }
  }

  lemma {:induction false} TargetsMark(before: Db, s: Sweep, env: Env, targets: seq<Found>)
    requires env.authoritative ==> forall f :: f in targets ==> FoundOk(before, f)
    requires DeleteTargets(before, s, env, targets).Some?
    ensures Marks(before, s, DeleteTargets(before, s, env, targets).value, AllAddressed(before, env, targets))
    decreases |targets|
  {
    if targets == [] {
      MarksNothing(before, s);
    } else {
      var f := targets[0];
      TargetMarks(before, s, env, f);
      var t := SweepTarget(before, s, env, f).value;
      TargetsMark(before, t, env, targets[1..]);
      MarksTogether(before, s, t, DeleteTargets(before, t, env, targets[1..]).value, TargetAddressed(before, env, f), AllAddressed(before, env, targets[1..]));
    }
  }

  lemma {:induction false} RefsAreStored(before: Db, env: Env, href: Uri, dests: seq<Uri>, id: Id)
    requires Good(before) && id in RefsRemoved(before, env, href, dests)
    ensures id in before.logs
  {
    var key := env.refKey(dests[0], href);
    if !(Live(before, key) == Some(id)) {
      RefsAreStored(before, env, href, dests[1..], id);
    }
  }

  lemma {:induction false} AddressedAreStored(before: Db, env: Env, targets: seq<Found>, id: Id)
    requires Good(before) && id in AllAddressed(before, env, targets)
    requires env.authoritative ==> forall f :: f in targets ==> FoundOk(before, f)
    ensures id in before.logs
  {
    if id in TargetAddressed(before, env, targets[0]) {
      var f := targets[0];
      assert f in targets;
      if !(env.authoritative && id == f.id) {
        RefsAreStored(before, env, SweptHref(f.document).value, Distributes(f.document), id);
      }
    } else {
      AddressedAreStored(before, env, targets[1..], id);
    }
  }

  /** An applied delete acted on something; it flags exactly what it acted on and nobody
      asked to retain, and its own log exactly when nothing it acted on is retained, so
      that history is kept for what asked for it and for nothing else. */
  lemma DeleteFlagsExactly(db: Db, doc: Document, env: Env)
    requires Good(db) && doc.content.Delete? && doc.id !in db.logs
    requires DeleteRecord(db, PutLog(db, doc), doc, env).Done?
    ensures
      var after := DeleteRecord(db, PutLog(db, doc), doc, env).db;
      var removed := AllAddressed(db, env, Targets(db, doc, env));
      && removed != []
      && (forall id :: id in db.logs ==> (Flagged(after, id) <==> Flagged(db, id) || (id in removed && !Retains(db, id))))
      && (Flagged(after, doc.id) <==> forall id :: id in removed ==> !Retains(db, id))
  {
    var targets := Targets(db, doc, env);
    if env.authoritative { TargetsOk(db, doc, env); }
    var s := Sweep(PutLog(db, doc), false, false);
    TargetsMark(db, s, env, targets);
    if doc.id in AllAddressed(db, env, targets) { AddressedAreStored(db, env, targets, doc.id); }
    FlagsFromMarks(db, s, DeleteTargets(db, s, env, targets).value, doc, AllAddressed(db, env, targets));
  }

  lemma FlagsFromMarks(db: Db, s: Sweep, t: Sweep, doc: Document, removed: seq<Id>)
    requires s == Sweep(PutLog(db, doc), false, false) && doc.id !in db.logs && doc.id !in removed
    requires Marks(db, s, t, removed)
    ensures
      var after := if t.retained then t.db else Flag(t.db, doc.id);
      && (forall id :: id in db.logs ==> (Flagged(after, id) <==> Flagged(db, id) || (id in removed && !Retains(db, id))))
      && (Flagged(after, doc.id) <==> forall id :: id in removed ==> !Retains(db, id))
  {
    assert s.db.logs == db.logs[doc.id := Log(doc, false)];
  }

  // ---- Which rows go ----

  /** Between s and t the record and association rows of these documents went, and what
      was associated with a key that went; nothing else did. */
  ghost predicate Leaves(s: Db, t: Db, ids: seq<Id>) {
    && (forall id :: id in t.records <==> id in s.records && id !in ids)
    && (forall u :: u in t.keys ==> u in s.keys)
    && (forall a :: a in t.associations <==> a in s.associations && a !in ids && s.associations[a].target in t.keys)
    && Fewer(s.associations, t.associations)
  }

  lemma LeavesNothing(db: Db)
    requires Good(db)
    ensures Leaves(db, db, [])
  {
  }

  lemma LeavesTogether(s: Db, t: Db, u: Db, a: seq<Id>, b: seq<Id>)
    requires Leaves(s, t, a) && Leaves(t, u, b)
    ensures Leaves(s, u, a + b)
  {
    assert forall id :: id in a + b <==> id in a || id in b;
  }

  lemma FlagLeaves(s: Db, w: Sweep, id: Id, retain: bool, ids: seq<Id>)
    requires Leaves(s, w.db, ids)
    ensures Leaves(s, FlagDeleted(w, id, retain).db, ids)
  {
    var t := FlagDeleted(w, id, retain).db;
    assert t.records == w.db.records && t.keys == w.db.keys && t.associations == w.db.associations;
  }

  lemma DropRecordLeaves(db: Db, id: Id)
    requires Good(db) && id in db.logs && db.logs[id].document.content.Record?
    ensures Leaves(db, DropRecords(db, {id}), [id])
  {
    assert id !in db.associations;
  }

  lemma DropByKeyLeaves(before: Db, s: Sweep, own: Document, key: Uri, id: Id)
    requires Good(before) && Sweeping(before, s.db, own) && Live(before, key) == Some(id)
    ensures Leaves(s.db, DropByKey(s.db, key), [id])
  {
    assert Names(before.logs, id, key);
    if key in s.db.keys {
      DropRecordLeaves(s.db, id);
    } else {
      assert id !in s.db.records && id !in s.db.associations;
    }
  }

  lemma ReferenceLeaves(before: Db, s: Sweep, own: Document, env: Env, key: Uri)
    requires Good(before) && Sweeping(before, s.db, own)
    ensures Leaves(s.db, SweepReference(before, s, env, key).db,
      if Live(before, key).Some? && env.permits(key) then [Live(before, key).value] else [])
  {
    if Live(before, key).Some? && env.permits(key) {
      var id := Live(before, key).value;
      DropByKeyLeaves(before, s, own, key, id);
      FlagLeaves(s.db, s.(db := DropByKey(s.db, key)), id, Retains(before, id), [id]);
    } else {
      LeavesNothing(s.db);
    }
  }

  lemma {:induction false} RefsLeave(before: Db, s: Sweep, own: Document, env: Env, href: Uri, dests: seq<Uri>)
    requires Good(before) && Sweeping(before, s.db, own)
    ensures Leaves(s.db, SweepReferences(before, s, env, href, dests).db, RefsRemoved(before, env, href, dests))
    decreases |dests|
  {
    if dests == [] {
      LeavesNothing(s.db);
    } else {
      var key := env.refKey(dests[0], href);
      var t := SweepReference(before, s, env, key);
      ReferenceLeaves(before, s, own, env, key);
      SweepReferenceGood(before, s, own, env, key);
      RefsLeave(before, t, own, env, href, dests[1..]);
      LeavesTogether(s.db, t.db, SweepReferences(before, t, env, href, dests[1..]).db,
        if Live(before, key).Some? && env.permits(key) then [Live(before, key).value] else [],
        RefsRemoved(before, env, href, dests[1..]));
    }
  }

  lemma OwnLeaves(before: Db, s: Sweep, own: Document, f: Found)
    requires Good(before) && Sweeping(before, s.db, own) && FoundOk(before, f) && RemoveTarget(s, f).Some?
    ensures Leaves(s.db, RemoveTarget(s, f).value.db, [f.id])
  {
    if f.document.content.Record? {
      if f.key.Some? { DropByKeyLeaves(before, s, own, f.key.value, f.id); } else { DropRecordLeaves(s.db, f.id); }
      var db := if f.key.Some? then DropByKey(s.db, f.key.value) else DropRecords(s.db, {f.id});
      FlagLeaves(s.db, s.(db := db), f.id, f.document.content.retain, [f.id]);
    } else {
      AssociationLeaves(s.db, f.id);
      FlagLeaves(s.db, s.(db := s.db.(associations := s.db.associations - {f.id})), f.id, false, [f.id]);
    }
  }

  lemma AssociationLeaves(db: Db, id: Id)
    requires Good(db) && id in db.logs && db.logs[id].document.content.Association?
    ensures Leaves(db, db.(associations := db.associations - {id}), [id])
  {
    assert id !in db.records;
  }

  lemma TargetLeaves(before: Db, s: Sweep, own: Document, env: Env, f: Found)
    requires Good(before) && Sweeping(before, s.db, own) && (env.authoritative ==> FoundOk(before, f))
    requires SweepTarget(before, s, env, f).Some?
    ensures Leaves(s.db, SweepTarget(before, s, env, f).value.db, TargetAddressed(before, env, f))
  {
    var href, dests := SweptHref(f.document).value, Distributes(f.document);
    var refs := RefsRemoved(before, env, href, dests);
    if env.authoritative {
      var removed := RemoveTarget(s, f).value;
      OwnLeaves(before, s, own, f);
      RemoveTargetGood(before, s, own, f);
      RefsLeave(before, removed, own, env, href, dests);
      LeavesTogether(s.db, removed.db, SweepReferences(before, removed, env, href, dests).db, [f.id], refs);
    } else {
      RefsLeave(before, s, own, env, href, dests);
      assert [] + refs == refs;
    }
  }

  lemma {:induction false} TargetsLeave(before: Db, s: Sweep, own: Document, env: Env, targets: seq<Found>)
    requires Good(before) && Sweeping(before, s.db, own)
    requires env.authoritative ==> forall f :: f in targets ==> FoundOk(before, f)
    requires DeleteTargets(before, s, env, targets).Some?
    ensures Leaves(s.db, DeleteTargets(before, s, env, targets).value.db, AllAddressed(before, env, targets))
    decreases |targets|
  {
    if targets == [] {
      LeavesNothing(s.db);
    } else {
      var f := targets[0];
      TargetLeaves(before, s, own, env, f);
      SweepTargetGood(before, s, own, env, f);
      var t := SweepTarget(before, s, env, f).value;
      TargetsLeave(before, t, own, env, targets[1..]);
      LeavesTogether(s.db, t.db, DeleteTargets(before, t, env, targets[1..]).value.db,
        TargetAddressed(before, env, f), AllAddressed(before, env, targets[1..]));
    }
  }

  /** An applied delete takes exactly the record rows and association rows of what it acts
      on, and the associations of the keys that go; an addressed target with no row left
      takes none. */
  lemma DeleteLeavesExactly(db: Db, doc: Document, env: Env)
    requires Good(db) && doc.content.Delete? && doc.id !in db.logs
    requires DeleteRecord(db, PutLog(db, doc), doc, env).Done?
    ensures Leaves(db, DeleteRecord(db, PutLog(db, doc), doc, env).db, AllAddressed(db, env, Targets(db, doc, env)))
  {
    var targets := Targets(db, doc, env);
    if env.authoritative { TargetsOk(db, doc, env); }
    var s := Sweep(PutLog(db, doc), false, false);
    StartsSweeping(db, doc);
    TargetsLeave(db, s, doc, env, targets);
    var t := DeleteTargets(db, s, env, targets).value;
    assert s.db.records == db.records && s.db.keys == db.keys && s.db.associations == db.associations;
    FlagLeaves(s.db, t, doc.id, t.retained, AllAddressed(db, env, targets));
  }

  // ---- When a delete applies ----

  /** The target's kind, as it was addressed, can be deleted, and what it is associated with
      is at hand. */
  predicate Sweepable(before: Db, env: Env, f: Found) {
    && AssociateAtHand(before, env, f)
    && SweptHref(f.document).Some?
    && (env.authoritative ==> f.document.content.Record? || (f.document.content.Association? && f.key.None?))
  }

  lemma SweepableExactly(before: Db, s: Sweep, env: Env, f: Found)
    ensures SweepTarget(before, s, env, f).Some? <==> Sweepable(before, env, f)
  {
  }

  lemma {:induction false} AllSweepableExactly(before: Db, s: Sweep, env: Env, targets: seq<Found>)
    ensures DeleteTargets(before, s, env, targets).Some? <==> forall f :: f in targets ==> Sweepable(before, env, f)
    decreases |targets|
  {
    if targets != [] {
      SweepableExactly(before, s, env, targets[0]);
      if Sweepable(before, env, targets[0]) {
        AllSweepableExactly(before, SweepTarget(before, s, env, targets[0]).value, env, targets[1..]);
        assert forall f :: f in targets <==> f == targets[0] || f in targets[1..];
      }
    }
  }

  /** A delete finds targets, all of kinds that can be deleted and with their associated
      documents at hand, and something to act on. */
  predicate Deletes(db: Db, doc: Document, env: Env)
    requires doc.content.Delete?
  {
    var targets := Targets(db, doc, env);
    targets != [] && (forall f :: f in targets ==> Sweepable(db, env, f)) && AllAddressed(db, env, targets) != []
  }

  lemma DeleteAppliesExactly(db: Db, doc: Document, env: Env)
    requires Good(db) && doc.content.Delete? && doc.id !in db.logs
    ensures DeleteRecord(db, PutLog(db, doc), doc, env).Done? <==> Deletes(db, doc, env)
  {
    var targets := Targets(db, doc, env);
    var s := Sweep(PutLog(db, doc), false, false);
    AllSweepableExactly(db, s, env, targets);
    if env.authoritative { TargetsOk(db, doc, env); }
    if DeleteTargets(db, s, env, targets).Some? { TargetsMark(db, s, env, targets); }
  }

  // ---- Distribution and sweep agree ----

  /** Delivery stores references, and a delete looks for them, under the same key exactly
      for the two kinds that are distributed. */
  lemma HrefsAgree(doc: Document, author: Ccid)
    requires doc.content.Record? || doc.content.Association?
    ensures SweptHref(doc) == Some(DeliveredHref(doc, author))
  {
  }

  /** After an applied delete of a distributed record or association, wherever it is
      decided, no destination on this server still holds the delivered reference unless
      its policy kept it. */
  lemma NoReferenceLeft(db: Db, doc: Document, env: Env, f: Found, author: Ccid, dest: Uri)
    requires Good(db) && doc.content.Delete? && doc.id !in db.logs
    requires DeleteRecord(db, PutLog(db, doc), doc, env).Done?
    requires f in Targets(db, doc, env) && dest in Distributes(f.document)
    ensures
      var key := env.refKey(dest, DeliveredHref(f.document, author));
      env.permits(key) ==> Live(DeleteRecord(db, PutLog(db, doc), doc, env).db, key).None?
  {
    HrefsAgree(f.document, author);
    var key := env.refKey(dest, DeliveredHref(f.document, author));
    var k :| 0 <= k < |Distributes(f.document)| && Distributes(f.document)[k] == dest;
    DeleteExact(db, doc, env, key);
    if env.permits(key) && Live(db, key).Some? {
      assert SweepHit(db, env, f, key);
      assert Hit(db, env, f, key);
    }
  }

  // ---- Range deletes ----

  lemma {:induction false} FindKeysFinds(db: Db, uris: seq<Uri>, u: Uri)
    requires u in uris && IsLive(db, u)
    ensures FoundByKey(db, u) in FindKeys(db, uris)
  {
    if u != uris[0] {
      FindKeysFinds(db, uris[1..], u);
    }
  }

  lemma {:induction false} FindKeysOnly(db: Db, uris: seq<Uri>, f: Found)
    requires f in FindKeys(db, uris)
    ensures f.key.Some? && f.key.value in uris && IsLive(db, f.key.value) && f == FoundByKey(db, f.key.value)
  {
    if !(IsLive(db, uris[0]) && f == FoundByKey(db, uris[0])) {
      FindKeysOnly(db, uris[1..], f);
    }
  }

  /** After an applied range delete every selected key is free for any later document,
      whatever its createdAt, and the keys that go besides are the swept references. */
  lemma RangeFreesExactly(db: Db, now: int, doc: Document, env: Env, u: Uri, at: int)
    requires Good(db) && doc.content.Delete? && doc.content.target.Subtree? && env.authoritative
    requires ListingOk(db, doc, env) && Commit(db, now, doc, env).1 == Applied
    ensures
      var selected := RangeDelete.Selects(doc.content.target.base, doc.content.target.includeSelf, u);
      var after := Commit(db, now, doc, env).0;
      && (selected ==> Live(after, u).None? && TakesKey(after, u, at))
      && (Live(db, u).Some? && !selected && u !in after.keys ==>
            exists f :: f in Targets(db, doc, env) && SweepHit(db, env, f, u))
  {
    DeleteExact(db, doc, env, u);
    if Live(db, u).Some? {
      var selected := RangeDelete.Selects(doc.content.target.base, doc.content.target.includeSelf, u);
      assert IsLive(db, u);
      if selected {
        FindKeysFinds(db, env.listing, u);
        assert Hit(db, env, FoundByKey(db, u), u);
      } else {
        OnlyReferences(db, doc, env, u);
      }
    }
  }

  lemma OnlyReferences(db: Db, doc: Document, env: Env, u: Uri)
    requires Good(db) && doc.content.Delete? && doc.content.target.Subtree? && env.authoritative
    requires ListingOk(db, doc, env) && IsLive(db, u)
    requires !RangeDelete.Selects(doc.content.target.base, doc.content.target.includeSelf, u)
    ensures forall f :: f in Targets(db, doc, env) ==> !OwnHit(db, env, f, u)
  {
    forall f | f in Targets(db, doc, env) ensures !OwnHit(db, env, f, u) {
      FindKeysOnly(db, env.listing, f);
      if Live(db, u) == Some(f.id) { OneKeyPerRecord(db, u, f.key.value); }
    }
  }
}
