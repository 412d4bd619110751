/** What every commit and every collection keeps: foreign keys, one key per record,
    rows backed by documents of their kind, and no flagged log behind a live row. */
module StoreInvariant {
  import opened Wrappers
  import opened Store
  import Cdid

  datatype Kind = IsRecord | IsAssociation | IsAck | IsAcked | IsEntity | IsDelete

  function KindOf(content: Content): Kind {
    match content
    case Record(_, _, _, _) => IsRecord
    case Association(_, _, _, _) => IsAssociation
    case Ack(_, _) => IsAck
    case Acked(_, _) => IsAcked
    case Entity(_) => IsEntity
    case Delete(_) => IsDelete
  }

  type Logs = map<Id, Log>

  /** A row of this kind may hang off this log: it exists and is not up for collection. */
  predicate Backed(logs: Logs, id: Id, kind: Kind) {
    id in logs && !logs[id].flagged && KindOf(logs[id].document.content) == kind
  }

  ghost predicate LogsOk(logs: Logs) {
    forall id :: id in logs ==> logs[id].document.id == id
  }

  ghost predicate RecordsOk(logs: Logs, records: map<Id, int>) {
    forall id :: id in records ==> Backed(logs, id, IsRecord)
  }

  /** This is the key the record's document names. */
  predicate Names(logs: Logs, id: Id, u: Uri) {
    id in logs && logs[id].document.content.Record? && logs[id].document.content.key == u
  }

  /** A key holds a live record that names it. */
  ghost predicate KeysOk(logs: Logs, keys: map<Uri, KeyRow>, records: map<Id, int>) {
    forall u :: u in keys && keys[u].record.Some? ==>
      keys[u].record.value in records && Names(logs, keys[u].record.value, u)
  }

  ghost predicate AssociationsOk(logs: Logs, keys: map<Uri, KeyRow>, associations: map<Id, AssociationRow>) {
    forall id :: id in associations ==> Backed(logs, id, IsAssociation) && associations[id].target in keys
  }

  ghost predicate StatesOk(logs: Logs, rows: map<Edge, StateRow>, kind: Kind) {
    forall e :: e in rows ==> Backed(logs, rows[e].document, kind)
  }

  ghost predicate EntitiesOk(logs: Logs, entities: map<Ccid, EntityRow>) {
    forall c :: c in entities ==> Backed(logs, entities[c].document, IsEntity)
  }

  ghost predicate Good(db: Db) {
    && LogsOk(db.logs)
    && KeysOk(db.logs, db.keys, db.records)
    && RecordsOk(db.logs, db.records)
    && AssociationsOk(db.logs, db.keys, db.associations)
    && StatesOk(db.logs, db.acks, IsAck)
    && StatesOk(db.logs, db.ackeds, IsAcked)
    && EntitiesOk(db.logs, db.entities)
  }

  lemma EmptyGood()
    ensures Good(EMPTY)
  {
  }

  /** No row hangs off this log, by its kind. */
  predicate Idle(db: Db, id: Id) {
    id in db.logs ==>
      match KindOf(db.logs[id].document.content)
      case IsRecord => id !in db.records
      case IsAssociation => id !in db.associations
      case IsDelete => true
      case _ => false
  }

  /** Logs change only where no row hangs off them. */
  ghost predicate Keeps(db: Db, logs: Logs) {
    forall id :: id in db.logs && !db.logs[id].flagged && !Idle(db, id) ==> id in logs && logs[id] == db.logs[id]
  }

  lemma LogsChange(db: Db, logs: Logs)
    requires Good(db) && LogsOk(logs) && Keeps(db, logs)
    ensures Good(db.(logs := logs))
  {
    assert RecordsOk(logs, db.records);
    assert KeysOk(logs, db.keys, db.records);
    assert AssociationsOk(logs, db.keys, db.associations);
    assert StatesOk(logs, db.acks, IsAck);
    assert StatesOk(logs, db.ackeds, IsAcked);
    assert EntitiesOk(logs, db.entities);
  }

  lemma PutLogGood(db: Db, doc: Document)
    requires Good(db)
    ensures Good(PutLog(db, doc))
  {
    if doc.id !in db.logs {
      LogsChange(db, db.logs[doc.id := Log(doc, false)]);
    }
  }

  lemma FlagGood(db: Db, id: Id)
    requires Good(db) && Idle(db, id)
    ensures Good(Flag(db, id))
  {
    LogsChange(db, Flag(db, id).logs);
  }

  lemma DropRecordsGood(db: Db, ids: set<Id>)
    requires Good(db)
    ensures Good(DropRecords(db, ids))
  {
    var after := DropRecords(db, ids);
    assert forall u :: u in after.keys && after.keys[u].record.Some? ==> u !in KeysOf(db, ids);
  }

  lemma {:induction false} AncestorsOnlyAdd(keys: map<Uri, KeyRow>, ancestors: seq<Uri>)
    ensures forall u :: u in keys ==> u in WithAncestors(keys, ancestors) && WithAncestors(keys, ancestors)[u] == keys[u]
    ensures forall u :: u in WithAncestors(keys, ancestors) && u !in keys ==> WithAncestors(keys, ancestors)[u] == PLACEHOLDER
  {
    if ancestors != [] {
      AncestorsOnlyAdd(keys, ancestors[1..]);
    }
  }

  /** The tables once a fresh record holds its key, before anything superseded goes. */
  function Taken(db: Db, id: Id, r: Content, env: Env): Db
    requires r.Record?
  {
    db.(records := if id in db.records then db.records else db.records[id := r.effectiveAt],
        keys := WithAncestors(db.keys, env.ancestors)[r.key := KeyRow(Some(id), Some(r.effectiveAt), !r.retain)])
  }

  lemma TakenGood(db: Db, doc: Document, env: Env)
    requires Good(db) && doc.content.Record?
    requires Backed(db.logs, doc.id, IsRecord) && db.logs[doc.id].document == doc
    ensures Good(Taken(db, doc.id, doc.content, env))
  {
    AncestorsOnlyAdd(db.keys, env.ancestors);
  }

  /** A fresh record document takes its key; what it supersedes is flagged and dropped. */
  lemma CreateRecordGood(db: Db, doc: Document, env: Env)
    requires Good(db) && doc.content.Record? && doc.id !in db.logs
    ensures
      var a := CreateRecord(PutLog(db, doc), doc.id, doc.content, env);
      a.Done? ==> Good(a.db)
  {
    var logged := PutLog(db, doc);
    PutLogGood(db, doc);
    TakenGood(logged, doc, env);
    var taken := Taken(logged, doc.id, doc.content, env);
    var key := doc.content.key;
    if key in logged.keys && logged.keys[key].record.Some? && logged.keys[key].record.value != doc.id {
      var o := logged.keys[key].record.value;
      DropRecordsGood(taken, {o});
      FlagGood(DropRecords(taken, {o}), o);
      assert DropRecords(Flag(taken, o), {o}) == Flag(DropRecords(taken, {o}), o);
    }
  }

  lemma CreateAssociationGood(db: Db, doc: Document)
    requires Good(db) && doc.content.Association? && doc.id !in db.logs
    ensures
      var a := CreateAssociation(PutLog(db, doc), doc.id, doc.content);
      a.Done? ==> Good(a.db)
  {
    PutLogGood(db, doc);
  }

  lemma StateGood(db: Db, doc: Document, edge: Edge, valid: bool)
    requires Good(db) && doc.id !in db.logs
    ensures
      var row := StateRow(doc.id, valid, doc.createdAt);
      && (doc.content.Ack? ==> Good(PutLog(db, doc).(acks := db.acks[edge := row])))
      && (doc.content.Acked? ==> Good(PutLog(db, doc).(ackeds := db.ackeds[edge := row])))
  {
    PutLogGood(db, doc);
    var row := StateRow(doc.id, valid, doc.createdAt);
    var logs := db.logs[doc.id := Log(doc, false)];
    assert PutLog(db, doc) == db.(logs := logs);
    assert doc.content.Ack? ==> StatesOk(logs, db.acks[edge := row], IsAck);
    assert doc.content.Acked? ==> StatesOk(logs, db.ackeds[edge := row], IsAcked);
  }

  lemma EntityGood(db: Db, doc: Document, ccid: Ccid)
    requires Good(db) && doc.id !in db.logs && doc.content.Entity?
    ensures Good(PutLog(db, doc).(entities := db.entities[ccid := EntityRow(doc.id, doc.createdAt)]))
  {
    PutLogGood(db, doc);
    var logs := db.logs[doc.id := Log(doc, false)];
    assert PutLog(db, doc) == db.(logs := logs);
    assert EntitiesOk(logs, db.entities[ccid := EntityRow(doc.id, doc.createdAt)]);
  }

  predicate SameStates(a: Db, b: Db) {
    a.acks == b.acks && a.ackeds == b.ackeds && a.entities == b.entities
  }

  // ---- Deletes ----

  /** A delete in progress: the invariant holds, rows and logs only shrink or get
      flagged, and a key that is gone took its record along. */
  ghost predicate Sweeping(before: Db, db: Db, own: Document) {
    Good(db) && LogsSwept(before.logs, db.logs, own) && KeysSwept(before, db) && Fewer(before.associations, db.associations) && SameStates(before, db)
  }

  ghost predicate LogsSwept(before: Logs, logs: Logs, own: Document) {
    && own.id !in before
    && logs.Keys == before.Keys + {own.id}
    && (forall id :: id in before ==> SameLog(before[id], logs[id]))
    && logs[own.id].document == own && own.content.Delete?
  }

  ghost predicate KeysSwept(before: Db, db: Db) {
    && (forall u :: u in db.keys ==> u in before.keys && db.keys[u] == before.keys[u])
    && (forall u :: u in before.keys && before.keys[u].record.Some? && before.keys[u].record.value in db.records ==> u in db.keys)
    && db.records.Keys <= before.records.Keys
  }

  /** Association rows only go. */
  ghost predicate Fewer(before: map<Id, AssociationRow>, after: map<Id, AssociationRow>) {
    forall a :: a in after ==> a in before && after[a] == before[a]
  }

  lemma FlagSweeping(before: Db, s: Sweep, own: Document, id: Id, retain: bool)
    requires Sweeping(before, s.db, own)
    requires Idle(s.db, id)
    ensures Sweeping(before, FlagDeleted(s, id, retain).db, own)
  {
    if !retain && id in s.db.logs {
      FlagGood(s.db, id);
      FlagSwept(before.logs, s.db.logs, own, id);
    }
  }

  lemma FlagSwept(before: Logs, logs: Logs, own: Document, id: Id)
    requires LogsSwept(before, logs, own) && id in logs
    ensures LogsSwept(before, logs[id := logs[id].(flagged := true)], own)
  {
  }

  lemma DropSweeping(before: Db, s: Sweep, own: Document, ids: set<Id>)
    requires Good(before) && Sweeping(before, s.db, own)
    ensures Sweeping(before, DropRecords(s.db, ids), own)
  {
    DropRecordsGood(s.db, ids);
    DropSwept(before, s.db, ids);
  }

  lemma DropSwept(before: Db, db: Db, ids: set<Id>)
    requires KeysSwept(before, db) && Fewer(before.associations, db.associations)
    ensures KeysSwept(before, DropRecords(db, ids)) && Fewer(before.associations, DropRecords(db, ids).associations)
  {
  }

  /** After dropping by key, no row hangs off what the key held before the transaction. */
  lemma DropByKeySweeping(before: Db, s: Sweep, own: Document, uri: Uri)
    requires Good(before) && Sweeping(before, s.db, own)
    ensures Sweeping(before, DropByKey(s.db, uri), own)
    ensures Live(before, uri).Some? ==> Idle(DropByKey(s.db, uri), Live(before, uri).value)
  {
    if Live(s.db, uri).Some? {
      DropSweeping(before, s, own, {Live(s.db, uri).value});
    }
  }

  lemma SweepReferenceGood(before: Db, s: Sweep, own: Document, env: Env, key: Uri)
    requires Good(before) && Sweeping(before, s.db, own)
    ensures Sweeping(before, SweepReference(before, s, env, key).db, own)
  {
    if Live(before, key).Some? && env.permits(key) {
      DropByKeySweeping(before, s, own, key);
      FlagSweeping(before, s.(db := DropByKey(s.db, key)), own, Live(before, key).value, Retains(before, Live(before, key).value));
    }
  }

  lemma {:induction false} SweepReferencesGood(before: Db, s: Sweep, own: Document, env: Env, href: Uri, dests: seq<Uri>)
    requires Good(before) && Sweeping(before, s.db, own)
    ensures Sweeping(before, SweepReferences(before, s, env, href, dests).db, own)
    decreases |dests|
  {
    if dests != [] {
      SweepReferenceGood(before, s, own, env, env.refKey(dests[0], href));
      SweepReferencesGood(before, SweepReference(before, s, env, env.refKey(dests[0], href)), own, env, href, dests[1..]);
    }
  }

  ghost predicate FoundOk(before: Db, f: Found) {
    && f.id in before.logs
    && f.document == before.logs[f.id].document
    && (f.key.Some? ==> Live(before, f.key.value) == Some(f.id))
  }

  lemma RemoveRecordGood(before: Db, s: Sweep, own: Document, f: Found)
    requires Good(before) && Sweeping(before, s.db, own) && FoundOk(before, f) && f.document.content.Record?
    ensures RemoveTarget(s, f).Some? && Sweeping(before, RemoveTarget(s, f).value.db, own)
  {
    var retain := f.document.content.retain;
    if f.key.Some? {
      DropByKeySweeping(before, s, own, f.key.value);
      FlagSweeping(before, s.(db := DropByKey(s.db, f.key.value)), own, f.id, retain);
    } else {
      DropSweeping(before, s, own, {f.id});
      FlagSweeping(before, s.(db := DropRecords(s.db, {f.id})), own, f.id, retain);
    }
  }

  lemma RemoveAssociationGood(before: Db, s: Sweep, own: Document, f: Found)
    requires Good(before) && Sweeping(before, s.db, own) && FoundOk(before, f) && f.document.content.Association?
    ensures RemoveTarget(s, f).Some? ==> Sweeping(before, RemoveTarget(s, f).value.db, own)
  {
    if f.key.None? {
      var dropped := s.(db := s.db.(associations := s.db.associations - {f.id}));
      assert AssociationsOk(dropped.db.logs, dropped.db.keys, dropped.db.associations);
      assert Sweeping(before, dropped.db, own);
      FlagSweeping(before, dropped, own, f.id, false);
    }
  }

  lemma RemoveTargetGood(before: Db, s: Sweep, own: Document, f: Found)
    requires Good(before) && Sweeping(before, s.db, own) && FoundOk(before, f)
    ensures RemoveTarget(s, f).Some? ==> Sweeping(before, RemoveTarget(s, f).value.db, own)
  {
    if f.document.content.Record? {
      RemoveRecordGood(before, s, own, f);
    } else if f.document.content.Association? {
      RemoveAssociationGood(before, s, own, f);
    }
  }

  lemma SweepTargetGood(before: Db, s: Sweep, own: Document, env: Env, f: Found)
    requires Good(before) && Sweeping(before, s.db, own)
    requires env.authoritative ==> FoundOk(before, f)
    ensures SweepTarget(before, s, env, f).Some? ==> Sweeping(before, SweepTarget(before, s, env, f).value.db, own)
  {
    if env.authoritative { RemoveTargetGood(before, s, own, f); }
    var removed := if env.authoritative then RemoveTarget(s, f) else Some(s);
    if removed.Some? && SweptHref(f.document).Some? {
      SweepReferencesGood(before, removed.value, own, env, SweptHref(f.document).value, Distributes(f.document));
    }
  }

  lemma {:induction false} DeleteTargetsGood(before: Db, s: Sweep, own: Document, env: Env, targets: seq<Found>)
    requires Good(before) && Sweeping(before, s.db, own)
    requires env.authoritative ==> forall f :: f in targets ==> FoundOk(before, f)
    ensures DeleteTargets(before, s, env, targets).Some? ==> Sweeping(before, DeleteTargets(before, s, env, targets).value.db, own)
    decreases |targets|
  {
    if targets != [] {
      SweepTargetGood(before, s, own, env, targets[0]);
      var swept := SweepTarget(before, s, env, targets[0]);
      if swept.Some? {
        DeleteTargetsGood(before, swept.value, own, env, targets[1..]);
      }
    }
  }

  lemma {:induction false} FindKeysOk(db: Db, uris: seq<Uri>)
    ensures forall f :: f in FindKeys(db, uris) ==> FoundOk(db, f)
  {
    if uris != [] {
      FindKeysOk(db, uris[1..]);
    }
  }

  lemma TargetsOk(db: Db, doc: Document, env: Env)
    requires doc.content.Delete? && env.authoritative
    ensures forall f :: f in Targets(db, doc, env) ==> FoundOk(db, f)
  {
    FindKeysOk(db, env.listing);
    if doc.content.target.ByKey? { FindKeysOk(db, [doc.content.target.uri]); }
  }

  /** A delete starts from the tables with its own log added. */
  lemma StartsSweeping(db: Db, doc: Document)
    requires Good(db) && doc.content.Delete? && doc.id !in db.logs
    ensures Sweeping(db, PutLog(db, doc), doc)
  {
    PutLogGood(db, doc);
    assert PutLog(db, doc) == db.(logs := db.logs[doc.id := Log(doc, false)]);
  }

  /** An applied delete is a completed sweep, its own log flagged unless history is kept. */
  lemma DeleteSweeps(db: Db, doc: Document, env: Env)
    requires Good(db) && doc.content.Delete? && doc.id !in db.logs
    requires DeleteRecord(db, PutLog(db, doc), doc, env).Done?
    ensures Sweeping(db, DeleteRecord(db, PutLog(db, doc), doc, env).db, doc)
  {
    var targets := Targets(db, doc, env);
    if env.authoritative { TargetsOk(db, doc, env); }
    var s := Sweep(PutLog(db, doc), false, false);
    StartsSweeping(db, doc);
    DeleteTargetsGood(db, s, doc, env, targets);
    var swept := DeleteTargets(db, s, env, targets).value;
    FlagSweeping(db, swept, doc, doc.id, swept.retained);
  }

  /** What one commit may do to the tables, whatever its outcome: documents stay, and
      the only new log, record or association is the committed document's own. */
  ghost predicate Extends(before: Db, after: Db, doc: Document) {
    && LogsExtend(before.logs, after.logs, doc)
    && (forall i :: i in after.records ==> i in before.records || i == doc.id)
    && (forall i :: i in after.associations ==> i in before.associations || i == doc.id)
  }

  /** The document stays, and a flag once set. */
  predicate SameLog(before: Log, after: Log) {
    after.document == before.document && (before.flagged ==> after.flagged)
  }

  ghost predicate LogsExtend(before: Logs, after: Logs, doc: Document) {
    && (forall i :: i in before ==> i in after && SameLog(before[i], after[i]))
    && (forall i :: i in after ==> i in before || (i == doc.id && after[i].document == doc))
  }

  lemma PutLogExtends(db: Db, doc: Document)
    ensures LogsExtend(db.logs, PutLog(db, doc).logs, doc)
  {
    if doc.id !in db.logs {
      assert PutLog(db, doc).logs == db.logs[doc.id := Log(doc, false)];
    }
  }

  lemma CreateRecordExtends(db: Db, doc: Document, env: Env)
    requires doc.content.Record? && doc.id in db.logs
    ensures
      var a := CreateRecord(db, doc.id, doc.content, env);
      a.Done? ==> Extends(db, a.db, doc)
  {
    var taken := Taken(db, doc.id, doc.content, env);
    assert Extends(db, taken, doc);
    if doc.content.key in db.keys && db.keys[doc.content.key].record.Some? {
      var o := db.keys[doc.content.key].record.value;
      assert Extends(db, Flag(taken, o), doc);
      assert Extends(db, DropRecords(Flag(taken, o), {o}), doc);
    }
  }

  lemma LoggedExtends(db: Db, doc: Document, after: Db)
    requires Extends(PutLog(db, doc), after, doc)
    ensures Extends(db, after, doc)
  {
    PutLogExtends(db, doc);
    assert PutLog(db, doc).records == db.records && PutLog(db, doc).associations == db.associations;
  }

  lemma DeleteGood(db: Db, doc: Document, env: Env)
    requires Good(db) && doc.content.Delete? && doc.id !in db.logs
    ensures
      var a := DeleteRecord(db, PutLog(db, doc), doc, env);
      a.Done? ==> Good(a.db) && Extends(db, a.db, doc)
  {
    if DeleteRecord(db, PutLog(db, doc), doc, env).Done? {
      DeleteSweeps(db, doc, env);
    }
  }

  /** Every commit keeps the invariant, whatever its outcome. */
  lemma CommitGood(db: Db, now: int, doc: Document, env: Env)
    requires Good(db)
    ensures Good(Commit(db, now, doc, env).0)
  {
    if Commit(db, now, doc, env).1 == Applied {
      match doc.content
      case Record(_, _, _, _) => CreateRecordGood(db, doc, env);
      case Association(_, _, _, _) => CreateAssociationGood(db, doc);
      case Delete(_) => DeleteGood(db, doc, env);
      case Entity(ccid) => EntityGood(db, doc, ccid);
      case Ack(edge, valid) => StateGood(db, doc, edge, valid);
      case Acked(edge, valid) => StateGood(db, doc, edge, valid);
    }
  }

  lemma CreateAssociationExtends(db: Db, doc: Document)
    requires doc.content.Association?
    ensures
      var r := CreateAssociation(db, doc.id, doc.content);
      r.Done? ==> Extends(db, r.db, doc)
  {
  }

  /** A document that is not a delete only extends the tables with its log added. */
  lemma ApplyExtends(db: Db, doc: Document, env: Env)
    requires !doc.content.Delete? && (doc.content.Association? ==> env.local)
    ensures
      var a := ApplyContent(db, doc, env);
      a.Done? ==> Extends(PutLog(db, doc), a.db, doc)
  {
    var logged := PutLog(db, doc);
    match doc.content
    case Record(_, _, _, _) =>
      assert doc.id in logged.logs;
      CreateRecordExtends(logged, doc, env);
    case Association(_, _, _, _) => CreateAssociationExtends(logged, doc);
    case Ack(edge, valid) => StateExtends(logged, doc, db.acks[edge := StateRow(doc.id, valid, doc.createdAt)], logged.ackeds, logged.entities);
    case Acked(edge, valid) => StateExtends(logged, doc, logged.acks, db.ackeds[edge := StateRow(doc.id, valid, doc.createdAt)], logged.entities);
    case Entity(ccid) => StateExtends(logged, doc, logged.acks, logged.ackeds, db.entities[ccid := EntityRow(doc.id, doc.createdAt)]);
  }

  lemma StateExtends(db: Db, doc: Document, acks: map<Edge, StateRow>, ackeds: map<Edge, StateRow>, entities: map<Ccid, EntityRow>)
    ensures Extends(db, db.(acks := acks, ackeds := ackeds, entities := entities), doc)
  {
  }

  /** Every commit only extends the tables, whatever its outcome. */
  lemma CommitExtends(db: Db, now: int, doc: Document, env: Env)
    requires Good(db)
    ensures Extends(db, Commit(db, now, doc, env).0, doc)
  {
    var (after, outcome) := Commit(db, now, doc, env);
    if outcome == Applied {
      if doc.content.Delete? {
        DeleteGood(db, doc, env);
      } else if doc.content.Association? ==> env.local {
        ApplyExtends(db, doc, env);
        LoggedExtends(db, doc, after);
      }
    }
  }

  /** How a commit may move one of the two edge tables. */
  predicate Moved(before: map<Edge, StateRow>, after: map<Edge, StateRow>, edge: Edge, row: StateRow) {
    MovesState(before, edge, row.createdAt) && after == before[edge := row]
  }

  /** How a commit may move an entity's row. */
  predicate MovedEntity(before: map<Ccid, EntityRow>, after: map<Ccid, EntityRow>, ccid: Ccid, row: EntityRow) {
    (ccid in before ==> before[ccid].createdAt < row.createdAt) && after == before[ccid := row]
  }

  lemma CreateRecordKeepsStates(db: Db, id: Id, r: Content, env: Env)
    requires r.Record?
    ensures
      var a := CreateRecord(db, id, r, env);
      a.Done? ==> SameStates(db, a.db)
  {
  }

  lemma CreateAssociationKeepsStates(db: Db, id: Id, a: Content)
    requires a.Association?
    ensures
      var r := CreateAssociation(db, id, a);
      r.Done? ==> SameStates(db, r.db)
  {
  }

  lemma PutLogKeepsStates(db: Db, doc: Document)
    ensures SameStates(db, PutLog(db, doc))
  {
  }

  lemma DeleteKeepsStates(db: Db, doc: Document, env: Env)
    requires Good(db) && doc.id !in db.logs && doc.content.Delete?
    ensures
      var a := DeleteRecord(db, PutLog(db, doc), doc, env);
      a.Done? ==> SameStates(db, a.db)
  {
    if DeleteRecord(db, PutLog(db, doc), doc, env).Done? { DeleteSweeps(db, doc, env); }
  }

  lemma ApplyKeepsStates(db: Db, doc: Document, env: Env)
    requires Good(db) && doc.id !in db.logs && !doc.content.Ack? && !doc.content.Acked? && !doc.content.Entity?
    ensures
      var a := ApplyContent(db, doc, env);
      a.Done? ==> SameStates(db, a.db)
  {
    PutLogKeepsStates(db, doc);
    match doc.content
    case Record(_, _, _, _) => CreateRecordKeepsStates(PutLog(db, doc), doc.id, doc.content, env);
    case Association(_, _, _, _) => CreateAssociationKeepsStates(PutLog(db, doc), doc.id, doc.content);
    case Delete(_) => DeleteKeepsStates(db, doc, env);
  }

  lemma ApplyMovesStates(db: Db, doc: Document, env: Env)
    requires doc.content.Ack? || doc.content.Acked?
    ensures
      var a := ApplyContent(db, doc, env);
      var row := StateRow(doc.id, doc.content.valid, doc.createdAt);
      a.Done? ==>
        && (if doc.content.Ack? then Moved(db.acks, a.db.acks, doc.content.edge, row) else a.db.acks == db.acks)
        && (if doc.content.Acked? then Moved(db.ackeds, a.db.ackeds, doc.content.edge, row) else a.db.ackeds == db.ackeds)
        && a.db.entities == db.entities
  {
  }

  lemma ApplyMovesEntity(db: Db, doc: Document, env: Env)
    requires doc.content.Entity?
    ensures
      var a := ApplyContent(db, doc, env);
      a.Done? ==>
        && MovedEntity(db.entities, a.db.entities, doc.content.ccid, EntityRow(doc.id, doc.createdAt))
        && a.db.acks == db.acks && a.db.ackeds == db.ackeds
  {
  }

  /** A commit moves the acks only for an ack, the ackeds only for an acked, the entities
      only for an entity, each by its own row and only strictly forward. */
  lemma CommitMoves(db: Db, now: int, doc: Document, env: Env)
    requires Good(db)
    ensures
      var (after, outcome) := Commit(db, now, doc, env);
      && (if outcome == Applied && doc.content.Ack?
          then Moved(db.acks, after.acks, doc.content.edge, StateRow(doc.id, doc.content.valid, doc.createdAt))
          else after.acks == db.acks)
      && (if outcome == Applied && doc.content.Acked?
          then Moved(db.ackeds, after.ackeds, doc.content.edge, StateRow(doc.id, doc.content.valid, doc.createdAt))
          else after.ackeds == db.ackeds)
      && (if outcome == Applied && doc.content.Entity?
          then MovedEntity(db.entities, after.entities, doc.content.ccid, EntityRow(doc.id, doc.createdAt))
          else after.entities == db.entities)
  {
    if Commit(db, now, doc, env).1 == Applied {
      if doc.content.Ack? || doc.content.Acked? {
        ApplyMovesStates(db, doc, env);
      } else if doc.content.Entity? {
        ApplyMovesEntity(db, doc, env);
      } else {
        ApplyKeepsStates(db, doc, env);
      }
    }
  }

  // ---- Collection ----

  lemma NoKeyHangsOff(db: Db, ids: set<Id>)
    requires Good(db)
    requires forall id :: id in ids ==> id in db.logs && db.logs[id].flagged
    ensures DropRecords(db, ids) == db
    ensures db.associations - ids == db.associations
  {
    assert forall id :: id in ids ==> !Backed(db.logs, id, IsRecord) && !Backed(db.logs, id, IsAssociation);
    assert KeysOf(db, ids) == {};
    assert db.records - ids == db.records;
    assert db.keys - {} == db.keys;
  }

  lemma NoStateHangsOff(logs: Logs, rows: map<Edge, StateRow>, kind: Kind, ids: set<Id>)
    requires StatesOk(logs, rows, kind)
    requires forall id :: id in ids ==> id in logs && logs[id].flagged
    ensures (map e | e in rows && rows[e].document !in ids :: rows[e]) == rows
  {
  }

  /** No row hangs off a flagged log, so dropping flagged logs touches nothing else. */
  lemma NothingHangsOff(db: Db, ids: set<Id>)
    requires Good(db)
    requires forall id :: id in ids ==> id in db.logs && db.logs[id].flagged
    ensures DropLogs(db, ids) == db.(logs := db.logs - ids)
    ensures Good(DropLogs(db, ids))
  {
    NoKeyHangsOff(db, ids);
    NoStateHangsOff(db.logs, db.acks, IsAck, ids);
    NoStateHangsOff(db.logs, db.ackeds, IsAcked, ids);
    assert (map c | c in db.entities && db.entities[c].document !in ids :: db.entities[c]) == db.entities;
    LogsChange(db, db.logs - ids);
  }

  /** Collection touches the log table alone and keeps the invariant. */
  lemma CollectGood(db: Db, now: int, retention: int)
    requires Good(db)
    ensures Good(Collect(db, now, retention))
    ensures Collect(db, now, retention) == db.(logs := Collect(db, now, retention).logs)
  {
    if MAX_BACKDATE <= retention {
      NothingHangsOff(db, Collectable(db, Cutoff(now, retention)));
    }
  }
}
