/** What an applied record or association commit changes, exactly. */
module KeyTaking {
  import opened Wrappers
  import opened Store
  import opened StoreInvariant
  import Deletion

  /** The document the commit supersedes and has to clean up. */
  predicate Superseded(db: Db, key: Uri, id: Id) {
    Live(db, key) == Some(id) && db.keys[key].clean
  }

  lemma NobodyElseHolds(db: Db, doc: Document, env: Env, prior: Id)
    requires Good(db) && doc.content.Record? && doc.id !in db.logs && Live(db, doc.content.key) == Some(prior)
    ensures KeysOf(Flag(Taken(PutLog(db, doc), doc.id, doc.content, env), prior), {prior}) == {}
  {
    var logged := PutLog(db, doc);
    AncestorsOnlyAdd(logged.keys, env.ancestors);
    var taken := Taken(logged, doc.id, doc.content, env);
    assert prior in db.logs;
    forall u | u in taken.keys && taken.keys[u].record == Some(prior) ensures u == doc.content.key {
      Deletion.OneKeyPerRecord(db, u, doc.content.key);
    }
    assert Flag(taken, prior).keys == taken.keys;
  }

  /** The key's row is the document's own, every other row is as it was, new rows are
      placeholders on its path. */
  ghost predicate KeysTaken(db: Db, after: Db, doc: Document)
    requires doc.content.Record?
  {
    var r := doc.content;
    && r.key in after.keys && after.keys[r.key] == KeyRow(Some(doc.id), Some(r.effectiveAt), !r.retain)
    && (forall u :: u in db.keys && u != r.key ==> u in after.keys && after.keys[u] == db.keys[u])
    && (forall u :: u in after.keys && u !in db.keys && u != r.key ==> after.keys[u] == PLACEHOLDER)
  }

  lemma TakenKeys(db: Db, doc: Document, env: Env)
    requires doc.content.Record?
    ensures KeysTaken(db, Taken(PutLog(db, doc), doc.id, doc.content, env), doc)
  {
    AncestorsOnlyAdd(PutLog(db, doc).keys, env.ancestors);
  }

  /** The document the commit superseded, and no other, loses its row and is flagged. */
  ghost predicate CleansUp(db: Db, after: Db, doc: Document)
    requires doc.content.Record?
  {
    var key := doc.content.key;
    && doc.id in after.records
    && (forall id :: id in db.records ==> (id in after.records <==> !Superseded(db, key, id)))
    && (forall id :: id in db.logs ==> (Deletion.Flagged(after, id) <==> Deletion.Flagged(db, id) || Superseded(db, key, id)))
    && !Deletion.Flagged(after, doc.id)
  }

  lemma TakesOver(db: Db, doc: Document, env: Env, prior: Id)
    requires Good(db) && doc.content.Record? && doc.id !in db.logs
    requires TakesKey(db, doc.content.key, doc.content.effectiveAt) && Superseded(db, doc.content.key, prior)
    ensures
      var after := CreateRecord(PutLog(db, doc), doc.id, doc.content, env).db;
      after.keys == Taken(PutLog(db, doc), doc.id, doc.content, env).keys && CleansUp(db, after, doc)
  {
    assert prior in db.logs && prior != doc.id;
    NobodyElseHolds(db, doc, env, prior);
    DropsNoKey(Flag(Taken(PutLog(db, doc), doc.id, doc.content, env), prior), prior);
  }

  /** An applied record is strictly newer than what held its key; it takes that key alone,
      and exactly the document it superseded there, unless history was asked for, loses
      its row and is flagged. */
  lemma TakesExactly(db: Db, doc: Document, env: Env)
    requires Good(db) && doc.content.Record? && doc.id !in db.logs
    requires CreateRecord(PutLog(db, doc), doc.id, doc.content, env).Done?
    ensures
      var after := CreateRecord(PutLog(db, doc), doc.id, doc.content, env).db;
      && TakesKey(db, doc.content.key, doc.content.effectiveAt)
      && KeysTaken(db, after, doc)
      && CleansUp(db, after, doc)
  {
    var key := doc.content.key;
    TakenKeys(db, doc, env);
    if Live(db, key).Some? && db.keys[key].clean {
      TakesOver(db, doc, env, Live(db, key).value);
    }
  }

  lemma DropsNoKey(db: Db, id: Id)
    requires KeysOf(db, {id}) == {}
    ensures DropRecords(db, {id}) == db.(records := db.records - {id})
  {
    assert db.keys - {} == db.keys;
    assert DropRecords(db, {id}).associations == db.associations;
  }

  // ---- Associations ----

  /** No two associations say the same thing. */
  ghost predicate Uniques(associations: map<Id, AssociationRow>) {
    forall a, b :: Agree(associations, a, b) ==> a == b
  }

  predicate Agree(associations: map<Id, AssociationRow>, a: Id, b: Id) {
    a in associations && b in associations && associations[a].unique == associations[b].unique
  }

  lemma CreateAssociationUniques(db: Db, id: Id, a: Content)
    requires a.Association? && Uniques(db.associations)
    ensures
      var r := CreateAssociation(db, id, a);
      r.Done? ==> Uniques(r.db.associations) && r.db.associations == db.associations[id := AssociationRow(a.associate, a.unique)]
  {
    var r := CreateAssociation(db, id, a);
    if r.Done? {
      var after := db.associations[id := AssociationRow(a.associate, a.unique)];
      forall x, y | Agree(after, x, y) ensures x == y {
        if x != id && y != id { assert Agree(db.associations, x, y); }
      }
    }
  }

  lemma FewerUniques(before: map<Id, AssociationRow>, after: map<Id, AssociationRow>)
    requires Uniques(before) && Fewer(before, after)
    ensures Uniques(after)
  {
    forall a, b | Agree(after, a, b) ensures a == b {
      assert Agree(before, a, b);
    }
  }

  lemma CreateRecordFewer(db: Db, id: Id, r: Content, env: Env)
    requires r.Record?
    ensures
      var a := CreateRecord(db, id, r, env);
      a.Done? ==> Fewer(db.associations, a.db.associations)
  {
  }

  lemma CreateRecordUniques(db: Db, id: Id, r: Content, env: Env)
    requires r.Record? && Uniques(db.associations)
    ensures
      var a := CreateRecord(db, id, r, env);
      a.Done? ==> Uniques(a.db.associations)
  {
    CreateRecordFewer(db, id, r, env);
    var a := CreateRecord(db, id, r, env);
    if a.Done? { FewerUniques(db.associations, a.db.associations); }
  }

  lemma DeleteUniques(db: Db, doc: Document, env: Env)
    requires Good(db) && doc.content.Delete? && doc.id !in db.logs && Uniques(db.associations)
    ensures
      var a := DeleteRecord(db, PutLog(db, doc), doc, env);
      a.Done? ==> Uniques(a.db.associations)
  {
    var a := DeleteRecord(db, PutLog(db, doc), doc, env);
    if a.Done? {
      DeleteSweeps(db, doc, env);
      FewerUniques(db.associations, a.db.associations);
    }
  }

  lemma LoggedUniques(db: Db, doc: Document)
    requires Uniques(db.associations)
    ensures Uniques(PutLog(db, doc).associations)
  {
    assert PutLog(db, doc).associations == db.associations;
  }

  lemma RecordUniques(db: Db, doc: Document, env: Env)
    requires Uniques(db.associations) && doc.content.Record?
    ensures
      var a := ApplyContent(db, doc, env);
      a.Done? ==> Uniques(a.db.associations)
  {
    LoggedUniques(db, doc);
    CreateRecordUniques(PutLog(db, doc), doc.id, doc.content, env);
  }

  lemma AssociationUniques(db: Db, doc: Document, env: Env)
    requires Uniques(db.associations) && doc.content.Association?
    ensures
      var a := ApplyContent(db, doc, env);
      a.Done? ==> Uniques(a.db.associations)
  {
    LoggedUniques(db, doc);
    CreateAssociationUniques(PutLog(db, doc), doc.id, doc.content);
  }

  lemma StateUniques(db: Db, doc: Document, env: Env)
    requires Uniques(db.associations) && (doc.content.Ack? || doc.content.Acked? || doc.content.Entity?)
    ensures
      var a := ApplyContent(db, doc, env);
      a.Done? ==> Uniques(a.db.associations)
  {
    LoggedUniques(db, doc);
  }

  /** Every commit keeps associations unique: the same association under a new document id
      is never stored beside the old one. */
  lemma CommitUniques(db: Db, now: int, doc: Document, env: Env)
    requires Good(db) && Uniques(db.associations)
    ensures Uniques(Commit(db, now, doc, env).0.associations)
  {
    if Commit(db, now, doc, env).1 == Applied {
      if doc.content.Delete? {
        DeleteUniques(db, doc, env);
      } else if doc.content.Record? {
        RecordUniques(db, doc, env);
      } else if doc.content.Association? {
        AssociationUniques(db, doc, env);
      } else {
        StateUniques(db, doc, env);
      }
    }
  }
}
