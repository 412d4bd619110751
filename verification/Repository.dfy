/** The tables as the server updates them in place: one transaction per commit, rolled
    back unless the document took effect, and the batch loop of the collector. Every
    method is proved against the functions of Store. */
module Repository {
  import opened Wrappers
  import opened Store
  import opened StoreInvariant

  datatype Verdict = Took | Lost | Error

  class Tables {
    var logs: map<Id, Log>
    var keys: map<Uri, KeyRow>
    var records: map<Id, int>
    var associations: map<Id, AssociationRow>
    var acks: map<Edge, StateRow>
    var ackeds: map<Edge, StateRow>
    var entities: map<Ccid, EntityRow>

    function Now(): Db
      reads this
    {
      Db(logs, keys, records, associations, acks, ackeds, entities)
    }

    constructor ()
      ensures Now() == EMPTY
    {
      logs, keys, records, associations := map[], map[], map[], map[];
      acks, ackeds, entities := map[], map[], map[];
    }

    /** Everything back to where the transaction began. */
    method Rollback(begin: Db)
      modifies this
      ensures Now() == begin
    {
      logs, keys, records, associations := begin.logs, begin.keys, begin.records, begin.associations;
      acks, ackeds, entities := begin.acks, begin.ackeds, begin.entities;
    }

    method CreateCommitLog(doc: Document)
      modifies this`logs
      ensures Now() == PutLog(old(Now()), doc)
    {
      if doc.id !in logs {
        logs := logs[doc.id := Log(doc, false)];
      }
    }

    method MarkGcCandidate(id: Id)
      modifies this`logs
      ensures Now() == Flag(old(Now()), id)
    {
      if id in logs {
        logs := logs[id := logs[id].(flagged := true)];
      }
    }

    /** Deletes record rows; the foreign keys take their keys and what is associated there. */
    method DeleteRecords(ids: set<Id>)
      modifies this`records, this`keys, this`associations
      ensures Now() == DropRecords(old(Now()), ids)
    {
      var gone := KeysOf(Now(), ids);
      records := records - ids;
      keys := keys - gone;
      associations := map a | a in associations && associations[a].target !in gone :: associations[a];
    }

    method DeleteRecordByKey(uri: Uri)
      modifies this`records, this`keys, this`associations
      ensures Now() == DropByKey(old(Now()), uri)
    {
      if uri in keys && keys[uri].record.Some? {
        DeleteRecords({keys[uri].record.value});
      }
    }

    /** Creates the missing rows on the path to a key, root first. */
    method CreateAncestors(ancestors: seq<Uri>)
      modifies this`keys
      ensures keys == WithAncestors(old(keys), ancestors)
    {
      var i := |ancestors|;
      while i > 0
        invariant 0 <= i <= |ancestors|
        invariant keys == WithAncestors(old(keys), ancestors[i..])
      {
        i := i - 1;
        if ancestors[i] !in keys {
          keys := keys[ancestors[i] := PLACEHOLDER];
        }
        assert ancestors[i..][1..] == ancestors[i + 1..];
      }
    }

    method CreateRecord(id: Id, r: Content, env: Env) returns (v: Verdict)
      requires r.Record?
      modifies this`logs, this`records, this`keys, this`associations
      ensures var a := Store.CreateRecord(old(Now()), id, r, env);
        if a.Done? then v == Took && Now() == a.db else v == Lost && Now() == old(Now())
    {
      var prior := if r.key in keys then keys[r.key] else PLACEHOLDER;
      if prior.record.Some? && prior.createdAt.Some? && r.effectiveAt <= prior.createdAt.value {
        return Lost;
      }
      if id !in records {
        records := records[id := r.effectiveAt];
      }
      CreateAncestors(env.ancestors);
      keys := keys[r.key := KeyRow(Some(id), Some(r.effectiveAt), !r.retain)];
      if prior.clean && prior.record.Some? && prior.record.value != id {
        MarkGcCandidate(prior.record.value);
        DeleteRecords({prior.record.value});
      }
      return Took;
    }

    method CreateAssociation(id: Id, a: Content) returns (v: Verdict)
      requires a.Association?
      modifies this`associations
      ensures match Store.CreateAssociation(old(Now()), id, a)
        case Done(d) => v == Took && Now() == d
        case NoOp => v == Lost && Now() == old(Now())
        case Failed => v == Error && Now() == old(Now())
    {
      if a.associate !in keys { return Error; }
      if id in associations || exists b :: b in associations && associations[b].unique == a.unique { return Lost; }
      associations := associations[id := AssociationRow(a.associate, a.unique)];
      return Took;
    }

    /** The sweep over one target's destinations, reading what was there before. */
    method SweepDistribution(before: Db, f: Found, env: Env, any: bool, retained: bool) returns (any': bool, retained': bool)
      requires SweptHref(f.document).Some?
      modifies this`logs, this`records, this`keys, this`associations
      ensures SweepReferences(before, Sweep(old(Now()), any, retained), env, SweptHref(f.document).value, Distributes(f.document))
        == Sweep(Now(), any', retained')
    {
      any', retained' := any, retained;
      var href, dests := SweptHref(f.document).value, Distributes(f.document);
      var i := 0;
      assert dests[0..] == dests;
      while i < |dests|
        invariant 0 <= i <= |dests|
        invariant SweepReferences(before, Sweep(Now(), any', retained'), env, href, dests[i..])
          == SweepReferences(before, Sweep(old(Now()), any, retained), env, href, dests)
      {
        var key := env.refKey(dests[i], href);
        ghost var s := Sweep(Now(), any', retained');
        if Live(before, key).Some? && env.permits(key) {
          DeleteRecordByKey(key);
          any' := true;
          if Retains(before, Live(before, key).value) {
            retained' := true;
          } else {
            MarkGcCandidate(Live(before, key).value);
          }
        }
        assert Sweep(Now(), any', retained') == SweepReference(before, s, env, key);
        assert dests[i..][1..] == dests[i + 1..];
        i := i + 1;
      }
    }

    /** Removes a target's own rows. */
    method RemoveOwnRows(f: Found, any: bool, retained: bool) returns (ok: bool, any': bool, retained': bool)
      modifies this`logs, this`records, this`keys, this`associations
      ensures var r := RemoveTarget(Sweep(old(Now()), any, retained), f);
        ok == r.Some? && (ok ==> r.value == Sweep(Now(), any', retained'))
    {
      any', retained' := any, retained;
      match f.document.content {
        case Record(_, _, retain, _) =>
          if f.key.Some? { DeleteRecordByKey(f.key.value); } else { DeleteRecords({f.id}); }
          any' := true;
          if retain { retained' := true; } else { MarkGcCandidate(f.id); }
          return true, any', retained';
        case Association(_, _, _, _) =>
          if f.key.Some? { return false, any', retained'; }
          associations := associations - {f.id};
          any' := true;
          MarkGcCandidate(f.id);
          return true, any', retained';
        case _ =>
          return false, any', retained';
      }
    }

    method SweepOne(before: Db, f: Found, env: Env, any: bool, retained: bool) returns (ok: bool, any': bool, retained': bool)
      modifies this`logs, this`records, this`keys, this`associations
      ensures var r := SweepTarget(before, Sweep(old(Now()), any, retained), env, f);
        ok == r.Some? && (ok ==> r.value == Sweep(Now(), any', retained'))
    {
      ok, any', retained' := true, any, retained;
      if env.authoritative {
        ok, any', retained' := RemoveOwnRows(f, any, retained);
      }
      if !ok || SweptHref(f.document).None? {
        return false, any', retained';
      }
      any', retained' := SweepDistribution(before, f, env, any', retained');
      ok := AssociateAtHand(before, env, f);
    }

    /** deleteRecord: every target in turn, then the delete's own log. */
    method ApplyDelete(doc: Document, env: Env) returns (v: Verdict)
      requires doc.content.Delete?
      modifies this`logs, this`records, this`keys, this`associations
      ensures var a := Store.DeleteRecord(old(Now()), PutLog(old(Now()), doc), doc, env);
        v == VerdictOf(a) && (a.Done? ==> Now() == a.db)
    {
      var before := Now();
      var targets := Targets(before, doc, env);
      if targets == [] {
        return if env.authoritative then Error else Lost;
      }
      CreateCommitLog(doc);
      ghost var start := Sweep(Now(), false, false);
      var any, retained := false, false;
      var i := 0;
      assert targets[0..] == targets;
      while i < |targets|
        invariant 0 <= i <= |targets|
        invariant DeleteTargets(before, Sweep(Now(), any, retained), env, targets[i..]) == DeleteTargets(before, start, env, targets)
      {
        assert targets[i..][1..] == targets[i + 1..];
        var ok;
        ok, any, retained := SweepOne(before, targets[i], env, any, retained);
        if !ok { return Error; }
        i := i + 1;
      }
      if !any { return Lost; }
      if !retained { MarkGcCandidate(doc.id); }
      return Took;
    }

    /** Dispatch on the document's kind inside the transaction. */
    method Apply(doc: Document, env: Env) returns (v: Verdict)
      modifies this
      ensures var a := ApplyContent(old(Now()), doc, env);
        v == VerdictOf(a) && (a.Done? ==> Now() == a.db)
    {
      match doc.content {
        case Record(_, _, _, _) =>
          CreateCommitLog(doc);
          v := CreateRecord(doc.id, doc.content, env);
        case Association(_, _, _, _) =>
          if !env.local { return Took; }
          CreateCommitLog(doc);
          v := CreateAssociation(doc.id, doc.content);
        case Ack(edge, valid) =>
          if !env.local || !MovesState(acks, edge, doc.createdAt) { return Lost; }
          CreateCommitLog(doc);
          acks := acks[edge := StateRow(doc.id, valid, doc.createdAt)];
          return Took;
        case Acked(edge, valid) =>
          if !env.local || !MovesState(ackeds, edge, doc.createdAt) { return Lost; }
          CreateCommitLog(doc);
          ackeds := ackeds[edge := StateRow(doc.id, valid, doc.createdAt)];
          return Took;
        case Entity(ccid) =>
          if ccid in entities && doc.createdAt <= entities[ccid].createdAt { return Lost; }
          CreateCommitLog(doc);
          entities := entities[ccid := EntityRow(doc.id, doc.createdAt)];
          return Took;
        case Delete(_) =>
          v := ApplyDelete(doc, env);
      }
    }

    /** Commit: dedup by id, the time windows, then one transaction that is rolled back
        unless the document took effect. */
    method Commit(now: int, doc: Document, env: Env) returns (outcome: Outcome)
      requires Good(Now())
      modifies this
      ensures (Now(), outcome) == Store.Commit(old(Now()), now, doc, env)
      ensures Good(Now())
    {
      CommitGood(Now(), now, doc, env);
      if doc.id in logs { return Known; }
      if now + MAX_FUTURE_SKEW < doc.createdAt { return Rejected; }
      if !BackdateExempt(doc, env) && doc.createdAt < now - MAX_BACKDATE { return Rejected; }
      if !env.vetted { return Rejected; }
      var begin := Now();
      var v := Apply(doc, env);
      if v != Took { Rollback(begin); }
      return match v case Took => Applied case Lost => Unchanged case Error => Rejected;
    }

    /** Deletes commit logs; the foreign keys take every row that hangs off them. */
    method DeleteLogs(ids: set<Id>)
      modifies this
      ensures Now() == DropLogs(old(Now()), ids)
    {
      DeleteRecords(ids);
      logs := logs - ids;
      associations := associations - ids;
      acks := map e | e in acks && acks[e].document !in ids :: acks[e];
      ackeds := map e | e in ackeds && ackeds[e].document !in ids :: ackeds[e];
      entities := map c | c in entities && entities[c].document !in ids :: entities[c];
    }

    /** gc-commitlog without a backup: batches of at most `limit` until none is left. */
    method GcCommitlog(now: int, retention: int, limit: nat) returns (total: nat)
      requires Good(Now()) && limit > 0
      modifies this
      ensures Now() == Collect(old(Now()), now, retention) && Good(Now())
      ensures total == if retention < MAX_BACKDATE then 0 else |Collectable(old(Now()), Cutoff(now, retention))|
    {
      total := 0;
      if retention < MAX_BACKDATE { return; }
      var cutoff := Cutoff(now, retention);
      ghost var all := Collectable(Now(), cutoff);
      while true
        invariant Good(Now())
        invariant DropLogs(Now(), Collectable(Now(), cutoff)) == DropLogs(old(Now()), all)
        invariant total + |Collectable(Now(), cutoff)| == |all|
        decreases |Collectable(Now(), cutoff)|
      {
        ghost var was := Now();
        var batch := TakeSome(Collectable(Now(), cutoff), limit);
        if batch == {} { break; }
        DeleteLogs(batch);
        BatchByBatch(was, cutoff, batch);
        total := total + |batch|;
      }
      NothingHangsOff(Now(), {});
    }

    /** gc-commitlog after a backup: exactly the backed-up ids, in batches. */
    method DeleteBackedUp(ids: seq<Id>, batchSize: nat)
      requires Good(Now()) && batchSize > 0
      requires forall id :: id in ids && id in logs ==> logs[id].flagged
      modifies this
      ensures Now() == old(Now()).(logs := old(logs) - Elems(ids)) && Good(Now())
    {
      ghost var begin := Now();
      var start := 0;
      assert begin.logs - Elems(ids[..0]) == begin.logs;
      while start < |ids|
        invariant 0 <= start <= |ids| && Good(Now())
        invariant Now() == Without(begin, Elems(ids[..start]))
      {
        var end := if start + batchSize < |ids| then start + batchSize else |ids|;
        var batch := Elems(ids[start..end]) * logs.Keys;
        ElemsSplit(ids, start, end);
        BatchGone(begin, Elems(ids[..start]), Elems(ids[start..end]));
        DeleteLogs(batch);
        start := end;
      }
      assert ids[..start] == ids;
    }
  }

  function Elems(ids: seq<Id>): set<Id> {
    set id | id in ids
  }

  function Without(db: Db, gone: set<Id>): Db {
    db.(logs := db.logs - gone)
  }

  lemma ElemsSplit(ids: seq<Id>, start: nat, end: nat)
    requires start <= end <= |ids|
    ensures Elems(ids[..end]) == Elems(ids[..start]) + Elems(ids[start..end])
    ensures forall id :: id in Elems(ids[start..end]) ==> id in ids
  {
    assert ids[..end] == ids[..start] + ids[start..end];
  }

  lemma BatchGone(begin: Db, gone: set<Id>, batch: set<Id>)
    requires Good(Without(begin, gone))
    requires forall id :: id in batch && id in begin.logs ==> begin.logs[id].flagged
    ensures
      var db := Without(begin, gone);
      DropLogs(db, batch * db.logs.Keys) == Without(begin, gone + batch) && Good(Without(begin, gone + batch))
  {
    var db := Without(begin, gone);
    NothingHangsOff(db, batch * db.logs.Keys);
    assert db.logs - (batch * db.logs.Keys) == begin.logs - (gone + batch);
  }

  /** One batch leaves the rest of the work as it was. */
  lemma BatchByBatch(db: Db, cutoff: Id, batch: set<Id>)
    requires Good(db) && batch <= Collectable(db, cutoff)
    ensures
      var after := DropLogs(db, batch);
      && Good(after)
      && Collectable(after, cutoff) == Collectable(db, cutoff) - batch
      && |Collectable(after, cutoff)| + |batch| == |Collectable(db, cutoff)|
      && DropLogs(after, Collectable(after, cutoff)) == DropLogs(db, Collectable(db, cutoff))
  {
    var all := Collectable(db, cutoff);
    NothingHangsOff(db, batch);
    NothingHangsOff(db, all);
    var after := db.(logs := db.logs - batch);
    assert Collectable(after, cutoff) == all - batch;
    NothingHangsOff(after, all - batch);
    assert after.logs - (all - batch) == db.logs - all;
  }

  function VerdictOf(a: Apply): Verdict {
    match a
    case Done(_) => Took
    case NoOp => Lost
    case Failed => Error
  }

  /** Up to `limit` elements, in no particular order. */
  method TakeSome(s: set<Id>, limit: nat) returns (batch: set<Id>)
    ensures batch <= s && |batch| == if |s| < limit then |s| else limit
  {
    batch := {};
    var rest := s;
    while rest != {} && |batch| < limit
      invariant batch + rest == s && batch !! rest && |batch| <= limit && |batch| + |rest| == |s|
      decreases rest
    {
      var x :| x in rest;
      batch, rest := batch + {x}, rest - {x};
    }
  }
}
