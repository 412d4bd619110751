/** The server's tables and what one commit does to them
    (internal/usecase/record, internal/infra/repository/postgres/record.go,
    internal/infra/database/models/core.go). A commit is one atomic step. */
module Store {
  import opened Wrappers
  import Cdid
  import RangeDelete

  type Id = string
  type Uri = string
  type Ccid = string

  // Instants are unix nanoseconds.
  const HOUR: nat := 3_600_000_000_000
  const MAX_BACKDATE: nat := 7 * 24 * HOUR
  const MAX_FUTURE_SKEW: nat := 12 * HOUR

  // ---- Documents ----

  datatype Edge = Edge(from: Ccid, to: Ccid, schema: string)

  datatype DeleteTarget = ByKey(uri: Uri) | ById(id: Id) | Subtree(base: Uri, includeSelf: bool)

  /** A document's kind and the fields its kind is applied by. `effectiveAt` is the
      instant a record competes with: its own createdAt, or for a reference record
      the createdAt of what it refers to. */
  datatype Content =
    | Record(key: Uri, effectiveAt: int, retain: bool, distributes: seq<Uri>)
    | Association(associate: Uri, owner: Ccid, unique: string, distributes: seq<Uri>)
    | Ack(edge: Edge, valid: bool)
    | Acked(edge: Edge, valid: bool)
    | Entity(ccid: Ccid)
    | Delete(target: DeleteTarget)

  /** A signed document with its id, the first ten bytes of its hash, the instant its
      author put on it, and the account its commit belongs to: the owner of the key, the
      associate, the acked entity or the deleted namespace, or else the author. */
  datatype Document = Document(id: Id, digest: seq<nat>, createdAt: int, owner: Ccid, content: Content)

  /** SignedDocument.CDID: the id is derived from the hash and the author's instant. */
  predicate Identified(doc: Document) {
    Cdid.Bytes(10, doc.digest) && doc.id == Cdid.Print(Cdid.New(doc.digest, doc.createdAt))
  }

  // ---- Tables ----

  datatype Log = Log(document: Document, flagged: bool)
  datatype KeyRow = KeyRow(record: Option<Id>, createdAt: Option<int>, clean: bool)
  datatype AssociationRow = AssociationRow(target: Uri, unique: string)
  datatype StateRow = StateRow(document: Id, valid: bool, createdAt: int)
  datatype EntityRow = EntityRow(document: Id, createdAt: int)

  datatype Db = Db(
    logs: map<Id, Log>,
    keys: map<Uri, KeyRow>,
    records: map<Id, int>,
    associations: map<Id, AssociationRow>,
    acks: map<Edge, StateRow>,
    ackeds: map<Edge, StateRow>,
    entities: map<Ccid, EntityRow>)

  const EMPTY: Db := Db(map[], map[], map[], map[], map[], map[], map[])
  const PLACEHOLDER: KeyRow := KeyRow(None, None, false)

  function PutLog(db: Db, doc: Document): Db {
    if doc.id in db.logs then db
    else db.(logs := db.logs[doc.id := Log(doc, false)])
  }

  /** MarkCommitLogGcCandidate. */
  function Flag(db: Db, id: Id): Db {
    if id in db.logs then db.(logs := db.logs[id := db.logs[id].(flagged := true)]) else db
  }

  function KeysOf(db: Db, ids: set<Id>): set<Uri> {
    set u | u in db.keys && db.keys[u].record.Some? && db.keys[u].record.value in ids
  }

  /** Deleting record rows takes the keys holding them, and what is associated there. */
  function DropRecords(db: Db, ids: set<Id>): Db {
    var gone := KeysOf(db, ids);
    db.(records := db.records - ids,
        keys := db.keys - gone,
        associations := map a | a in db.associations && db.associations[a].target !in gone :: db.associations[a])
  }

  /** DeleteRecordByKey. */
  function DropByKey(db: Db, uri: Uri): Db {
    if uri in db.keys && db.keys[uri].record.Some? then DropRecords(db, {db.keys[uri].record.value}) else db
  }

  /** Deleting commit logs takes every row that hangs off them. */
  function DropLogs(db: Db, ids: set<Id>): Db {
    var d := DropRecords(db, ids);
    d.(logs := d.logs - ids,
       associations := d.associations - ids,
       acks := map e | e in d.acks && d.acks[e].document !in ids :: d.acks[e],
       ackeds := map e | e in d.ackeds && d.ackeds[e].document !in ids :: d.ackeds[e],
       entities := map c | c in d.entities && d.entities[c].document !in ids :: d.entities[c])
  }

  /** The signed document a key resolves to. */
  function Live(db: Db, uri: Uri): Option<Id> {
    if uri in db.keys then db.keys[uri].record else None
  }

  // ---- Applying one document ----

  datatype Apply = Done(db: Db) | NoOp | Failed

  /** What the outside world contributes to one commit. */
  datatype Env = Env(
    exempt: bool,                  // service account, or the requester's own repository import
    vetted: bool,                  // size, proof, requester, block list, policy and lookup checks all passed
    local: bool,                   // the entity that holds this kind of row lives here
    ancestors: seq<Uri>,           // the parent path of the record's key
    authoritative: bool,           // the delete target's namespace lives here
    listing: seq<Uri>,             // the subtree query's answer, in its order
    forwarded: seq<Document>,      // the matching targets a forwarded delete carries
    carried: set<Id>,              // those of them whose associated document came along
    refKey: (Uri, Uri) -> Uri,     // (destination, href) to the reference record's key
    permits: Uri -> bool)          // the destination's policy lets the reference go

  /** CIP-3 section 3.4: only a strictly newer document takes a held key. */
  predicate TakesKey(db: Db, key: Uri, at: int) {
    key in db.keys && db.keys[key].record.Some? && db.keys[key].createdAt.Some? ==> db.keys[key].createdAt.value < at
  }

  function WithAncestors(keys: map<Uri, KeyRow>, ancestors: seq<Uri>): map<Uri, KeyRow> {
    if ancestors == [] then keys
    else
      var rest := WithAncestors(keys, ancestors[1..]);
      if ancestors[0] in rest then rest else rest[ancestors[0] := PLACEHOLDER]
  }

  function CreateRecord(db: Db, id: Id, r: Content, env: Env): Apply
    requires r.Record?
  {
    if !TakesKey(db, r.key, r.effectiveAt) then NoOp
    else
      var prior := if r.key in db.keys then db.keys[r.key] else PLACEHOLDER;
      var taken := db.(
        records := if id in db.records then db.records else db.records[id := r.effectiveAt],
        keys := WithAncestors(db.keys, env.ancestors)[r.key := KeyRow(Some(id), Some(r.effectiveAt), !r.retain)]);
      if prior.clean && prior.record.Some? && prior.record.value != id
      then Done(DropRecords(Flag(taken, prior.record.value), {prior.record.value}))
      else Done(taken)
  }

  function CreateAssociation(db: Db, id: Id, a: Content): Apply
    requires a.Association?
  {
    if a.associate !in db.keys then Failed
    else if id in db.associations || exists b :: b in db.associations && db.associations[b].unique == a.unique then NoOp
    else Done(db.(associations := db.associations[id := AssociationRow(a.associate, a.unique)]))
  }

  /** CIP-10 section 4: only a strictly newer document moves the state of an edge. */
  predicate MovesState(rows: map<Edge, StateRow>, edge: Edge, at: int) {
    edge in rows ==> rows[edge].createdAt < at
  }

  function ApplyContent(db: Db, doc: Document, env: Env): Apply {
    var id := doc.id;
    var logged := PutLog(db, doc);
    match doc.content
    case Record(_, _, _, _) => CreateRecord(logged, id, doc.content, env)
    case Association(_, _, _, _) =>
      if env.local then CreateAssociation(logged, id, doc.content) else Done(db)
    case Ack(edge, valid) =>
      if env.local && MovesState(db.acks, edge, doc.createdAt)
      then Done(logged.(acks := db.acks[edge := StateRow(id, valid, doc.createdAt)])) else NoOp
    case Acked(edge, valid) =>
      if env.local && MovesState(db.ackeds, edge, doc.createdAt)
      then Done(logged.(ackeds := db.ackeds[edge := StateRow(id, valid, doc.createdAt)])) else NoOp
    case Entity(ccid) =>
      if ccid in db.entities && doc.createdAt <= db.entities[ccid].createdAt then NoOp
      else Done(logged.(entities := db.entities[ccid := EntityRow(id, doc.createdAt)]))
    case Delete(target) => DeleteRecord(db, logged, doc, env)
  }

  // ---- Deletes ----

  // One document a delete acts on, with the key it was addressed by, if it was.
  datatype Found = Found(key: Option<Uri>, id: Id, document: Document)

  // A delete in progress: the tables, whether anything was deleted, whether any of it
  // asked for its history to be kept.
  datatype Sweep = Sweep(db: Db, any: bool, retained: bool)

  /** createReferenceDistributionActions: what a delivered reference points at. */
  function DeliveredHref(doc: Document, author: Ccid): Uri {
    match doc.content
    case Record(key, _, _, _) => key
    case Association(_, owner, _, _) => Ccfs(owner, doc.id)
    case _ => Ccfs(author, doc.id)
  }

  function Ccfs(owner: Ccid, id: Id): Uri {
    "ccfs://" + owner + "/concrnt/" + id
  }

  /** deleteRecord: the href a delete re-derives from the target document. */
  function SweptHref(doc: Document): Option<Uri> {
    match doc.content
    case Record(key, _, _, _) => Some(key)
    case Association(_, owner, _, _) => Some(Ccfs(owner, doc.id))
    case Ack(edge, _) => Some(Ccfs(edge.to, doc.id))
    case Acked(edge, _) => Some(Ccfs(edge.to, doc.id))
    case _ => None
  }

  function Distributes(doc: Document): seq<Uri> {
    match doc.content
    case Record(_, _, _, distributes) => distributes
    case Association(_, _, _, distributes) => distributes
    case _ => []
  }

  predicate Retains(db: Db, id: Id) {
    id in db.logs && db.logs[id].document.content.Record? && db.logs[id].document.content.retain
  }

  function FlagDeleted(s: Sweep, id: Id, retain: bool): Sweep {
    if retain then s.(any := true, retained := true) else s.(any := true, db := Flag(s.db, id))
  }

  /** Sweeps one reference record. Reads see the state before the transaction. */
  function SweepReference(before: Db, s: Sweep, env: Env, key: Uri): Sweep {
    if Live(before, key).None? || !env.permits(key) then s
    else FlagDeleted(s.(db := DropByKey(s.db, key)), Live(before, key).value, Retains(before, Live(before, key).value))
  }

  function SweepReferences(before: Db, s: Sweep, env: Env, href: Uri, dests: seq<Uri>): Sweep
    decreases |dests|
  {
    if dests == [] then s
    else SweepReferences(before, SweepReference(before, s, env, env.refKey(dests[0], href)), env, href, dests[1..])
  }

  /** Removes the target's own rows; None when its kind cannot be deleted this way. */
  function RemoveTarget(s: Sweep, f: Found): Option<Sweep> {
    match f.document.content
    case Record(_, _, retain, _) =>
      var db := if f.key.Some? then DropByKey(s.db, f.key.value) else DropRecords(s.db, {f.id});
      Some(FlagDeleted(s.(db := db), f.id, retain))
    case Association(_, _, _, _) =>
      if f.key.Some? then None
      else Some(FlagDeleted(s.(db := s.db.(associations := s.db.associations - {f.id})), f.id, false))
    case _ => None
  }

  predicate IsLive(db: Db, uri: Uri) {
    Live(db, uri).Some? && Live(db, uri).value in db.logs
  }

  /** The document a target is associated with is at hand, for its subscribers: here where
      this server decides, in the delivery otherwise. A placeholder key is not enough. */
  predicate AssociateAtHand(before: Db, env: Env, f: Found) {
    if !env.authoritative then f.document.content.Record? || f.id in env.carried
    else f.document.content.Association? ==> IsLive(before, f.document.content.associate)
  }

  /** One target: its own rows where this server decides, then the references to it. */
  function SweepTarget(before: Db, s: Sweep, env: Env, f: Found): Option<Sweep> {
    var removed := if env.authoritative then RemoveTarget(s, f) else Some(s);
    if removed.None? || SweptHref(f.document).None? || !AssociateAtHand(before, env, f) then None
    else Some(SweepReferences(before, removed.value, env, SweptHref(f.document).value, Distributes(f.document)))
  }

  function DeleteTargets(before: Db, s: Sweep, env: Env, targets: seq<Found>): Option<Sweep>
    decreases |targets|
  {
    if targets == [] then Some(s)
    else
      var swept := SweepTarget(before, s, env, targets[0]);
      if swept.None? then None else DeleteTargets(before, swept.value, env, targets[1..])
  }

  function FoundByKey(db: Db, uri: Uri): Found
    requires IsLive(db, uri)
  {
    var id := Live(db, uri).value;
    Found(Some(uri), id, db.logs[id].document)
  }

  function FindKeys(db: Db, uris: seq<Uri>): seq<Found> {
    if uris == [] then []
    else (if IsLive(db, uris[0]) then [FoundByKey(db, uris[0])] else []) + FindKeys(db, uris[1..])
  }

  /** Target selection; the empty answer is NotFound. */
  function FindTargets(db: Db, target: DeleteTarget, env: Env): seq<Found> {
    match target
    case ByKey(uri) => FindKeys(db, [uri])
    case ById(id) => if id in db.logs then [Found(None, id, db.logs[id].document)] else []
    case Subtree(_, _) => FindKeys(db, env.listing)
  }

  function Carried(docs: seq<Document>): (r: seq<Found>)
    ensures |r| == |docs|
    ensures forall k :: 0 <= k < |docs| ==> r[k] == Found(None, docs[k].id, docs[k])
  {
    if docs == [] then [] else [Found(None, docs[0].id, docs[0])] + Carried(docs[1..])
  }

  function Targets(db: Db, doc: Document, env: Env): seq<Found>
    requires doc.content.Delete?
  {
    if env.authoritative then FindTargets(db, doc.content.target, env) else Carried(env.forwarded)
  }

  function DeleteRecord(before: Db, logged: Db, doc: Document, env: Env): Apply
    requires doc.content.Delete?
  {
    var targets := Targets(before, doc, env);
    if targets == [] then (if env.authoritative then Failed else NoOp)
    else
      var swept := DeleteTargets(before, Sweep(logged, false, false), env, targets);
      if swept.None? then Failed
      else if !swept.value.any then NoOp
      else Done(if swept.value.retained then swept.value.db else Flag(swept.value.db, doc.id))
  }

  /** The subtree query lists exactly the live keys the range selects, once each. */
  ghost predicate ListingOk(db: Db, doc: Document, env: Env) {
    doc.content.Delete? && doc.content.target.Subtree? && env.authoritative ==>
      && (forall u :: u in env.listing <==>
            u in db.keys && db.keys[u].record.Some? && RangeDelete.Selects(doc.content.target.base, doc.content.target.includeSelf, u))
      && (forall j, k :: 0 <= j < k < |env.listing| ==> env.listing[j] != env.listing[k])
  }

  // ---- Commit ----

  datatype Outcome = Known | Rejected | Unchanged | Applied

  predicate BackdateExempt(doc: Document, env: Env) {
    env.exempt || doc.content.Entity? || doc.content.Acked?
  }

  predicate InWindow(doc: Document, env: Env, now: int) {
    && doc.createdAt <= now + MAX_FUTURE_SKEW
    && (BackdateExempt(doc, env) || now - MAX_BACKDATE <= doc.createdAt)
  }

  function Commit(db: Db, now: int, doc: Document, env: Env): (r: (Db, Outcome)) {
    if doc.id in db.logs then (db, Known)
    else if !InWindow(doc, env, now) || !env.vetted then (db, Rejected)
    else
      match ApplyContent(db, doc, env)
      case Done(d) => (d, Applied)
      case NoOp => (db, Unchanged)
      case Failed => (db, Rejected)
  }

  // ---- Garbage collection ----

  function Cutoff(now: int, retention: int): Id {
    Cdid.Print(Cdid.New(Cdid.NO_DATA, now - retention))
  }

  function Collectable(db: Db, cutoff: Id): set<Id> {
    set id | id in db.logs && db.logs[id].flagged && Cdid.Before(id, cutoff)
  }

  /** gc-commitlog; a retention below the backdate window is refused. */
  function Collect(db: Db, now: int, retention: int): Db {
    if retention < MAX_BACKDATE then db else DropLogs(db, Collectable(db, Cutoff(now, retention)))
  }
}
