/** Two servers and the acked documents one derives for the other: acks are accepted on
    the acker's server, derived deliveries reach the target's server late, repeatedly, in
    any order or never (internal/usecase/record/ack.go, types.go). */
module AckFederation {
  import opened Wrappers
  import opened Store
  import opened StoreInvariant
  import Replay

  /** What an ack or acked document says about its edge. */
  datatype Claim = Claim(edge: Edge, valid: bool, at: int)

  predicate SaysState(doc: Document) {
    doc.content.Ack? || doc.content.Acked?
  }

  function ClaimOf(doc: Document): Claim
    requires SaysState(doc)
  {
    Claim(doc.content.edge, doc.content.valid, doc.createdAt)
  }

  /** DeriveAcked changes the kind alone: edge, validity and createdAt stay. */
  predicate Derives(ack: Document, acked: Document) {
    ack.content.Ack? && acked.content.Acked? && ClaimOf(acked) == ClaimOf(ack)
  }

  datatype System = System(acker: Replay.World, target: Replay.World, accepted: set<Claim>, wire: set<Document>)

  datatype Step =
    | Submit(doc: Document, env: Env, derived: Document)  // any commit on the acker's server
    | Deliver(msg: Document, env: Env)                     // an acked document reaches the target's server
    | Other(doc: Document, env: Env)                       // any other commit there
    | AckerIdles(step: Replay.Step)                        // clock or collection
    | TargetIdles(step: Replay.Step)

  predicate Enabled(s: System, step: Step) {
    match step
    case Submit(doc, _, derived) => doc.content.Ack? ==> Derives(doc, derived)
    case Deliver(msg, _) => msg in s.wire && (msg.id in s.target.db.logs ==> s.target.db.logs[msg.id].document == msg)
    case Other(doc, _) => !doc.content.Acked?
    case AckerIdles(st) => !st.Submit?
    case TargetIdles(st) => !st.Submit?
  }

  predicate AcceptsAck(w: Replay.World, doc: Document, env: Env) {
    doc.content.Ack? && Commit(w.db, w.now, doc, env).1 == Applied
  }

  function Next(s: System, step: Step): System
    requires Enabled(s, step)
  {
    match step
    case Submit(doc, env, derived) =>
      var moved := s.(acker := Replay.Next(s.acker, Replay.Submit(doc, env)));
      if AcceptsAck(s.acker, doc, env)
      then moved.(accepted := s.accepted + {ClaimOf(doc)}, wire := s.wire + {derived}) else moved
    case Deliver(msg, env) => s.(target := Replay.Next(s.target, Replay.Submit(msg, env)))
    case Other(doc, env) => s.(target := Replay.Next(s.target, Replay.Submit(doc, env)))
    case AckerIdles(st) => s.(acker := Replay.Next(s.acker, st))
    case TargetIdles(st) => s.(target := Replay.Next(s.target, st))
  }

  // ---- Runs ----

  datatype Run = Run(systems: seq<System>, steps: seq<Step>)

  ghost predicate IsRun(run: Run) {
    && |run.systems| == |run.steps| + 1
    && run.systems[0].acker.db == EMPTY && run.systems[0].target.db == EMPTY
    && run.systems[0].accepted == {} && run.systems[0].wire == {}
    && (forall k :: 0 <= k < |run.steps| ==> Stepped(run, k))
  }

  predicate Stepped(run: Run, k: nat)
    requires k < |run.steps| && |run.systems| == |run.steps| + 1
  {
    Enabled(run.systems[k], run.steps[k]) && run.systems[k + 1] == Next(run.systems[k], run.steps[k])
  }

  // ---- The invariant ----

  /** The acker's row is at least as new as every accepted claim, and is the newest one. */
  ghost predicate AckerOk(acks: map<Edge, StateRow>, accepted: set<Claim>) {
    forall c :: c in accepted ==>
      && c.edge in acks
      && c.at <= acks[c.edge].createdAt
      && (c.at == acks[c.edge].createdAt ==> c.valid == acks[c.edge].valid)
  }

  /** The target's row is an accepted claim. */
  ghost predicate TargetOk(ackeds: map<Edge, StateRow>, accepted: set<Claim>) {
    forall e :: e in ackeds ==> Claim(e, ackeds[e].valid, ackeds[e].createdAt) in accepted
  }

  /** A claim has been taken into account. */
  predicate Caught(ackeds: map<Edge, StateRow>, c: Claim) {
    c.edge in ackeds && c.at <= ackeds[c.edge].createdAt
  }

  ghost predicate LoggedCaught(logs: Logs, ackeds: map<Edge, StateRow>) {
    forall id :: id in logs && logs[id].document.content.Acked? ==> Caught(ackeds, ClaimOf(logs[id].document))
  }

  ghost predicate WireOk(wire: set<Document>, accepted: set<Claim>) {
    forall m :: m in wire ==> m.content.Acked? && ClaimOf(m) in accepted
  }

  ghost predicate Inv(s: System) {
    && Good(s.acker.db)
    && Good(s.target.db)
    && AckerOk(s.acker.db.acks, s.accepted)
    && TargetOk(s.target.db.ackeds, s.accepted)
    && LoggedCaught(s.target.db.logs, s.target.db.ackeds)
    && WireOk(s.wire, s.accepted)
  }

  lemma SubmitInv(s: System, doc: Document, env: Env, derived: Document)
    requires Inv(s) && Enabled(s, Submit(doc, env, derived))
    ensures Inv(Next(s, Submit(doc, env, derived)))
  {
    Replay.NextGood(s.acker, Replay.Submit(doc, env));
    CommitMoves(s.acker.db, s.acker.now, doc, env);
  }

  /** A commit moves the ackeds by its own row alone, which catches up with a stored acked. */
  lemma CommitCatches(db: Db, now: int, doc: Document, env: Env)
    requires Good(db)
    ensures
      var after := Commit(db, now, doc, env).0;
      && (after.ackeds == db.ackeds
          || (doc.content.Acked? && Moved(db.ackeds, after.ackeds, doc.content.edge, StateRow(doc.id, doc.content.valid, doc.createdAt))))
      && (doc.content.Acked? && doc.id !in db.logs && doc.id in after.logs ==> Caught(after.ackeds, ClaimOf(doc)))
  {
    CommitMoves(db, now, doc, env);
  }

  lemma MovedCatches(before: map<Edge, StateRow>, after: map<Edge, StateRow>, edge: Edge, row: StateRow, c: Claim)
    requires (after == before || Moved(before, after, edge, row)) && Caught(before, c)
    ensures Caught(after, c)
  {
  }

  /** What a commit on the target's server does to its logs and ackeds. */
  lemma TargetCommit(w: Replay.World, doc: Document, env: Env)
    requires Good(w.db) && LoggedCaught(w.db.logs, w.db.ackeds)
    ensures
      var after := Replay.Next(w, Replay.Submit(doc, env)).db;
      && Good(after)
      && LoggedCaught(after.logs, after.ackeds)
      && (forall c :: Caught(w.db.ackeds, c) ==> Caught(after.ackeds, c))
      && (after.ackeds == w.db.ackeds
          || (doc.content.Acked? && Moved(w.db.ackeds, after.ackeds, doc.content.edge, StateRow(doc.id, doc.content.valid, doc.createdAt))))
  {
    var after := Commit(w.db, w.now, doc, env).0;
    Replay.NextGood(w, Replay.Submit(doc, env));
    CommitCatches(w.db, w.now, doc, env);
    CommitExtends(w.db, w.now, doc, env);
    LoggedStaysCaught(w.db, after, doc);
  }

  lemma LoggedStaysCaught(db: Db, after: Db, doc: Document)
    requires Extends(db, after, doc) && LoggedCaught(db.logs, db.ackeds)
    requires
      after.ackeds == db.ackeds
      || (doc.content.Acked? && Moved(db.ackeds, after.ackeds, doc.content.edge, StateRow(doc.id, doc.content.valid, doc.createdAt)))
    requires doc.content.Acked? && doc.id !in db.logs && doc.id in after.logs ==> Caught(after.ackeds, ClaimOf(doc))
    ensures LoggedCaught(after.logs, after.ackeds)
  {
  }

  lemma CatchUp(s: System, msg: Document, env: Env)
    requires Inv(s) && Enabled(s, Deliver(msg, env)) && Heard(s, msg, env)
    ensures Caught(Next(s, Deliver(msg, env)).target.db.ackeds, ClaimOf(msg))
  {
    CommitMoves(s.target.db, s.target.now, msg, env);
  }

  /** The delivery reached the account's own server and was not turned away. */
  predicate Heard(s: System, msg: Document, env: Env) {
    env.local && Commit(s.target.db, s.target.now, msg, env).1 != Rejected
  }

  lemma IdleInv(s: System, step: Step)
    requires Inv(s) && Enabled(s, step) && (step.AckerIdles? || step.TargetIdles?)
    ensures Inv(Next(s, step))
    ensures Next(s, step).target.db.ackeds == s.target.db.ackeds
  {
    var w := if step.AckerIdles? then s.acker else s.target;
    Replay.NextGood(w, step.step);
    if step.step.Gc? {
      CollectGood(w.db, w.now, step.step.retention);
      CollectShrinks(w.db, w.now, step.step.retention);
    }
  }

  lemma CollectShrinks(db: Db, now: int, retention: int)
    ensures forall id :: id in Collect(db, now, retention).logs ==> id in db.logs && Collect(db, now, retention).logs[id] == db.logs[id]
  {
  }

  lemma NextInv(s: System, step: Step)
    requires Inv(s) && Enabled(s, step)
    ensures Inv(Next(s, step))
    ensures forall c :: Caught(s.target.db.ackeds, c) ==> Caught(Next(s, step).target.db.ackeds, c)
    ensures s.accepted <= Next(s, step).accepted
  {
    match step
    case Submit(doc, env, derived) => SubmitInv(s, doc, env, derived);
    case Deliver(msg, env) => TargetCommit(s.target, msg, env);
    case Other(doc, env) => TargetCommit(s.target, doc, env);
    case AckerIdles(_) => IdleInv(s, step);
    case TargetIdles(_) => IdleInv(s, step);
  }

  lemma {:induction false} RunInv(run: Run, n: nat)
    requires IsRun(run) && n <= |run.steps|
    ensures Inv(run.systems[n])
  {
    if n > 0 {
      RunInv(run, n - 1);
      assert Stepped(run, n - 1);
      NextInv(run.systems[n - 1], run.steps[n - 1]);
    }
  }

  lemma StepCaught(run: Run, k: nat, c: Claim)
    requires IsRun(run) && k < |run.steps| && Caught(run.systems[k].target.db.ackeds, c)
    ensures Caught(run.systems[k + 1].target.db.ackeds, c)
  {
    RunInv(run, k);
    assert Stepped(run, k);
    NextInv(run.systems[k], run.steps[k]);
  }

  lemma {:induction false} StaysCaught(run: Run, i: nat, j: nat, c: Claim)
    requires IsRun(run) && i <= j <= |run.steps| && Caught(run.systems[i].target.db.ackeds, c)
    ensures Caught(run.systems[j].target.db.ackeds, c)
  {
    if i < j {
      StaysCaught(run, i, j - 1, c);
      StepCaught(run, j - 1, c);
    }
  }

  // ---- Agreement ----

  /** At every moment of every run the target's row is a state the acker's server
      accepted, the acker's row exists and the target's is never newer; at equal
      createdAt the two agree on validity. */
  lemma NeverAhead(run: Run, n: nat, e: Edge)
    requires IsRun(run) && n <= |run.steps| && e in run.systems[n].target.db.ackeds
    ensures
      var s := run.systems[n];
      var mine := s.target.db.ackeds[e];
      && Claim(e, mine.valid, mine.createdAt) in s.accepted
      && e in s.acker.db.acks
      && mine.createdAt <= s.acker.db.acks[e].createdAt
      && (mine.createdAt == s.acker.db.acks[e].createdAt ==> mine.valid == s.acker.db.acks[e].valid)
  {
    RunInv(run, n);
  }

  /** Once a delivery of the acker's newest accepted state has been heard, the rows agree
      in validity and createdAt for as long as nothing newer is accepted, whatever older,
      repeated or reordered deliveries follow. */
  lemma AgreeOnceHeard(run: Run, i: nat, j: nat, e: Edge)
    requires IsRun(run) && i < j <= |run.steps| && run.steps[i].Deliver?
    requires Stepped(run, i) && run.steps[i].msg.content.Acked? && run.steps[i].msg.content.edge == e
    requires Heard(run.systems[i], run.steps[i].msg, run.steps[i].env)
    requires e in run.systems[j].acker.db.acks && run.systems[j].acker.db.acks[e].createdAt == run.steps[i].msg.createdAt
    ensures
      var s := run.systems[j];
      && e in s.target.db.ackeds
      && s.target.db.ackeds[e].createdAt == s.acker.db.acks[e].createdAt
      && s.target.db.ackeds[e].valid == s.acker.db.acks[e].valid
  {
    HeardIsCaught(run, i);
    StaysCaught(run, i + 1, j, ClaimOf(run.steps[i].msg));
    NeverAhead(run, j, e);
  }

  lemma HeardIsCaught(run: Run, i: nat)
    requires IsRun(run) && i < |run.steps| && run.steps[i].Deliver? && Stepped(run, i)
    requires run.steps[i].msg.content.Acked?
    requires Heard(run.systems[i], run.steps[i].msg, run.steps[i].env)
    ensures Caught(run.systems[i + 1].target.db.ackeds, ClaimOf(run.steps[i].msg))
  {
    RunInv(run, i);
    CatchUp(run.systems[i], run.steps[i].msg, run.steps[i].env);
  }
}
