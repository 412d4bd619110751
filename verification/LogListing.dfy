/** Listings of the commit log itself (internal/infra/repository/postgres/record.go): the
    repository dump and the replication feed read it without regard to the flag, so a
    collection shows in them, and shows exactly as the missing ids. */
module LogListing {
  import opened Wrappers
  import opened Store
  import opened StoreInvariant
  import opened Replay
  import Bits
  import Cdid

  /** The WHERE clause: owner and inclusive receipt-time bounds, each optional. */
  datatype Scope = Scope(owner: Option<Ccid>, since: Option<int>, until: Option<int>)

  predicate Matches(w: World, scope: Scope, id: Id) {
    && id in w.db.logs && id in w.received
    && (scope.owner.Some? ==> w.db.logs[id].document.owner == scope.owner.value)
    && (scope.since.Some? ==> scope.since.value <= w.received[id])
    && (scope.until.Some? ==> w.received[id] <= scope.until.value)
  }

  /** ORDER BY c_date ASC, id ASC. */
  predicate Earlier(received: map<Id, int>, a: Id, b: Id) {
    a in received && b in received && (received[a] < received[b] || (received[a] == received[b] && Cdid.Before(a, b)))
  }

  predicate InOrder(received: map<Id, int>, ids: seq<Id>, desc: bool) {
    forall j, k :: 0 <= j < k < |ids| ==> if desc then Earlier(received, ids[k], ids[j]) else Earlier(received, ids[j], ids[k])
  }

  /** QueryCommitLogs without its limit. */
  ghost predicate Lists(w: World, scope: Scope, desc: bool, ids: seq<Id>) {
    InOrder(w.received, ids, desc) && forall id :: id in ids <==> Matches(w, scope, id)
  }

  /** GetAllCommitLogs: one owner's logs by receipt time; equal times in any order. */
  ghost predicate Dumps(w: World, owner: Ccid, ids: seq<Id>) {
    && (forall id :: id in ids <==> Matches(w, Scope(Some(owner), None, None), id))
    && ByTime(w.received, ids)
  }

  predicate ByTime(received: map<Id, int>, ids: seq<Id>) {
    forall j, k :: 0 <= j < k < |ids| ==>
      ids[j] != ids[k] && ids[j] in received && ids[k] in received && received[ids[j]] <= received[ids[k]]
  }

  /** The ids that are left, in the order they were in. */
  function Surviving(ids: seq<Id>, gone: set<Id>): (r: seq<Id>)
    ensures |r| <= |ids|
  {
    if ids == [] then [] else (if ids[0] in gone then [] else [ids[0]]) + Surviving(ids[1..], gone)
  }

  // ---- The order decides the listing ----

  lemma EarlierAsymmetric(received: map<Id, int>, a: Id, b: Id)
    requires Earlier(received, a, b)
    ensures !Earlier(received, b, a)
  {
    if received[a] == received[b] { Bits.LexAsymmetric(Cdid.Codes(a), Cdid.Codes(b)); }
  }

  predicate Ahead(received: map<Id, int>, desc: bool, a: Id, b: Id) {
    if desc then Earlier(received, b, a) else Earlier(received, a, b)
  }

  lemma {:induction false} OneOrder(received: map<Id, int>, desc: bool, a: seq<Id>, b: seq<Id>)
    requires InOrder(received, a, desc) && InOrder(received, b, desc) && forall id :: id in a <==> id in b
    ensures a == b
  {
    HasFirst(a);
    HasFirst(b);
    if a != [] && b != [] {
      SameHead(received, desc, a, b);
      TailElements(received, desc, a, b);
      OneOrder(received, desc, a[1..], b[1..]);
      assert a == [a[0]] + a[1..] && b == [b[0]] + b[1..];
    }
  }

  lemma HasFirst(ids: seq<Id>)
    ensures |ids| > 0 ==> ids[0] in ids
  {
  }

  lemma SameHead(received: map<Id, int>, desc: bool, a: seq<Id>, b: seq<Id>)
    requires InOrder(received, a, desc) && InOrder(received, b, desc) && (forall id :: id in a <==> id in b)
    requires a != [] && b != []
    ensures a[0] == b[0]
  {
    assert a[0] in a && b[0] in b;
    var i :| 0 <= i < |a| && a[i] == b[0];
    var j :| 0 <= j < |b| && b[j] == a[0];
    if i > 0 && j > 0 {
      assert Ahead(received, desc, a[0], a[i]) && Ahead(received, desc, b[0], b[j]);
      if desc { EarlierAsymmetric(received, a[i], a[0]); } else { EarlierAsymmetric(received, a[0], a[i]); }
    }
  }

  lemma HeadOnce(received: map<Id, int>, desc: bool, a: seq<Id>)
    requires InOrder(received, a, desc) && a != []
    ensures a[0] !in a[1..]
  {
    if a[0] in a[1..] {
      var i :| 0 <= i < |a| - 1 && a[1..][i] == a[0];
      assert Ahead(received, desc, a[0], a[i + 1]);
      EarlierAsymmetric(received, a[0], a[0]);
    }
  }

  lemma TailElements(received: map<Id, int>, desc: bool, a: seq<Id>, b: seq<Id>)
    requires InOrder(received, a, desc) && InOrder(received, b, desc) && (forall id :: id in a <==> id in b)
    requires a != [] && b != [] && a[0] == b[0]
    ensures forall id :: id in a[1..] <==> id in b[1..]
  {
    HeadOnce(received, desc, a);
    HeadOnce(received, desc, b);
    assert forall id :: id in a <==> id == a[0] || id in a[1..];
    assert forall id :: id in b <==> id == b[0] || id in b[1..];
  }

  /** A scope has one listing. */
  lemma ListingIsUnique(w: World, scope: Scope, desc: bool, a: seq<Id>, b: seq<Id>)
    requires Lists(w, scope, desc, a) && Lists(w, scope, desc, b)
    ensures a == b
  {
    OneOrder(w.received, desc, a, b);
  }

  // ---- What a collection does to it ----

  lemma {:induction false} SurvivingHas(ids: seq<Id>, gone: set<Id>, id: Id)
    ensures id in Surviving(ids, gone) <==> id in ids && id !in gone
  {
    if ids != [] {
      SurvivingHas(ids[1..], gone, id);
      assert ids == [ids[0]] + ids[1..];
    }
  }

  /** Any order the list was in, what is left of it is in. */
  lemma {:induction false} SurvivingInOrder(received: map<Id, int>, ids: seq<Id>, desc: bool, gone: set<Id>)
    requires InOrder(received, ids, desc)
    ensures InOrder(received, Surviving(ids, gone), desc)
  {
    if ids != [] {
      var rest := Surviving(ids[1..], gone);
      SurvivingInOrder(received, ids[1..], desc, gone);
      if ids[0] !in gone {
        var r := [ids[0]] + rest;
        forall j, k | 0 <= j < k < |r| ensures if desc then Earlier(received, r[k], r[j]) else Earlier(received, r[j], r[k]) {
          if j == 0 {
            SurvivingHas(ids[1..], gone, r[k]);
            assert r[k] in rest;
            var i :| 0 <= i < |ids| - 1 && ids[1..][i] == r[k];
            assert ids[i + 1] == r[k];
          }
        }
      }
    }
  }

  lemma LeftMatches(w: World, retention: int, scope: Scope, before: seq<Id>, gone: set<Id>)
    requires Good(w.db) && MAX_BACKDATE <= retention && gone == Collectable(w.db, Cutoff(w.now, retention))
    requires forall id :: id in before <==> Matches(w, scope, id)
    ensures forall id :: id in Surviving(before, gone) <==> Matches(Next(w, Gc(retention)), scope, id)
  {
    forall id ensures id in Surviving(before, gone) <==> Matches(Next(w, Gc(retention)), scope, id) {
      SurvivingHas(before, gone, id);
      CollectedMatches(w, retention, scope, id);
    }
  }

  lemma CollectedMatches(w: World, retention: int, scope: Scope, id: Id)
    requires Good(w.db) && MAX_BACKDATE <= retention
    ensures Matches(Next(w, Gc(retention)), scope, id)
      <==> Matches(w, scope, id) && id !in Collectable(w.db, Cutoff(w.now, retention))
  {
    NothingHangsOff(w.db, Collectable(w.db, Cutoff(w.now, retention)));
  }

  /** In every reachable state, a collection changes the replication feed's listing of any
      scope exactly by leaving out the collected ids, order kept; a page of it is cut from
      that. */
  lemma CollectionShowsInFeed(run: Run, n: nat, retention: int, scope: Scope, desc: bool, before: seq<Id>, after: seq<Id>)
    requires IsRun(run) && n <= |run.steps| && MAX_BACKDATE <= retention
    requires Lists(run.worlds[n], scope, desc, before) && Lists(Next(run.worlds[n], Gc(retention)), scope, desc, after)
    ensures after == Surviving(before, Collectable(run.worlds[n].db, Cutoff(run.worlds[n].now, retention)))
  {
    var w := run.worlds[n];
    RunGood(run, n);
    var gone := Collectable(w.db, Cutoff(w.now, retention));
    var left := Surviving(before, gone);
    SurvivingInOrder(w.received, before, desc, gone);
    LeftMatches(w, retention, scope, before, gone);
    assert Next(w, Gc(retention)).received == w.received;
    OneOrder(w.received, desc, left, after);
  }

  /** And the repository dump: what is left of a dump is a dump. */
  lemma CollectionShowsInDump(run: Run, n: nat, retention: int, owner: Ccid, before: seq<Id>)
    requires IsRun(run) && n <= |run.steps| && MAX_BACKDATE <= retention && Dumps(run.worlds[n], owner, before)
    ensures Dumps(Next(run.worlds[n], Gc(retention)), owner, Surviving(before, Collectable(run.worlds[n].db, Cutoff(run.worlds[n].now, retention))))
  {
    var w := run.worlds[n];
    RunGood(run, n);
    var gone := Collectable(w.db, Cutoff(w.now, retention));
    LeftMatches(w, retention, Scope(Some(owner), None, None), before, gone);
    assert Next(w, Gc(retention)).received == w.received;
    SurvivingByTime(w.received, before, gone);
  }

  lemma {:induction false} SurvivingByTime(received: map<Id, int>, ids: seq<Id>, gone: set<Id>)
    requires ByTime(received, ids)
    ensures ByTime(received, Surviving(ids, gone))
  {
    if ids != [] {
      var rest := Surviving(ids[1..], gone);
      SurvivingByTime(received, ids[1..], gone);
      if ids[0] !in gone {
        var r := [ids[0]] + rest;
        forall j, k | 0 <= j < k < |r|
          ensures r[j] != r[k] && r[j] in received && r[k] in received && received[r[j]] <= received[r[k]]
        {
          if j == 0 {
            SurvivingHas(ids[1..], gone, r[k]);
            assert r[k] in rest;
            var i :| 0 <= i < |ids| - 1 && ids[1..][i] == r[k];
            assert ids[i + 1] == r[k];
          }
        }
      }
    }
  }

  // ---- Every log is in it ----

  /** Every log has its receipt time. */
  ghost predicate Received(w: World) {
    forall id :: id in w.db.logs ==> id in w.received
  }

  lemma NextReceived(w: World, step: Step)
    requires Good(w.db) && Received(w)
    ensures Received(Next(w, step))
  {
    match step
    case Submit(doc, env) => CommitExtends(w.db, w.now, doc, env);
    case Tick(_) =>
    case Gc(retention) => forall id ensures id in Next(w, step).db.logs ==> id in w.db.logs { CollectOnlyDrops(w.db, w.now, retention, id); }
  }

  lemma {:induction false} RunReceived(run: Run, n: nat)
    requires IsRun(run) && n <= |run.steps| && Received(run.worlds[0])
    ensures Received(run.worlds[n])
  {
    if n > 0 {
      RunReceived(run, n - 1);
      RunGood(run, n - 1);
      assert Stepped(run, n - 1);
      NextReceived(run.worlds[n - 1], run.steps[n - 1]);
    }
  }
}
