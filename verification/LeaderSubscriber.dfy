/** The subscriber object: its fields, and the sections that loop over its hosts under the
    lock in no particular order. */
module LeaderSubscriber {
  import opened Wrappers
  import opened Subscriber
  import opened SubscriberInvariant
  import Keeper

  class Leader {
    var net: Net
    var term: Option<Term>
    var prefixes: map<Ref, seq<Prefix>>
    var desk: Desk

    function Now(): State
      reads this
    {
      State(net, term, prefixes, desk)
    }

    constructor ()
      ensures Now() == IDLE && Inv(net)
    {
      net, term, prefixes, desk := IDLE.net, None, map[], IDLE.desk;
    }

    method EnsureHost(host: Host, wanted: seq<Prefix>)
      requires Inv(net) && Leading(Now())
      modifies this`net, this`prefixes, this`desk
      ensures Now() == Ensure(old(Now()), host, wanted) && Inv(net)
    {
      EnsureInv(Now(), host, wanted);
      if host !in net.subs {
        prefixes := prefixes[net.next := wanted];
        net := NewEntry(net, host, term.value);
        return;
      }
      var ref := net.subs[host];
      var sub := net.heap[ref];
      var have := if ref in prefixes then prefixes[ref] else [];
      var added := Missing(have, wanted);
      prefixes := prefixes[ref := have + added];
      if sub.dialing { return; }
      if sub.conn.None? {
        net := StartDial(net, host, ref, term.value);
        return;
      }
      if added != [] {
        desk := DueListen(desk, sub.conn.value, Elems(added));
      }
    }

    /** EnsureSubscriptions under the lock: afterwards every wanted prefix is with its
        host, whose entry is connected or dialling. */
    method EnsureSubscriptions(byHost: map<Host, seq<Prefix>>) returns (ignored: bool)
      requires Inv(net)
      modifies this`net, this`prefixes, this`desk
      ensures Inv(net) && ignored == !old(Leading(Now()))
      ensures ignored ==> Now() == old(Now())
      ensures !ignored ==> forall h :: h in byHost ==> Served(Now(), h, byHost[h])
      ensures forall h :: h in old(net).subs ==> Current(net, h, old(net).subs[h])
    {
      ignored := term.None? || term.value in net.cancelled;
      if ignored { return; }
      var rest := byHost.Keys;
      while rest != {}
        invariant Inv(net) && Leading(Now()) && rest <= byHost.Keys
        invariant forall h :: h in byHost && h !in rest ==> Served(Now(), h, byHost[h])
        invariant forall h :: h in old(net).subs ==> Current(net, h, old(net).subs[h])
        decreases rest
      {
        var host :| host in rest;
        ghost var was := Now();
        EnsureHost(host, byHost[host]);
        EnsureServes(was, host, byHost[host]);
        rest := rest - {host};
      }
    }

    /** repairBrokenSubscriptions: while leading, no entry is left without connection or
        dial, and none is added or removed. */
    method RepairBrokenSubscriptions()
      requires Inv(net)
      modifies this`net
      ensures Inv(net) && net.subs == old(net).subs
      ensures Leading(Now()) ==> NoneBroken(net, {})
    {
      if term.None? || term.value in net.cancelled { return; }
      var rest := net.subs.Keys;
      while rest != {}
        invariant Inv(net) && net.subs == old(net).subs && net.cancelled == old(net).cancelled && rest <= net.subs.Keys
        invariant NoneBroken(net, rest)
        decreases rest
      {
        var host :| host in rest;
        var ref := net.subs[host];
        if net.heap[ref].conn.None? && !net.heap[ref].dialing {
          StartDialInv(net, host, ref, term.value);
          RepairStep(net, rest, host, term.value);
          net := StartDial(net, host, ref, term.value);
        }
        rest := rest - {host};
      }
    }

    /** closeAllSubscriptions of a term that is over and is still the current one: no entry
        is left and every entry's websocket is closed. */
    method CloseAllSubscriptions(mine: Term) returns (skipped: bool)
      requires Inv(net)
      modifies this`net, this`desk
      ensures Inv(net) && skipped == (term != Some(mine))
      ensures skipped ==> Now() == old(Now())
      ensures !skipped ==> net.subs == map[] && net.open <= old(net).closing
    {
      skipped := term != Some(mine);
      if skipped { return; }
      while net.subs != map[]
        invariant Inv(net) && net.closing == old(net).closing
        decreases net.subs.Keys
      {
        assert net.subs.Keys != {};
        var host :| host in net.subs.Keys;
        CloseEntryInv(net, host);
        var ref := net.subs[host];
        if net.heap[ref].conn.Some? {
          net := net.(open := net.open - {net.heap[ref].conn.value});
        }
        desk := DuePurge(desk, Elems(Wanted(Now(), ref)));
        net := net.(subs := net.subs - {host});
      }
    }

    method PruneOne(host: Host, keep: set<Prefix>)
      requires Inv(net) && Tracked(net, host)
      modifies this`net, this`prefixes, this`desk
      ensures Now() == Prune(old(Now()), host, keep) && Inv(net)
    {
      PruneInv(Now(), host, keep);
      var ref := net.subs[host];
      var sub := net.heap[ref];
      var have := if ref in prefixes then prefixes[ref] else [];
      var kept := Keep(have, keep);
      if kept != [] && |kept| == |have| { return; }
      prefixes := prefixes[ref := kept];
      desk := DuePurge(desk, Elems(have) - keep);
      if kept == [] {
        if sub.conn.Some? {
          net := net.(open := net.open - {sub.conn.value});
        }
        net := net.(subs := net.subs - {host});
      } else if !sub.dialing && sub.conn.Some? {
        desk := DueListen(desk, sub.conn.value, {});
      }
    }

    /** deleteExcessSubscriptions: every entry keeps exactly the prefixes that are in
        demand or stamped after the snapshot, and an entry left with none is closed. */
    method DeleteExcessSubscriptions(demand: set<Prefix>, ensuredAt: map<Prefix, int>, since: int)
      requires Inv(net)
      modifies this`net, this`prefixes, this`desk
      ensures Inv(net) && net.subs.Keys <= old(net).subs.Keys
      ensures forall h :: h in old(net).subs ==> Pruned(old(Now()), Now(), h, demand, ensuredAt, since)
    {
      var rest := net.subs.Keys;
      while rest != {}
        invariant Inv(net) && Pruning(old(Now()), Now(), rest, demand, ensuredAt, since)
        decreases rest
      {
        var host :| host in rest;
        ghost var was := Now();
        PruneOne(host, Spared(Wanted(Now(), net.subs[host]), demand, ensuredAt, since));
        PruningStep(old(Now()), was, rest, host, demand, ensuredAt, since);
        rest := rest - {host};
      }
    }

    /** The end of a dial that returned a websocket. */
    method DialReturned(d: nat)
      requires Inv(net) && d in net.dials && net.dials[d].ref in net.heap
      modifies this`net, this`desk
      ensures Now() == Connect(old(Now()), d) && Inv(net)
    {
      DialDoneInv(net, d);
      var me := net.dials[d];
      var c := Conn(net.next, me.ref);
      if me.term in net.cancelled || !(me.host in net.subs && net.subs[me.host] == me.ref) {
        net := net.(dials := net.dials - {d}, heap := net.heap[me.ref := net.heap[me.ref].(dialing := false)],
          open := net.open + {c}, closing := net.closing + {c}, next := net.next + 1);
        return;
      }
      desk := DueListen(desk, c, Elems(Wanted(Now(), me.ref)));
      net := Install(net, me.ref, d, me.host);
    }

    /** The deferred section of a listener or relayer that has closed its websocket. */
    method RunnerLeft(r: nat)
      requires Inv(net) && r in net.runners && net.runners[r].closed
      modifies this`net, this`desk
      ensures Now() == Exit(old(Now()), r) && Inv(net)
    {
      ExitInv(net, r);
      var me := net.runners[r];
      if me.host in net.subs && net.subs[me.host] == me.conn.ref && me.conn.ref in net.heap && net.heap[me.conn.ref].conn == Some(me.conn) {
        desk := DuePurge(desk, Elems(Wanted(Now(), me.conn.ref)));
        net := net.(subs := net.subs - {me.host});
      }
      net := net.(runners := net.runners - {r});
    }
  }

  /** Every entry outside `rest` has a connection or a dial. */
  ghost predicate NoneBroken(n: Net, rest: set<Host>) {
    forall h :: Tracked(n, h) && h !in rest ==> !Broken(Entry(n, h))
  }

  lemma RepairStep(n: Net, rest: set<Host>, host: Host, term: Term)
    requires SubsOk(n.subs, n.heap) && host in n.subs && NoneBroken(n, rest)
    ensures NoneBroken(StartDial(n, host, n.subs[host], term), rest - {host})
  {
    var t := StartDial(n, host, n.subs[host], term);
    assert forall h :: Tracked(t, h) ==> Tracked(n, h);
  }

  /** Every wanted prefix is with the host, and the host is connected or dialling. */
  predicate Served(s: State, h: Host, wanted: seq<Prefix>) {
    Tracked(s.net, h) && !Broken(Entry(s.net, h)) && forall p :: p in wanted ==> p in Wanted(s, s.net.subs[h])
  }

  /** The loop that picks the prefixes not there yet. */
  method Missing(have: seq<Prefix>, wanted: seq<Prefix>) returns (added: seq<Prefix>)
    ensures added == Added(have, wanted)
  {
    added := [];
    var i := 0;
    assert have + [] == have && wanted[0..] == wanted;
    while i < |wanted|
      invariant 0 <= i <= |wanted|
      invariant added + Added(have + added, wanted[i..]) == Added(have, wanted)
    {
      assert wanted[i..][1..] == wanted[i + 1..];
      if wanted[i] !in have && wanted[i] !in added {
        assert (have + added) + [wanted[i]] == have + (added + [wanted[i]]);
        added := added + [wanted[i]];
      }
      i := i + 1;
    }
  }

  lemma EnsureServes(s: State, host: Host, wanted: seq<Prefix>)
    requires Inv(s.net) && Leading(s)
    ensures
      var t := Ensure(s, host, wanted);
      && Leading(t)
      && Served(t, host, wanted)
      && (forall h, ps :: Served(s, h, ps) ==> Served(t, h, ps))
      && (forall h :: h in s.net.subs ==> Current(t.net, h, s.net.subs[h]))
  {
    if host in s.net.subs {
      EnsureServesOld(s, host, wanted);
    } else {
      EnsureServesNew(s, host, wanted);
    }
  }

  lemma EnsureServesNew(s: State, host: Host, wanted: seq<Prefix>)
    requires SubsOk(s.net.subs, s.net.heap) && Fresh(s.net) && Leading(s) && host !in s.net.subs
    ensures
      var t := Ensure(s, host, wanted);
      && Leading(t)
      && Served(t, host, wanted)
      && (forall h, ps :: Served(s, h, ps) ==> Served(t, h, ps))
      && (forall h :: h in s.net.subs ==> Current(t.net, h, s.net.subs[h]))
  {
  }

  lemma EnsureServesOld(s: State, host: Host, wanted: seq<Prefix>)
    requires SubsOk(s.net.subs, s.net.heap) && Leading(s) && host in s.net.subs
    ensures
      var t := Ensure(s, host, wanted);
      && Leading(t)
      && Served(t, host, wanted)
      && (forall h, ps :: Served(s, h, ps) ==> Served(t, h, ps))
      && (forall h :: h in s.net.subs ==> Current(t.net, h, s.net.subs[h]))
  {
    var t := Ensure(s, host, wanted);
    forall p | p in wanted ensures p in Wanted(t, t.net.subs[host]) {
      AddedIs(Wanted(s, s.net.subs[host]), wanted, p);
    }
  }

  // ---- Pruning ----

  function Spared(ps: seq<Prefix>, demand: set<Prefix>, ensuredAt: map<Prefix, int>, since: int): set<Prefix> {
    set p | p in ps && Keeper.Spares(ensuredAt, demand, since, p)
  }

  /** The loop that picks the prefixes to keep. */
  method Keep(have: seq<Prefix>, keep: set<Prefix>) returns (kept: seq<Prefix>)
    ensures kept == Filter(have, keep)
  {
    kept := [];
    var i := 0;
    assert have[0..] == have;
    while i < |have|
      invariant 0 <= i <= |have|
      invariant kept + Filter(have[i..], keep) == Filter(have, keep)
    {
      assert have[i..][1..] == have[i + 1..];
      if have[i] in keep {
        kept := kept + [have[i]];
      }
      i := i + 1;
    }
  }

  /** The entry holds what it held. */
  predicate Untouched(s: State, t: State, h: Host) {
    Tracked(s.net, h) && Current(t.net, h, s.net.subs[h]) && t.net.heap == s.net.heap && Wanted(t, s.net.subs[h]) == Wanted(s, s.net.subs[h])
  }

  /** The entry keeps what is spared, or is gone with its websocket closed. */
  predicate Pruned(s: State, t: State, h: Host, demand: set<Prefix>, ensuredAt: map<Prefix, int>, since: int) {
    Tracked(s.net, h) &&
    var ref := s.net.subs[h];
    var kept := Filter(Wanted(s, ref), Spared(Wanted(s, ref), demand, ensuredAt, since));
    if kept == [] then h !in t.net.subs && (s.net.heap[ref].conn.Some? ==> s.net.heap[ref].conn.value !in t.net.open)
    else Current(t.net, h, ref) && Wanted(t, ref) == kept
  }

  lemma PruneFrame(first: State, s: State, host: Host, demand: set<Prefix>, ensuredAt: map<Prefix, int>, since: int)
    requires SubsOk(s.net.subs, s.net.heap) && SubsOk(first.net.subs, first.net.heap)
    requires Untouched(first, s, host)
    ensures
      var t := Prune(s, host, Spared(Wanted(s, s.net.subs[host]), demand, ensuredAt, since));
      && Pruned(first, t, host, demand, ensuredAt, since)
      && t.net.subs.Keys <= s.net.subs.Keys && t.net.heap == s.net.heap && t.net.open <= s.net.open
      && (forall h :: h in s.net.subs && h != host ==> h in t.net.subs)
      && (forall h :: h != host && Untouched(first, s, h) ==> Untouched(first, t, h))
      && (forall h :: h != host && Pruned(first, s, h, demand, ensuredAt, since) ==> Pruned(first, t, h, demand, ensuredAt, since))
  {
    var ref := s.net.subs[host];
    var ps := Wanted(s, ref);
    FilterLength(ps, Spared(ps, demand, ensuredAt, since));
    var t := Prune(s, host, Spared(ps, demand, ensuredAt, since));
    assert forall h :: h != host && Tracked(first.net, h) ==> first.net.subs[h] != ref;
    assert forall r :: r != ref ==> Wanted(t, r) == Wanted(s, r);
  }

  /** Some hosts have been pruned, the rest are as they were. */
  ghost predicate Pruning(first: State, s: State, rest: set<Host>, demand: set<Prefix>, ensuredAt: map<Prefix, int>, since: int) {
    && rest <= s.net.subs.Keys <= first.net.subs.Keys
    && (forall h :: h in rest ==> Untouched(first, s, h))
    && (forall h :: h in first.net.subs && h !in rest ==> Pruned(first, s, h, demand, ensuredAt, since))
  }

  lemma PruningStep(first: State, s: State, rest: set<Host>, host: Host, demand: set<Prefix>, ensuredAt: map<Prefix, int>, since: int)
    requires SubsOk(s.net.subs, s.net.heap) && SubsOk(first.net.subs, first.net.heap)
    requires Pruning(first, s, rest, demand, ensuredAt, since) && host in rest
    ensures
      var t := Prune(s, host, Spared(Wanted(s, s.net.subs[host]), demand, ensuredAt, since));
      Pruning(first, t, rest - {host}, demand, ensuredAt, since)
  {
    PruneFrame(first, s, host, demand, ensuredAt, since);
  }
}
