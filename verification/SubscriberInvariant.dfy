/** What every interleaving of the leader's subscriber keeps: who owns each websocket,
    which dials are in flight, and who still watches each entry. */
module SubscriberInvariant {
  import opened Wrappers
  import opened Subscriber

  /** An entry's state exists and is that host's. */
  ghost predicate SubsOk(subs: map<Host, Ref>, heap: map<Ref, Sub>) {
    forall h :: h in subs ==> subs[h] in heap && heap[subs[h]].host == h
  }

  /** A state with a connection is not dialling, and the connection is its own. */
  ghost predicate HeapOk(heap: map<Ref, Sub>) {
    forall r :: r in heap && heap[r].conn.Some? ==> !heap[r].dialing && heap[r].conn.value.ref == r
  }

  predicate DialFits(d: Dial, heap: map<Ref, Sub>) {
    d.ref in heap && heap[d.ref].dialing && heap[d.ref].host == d.host && heap[d.ref].term == d.term
  }

  predicate HasDial(dials: map<nat, Dial>, d: nat, r: Ref) {
    d in dials && dials[d].ref == r
  }

  /** Exactly one dial in flight per dialling state, and none otherwise. */
  ghost predicate DialsOk(dials: map<nat, Dial>, heap: map<Ref, Sub>) {
    && (forall d :: d in dials ==> DialFits(dials[d], heap))
    && (forall d, e :: d in dials && e in dials && dials[d].ref == dials[e].ref ==> d == e)
    && (forall r :: r in heap && heap[r].dialing ==> exists d :: HasDial(dials, d, r))
  }

  /** The websocket is its host entry's current connection. */
  predicate Installed(subs: map<Host, Ref>, heap: map<Ref, Sub>, c: Conn) {
    c.ref in heap && heap[c.ref].conn == Some(c) && heap[c.ref].host in subs && subs[heap[c.ref].host] == c.ref
  }

  /** Every unclosed websocket is current or about to be closed by the dial holding it. */
  ghost predicate SocketsOk(open: set<Conn>, closing: set<Conn>, subs: map<Host, Ref>, heap: map<Ref, Sub>) {
    forall c :: c in open ==> c in closing || Installed(subs, heap, c)
  }

  predicate RunnerFits(r: Runner, heap: map<Ref, Sub>, open: set<Conn>) {
    && r.conn.ref in heap && heap[r.conn.ref].conn == Some(r.conn) && heap[r.conn.ref].host == r.host
    && (r.closed ==> r.conn !in open)
  }

  ghost predicate RunnersOk(runners: map<nat, Runner>, heap: map<Ref, Sub>, open: set<Conn>) {
    forall r :: r in runners ==> RunnerFits(runners[r], heap, open)
  }

  predicate Watches(runners: map<nat, Runner>, r: nat, c: Conn) {
    r in runners && runners[r].conn == c
  }

  /** A connected entry still has a goroutine that will take it down with its websocket. */
  ghost predicate Watched(subs: map<Host, Ref>, heap: map<Ref, Sub>, runners: map<nat, Runner>) {
    forall h :: h in subs && subs[h] in heap && heap[subs[h]].conn.Some? ==> exists r :: Watches(runners, r, heap[subs[h]].conn.value)
  }

  /** An entry with neither connection nor dial was last dialled in a term that is over. */
  ghost predicate BrokenOk(subs: map<Host, Ref>, heap: map<Ref, Sub>, cancelled: set<Term>) {
    forall h :: h in subs && subs[h] in heap && heap[subs[h]].conn.None? && !heap[subs[h]].dialing ==> heap[subs[h]].term in cancelled
  }

  ghost predicate Fresh(n: Net) {
    && (forall r :: r in n.heap ==> r < n.next && (n.heap[r].conn.Some? ==> n.heap[r].conn.value.id < n.next))
    && (forall d :: d in n.dials ==> d < n.next)
    && (forall c :: c in n.open ==> c.id < n.next)
    && (forall r :: r in n.runners ==> r < n.next && n.runners[r].conn.id < n.next)
  }

  ghost predicate Inv(n: Net) {
    && SubsOk(n.subs, n.heap)
    && HeapOk(n.heap)
    && DialsOk(n.dials, n.heap)
    && SocketsOk(n.open, n.closing, n.subs, n.heap)
    && RunnersOk(n.runners, n.heap, n.open)
    && Watched(n.subs, n.heap, n.runners)
    && BrokenOk(n.subs, n.heap, n.cancelled)
    && Fresh(n)
  }

  // ---- A dial starts ----

  type Heap = map<Ref, Sub>

  /** A new state, or one of this host without connection or dial. */
  predicate MayDial(heap: Heap, ref: Ref, host: Host) {
    ref in heap ==> heap[ref].host == host && Broken(heap[ref])
  }

  lemma DialEntryOk(n: Net, ref: Ref, sub: Sub)
    requires MayDial(n.heap, ref, sub.host) && sub.dialing && sub.conn.None?
    requires SubsOk(n.subs, n.heap) && HeapOk(n.heap)
    requires SocketsOk(n.open, n.closing, n.subs, n.heap) && RunnersOk(n.runners, n.heap, n.open)
    ensures
      var heap := n.heap[ref := sub];
      SubsOk(n.subs, heap) && HeapOk(heap) && SocketsOk(n.open, n.closing, n.subs, heap) && RunnersOk(n.runners, heap, n.open)
  {
    var heap := n.heap[ref := sub];
    assert forall r :: r in n.heap && n.heap[r].conn.Some? ==> heap[r] == n.heap[r];
    assert forall r :: r in heap && heap[r].conn.Some? ==> r in n.heap && heap[r] == n.heap[r];
  }

  lemma DialWatched(n: Net, ref: Ref, sub: Sub)
    requires MayDial(n.heap, ref, sub.host) && sub.dialing && sub.conn.None?
    requires Watched(n.subs, n.heap, n.runners) && BrokenOk(n.subs, n.heap, n.cancelled) && SubsOk(n.subs, n.heap)
    ensures Watched(n.subs, n.heap[ref := sub], n.runners) && BrokenOk(n.subs, n.heap[ref := sub], n.cancelled)
  {
  }

  lemma DialAdded(dials: map<nat, Dial>, heap: Heap, next: nat, ref: Ref, sub: Sub)
    requires DialsOk(dials, heap) && MayDial(heap, ref, sub.host) && sub.dialing && next !in dials
    ensures DialsOk(dials[next := Dial(sub.term, sub.host, ref)], heap[ref := sub])
  {
    var more, after := dials[next := Dial(sub.term, sub.host, ref)], heap[ref := sub];
    assert HasDial(more, next, ref);
    forall r | r in after && after[r].dialing ensures exists d :: HasDial(more, d, r) {
      if r != ref {
        var d :| HasDial(dials, d, r);
        assert HasDial(more, d, r);
      }
    }
  }

  lemma StartDialInv(n: Net, host: Host, ref: Ref, term: Term)
    requires Inv(n) && ref < n.next && MayDial(n.heap, ref, host)
    ensures Inv(StartDial(n, host, ref, term))
  {
    var sub := Sub(host, None, true, term);
    DialEntryOk(n, ref, sub);
    DialWatched(n, ref, sub);
    DialAdded(n.dials, n.heap, n.next, ref, sub);
  }

  lemma EnterHost(n: Net, host: Host, ref: Ref)
    requires Inv(n) && host !in n.subs && ref in n.heap && n.heap[ref].host == host && n.heap[ref].conn.None? && n.heap[ref].dialing
    ensures Inv(n.(subs := n.subs[host := ref]))
  {
    var subs := n.subs[host := ref];
    assert forall h :: h in n.subs ==> subs[h] == n.subs[h];
  }

  lemma RoomInv(n: Net)
    requires Inv(n)
    ensures Inv(n.(next := n.next + 1))
  {
  }

  lemma NewEntryInv(n: Net, host: Host, term: Term)
    requires Inv(n) && host !in n.subs
    ensures Inv(NewEntry(n, host, term))
  {
    RoomInv(n);
    StartDialInv(n.(next := n.next + 1), host, n.next, term);
    EnterDialled(n, host, term);
  }

  lemma EnterDialled(n: Net, host: Host, term: Term)
    requires host !in n.subs && Inv(StartDial(n.(next := n.next + 1), host, n.next, term))
    ensures Inv(NewEntry(n, host, term))
  {
    EnterHost(StartDial(n.(next := n.next + 1), host, n.next, term), host, n.next);
  }

  // ---- Websockets close, entries go ----

  lemma CloseInv(n: Net, c: Conn)
    requires Inv(n)
    ensures Inv(n.(open := n.open - {c}))
  {
  }

  /** An entry goes only when its websocket is closed already. */
  lemma DropInv(n: Net, host: Host)
    requires Inv(n) && host in n.subs
    requires n.heap[n.subs[host]].conn.Some? ==> n.heap[n.subs[host]].conn.value !in n.open
    ensures Inv(n.(subs := n.subs - {host}))
  {
    var subs := n.subs - {host};
    forall c | c in n.open ensures c in n.closing || Installed(subs, n.heap, c) {
      if c !in n.closing {
        assert Installed(n.subs, n.heap, c);
      }
    }
  }

  lemma CloseEntryInv(n: Net, host: Host)
    requires Inv(n) && Tracked(n, host)
    ensures Inv(CloseEntry(n, host))
  {
    var conn := Entry(n, host).conn;
    if conn.Some? { CloseInv(n, conn.value); }
    DropInv(CloseConn(n, conn), host);
  }

  // ---- A dial ends ----

  lemma SettledDials(dials: map<nat, Dial>, heap: Heap, d: nat, sub: Sub)
    requires DialsOk(dials, heap) && d in dials && !sub.dialing
    ensures DialsOk(dials - {d}, heap[dials[d].ref := sub])
  {
    var less, after := dials - {d}, heap[dials[d].ref := sub];
    forall r | r in after && after[r].dialing ensures exists e :: HasDial(less, e, r) {
      var e :| HasDial(dials, e, r);
      assert HasDial(less, e, r);
    }
  }

  /** The state a dial was for, once the dial is over without a connection. */
  lemma SettledRest(n: Net, ref: Ref)
    requires Inv(n) && ref in n.heap && n.heap[ref].dialing
    ensures
      var heap := n.heap[ref := n.heap[ref].(dialing := false)];
      && SubsOk(n.subs, heap) && HeapOk(heap) && SocketsOk(n.open, n.closing, n.subs, heap)
      && RunnersOk(n.runners, heap, n.open) && Watched(n.subs, heap, n.runners)
  {
    var heap := n.heap[ref := n.heap[ref].(dialing := false)];
    assert forall r :: r in heap ==> r in n.heap && heap[r].conn == n.heap[r].conn && heap[r].host == n.heap[r].host;
  }

  lemma SettledBroken(n: Net, d: nat)
    requires SubsOk(n.subs, n.heap) && BrokenOk(n.subs, n.heap, n.cancelled) && d in n.dials && DialFits(n.dials[d], n.heap)
    requires Current(n, n.dials[d].host, n.dials[d].ref) ==> n.dials[d].term in n.cancelled
    ensures BrokenOk(n.subs, n.heap[n.dials[d].ref := n.heap[n.dials[d].ref].(dialing := false)], n.cancelled)
  {
    assert forall h :: h in n.subs && n.subs[h] == n.dials[d].ref ==> h == n.dials[d].host;
  }

  lemma SettleInv(n: Net, d: nat)
    requires Inv(n) && d in n.dials && n.dials[d].ref in n.heap
    requires Current(n, n.dials[d].host, n.dials[d].ref) ==> n.dials[d].term in n.cancelled
    ensures Inv(Settle(n, d))
  {
    var ref := n.dials[d].ref;
    assert DialFits(n.dials[d], n.heap);
    SettledRest(n, ref);
    SettledDials(n.dials, n.heap, d, n.heap[ref].(dialing := false));
    SettledBroken(n, d);
  }

  lemma DialFailedInv(n: Net, d: nat)
    requires Inv(n) && d in n.dials && n.dials[d].ref in n.heap
    ensures Inv(DialFailed(n, d))
  {
    var me := n.dials[d];
    assert DialFits(me, n.heap);
    if Current(n, me.host, me.ref) {
      DropInv(n, me.host);
      SettleInv(n.(subs := n.subs - {me.host}), d);
    } else {
      SettleInv(n, d);
    }
  }

  lemma BackOutInv(n: Net, c: Conn)
    requires Inv(n) && c.id == n.next
    ensures Inv(n.(open := n.open + {c}, closing := n.closing + {c}, next := n.next + 1))
  {
  }

  lemma InstallSocket(n: Net, ref: Ref, c: Conn)
    requires Inv(n) && ref in n.heap && n.heap[ref].conn.None? && c.ref == ref && Current(n, n.heap[ref].host, ref)
    ensures
      var heap := n.heap[ref := n.heap[ref].(dialing := false, conn := Some(c))];
      && SubsOk(n.subs, heap) && HeapOk(heap) && SocketsOk(n.open + {c}, n.closing, n.subs, heap)
      && BrokenOk(n.subs, heap, n.cancelled)
  {
    var heap := n.heap[ref := n.heap[ref].(dialing := false, conn := Some(c))];
    assert forall x :: x in n.open && x !in n.closing ==> x.ref != ref;
    assert Installed(n.subs, heap, c);
  }

  lemma InstallRunners(n: Net, ref: Ref, c: Conn, runners: map<nat, Runner>)
    requires Inv(n) && ref in n.heap && n.heap[ref].conn.None? && c.ref == ref && c.id == n.next
    requires runners == n.runners[n.next + 1 := Runner(n.heap[ref].host, c, false)][n.next + 2 := Runner(n.heap[ref].host, c, false)]
    ensures
      var heap := n.heap[ref := n.heap[ref].(dialing := false, conn := Some(c))];
      RunnersOk(runners, heap, n.open + {c}) && Watched(n.subs, heap, runners)
  {
    var heap := n.heap[ref := n.heap[ref].(dialing := false, conn := Some(c))];
    assert Watches(runners, n.next + 1, c);
    forall h | h in n.subs && n.subs[h] in heap && heap[n.subs[h]].conn.Some?
      ensures exists r :: Watches(runners, r, heap[n.subs[h]].conn.value)
    {
      if n.subs[h] != ref {
        var r :| Watches(n.runners, r, n.heap[n.subs[h]].conn.value);
        assert Watches(runners, r, heap[n.subs[h]].conn.value);
      }
    }
  }

  lemma InstallFresh(n: Net, ref: Ref, d: nat, host: Host)
    requires Fresh(n) && ref in n.heap
    ensures Fresh(Install(n, ref, d, host))
  {
  }

  lemma InstallInv(n: Net, ref: Ref, d: nat)
    requires Inv(n) && d in n.dials && n.dials[d].ref == ref && ref in n.heap && n.heap[ref].conn.None?
    requires Current(n, n.heap[ref].host, ref)
    ensures Inv(Install(n, ref, d, n.heap[ref].host))
  {
    var c := Conn(n.next, ref);
    var sub := n.heap[ref].(dialing := false, conn := Some(c));
    InstallSocket(n, ref, c);
    InstallRunners(n, ref, c, Install(n, ref, d, n.heap[ref].host).runners);
    SettledDials(n.dials, n.heap, d, sub);
    InstallFresh(n, ref, d, n.heap[ref].host);
  }

  lemma DialDoneInv(n: Net, d: nat)
    requires Inv(n) && d in n.dials && n.dials[d].ref in n.heap
    ensures Inv(DialDone(n, d))
  {
    assert DialFits(n.dials[d], n.heap);
    if Installs(n, d) {
      InstallInv(n, n.dials[d].ref, d);
    } else {
      SettleInv(n, d);
      BackOutInv(Settle(n, d), NewConn(n, d));
    }
  }

  // ---- Runners ----

  lemma RunnerLeaves(n: Net, r: nat)
    requires Inv(n) && r in n.runners && !Removes(n, r)
    ensures Inv(n.(runners := n.runners - {r}))
  {
    var runners := n.runners - {r};
    assert RunnerFits(n.runners[r], n.heap, n.open);
    forall h | h in n.subs && n.subs[h] in n.heap && n.heap[n.subs[h]].conn.Some?
      ensures exists q :: Watches(runners, q, n.heap[n.subs[h]].conn.value)
    {
      var q :| Watches(n.runners, q, n.heap[n.subs[h]].conn.value);
      assert Watches(runners, q, n.heap[n.subs[h]].conn.value);
    }
  }

  lemma ExitInv(n: Net, r: nat)
    requires Inv(n) && r in n.runners && n.runners[r].closed
    ensures Inv(RunnerExits(n, r))
  {
    if Removes(n, r) {
      var host := n.runners[r].host;
      assert RunnerFits(n.runners[r], n.heap, n.open);
      DropInv(n, host);
      RunnerLeaves(n.(subs := n.subs - {host}), r);
    } else {
      RunnerLeaves(n, r);
    }
  }

  lemma MarkClosed(n: Net, r: nat)
    requires Inv(n) && r in n.runners && n.runners[r].conn !in n.open
    ensures Inv(n.(runners := n.runners[r := n.runners[r].(closed := true)]))
  {
    var runners := n.runners[r := n.runners[r].(closed := true)];
    assert RunnerFits(n.runners[r], n.heap, n.open);
    forall h | h in n.subs && n.subs[h] in n.heap && n.heap[n.subs[h]].conn.Some?
      ensures exists q :: Watches(runners, q, n.heap[n.subs[h]].conn.value)
    {
      var q :| Watches(n.runners, q, n.heap[n.subs[h]].conn.value);
      assert Watches(runners, q, n.heap[n.subs[h]].conn.value);
    }
  }

  lemma RunnerClosesInv(n: Net, r: nat)
    requires Inv(n) && r in n.runners
    ensures Inv(RunnerCloses(n, r))
  {
    CloseInv(n, n.runners[r].conn);
    MarkClosed(n.(open := n.open - {n.runners[r].conn}), r);
  }

  // ---- Every step ----

  lemma EnsureInv(s: State, host: Host, wanted: seq<Prefix>)
    requires Inv(s.net) && Enabled(s, EnsureHost(host, wanted))
    ensures Inv(Ensure(s, host, wanted).net)
  {
    if host !in s.net.subs {
      NewEntryInv(s.net, host, s.term.value);
    } else if Broken(Entry(s.net, host)) {
      StartDialInv(s.net, host, s.net.subs[host], s.term.value);
    }
  }

  lemma RepairInv(s: State, host: Host)
    requires Inv(s.net) && Enabled(s, RepairHost(host))
    ensures Inv(Repair(s, host).net)
  {
    if Broken(Entry(s.net, host)) {
      StartDialInv(s.net, host, s.net.subs[host], s.term.value);
    }
  }

  lemma PruneInv(s: State, host: Host, keep: set<Prefix>)
    requires Inv(s.net) && Tracked(s.net, host)
    ensures Inv(Prune(s, host, keep).net)
  {
    CloseEntryInv(s.net, host);
  }

  lemma ConnectInv(s: State, d: nat)
    requires Inv(s.net) && Enabled(s, Connects(d))
    ensures Inv(Connect(s, d).net)
  {
    DialDoneInv(s.net, d);
  }

  lemma ExitStepInv(s: State, r: nat)
    requires Inv(s.net) && Enabled(s, Exits(r))
    ensures Inv(Exit(s, r).net)
  {
    ExitInv(s.net, r);
  }

  lemma BacksOutInv(n: Net, c: Conn)
    requires Inv(n)
    ensures Inv(n.(open := n.open - {c}, closing := n.closing - {c}))
  {
  }

  lemma CancelInv(n: Net, term: Term)
    requires Inv(n)
    ensures Inv(n.(cancelled := n.cancelled + {term}))
  {
  }

  lemma NextInv(s: State, step: Step)
    requires Inv(s.net) && Enabled(s, step)
    ensures Inv(Next(s, step).net)
  {
    match step
    case Start(_) =>
    case Cancel(term) => CancelInv(s.net, term);
    case EnsureHost(host, wanted) => EnsureInv(s, host, wanted);
    case RepairHost(host) => RepairInv(s, host);
    case PruneHost(host, keep) => PruneInv(s, host, keep);
    case CloseHost(host) => CloseEntryInv(s.net, host);
    case Fails(d) => DialFailedInv(s.net, d);
    case Connects(d) => ConnectInv(s, d);
    case BacksOut(conn) => BacksOutInv(s.net, conn);
    case Sent(_) =>
    case NotSent(l) => CloseInv(s.net, s.desk.listens[l].conn);
    case Closes(r) => RunnerClosesInv(s.net, r);
    case Exits(r) => ExitStepInv(s, r);
    case Purges(_) =>
  }

  // ---- Prefix lists ----

  lemma {:induction false} AddedIs(have: seq<Prefix>, wanted: seq<Prefix>, p: Prefix)
    ensures p in Added(have, wanted) <==> p in wanted && p !in have
    decreases wanted
  {
    if wanted != [] {
      if wanted[0] in have {
        AddedIs(have, wanted[1..], p);
      } else {
        AddedIs(have + [wanted[0]], wanted[1..], p);
      }
    }
  }

  lemma {:induction false} FilterIs(ps: seq<Prefix>, keep: set<Prefix>, p: Prefix)
    ensures p in Filter(ps, keep) <==> p in ps && p in keep
  {
    if ps != [] {
      FilterIs(ps[1..], keep, p);
    }
  }

  lemma FilterLength(ps: seq<Prefix>, keep: set<Prefix>)
    ensures |Filter(ps, keep)| <= |ps|
    ensures |Filter(ps, keep)| == |ps| ==> Filter(ps, keep) == ps
  {
  }
}
