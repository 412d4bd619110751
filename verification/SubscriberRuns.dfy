/** Whole runs of the leader's subscriber: connection ownership, and a cache purge for
    every prefix that opens or closes. */
module SubscriberRuns {
  import opened Wrappers
  import opened Subscriber
  import opened SubscriberInvariant

  datatype Run = Run(states: seq<State>, steps: seq<Step>)

  ghost predicate IsRun(run: Run) {
    && |run.states| == |run.steps| + 1
    && run.states[0] == IDLE
    && (forall k :: 0 <= k < |run.steps| ==> Stepped(run, k))
  }

  predicate Stepped(run: Run, k: nat)
    requires k < |run.steps| && |run.states| == |run.steps| + 1
  {
    Enabled(run.states[k], run.steps[k]) && run.states[k + 1] == Next(run.states[k], run.steps[k])
  }

  lemma {:induction false} RunInv(run: Run, n: nat)
    requires IsRun(run) && n <= |run.steps|
    ensures Inv(run.states[n].net)
  {
    if n > 0 {
      RunInv(run, n - 1);
      assert Stepped(run, n - 1);
      NextInv(run.states[n - 1], run.steps[n - 1]);
    }
  }

  // ---- Ownership ----

  /** In every interleaving, at every moment: a state has exactly one dial in flight while
      it is dialling and none otherwise; a connected state is not dialling; every unclosed
      websocket is its host entry's current connection or about to be closed by the dial
      that holds it; every connected entry has a goroutine left that will remove it; and
      only an entry whose last dial belonged to an ended term has neither connection nor
      dial, so nothing else ever needs repair. */
  lemma Ownership(run: Run, k: nat)
    requires IsRun(run) && k <= |run.steps|
    ensures
      var n := run.states[k].net;
      && (forall r :: r in n.heap && n.heap[r].dialing ==> exists d :: HasDial(n.dials, d, r))
      && (forall d, e :: d in n.dials && e in n.dials && n.dials[d].ref == n.dials[e].ref ==> d == e)
      && (forall d :: d in n.dials ==> n.dials[d].ref in n.heap && n.heap[n.dials[d].ref].dialing)
      && (forall r :: r in n.heap && n.heap[r].conn.Some? ==> !n.heap[r].dialing)
      && (forall c :: c in n.open ==> c in n.closing || Installed(n.subs, n.heap, c))
      && (forall h :: h in n.subs ==> Tracked(n, h))
      && (forall h :: Tracked(n, h) && Entry(n, h).conn.Some? ==> exists r :: Watches(n.runners, r, Entry(n, h).conn.value))
      && (forall h :: Tracked(n, h) && Broken(Entry(n, h)) ==> Entry(n, h).term in n.cancelled)
  {
    RunInv(run, k);
    assert forall d :: d in run.states[k].net.dials ==> DialFits(run.states[k].net.dials[d], run.states[k].net.heap);
  }

  /** A goroutine that leaves removes at most its own host's entry, and only when that
      entry's connection is its own, which it has already closed: an entry that is newer,
      dialling or connected by an open websocket always stays. */
  lemma ExitSparesNewer(n: Net, r: nat, h: Host)
    requires Inv(n) && r in n.runners && n.runners[r].closed && Tracked(n, h)
    ensures
      var after := RunnerExits(n, r);
      if h in after.subs then after.subs[h] == n.subs[h] && after.heap == n.heap
      else h == n.runners[r].host && Entry(n, h).conn == Some(n.runners[r].conn) && n.runners[r].conn !in n.open
  {
    assert RunnerFits(n.runners[r], n.heap, n.open);
  }

  // ---- Open prefixes ----

  /** The state behind the host's entry, if it is connected. */
  function Linked(n: Net, h: Host): Option<Ref> {
    if Tracked(n, h) && Entry(n, h).conn.Some? then Some(n.subs[h]) else None
  }

  /** OpenPrefixes holds this prefix through this host. */
  predicate OpenAt(s: State, h: Host, p: Prefix) {
    Linked(s.net, h).Some? && p in Wanted(s, Linked(s.net, h).value)
  }

  ghost predicate Open(s: State, p: Prefix) {
    exists h :: OpenAt(s, h, p)
  }

  ghost predicate Sane(n: Net) {
    SubsOk(n.subs, n.heap) && forall r :: r in n.heap ==> r < n.next
  }

  lemma NewEntryLinks(n: Net, host: Host, term: Term, h: Host)
    requires Sane(n) && host !in n.subs
    ensures Linked(NewEntry(n, host, term), h) == Linked(n, h)
  {
  }

  lemma StartDialLinks(n: Net, host: Host, term: Term, h: Host)
    requires Sane(n) && Tracked(n, host) && Broken(Entry(n, host))
    ensures Linked(StartDial(n, host, n.subs[host], term), h) == Linked(n, h)
  {
  }

  lemma CloseEntryLinks(n: Net, host: Host, h: Host)
    requires Tracked(n, host)
    ensures Linked(CloseEntry(n, host), h) == if h == host then None else Linked(n, h)
  {
  }

  lemma DialFailedLinks(n: Net, d: nat, h: Host)
    requires Sane(n) && HeapOk(n.heap) && d in n.dials && DialFits(n.dials[d], n.heap)
    ensures Linked(DialFailed(n, d), h) == Linked(n, h)
  {
  }

  lemma DialDoneLinks(n: Net, d: nat, h: Host)
    requires Sane(n) && HeapOk(n.heap) && d in n.dials && DialFits(n.dials[d], n.heap)
    ensures Linked(DialDone(n, d), h) == if Installs(n, d) && h == n.dials[d].host then Some(n.dials[d].ref) else Linked(n, h)
  {
  }

  lemma ExitLinks(n: Net, r: nat, h: Host)
    requires r in n.runners
    ensures Linked(RunnerExits(n, r), h) == if Removes(n, r) && h == n.runners[r].host then None else Linked(n, h)
  {
  }

  lemma LinkedApart(n: Net, g: Host, h: Host)
    requires Sane(n) && g in n.subs && Linked(n, h).Some? && g != h
    ensures Linked(n, h).value != n.subs[g] && Linked(n, h).value < n.next
  {
  }

  predicate ClosePurgeDue(s: State, ticket: nat, p: Prefix) {
    ticket in s.desk.purges && s.desk.purges[ticket].depth == 1 && p in s.desk.purges[ticket].prefixes
  }

  predicate OpenListenDue(s: State, ticket: nat, p: Prefix) {
    ticket in s.desk.listens && p in s.desk.listens[ticket].added
  }

  /** What a step does to one prefix at one host. */
  predicate Edge(s: State, t: State, h: Host, p: Prefix) {
    && (OpenAt(s, h, p) && !OpenAt(t, h, p) ==> ClosePurgeDue(t, s.desk.ticket, p))
    && (OpenAt(t, h, p) && !OpenAt(s, h, p) ==> OpenListenDue(t, s.desk.ticket, p))
  }

  lemma EnsureNewEdges(s: State, host: Host, wanted: seq<Prefix>, h: Host, p: Prefix)
    requires Sane(s.net) && Leading(s) && host !in s.net.subs
    ensures Edge(s, Ensure(s, host, wanted), h, p)
  {
    NewEntryLinks(s.net, host, s.term.value, h);
    if Linked(s.net, h).Some? { assert Linked(s.net, h).value < s.net.next; }
  }

  lemma EnsureOldEdges(s: State, host: Host, wanted: seq<Prefix>, h: Host, p: Prefix)
    requires Sane(s.net) && HeapOk(s.net.heap) && Leading(s) && Tracked(s.net, host)
    ensures Edge(s, Ensure(s, host, wanted), h, p)
  {
    if Broken(Entry(s.net, host)) { StartDialLinks(s.net, host, s.term.value, h); }
    AddedIs(Wanted(s, s.net.subs[host]), wanted, p);
    if h != host && Linked(s.net, h).Some? { LinkedApart(s.net, host, h); }
  }

  lemma PruneEdges(s: State, host: Host, keep: set<Prefix>, h: Host, p: Prefix)
    requires Sane(s.net) && Tracked(s.net, host)
    ensures Edge(s, Prune(s, host, keep), h, p)
  {
    var ps := Wanted(s, s.net.subs[host]);
    FilterIs(ps, keep, p);
    FilterLength(ps, keep);
    CloseEntryLinks(s.net, host, h);
    if h != host && Linked(s.net, h).Some? { LinkedApart(s.net, host, h); }
  }

  lemma FailEdges(s: State, d: nat, h: Host, p: Prefix)
    requires Sane(s.net) && HeapOk(s.net.heap) && Enabled(s, Fails(d)) && DialFits(s.net.dials[d], s.net.heap)
    ensures Edge(s, Next(s, Fails(d)), h, p)
  {
    DialFailedLinks(s.net, d, h);
  }

  lemma ConnectEdges(s: State, d: nat, h: Host, p: Prefix)
    requires Sane(s.net) && HeapOk(s.net.heap) && Enabled(s, Connects(d)) && DialFits(s.net.dials[d], s.net.heap)
    ensures Edge(s, Connect(s, d), h, p)
  {
    DialDoneLinks(s.net, d, h);
  }

  lemma CloseEdges(s: State, host: Host, h: Host, p: Prefix)
    requires Tracked(s.net, host)
    ensures Edge(s, CloseOne(s, host), h, p)
  {
    CloseEntryLinks(s.net, host, h);
  }

  lemma ExitEdges(s: State, r: nat, h: Host, p: Prefix)
    requires Enabled(s, Exits(r))
    ensures Edge(s, Exit(s, r), h, p)
  {
    ExitLinks(s.net, r, h);
  }

  lemma RepairEdges(s: State, host: Host, h: Host, p: Prefix)
    requires Sane(s.net) && Enabled(s, RepairHost(host))
    ensures Edge(s, Repair(s, host), h, p)
  {
    if Broken(Entry(s.net, host)) { StartDialLinks(s.net, host, s.term.value, h); }
  }

  /** Every step that takes a prefix out of the open ones leaves a depth-1 purge of it
      due; every step that brings one in leaves a listen request due that carries it. */
  lemma Edges(s: State, step: Step, h: Host, p: Prefix)
    requires Inv(s.net) && Enabled(s, step)
    ensures Edge(s, Next(s, step), h, p)
  {
    match step
    case EnsureHost(host, wanted) => if host in s.net.subs { EnsureOldEdges(s, host, wanted, h, p); } else { EnsureNewEdges(s, host, wanted, h, p); }
    case RepairHost(host) => RepairEdges(s, host, h, p);
    case PruneHost(host, keep) => PruneEdges(s, host, keep, h, p);
    case Fails(d) => FailEdges(s, d, h, p);
    case Connects(d) => ConnectEdges(s, d, h, p);
    case CloseHost(host) => CloseEdges(s, host, h, p);
    case Exits(r) => ExitEdges(s, r, h, p);
    case _ =>
  }

  // ---- Tickets are honoured ----

  ghost predicate Ticketed(k: Desk) {
    && (forall t :: t in k.listens ==> t < k.ticket && t !in k.purges && t !in k.purged)
    && (forall t :: t in k.purges ==> t < k.ticket && t !in k.purged)
    && (forall t :: t in k.purged ==> t < k.ticket)
  }

  /** The purge is due or done. */
  predicate PurgeKept(k: Desk, t: nat, purge: Purge) {
    (t in k.purges && k.purges[t] == purge) || (t in k.purged && k.purged[t] == purge)
  }

  /** The listen request is due, or its purge is due or done. */
  predicate OnDesk(k: Desk, t: nat, listen: Listen) {
    (t in k.listens && k.listens[t] == listen) || PurgeKept(k, t, Purge(listen.added, 2))
  }

  /** The desk moved on without losing anything. */
  ghost predicate Onward(k: Desk, m: Desk) {
    && Ticketed(m)
    && (forall t, purge :: PurgeKept(k, t, purge) ==> PurgeKept(m, t, purge))
    && (forall t, listen :: OnDesk(k, t, listen) && listen.added != {} ==> OnDesk(m, t, listen))
  }

  lemma DuePurgeOnward(k: Desk, lost: set<Prefix>)
    requires Ticketed(k)
    ensures Onward(k, DuePurge(k, lost))
  {
  }

  lemma DueListenOnward(k: Desk, conn: Conn, added: set<Prefix>)
    requires Ticketed(k)
    ensures Onward(k, DueListen(k, conn, added))
  {
  }

  lemma WriteListenOnward(k: Desk, l: nat)
    requires Ticketed(k) && l in k.listens
    ensures Onward(k, WriteListen(k, l))
  {
  }

  lemma RunPurgeOnward(k: Desk, p: nat)
    requires Ticketed(k) && p in k.purges
    ensures Onward(k, RunPurge(k, p))
  {
  }

  lemma EnsureOnward(s: State, host: Host, wanted: seq<Prefix>)
    requires Ticketed(s.desk) && Enabled(s, EnsureHost(host, wanted))
    ensures Onward(s.desk, Ensure(s, host, wanted).desk)
  {
    if host in s.net.subs && Entry(s.net, host).conn.Some? {
      DueListenOnward(s.desk, Entry(s.net, host).conn.value, Elems(Added(Wanted(s, s.net.subs[host]), wanted)));
    }
  }

  lemma PruneOnward(s: State, host: Host, keep: set<Prefix>)
    requires Ticketed(s.desk) && Tracked(s.net, host)
    ensures Onward(s.desk, Prune(s, host, keep).desk)
  {
    var lost := Elems(Wanted(s, s.net.subs[host])) - keep;
    DuePurgeOnward(s.desk, lost);
    if Entry(s.net, host).conn.Some? {
      DueListenOnward(DuePurge(s.desk, lost), Entry(s.net, host).conn.value, {});
    }
  }

  /** Every step but a failed write moves the desk on without losing anything. */
  lemma NextOnward(s: State, step: Step)
    requires Ticketed(s.desk) && Enabled(s, step) && !step.NotSent?
    ensures Onward(s.desk, Next(s, step).desk)
  {
    match step
    case EnsureHost(host, wanted) => EnsureOnward(s, host, wanted);
    case PruneHost(host, keep) => PruneOnward(s, host, keep);
    case CloseHost(host) => DuePurgeOnward(s.desk, Elems(Wanted(s, s.net.subs[host])));
    case Connects(d) => DueListenOnward(s.desk, NewConn(s.net, d), Elems(Wanted(s, s.net.dials[d].ref)));
    case Exits(r) => DuePurgeOnward(s.desk, Elems(Wanted(s, s.net.runners[r].conn.ref)));
    case Sent(l) => WriteListenOnward(s.desk, l);
    case Purges(p) => RunPurgeOnward(s.desk, p);
    case _ =>
  }

  predicate ConnClosed(n: Net, c: Conn) {
    c !in n.open && c.id < n.next
  }

  /** A websocket once closed stays closed: later ones have new identities. */
  lemma ClosedStays(s: State, step: Step, c: Conn)
    requires Enabled(s, step) && ConnClosed(s.net, c)
    ensures ConnClosed(Next(s, step).net, c)
  {
  }

  /** The request is due, its purge is due or done, or its connection is closed. */
  predicate ListenKept(s: State, t: nat, listen: Listen) {
    OnDesk(s.desk, t, listen) || ConnClosed(s.net, listen.conn)
  }

  /** The websocket a listen request is for exists already. */
  ghost predicate Dialled(s: State) {
    forall t :: t in s.desk.listens ==> s.desk.listens[t].conn.id < s.net.next
  }

  lemma EnsureDialled(s: State, host: Host, wanted: seq<Prefix>)
    requires Dialled(s) && Fresh(s.net) && Enabled(s, EnsureHost(host, wanted))
    ensures Dialled(Ensure(s, host, wanted))
  {
  }

  lemma PruneDialled(s: State, host: Host, keep: set<Prefix>)
    requires Dialled(s) && Fresh(s.net) && Tracked(s.net, host)
    ensures Dialled(Prune(s, host, keep))
  {
  }

  lemma NextDialled(s: State, step: Step)
    requires Dialled(s) && Fresh(s.net) && Enabled(s, step)
    ensures Dialled(Next(s, step))
  {
    match step
    case EnsureHost(host, wanted) => EnsureDialled(s, host, wanted);
    case PruneHost(host, keep) => PruneDialled(s, host, keep);
    case _ => assert s.net.next <= Next(s, step).net.next;
  }

  lemma NotSentKeeps(s: State, l: nat, t: nat, listen: Listen)
    requires Ticketed(s.desk) && Dialled(s) && Enabled(s, NotSent(l)) && OnDesk(s.desk, t, listen)
    ensures ListenKept(Next(s, NotSent(l)), t, listen)
  {
  }

  lemma ListenStays(s: State, step: Step, t: nat, listen: Listen)
    requires Ticketed(s.desk) && Dialled(s) && Enabled(s, step) && ListenKept(s, t, listen) && listen.added != {}
    ensures ListenKept(Next(s, step), t, listen)
  {
    if ConnClosed(s.net, listen.conn) {
      ClosedStays(s, step, listen.conn);
    } else if step.NotSent? {
      NotSentKeeps(s, step.l, t, listen);
    } else {
      NextOnward(s, step);
    }
  }

  lemma NextTicketed(s: State, step: Step)
    requires Ticketed(s.desk) && Enabled(s, step)
    ensures Ticketed(Next(s, step).desk)
    ensures forall t, purge :: PurgeKept(s.desk, t, purge) ==> PurgeKept(Next(s, step).desk, t, purge)
  {
    if !step.NotSent? { NextOnward(s, step); }
  }

  lemma {:induction false} RunTicketed(run: Run, n: nat)
    requires IsRun(run) && n <= |run.steps|
    ensures Ticketed(run.states[n].desk) && Dialled(run.states[n])
  {
    if n > 0 {
      RunTicketed(run, n - 1);
      RunInv(run, n - 1);
      assert Stepped(run, n - 1);
      NextTicketed(run.states[n - 1], run.steps[n - 1]);
      NextDialled(run.states[n - 1], run.steps[n - 1]);
    }
  }

  lemma {:induction false} RunPurgeStays(run: Run, i: nat, j: nat, t: nat, purge: Purge)
    requires IsRun(run) && i <= j <= |run.steps| && PurgeKept(run.states[i].desk, t, purge)
    ensures PurgeKept(run.states[j].desk, t, purge)
  {
    if i < j {
      RunPurgeStays(run, i, j - 1, t, purge);
      RunTicketed(run, j - 1);
      assert Stepped(run, j - 1);
      NextTicketed(run.states[j - 1], run.steps[j - 1]);
    }
  }

  lemma {:induction false} RunListenStays(run: Run, i: nat, j: nat, t: nat, listen: Listen)
    requires IsRun(run) && i <= j <= |run.steps| && ListenKept(run.states[i], t, listen) && listen.added != {}
    ensures ListenKept(run.states[j], t, listen)
  {
    if i < j {
      RunListenStays(run, i, j - 1, t, listen);
      RunTicketed(run, j - 1);
      assert Stepped(run, j - 1);
      ListenStays(run.states[j - 1], run.steps[j - 1], t, listen);
    }
  }

  lemma EdgeAt(run: Run, i: nat, h: Host, p: Prefix)
    requires IsRun(run) && i < |run.steps|
    ensures Edge(run.states[i], run.states[i + 1], h, p)
  {
    RunInv(run, i);
    assert Stepped(run, i);
    Edges(run.states[i], run.steps[i], h, p);
  }

  /** In every run, when a step takes a prefix from open to not open, a depth-1 purge of
      that prefix is due or done from then on. */
  lemma ClosingPurges(run: Run, i: nat, j: nat, p: Prefix) returns (purge: Purge)
    requires IsRun(run) && i < j <= |run.steps| && Open(run.states[i], p) && !Open(run.states[i + 1], p)
    ensures p in purge.prefixes && purge.depth == 1 && PurgeKept(run.states[j].desk, run.states[i].desk.ticket, purge)
  {
    var h :| OpenAt(run.states[i], h, p);
    EdgeAt(run, i, h, p);
    purge := run.states[i + 1].desk.purges[run.states[i].desk.ticket];
    RunPurgeStays(run, i + 1, j, run.states[i].desk.ticket, purge);
  }

  /** In every run, when a step opens a prefix, from then on the listen request that
      carries it is due, or a depth-2 purge of it is due or done, or the connection it was
      opened on is closed. */
  lemma OpeningPurges(run: Run, i: nat, j: nat, p: Prefix) returns (listen: Listen)
    requires IsRun(run) && i < j <= |run.steps| && !Open(run.states[i], p) && Open(run.states[i + 1], p)
    ensures p in listen.added && ListenKept(run.states[j], run.states[i].desk.ticket, listen)
  {
    var h :| OpenAt(run.states[i + 1], h, p);
    EdgeAt(run, i, h, p);
    listen := run.states[i + 1].desk.listens[run.states[i].desk.ticket];
    RunListenStays(run, i + 1, j, run.states[i].desk.ticket, listen);
  }
}
