/** The leader's peer subscriptions (internal/worker/LeaderSubscriber.go) as a state
    machine. Every section under the lock is one step per host it touches; dials, listen
    requests, closes, exits and purges between the sections are explicit and interleave
    freely, over any number of lead terms. */
module Subscriber {
  import opened Wrappers

  type Host = string
  type Prefix = string
  type Ref = nat
  type Term = nat

  /** A websocket, with the subscription state it was dialled for. */
  datatype Conn = Conn(id: nat, ref: Ref)

  /** SubState without its prefixes; `term` is the lead term of its latest dial. */
  datatype Sub = Sub(host: Host, conn: Option<Conn>, dialing: bool, term: Term)

  /** dialAndRun before its lock. */
  datatype Dial = Dial(term: Term, host: Host, ref: Ref)

  /** runListener or runRelayer; `closed` once its deferred close has run. */
  datatype Runner = Runner(host: Host, conn: Conn, closed: bool)

  /** Entries, dials and websockets. */
  datatype Net = Net(
    subs: map<Host, Ref>,      // Subscriptions
    heap: map<Ref, Sub>,       // every SubState ever made
    dials: map<nat, Dial>,     // dials in flight
    open: set<Conn>,           // websockets not yet closed
    closing: set<Conn>,        // held by a dial that is about to close them
    runners: map<nat, Runner>,
    cancelled: set<Term>,      // lead terms whose context is done
    next: nat)                 // fresh identities

  /** A listen request still to be written, and the prefixes it newly opens. */
  datatype Listen = Listen(conn: Conn, added: set<Prefix>)

  datatype Purge = Purge(prefixes: set<Prefix>, depth: nat)

  /** What is still to be written or purged, and what has been purged. Each carries a
      ticket, and a listen's purge keeps the listen's. */
  datatype Desk = Desk(listens: map<nat, Listen>, purges: map<nat, Purge>, purged: map<nat, Purge>, ticket: nat)

  datatype State = State(
    net: Net,
    term: Option<Term>,                // runCtx
    prefixes: map<Ref, seq<Prefix>>,   // Prefixes of each SubState
    desk: Desk)

  const IDLE: State := State(Net(map[], map[], map[], {}, {}, map[], {}, 0), None, map[], Desk(map[], map[], map[], 0))

  predicate Leading(s: State) {
    s.term.Some? && s.term.value !in s.net.cancelled
  }

  function Wanted(s: State, ref: Ref): seq<Prefix> {
    if ref in s.prefixes then s.prefixes[ref] else []
  }

  predicate Tracked(n: Net, host: Host) {
    host in n.subs && n.subs[host] in n.heap
  }

  predicate Current(n: Net, host: Host, ref: Ref) {
    host in n.subs && n.subs[host] == ref
  }

  function Entry(n: Net, host: Host): Sub
    requires Tracked(n, host)
  {
    n.heap[n.subs[host]]
  }

  predicate Broken(sub: Sub) {
    sub.conn.None? && !sub.dialing
  }

  function Elems(ps: seq<Prefix>): set<Prefix> {
    set p | p in ps
  }

  // ---- Entries, dials and websockets ----

  function StartDial(n: Net, host: Host, ref: Ref, term: Term): Net {
    n.(heap := n.heap[ref := Sub(host, None, true, term)], dials := n.dials[n.next := Dial(term, host, ref)], next := n.next + 1)
  }

  function NewEntry(n: Net, host: Host, term: Term): Net {
    var dialled := StartDial(n.(next := n.next + 1), host, n.next, term);
    dialled.(subs := n.subs[host := n.next])
  }

  function CloseConn(n: Net, conn: Option<Conn>): Net {
    if conn.Some? then n.(open := n.open - {conn.value}) else n
  }

  function CloseEntry(n: Net, host: Host): Net
    requires Tracked(n, host)
  {
    CloseConn(n, Entry(n, host).conn).(subs := n.subs - {host})
  }

  function Settle(n: Net, d: nat): Net
    requires d in n.dials && n.dials[d].ref in n.heap
  {
    var ref := n.dials[d].ref;
    n.(dials := n.dials - {d}, heap := n.heap[ref := n.heap[ref].(dialing := false)])
  }

  function DialFailed(n: Net, d: nat): Net
    requires d in n.dials && n.dials[d].ref in n.heap
  {
    var me := n.dials[d];
    if Current(n, me.host, me.ref) then Settle(n, d).(subs := n.subs - {me.host}) else Settle(n, d)
  }

  predicate Installs(n: Net, d: nat)
    requires d in n.dials
  {
    n.dials[d].term !in n.cancelled && Current(n, n.dials[d].host, n.dials[d].ref)
  }

  function NewConn(n: Net, d: nat): Conn
    requires d in n.dials
  {
    Conn(n.next, n.dials[d].ref)
  }

  /** The websocket becomes the state's connection and its goroutines start. */
  function Install(n: Net, ref: Ref, d: nat, host: Host): Net
    requires ref in n.heap
  {
    var c := Conn(n.next, ref);
    n.(dials := n.dials - {d},
       heap := n.heap[ref := n.heap[ref].(dialing := false, conn := Some(c))],
       open := n.open + {c},
       runners := n.runners[n.next + 1 := Runner(host, c, false)][n.next + 2 := Runner(host, c, false)],
       next := n.next + 3)
  }

  /** The dial returned a websocket: install it, or back out. */
  function DialDone(n: Net, d: nat): Net
    requires d in n.dials && n.dials[d].ref in n.heap
  {
    if Installs(n, d) then Install(n, n.dials[d].ref, d, n.dials[d].host)
    else
      var settled := Settle(n, d);
      settled.(open := n.open + {NewConn(n, d)}, closing := n.closing + {NewConn(n, d)}, next := n.next + 1)
  }

  function RunnerCloses(n: Net, r: nat): Net
    requires r in n.runners
  {
    n.(open := n.open - {n.runners[r].conn}, runners := n.runners[r := n.runners[r].(closed := true)])
  }

  /** The leaving goroutine's own connection is still its host's. */
  predicate Removes(n: Net, r: nat)
    requires r in n.runners
  {
    var me := n.runners[r];
    Current(n, me.host, me.conn.ref) && me.conn.ref in n.heap && n.heap[me.conn.ref].conn == Some(me.conn)
  }

  function RunnerExits(n: Net, r: nat): Net
    requires r in n.runners
  {
    var left := n.(runners := n.runners - {r});
    if Removes(n, r) then left.(subs := n.subs - {n.runners[r].host}) else left
  }

  // ---- The sections under the lock ----

  /** The prefixes not yet there, in order. */
  function Added(have: seq<Prefix>, wanted: seq<Prefix>): seq<Prefix>
    decreases wanted
  {
    if wanted == [] then []
    else if wanted[0] in have then Added(have, wanted[1..])
    else [wanted[0]] + Added(have + [wanted[0]], wanted[1..])
  }

  function DuePurge(desk: Desk, lost: set<Prefix>): Desk {
    desk.(purges := desk.purges[desk.ticket := Purge(lost, 1)], ticket := desk.ticket + 1)
  }

  function DueListen(desk: Desk, conn: Conn, added: set<Prefix>): Desk {
    desk.(listens := desk.listens[desk.ticket := Listen(conn, added)], ticket := desk.ticket + 1)
  }

  /** The request is on the wire: what it opened is purged next. */
  function WriteListen(desk: Desk, l: nat): Desk
    requires l in desk.listens
  {
    var added := desk.listens[l].added;
    desk.(listens := desk.listens - {l}, purges := if added == {} then desk.purges else desk.purges[l := Purge(added, 2)])
  }

  function RunPurge(desk: Desk, p: nat): Desk
    requires p in desk.purges
  {
    desk.(purges := desk.purges - {p}, purged := desk.purged[p := desk.purges[p]])
  }

  /** EnsureSubscriptions for one host. */
  function Ensure(s: State, host: Host, wanted: seq<Prefix>): State
    requires Leading(s) && (host in s.net.subs ==> Tracked(s.net, host))
  {
    if host !in s.net.subs then
      s.(net := NewEntry(s.net, host, s.term.value), prefixes := s.prefixes[s.net.next := wanted])
    else
      var ref := s.net.subs[host];
      var sub := Entry(s.net, host);
      var added := Added(Wanted(s, ref), wanted);
      var merged := s.(prefixes := s.prefixes[ref := Wanted(s, ref) + added]);
      if Broken(sub) then merged.(net := StartDial(s.net, host, ref, s.term.value))
      else if sub.dialing || added == [] then merged
      else merged.(desk := DueListen(s.desk, sub.conn.value, Elems(added)))
  }

  /** repairBrokenSubscriptions for one host. */
  function Repair(s: State, host: Host): State
    requires Leading(s) && Tracked(s.net, host)
  {
    if Broken(Entry(s.net, host)) then s.(net := StartDial(s.net, host, s.net.subs[host], s.term.value)) else s
  }

  /** closeAllSubscriptions for one host. */
  function CloseOne(s: State, host: Host): State
    requires Tracked(s.net, host)
  {
    s.(net := CloseEntry(s.net, host), desk := DuePurge(s.desk, Elems(Wanted(s, s.net.subs[host]))))
  }

  function Filter(ps: seq<Prefix>, keep: set<Prefix>): seq<Prefix> {
    if ps == [] then []
    else (if ps[0] in keep then [ps[0]] else []) + Filter(ps[1..], keep)
  }

  /** deleteExcessSubscriptions for one host; `keep` is what it spares. */
  function Prune(s: State, host: Host, keep: set<Prefix>): State
    requires Tracked(s.net, host)
  {
    var ref := s.net.subs[host];
    var sub := Entry(s.net, host);
    var kept := Filter(Wanted(s, ref), keep);
    var pruned := s.(prefixes := s.prefixes[ref := kept], desk := DuePurge(s.desk, Elems(Wanted(s, ref)) - keep));
    if kept == [] then pruned.(net := CloseEntry(s.net, host))
    else if |kept| == |Wanted(s, ref)| then s
    else if sub.dialing || sub.conn.None? then pruned
    else pruned.(desk := DueListen(pruned.desk, sub.conn.value, {}))
  }

  function Connect(s: State, d: nat): State
    requires d in s.net.dials && s.net.dials[d].ref in s.net.heap
  {
    var after := s.(net := DialDone(s.net, d));
    if Installs(s.net, d) then after.(desk := DueListen(s.desk, NewConn(s.net, d), Elems(Wanted(s, s.net.dials[d].ref)))) else after
  }

  function Exit(s: State, r: nat): State
    requires r in s.net.runners
  {
    var after := s.(net := RunnerExits(s.net, r));
    if Removes(s.net, r) then after.(desk := DuePurge(s.desk, Elems(Wanted(s, s.net.runners[r].conn.ref)))) else after
  }

  // ---- Steps ----

  datatype Step =
    | Start(term: Term)
    | Cancel(term: Term)
    | EnsureHost(host: Host, wanted: seq<Prefix>)
    | RepairHost(host: Host)
    | PruneHost(host: Host, keep: set<Prefix>)
    | CloseHost(host: Host)
    | Fails(d: nat)
    | Connects(d: nat)
    | BacksOut(conn: Conn)
    | Sent(l: nat)
    | NotSent(l: nat)
    | Closes(r: nat)
    | Exits(r: nat)
    | Purges(p: nat)

  predicate Enabled(s: State, step: Step) {
    match step
    case Start(term) => term !in s.net.cancelled
    case Cancel(_) => true
    case EnsureHost(host, wanted) => Leading(s) && (host in s.net.subs ==> Tracked(s.net, host))
    case RepairHost(host) => Leading(s) && Tracked(s.net, host)
    case PruneHost(host, _) => Tracked(s.net, host)
    case CloseHost(host) => s.term.Some? && s.term.value in s.net.cancelled && Tracked(s.net, host)
    case Fails(d) => d in s.net.dials && s.net.dials[d].ref in s.net.heap
    case Connects(d) => d in s.net.dials && s.net.dials[d].ref in s.net.heap
    case BacksOut(conn) => conn in s.net.closing
    case Sent(l) => l in s.desk.listens
    case NotSent(l) => l in s.desk.listens
    case Closes(r) => r in s.net.runners
    case Exits(r) => r in s.net.runners && s.net.runners[r].closed
    case Purges(p) => p in s.desk.purges
  }

  function Next(s: State, step: Step): State
    requires Enabled(s, step)
  {
    match step
    case Start(term) => s.(term := Some(term))
    case Cancel(term) => s.(net := s.net.(cancelled := s.net.cancelled + {term}))
    case EnsureHost(host, wanted) => Ensure(s, host, wanted)
    case RepairHost(host) => Repair(s, host)
    case PruneHost(host, keep) => Prune(s, host, keep)
    case CloseHost(host) => CloseOne(s, host)
    case Fails(d) => s.(net := DialFailed(s.net, d))
    case Connects(d) => Connect(s, d)
    case BacksOut(conn) => s.(net := s.net.(open := s.net.open - {conn}, closing := s.net.closing - {conn}))
    case Sent(l) => s.(desk := WriteListen(s.desk, l))
    case NotSent(l) => s.(desk := s.desk.(listens := s.desk.listens - {l}), net := CloseConn(s.net, Some(s.desk.listens[l].conn)))
    case Closes(r) => s.(net := RunnerCloses(s.net, r))
    case Exits(r) => Exit(s, r)
    case Purges(p) => s.(desk := RunPurge(s.desk, p))
  }
}
