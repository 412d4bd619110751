/** Keeper ticks against live sessions: what a tick's deleteExcessSubscriptions may drop
    (internal/worker/LeaderSubscriber.go, internal/usecase/subscription/subscription.go).
    Clock readings, lock sections and session updates are separate steps in any order. */
module Keeper {
  import opened Wrappers

  type Prefix = string
  type Sid = nat

  const MINUTE: int := 60_000_000_000

  /** A realtime session. `busy` from its update until its ensure call returns; `asOf` is
      the clock at its latest update; `stamped` are the prefixes its ensures have stamped and
      every update since still wanted. */
  datatype Session = Session(wants: set<Prefix>, asOf: int, busy: bool, stamped: set<Prefix>)

  /** An ensure call: when it read the clock, for which session if any, what it has yet
      to treat, and whether its first section is over. */
  datatype Call = Call(reading: int, owner: Option<Sid>, rest: set<Prefix>, resolving: bool)

  /** The keeper's tick: begun at a clock reading, then holding a demand snapshot. */
  datatype Tick = Asleep | Begun(start: int) | Snapped(start: int, demand: set<Prefix>)

  datatype State = State(
    clock: int,
    sessions: map<Sid, Session>,
    stamps: map<Prefix, int>,     // ensuredAt
    writers: map<Prefix, Option<Sid>>, // whose ensure wrote the stamp last
    tracked: set<Prefix>,         // prefixes of all subscriptions
    calls: map<nat, Call>,
    tick: Tick)

  datatype Step =
    | Pass(elapsed: nat)
    | Open(sid: Sid)
    | Update(sid: Sid, wants: set<Prefix>)
    | Close(sid: Sid)
    | Ensure(c: nat, owner: Option<Sid>, prefixes: set<Prefix>, elapsed: nat)
    | First(c: nat)
    | Second(c: nat, found: set<Prefix>)
    | Begin(elapsed: nat)
    | Expire
    | Snapshot(others: set<Prefix>)
    | Delete
    | Lose(gone: set<Prefix>)

  predicate Enabled(s: State, step: Step) {
    match step
    case Open(sid) => sid !in s.sessions
    case Update(sid, _) => sid in s.sessions && !s.sessions[sid].busy
    case Close(sid) => sid in s.sessions && !s.sessions[sid].busy
    case Ensure(c, owner, prefixes, _) =>
      && c !in s.calls
      && (owner.Some? ==>
            && owner.value in s.sessions && s.sessions[owner.value].busy && prefixes == s.sessions[owner.value].wants
            && (forall d :: d in s.calls ==> s.calls[d].owner != owner))
    case First(c) => c in s.calls && !s.calls[c].resolving
    case Second(c, found) => c in s.calls && s.calls[c].resolving && found <= s.calls[c].rest
    case Begin(_) => s.tick.Asleep?
    case Expire => s.tick.Begun?
    case Snapshot(_) => s.tick.Begun?
    case Delete => s.tick.Snapped?
    case _ => true
  }

  /** What a stamp must be for deleteExcessSubscriptions to spare the prefix anyway. */
  predicate Spares(stamps: map<Prefix, int>, demand: set<Prefix>, since: int, p: Prefix) {
    p in demand || (p in stamps && since < stamps[p])
  }

  function Demanded(sessions: map<Sid, Session>): set<Prefix> {
    set sid, p | sid in sessions && p in sessions[sid].wants :: p
  }

  function Stamp<T>(stamps: map<Prefix, T>, ps: set<Prefix>, mark: T): map<Prefix, T> {
    map p | p in stamps.Keys + ps :: if p in ps then mark else stamps[p]
  }

  /** The owning session notes what its call has stamped. */
  function Note(sessions: map<Sid, Session>, owner: Option<Sid>, ps: set<Prefix>, done: bool): map<Sid, Session> {
    if owner.Some? && owner.value in sessions
    then
      var me := sessions[owner.value];
      sessions[owner.value := me.(stamped := me.stamped + ps, busy := me.busy && !done)]
    else sessions
  }

  function Next(s: State, step: Step): State
    requires Enabled(s, step)
  {
    match step
    case Pass(elapsed) => s.(clock := s.clock + elapsed)
    case Open(sid) => s.(sessions := s.sessions[sid := Session({}, s.clock, false, {})])
    case Update(sid, wants) =>
      s.(sessions := s.sessions[sid := Session(wants, s.clock, true, s.sessions[sid].stamped * wants)])
    case Close(sid) => s.(sessions := s.sessions - {sid})
    case Ensure(c, owner, prefixes, elapsed) =>
      s.(clock := s.clock + elapsed, calls := s.calls[c := Call(s.clock + elapsed, owner, prefixes, false)])
    case First(c) =>
      var me := s.calls[c];
      s.(stamps := Stamp(s.stamps, me.rest * s.tracked, me.reading),
         writers := Stamp(s.writers, me.rest * s.tracked, me.owner),
         sessions := Note(s.sessions, me.owner, me.rest * s.tracked, false),
         calls := s.calls[c := me.(rest := me.rest - s.tracked, resolving := true)])
    case Second(c, found) =>
      s.(stamps := Stamp(s.stamps, found, s.clock),
         writers := Stamp(s.writers, found, s.calls[c].owner),
         tracked := s.tracked + found,
         sessions := Note(s.sessions, s.calls[c].owner, found, true),
         calls := s.calls - {c})
    case Begin(elapsed) => s.(clock := s.clock + elapsed, tick := Begun(s.clock + elapsed))
    case Expire => s.(stamps := map p | p in s.stamps && s.tick.start - s.stamps[p] <= MINUTE :: s.stamps[p])
    case Snapshot(others) => s.(tick := Snapped(s.tick.start, Demanded(s.sessions) + others))
    case Delete =>
      s.(tracked := (set p | p in s.tracked && Spares(s.stamps, s.tick.demand, s.tick.start, p)), tick := Asleep)
    case Lose(gone) => s.(tracked := s.tracked - gone)
  }

  // ---- When a wanted prefix is safe ----

  /** The session's own ensures read a later instant than its update saw. */
  predicate Strict(step: Step, sid: Sid) {
    step.Ensure? && step.owner == Some(sid) ==> step.elapsed > 0
  }

  /** The step is somebody else's ensure that read the clock no later than the tick began,
      and stamps this prefix after a snapshot that misses it. */
  predicate Stale(s: State, step: Step, sid: Sid, p: Prefix) {
    && step.First? && step.c in s.calls && s.tick.Snapped?
    && s.calls[step.c].owner != Some(sid)
    && p in s.calls[step.c].rest * s.tracked && p !in s.tick.demand
    && s.calls[step.c].reading <= s.tick.start
  }

  predicate HasStamped(s: State, sid: Sid, p: Prefix) {
    sid in s.sessions && p in s.sessions[sid].stamped
  }

  predicate Wants(s: State, sid: Sid, p: Prefix) {
    sid in s.sessions && p in s.sessions[sid].wants
  }

  ghost predicate SessionOk(s: State, sid: Sid) {
    sid in s.sessions ==> s.sessions[sid].asOf <= s.clock && s.sessions[sid].stamped <= s.sessions[sid].wants
  }

  /** The session's ensure call, of which there is at most one, read a later clock. */
  ghost predicate CallsOk(s: State, sid: Sid) {
    && (forall c :: c in s.calls ==> s.calls[c].reading <= s.clock)
    && (forall c :: c in s.calls && s.calls[c].owner == Some(sid) ==>
          && sid in s.sessions && s.sessions[sid].busy
          && s.sessions[sid].asOf < s.calls[c].reading
          && s.calls[c].rest <= s.sessions[sid].wants)
    && (forall c, d :: c in s.calls && d in s.calls && s.calls[c].owner == Some(sid) && s.calls[d].owner == Some(sid) ==> c == d)
  }

  ghost predicate StampsOk(s: State) {
    forall p :: p in s.stamps ==> s.stamps[p] <= s.clock && p in s.writers
  }

  /** What the snapshot missed was wanted only later; once stamped, the stamp is later than
      the tick's start as long as it is the session's own. */
  predicate TickOk(s: State, sid: Sid, p: Prefix) {
    && (!s.tick.Asleep? ==> s.tick.start <= s.clock)
    && (s.tick.Snapped? && p !in s.tick.demand ==>
          && (Wants(s, sid, p) ==> s.tick.start <= s.sessions[sid].asOf)
          && (HasStamped(s, sid, p) ==> p in s.stamps && p in s.writers && (s.writers[p] == Some(sid) ==> s.tick.start < s.stamps[p])))
  }

  ghost predicate Inv(s: State, sid: Sid, p: Prefix) {
    SessionOk(s, sid) && CallsOk(s, sid) && StampsOk(s) && TickOk(s, sid, p)
  }

  lemma FirstInv(s: State, c: nat, sid: Sid, p: Prefix)
    requires Inv(s, sid, p) && Enabled(s, First(c))
    ensures Inv(Next(s, First(c)), sid, p)
  {
  }

  lemma SecondInv(s: State, c: nat, found: set<Prefix>, sid: Sid, p: Prefix)
    requires Inv(s, sid, p) && Enabled(s, Second(c, found))
    ensures Inv(Next(s, Second(c, found)), sid, p)
  {
    if s.calls[c].owner == Some(sid) && p in found { assert Wants(s, sid, p); }
  }

  lemma SnapshotInv(s: State, others: set<Prefix>, sid: Sid, p: Prefix)
    requires Inv(s, sid, p) && Enabled(s, Snapshot(others))
    ensures Inv(Next(s, Snapshot(others)), sid, p)
  {
    if Wants(s, sid, p) { assert p in Demanded(s.sessions); }
  }

  lemma EnsureInv(s: State, c: nat, owner: Option<Sid>, prefixes: set<Prefix>, elapsed: nat, sid: Sid, p: Prefix)
    requires Inv(s, sid, p) && Enabled(s, Ensure(c, owner, prefixes, elapsed)) && (owner == Some(sid) ==> elapsed > 0)
    ensures Inv(Next(s, Ensure(c, owner, prefixes, elapsed)), sid, p)
  {
  }

  lemma OtherInv(s: State, step: Step, sid: Sid, p: Prefix)
    requires Inv(s, sid, p) && Enabled(s, step)
    requires !step.First? && !step.Second? && !step.Snapshot? && !step.Ensure?
    ensures Inv(Next(s, step), sid, p)
  {
  }

  lemma NextInv(s: State, step: Step, sid: Sid, p: Prefix)
    requires Inv(s, sid, p) && Enabled(s, step) && Strict(step, sid)
    ensures Inv(Next(s, step), sid, p)
  {
    match step
    case First(c) => FirstInv(s, c, sid, p);
    case Second(c, found) => SecondInv(s, c, found, sid, p);
    case Snapshot(others) => SnapshotInv(s, others, sid, p);
    case Ensure(c, owner, prefixes, elapsed) => EnsureInv(s, c, owner, prefixes, elapsed, sid, p);
    case _ => OtherInv(s, step, sid, p);
  }

  /** A stamp outside the demand that is not later than the tick's start is not there. */
  predicate Protected(s: State, sid: Sid, p: Prefix) {
    s.tick.Snapped? && p !in s.tick.demand && HasStamped(s, sid, p) ==> p in s.stamps && s.tick.start < s.stamps[p]
  }

  lemma NextProtected(s: State, step: Step, sid: Sid, p: Prefix)
    requires Inv(s, sid, p) && Protected(s, sid, p) && Enabled(s, step) && Strict(step, sid) && !Stale(s, step, sid, p)
    ensures Protected(Next(s, step), sid, p)
  {
    NextInv(s, step, sid, p);
    match step
    case First(c) =>
    case Second(c, found) => SecondProtected(s, c, found, sid, p);
    case Snapshot(others) => if Wants(s, sid, p) { assert p in Demanded(s.sessions); }
    case _ =>
  }

  lemma SecondProtected(s: State, c: nat, found: set<Prefix>, sid: Sid, p: Prefix)
    requires Inv(s, sid, p) && Protected(s, sid, p) && Enabled(s, Second(c, found))
    ensures Protected(Next(s, Second(c, found)), sid, p)
  {
    if s.calls[c].owner == Some(sid) && p in found { assert Wants(s, sid, p); }
  }

  // ---- Runs ----

  datatype Run = Run(states: seq<State>, steps: seq<Step>)

  ghost predicate IsRun(run: Run) {
    && |run.states| == |run.steps| + 1
    && Initial(run.states[0])
    && (forall k :: 0 <= k < |run.steps| ==> Stepped(run, k))
  }

  predicate Initial(s: State) {
    s.sessions == map[] && s.calls == map[] && s.stamps == map[] && s.writers == map[] && s.tracked == {} && s.tick.Asleep?
  }

  predicate Stepped(run: Run, k: nat)
    requires k < |run.steps| && |run.states| == |run.steps| + 1
  {
    Enabled(run.states[k], run.steps[k]) && run.states[k + 1] == Next(run.states[k], run.steps[k])
  }

  predicate StrictAt(run: Run, k: nat, sid: Sid)
    requires k < |run.steps|
  {
    Strict(run.steps[k], sid)
  }

  predicate StaleAt(run: Run, k: nat, sid: Sid, p: Prefix)
    requires k < |run.steps| && |run.states| == |run.steps| + 1
  {
    Stale(run.states[k], run.steps[k], sid, p)
  }

  lemma {:induction false} RunInv(run: Run, n: nat, sid: Sid, p: Prefix)
    requires IsRun(run) && n <= |run.steps| && forall k :: 0 <= k < n ==> StrictAt(run, k, sid)
    ensures Inv(run.states[n], sid, p)
  {
    if n > 0 {
      RunInv(run, n - 1, sid, p);
      assert Stepped(run, n - 1) && StrictAt(run, n - 1, sid);
      NextInv(run.states[n - 1], run.steps[n - 1], sid, p);
    }
  }

  lemma {:induction false} RunProtected(run: Run, n: nat, sid: Sid, p: Prefix)
    requires IsRun(run) && n <= |run.steps|
    requires forall k :: 0 <= k < n ==> StrictAt(run, k, sid) && !StaleAt(run, k, sid, p)
    ensures Protected(run.states[n], sid, p)
  {
    if n > 0 {
      RunProtected(run, n - 1, sid, p);
      RunInv(run, n - 1, sid, p);
      assert Stepped(run, n - 1) && StrictAt(run, n - 1, sid) && !StaleAt(run, n - 1, sid, p);
      NextProtected(run.states[n - 1], run.steps[n - 1], sid, p);
    }
  }

  predicate WantsAt(run: Run, k: nat, sid: Sid, p: Prefix)
    requires k < |run.states|
  {
    Wants(run.states[k], sid, p)
  }

  /** Once stamped, a prefix stays so through every update of the session, and every step of
      anybody else, that leaves it wanted. */
  lemma StepKeepsStamp(s: State, step: Step, sid: Sid, p: Prefix)
    requires Enabled(s, step) && HasStamped(s, sid, p) && Wants(Next(s, step), sid, p)
    ensures HasStamped(Next(s, step), sid, p)
  {
  }

  lemma {:induction false} StaysStamped(run: Run, i: nat, j: nat, sid: Sid, p: Prefix)
    requires IsRun(run) && i <= j <= |run.steps|
    requires HasStamped(run.states[i], sid, p) && forall k :: i <= k <= j ==> WantsAt(run, k, sid, p)
    ensures HasStamped(run.states[j], sid, p)
  {
    if i < j {
      StaysStamped(run, i, j - 1, sid, p);
      assert Stepped(run, j - 1) && WantsAt(run, j, sid, p);
      StepKeepsStamp(run.states[j - 1], run.steps[j - 1], sid, p);
    }
  }

  /** From the moment a session's ensure has stamped a prefix and for as long as the session
      keeps wanting it, through any updates in between and in every interleaving of ticks,
      sessions and ensures in which its own ensures read a moving clock: a tick drops the
      prefix exactly when its snapshot misses it and somebody else's ensure, which had read
      the clock no later than the tick began, wrote the stamp last. */
  lemma StampedIsDroppedExactly(run: Run, i: nat, j: nat, sid: Sid, p: Prefix)
    requires IsRun(run) && i <= j < |run.steps| && run.steps[j].Delete? && run.states[j].tick.Snapped?
    requires forall k :: 0 <= k < j ==> StrictAt(run, k, sid)
    requires HasStamped(run.states[i], sid, p) && forall k :: i <= k <= j ==> WantsAt(run, k, sid, p)
    requires p in run.states[j].tracked
    ensures
      var s := run.states[j];
      p !in run.states[j + 1].tracked <==>
        p !in s.tick.demand && p in s.stamps && p in s.writers && s.writers[p] != Some(sid) && s.stamps[p] <= s.tick.start
  {
    StaysStamped(run, i, j, sid, p);
    RunInv(run, j, sid, p);
    assert Stepped(run, j);
  }

  /** So without such a stale stamp on this prefix no tick ever drops it while it is wanted. */
  lemma StampedIsNeverDropped(run: Run, i: nat, j: nat, sid: Sid, p: Prefix)
    requires IsRun(run) && i <= j < |run.steps| && run.steps[j].Delete?
    requires forall k :: 0 <= k < j ==> StrictAt(run, k, sid) && !StaleAt(run, k, sid, p)
    requires HasStamped(run.states[i], sid, p) && forall k :: i <= k <= j ==> WantsAt(run, k, sid, p)
    requires p in run.states[j].tracked
    ensures p in run.states[j + 1].tracked
  {
    StaysStamped(run, i, j, sid, p);
    RunProtected(run, j, sid, p);
    assert Stepped(run, j);
  }

  // ---- Without them ----

  function Last(run: Run): State
    requires |run.states| == |run.steps| + 1
  {
    run.states[|run.steps|]
  }

  ghost predicate AllStrict(run: Run, sid: Sid) {
    forall k :: 0 <= k < |run.steps| ==> StrictAt(run, k, sid)
  }

  ghost predicate NoneStale(run: Run, sid: Sid, p: Prefix)
    requires |run.states| == |run.steps| + 1
  {
    forall k :: 0 <= k < |run.steps| ==> !StaleAt(run, k, sid, p)
  }

  lemma Extend(run: Run, step: Step, s: State) returns (longer: Run)
    requires IsRun(run) && Enabled(Last(run), step) && s == Next(Last(run), step)
    ensures IsRun(longer) && Last(longer) == s
    ensures AllStrict(run, 1) && Strict(step, 1) ==> AllStrict(longer, 1)
    ensures NoneStale(run, 1, P) && !Stale(Last(run), step, 1, P) ==> NoneStale(longer, 1, P)
  {
    longer := Run(run.states + [s], run.steps + [step]);
    forall k | 0 <= k < |longer.steps|
      ensures Stepped(longer, k)
      ensures AllStrict(run, 1) && Strict(step, 1) ==> StrictAt(longer, k, 1)
      ensures NoneStale(run, 1, P) && !Stale(Last(run), step, 1, P) ==> !StaleAt(longer, k, 1, P)
    {
      if k < |run.steps| {
        assert Stepped(run, k);
        assert AllStrict(run, 1) ==> StrictAt(run, k, 1);
        assert NoneStale(run, 1, P) ==> !StaleAt(run, k, 1, P);
      }
    }
  }

  const P: Prefix := "p"

  /** Session 1 wants P during a tick that missed it, and its ensure has read the clock. */
  function Asking(clock: int, start: int, older: map<nat, Call>): State {
    State(clock, map[1 := Session({P}, start, true, {})], map[], map[], {},
      older[1 := Call(clock, Some(1), {P}, false)], Snapped(start, {}))
  }

  /** Its ensure has found the prefix untracked, opened it and stamped it. */
  function Answered(clock: int, start: int, older: map<nat, Call>): State {
    State(clock, map[1 := Session({P}, start, false, {P})], map[P := clock], map[P := Some(1)], {P}, older, Snapped(start, {}))
  }

  lemma ReachAsking(start: nat, elapsed: nat, older: map<nat, Call>, run: Run) returns (longer: Run)
    requires IsRun(run) && 1 !in older && NoneStale(run, 1, P)
    requires Last(run) == State(start, map[], map[], map[], {}, older, Snapped(start, {}))
    requires forall d :: d in older ==> older[d].owner.None?
    ensures IsRun(longer) && Last(longer) == Asking(start + elapsed, start, older)
    ensures NoneStale(longer, 1, P) && (AllStrict(run, 1) && elapsed > 0 ==> AllStrict(longer, 1))
  {
    var listening := State(start, map[1 := Session({}, start, false, {})], map[], map[], {}, older, Snapped(start, {}));
    longer := Extend(run, Open(1), listening);
    var updated := listening.(sessions := map[1 := Session({P}, start, true, {})]);
    var none: set<Prefix> := {};
    assert none * {P} == none;
    longer := Extend(longer, Update(1, {P}), updated);
    longer := Extend(longer, Ensure(1, Some(1), {P}, elapsed), Asking(start + elapsed, start, older));
  }

  function Resolving(clock: int, start: int, older: map<nat, Call>): State {
    Asking(clock, start, older).(calls := older[1 := Call(clock, Some(1), {P}, true)])
  }

  lemma FindsUntracked(clock: int, start: int, older: map<nat, Call>)
    requires 1 !in older
    ensures Next(Asking(clock, start, older), First(1)) == Resolving(clock, start, older)
  {
    var none: set<Prefix> := {};
    var s := Asking(clock, start, older);
    assert {P} * none == none && {P} - none == {P} && none + none == none;
    assert Note(s.sessions, Some(1), none, false) == s.sessions;
    assert Stamp(s.stamps, none, clock) == s.stamps && Stamp(s.writers, none, Some(1)) == s.writers;
  }

  lemma OpensIt(clock: int, start: int, older: map<nat, Call>)
    requires 1 !in older
    ensures Next(Resolving(clock, start, older), Second(1, {P})) == Answered(clock, start, older)
  {
    var none: set<Prefix> := {};
    var s := Resolving(clock, start, older);
    assert none + {P} == {P};
    assert Note(s.sessions, Some(1), {P}, true) == map[1 := Session({P}, start, false, {P})];
    assert Stamp(s.stamps, {P}, clock) == map[P := clock] && Stamp(s.writers, {P}, Some(1)) == map[P := Some(1)];
    assert s.calls - {1} == older;
  }

  lemma ReachAnswered(clock: int, start: int, older: map<nat, Call>, run: Run) returns (longer: Run)
    requires IsRun(run) && NoneStale(run, 1, P) && Last(run) == Asking(clock, start, older) && 1 !in older
    ensures IsRun(longer) && Last(longer) == Answered(clock, start, older)
    ensures NoneStale(longer, 1, P) && (AllStrict(run, 1) ==> AllStrict(longer, 1))
  {
    FindsUntracked(clock, start, older);
    longer := Extend(run, First(1), Resolving(clock, start, older));
    OpensIt(clock, start, older);
    longer := Extend(longer, Second(1, {P}), Answered(clock, start, older));
  }

  lemma Dropping(s: State)
    requires s.tick.Snapped? && P in s.tracked && P !in s.tick.demand && P in s.stamps && s.stamps[P] <= s.tick.start
    ensures Enabled(s, Delete) && P !in Next(s, Delete).tracked
  {
  }

  /** A drop needs a tie or a stale stamp. */
  lemma DropNeedsOne(run: Run)
    requires IsRun(run) && Last(run).tick.Snapped? && P !in Last(run).tick.demand
    requires HasStamped(Last(run), 1, P) && P in Last(run).stamps && Last(run).stamps[P] <= Last(run).tick.start
    ensures !AllStrict(run, 1) || !NoneStale(run, 1, P)
  {
    if AllStrict(run, 1) && NoneStale(run, 1, P) { RunProtected(run, |run.steps|, 1, P); }
  }

  lemma ReachTie(older: map<nat, Call>) returns (run: Run)
    requires older == map[]
    ensures IsRun(run) && NoneStale(run, 1, P) && Last(run) == Answered(1, 1, older)
  {
    var s0 := State(0, map[], map[], map[], {}, older, Asleep);
    run := Run([s0], []);
    run := Extend(run, Begin(1), State(1, map[], map[], map[], {}, older, Begun(1)));
    assert Demanded(map[]) + {} == {};
    run := Extend(run, Snapshot({}), State(1, map[], map[], map[], {}, older, Snapped(1, {})));
    run := ReachAsking(1, 0, older, run);
    run := ReachAnswered(1, 1, older, run);
  }

  /** A clock that does not move between a tick's start and the session's ensure lets the
      tick drop what that ensure has just opened and stamped, without a stale stamp
      anywhere: the comparison is strict. */
  lemma TieDrops() returns (run: Run)
    ensures IsRun(run) && NoneStale(run, 1, P) && !AllStrict(run, 1)
    ensures Enabled(Last(run), Delete) && HasStamped(Last(run), 1, P) && Wants(Last(run), 1, P)
    ensures P in Last(run).tracked && P !in Next(Last(run), Delete).tracked
  {
    run := ReachTie(map[]);
    Dropping(Last(run));
    DropNeedsOne(run);
  }

  lemma ReachStale(older: map<nat, Call>) returns (run: Run)
    requires older == map[0 := Call(1, None, {P}, false)]
    ensures IsRun(run) && AllStrict(run, 1) && Last(run) == Answered(3, 2, older)
  {
    var s0 := State(0, map[], map[], map[], {}, map[], Asleep);
    run := Run([s0], []);
    run := Extend(run, Ensure(0, None, {P}, 1), State(1, map[], map[], map[], {}, older, Asleep));
    run := Extend(run, Begin(1), State(2, map[], map[], map[], {}, older, Begun(2)));
    assert Demanded(map[]) + {} == {};
    run := Extend(run, Snapshot({}), State(2, map[], map[], map[], {}, older, Snapped(2, {})));
    run := ReachAsking(2, 1, older, run);
    run := ReachAnswered(3, 2, older, run);
  }

  /** An ensure that read the clock before the tick began and writes its stamp last takes
      the session's protection away, on a clock that moves at every reading: the write is
      unconditional. */
  lemma StaleStampDrops() returns (run: Run)
    ensures IsRun(run) && AllStrict(run, 1) && !NoneStale(run, 1, P)
    ensures Enabled(Last(run), Delete) && HasStamped(Last(run), 1, P) && Wants(Last(run), 1, P)
    ensures P in Last(run).tracked && P !in Next(Last(run), Delete).tracked
  {
    var older := map[0 := Call(1, None, {P}, false)];
    run := ReachStale(older);
    StaleOverwrites(Last(run), older);
    run := Extend(run, First(0), Next(Last(run), First(0)));
    Dropping(Last(run));
    DropNeedsOne(run);
  }

  lemma StaleOverwrites(s: State, older: map<nat, Call>)
    requires older == map[0 := Call(1, None, {P}, false)] && s == Answered(3, 2, older)
    ensures
      var t := Next(s, First(0));
      && t.tick == s.tick && t.tracked == s.tracked && t.sessions == s.sessions
      && P in t.stamps && t.stamps[P] == 1
  {
  }
}
