/** Concurrent commits to one key (internal/infra/repository/postgres/record.go): each
    transaction first locks and checks the key's row, then upserts it conditionally. The
    lock only holds a row that exists, so commits to a fresh key overlap freely. */
module AcceptIfNewer {
  import opened Wrappers

  type Id = string

  /** One submitted record document; `clean` unless it asks to be retained. */
  datatype Submission = Submission(id: Id, at: int, clean: bool)

  // The key's row: a placeholder is created for a child's path and holds no record.
  datatype Row = Absent | Placeholder | Held(doc: Submission)

  datatype Phase = Fresh | Passed(seen: Row) | Won | Lost

  datatype State = State(row: Row, phases: seq<Phase>, lock: Option<nat>, flagged: set<Id>)

  datatype Step = Check(k: nat) | Upsert(k: nat) | ChildArrives

  /** Only a strictly newer document takes a held key. */
  predicate Beats(s: Submission, row: Row) {
    row.Held? ==> row.doc.at < s.at
  }

  predicate Enabled(subs: seq<Submission>, s: State, step: Step)
    requires |s.phases| == |subs|
  {
    match step
    case Check(k) => k < |subs| && s.phases[k].Fresh? && s.lock.None?
    case Upsert(k) => k < |subs| && s.phases[k].Passed? && (s.lock.None? || s.lock == Some(k))
    case ChildArrives => true
  }

  function Next(subs: seq<Submission>, s: State, step: Step): (t: State)
    requires |s.phases| == |subs| && Enabled(subs, s, step)
    ensures |t.phases| == |subs|
  {
    match step
    case Check(k) =>
      if !Beats(subs[k], s.row) then s.(phases := s.phases[k := Lost])
      else s.(phases := s.phases[k := Passed(s.row)], lock := if s.row.Absent? then None else Some(k))
    case Upsert(k) =>
      var released := if s.lock == Some(k) then s.(lock := None) else s;
      if !Beats(subs[k], s.row) then released.(phases := s.phases[k := Lost])
      else
        var seen := s.phases[k].seen;
        released.(row := Held(subs[k]), phases := s.phases[k := Won],
          flagged := if seen.Held? && seen.doc.clean && seen.doc.id != subs[k].id then s.flagged + {seen.doc.id} else s.flagged)
    case ChildArrives => if s.row.Absent? then s.(row := Placeholder) else s
  }

  // ---- Runs ----

  datatype Run = Run(subs: seq<Submission>, states: seq<State>, steps: seq<Step>)

  ghost predicate IsRun(run: Run) {
    && |run.states| == |run.steps| + 1
    && Initial(run.subs, run.states[0])
    && (forall k :: 0 <= k < |run.steps| ==> Stepped(run, k))
  }

  ghost predicate Initial(subs: seq<Submission>, s: State) {
    |s.phases| == |subs| && s.lock.None? && forall k :: 0 <= k < |subs| ==> s.phases[k].Fresh?
  }

  predicate Stepped(run: Run, k: nat)
    requires k < |run.steps| && |run.states| == |run.steps| + 1
  {
    var s := run.states[k];
    |s.phases| == |run.subs| && Enabled(run.subs, s, run.steps[k]) && run.states[k + 1] == Next(run.subs, s, run.steps[k])
  }

  predicate Finished(s: State) {
    forall k :: 0 <= k < |s.phases| ==> s.phases[k].Won? || s.phases[k].Lost?
  }

  // ---- What every step keeps ----

  /** The row's createdAt moved forward or the row did not change. */
  predicate Forward(r: Row, t: Row) {
    match r
    case Absent => true
    case Placeholder => !t.Absent?
    case Held(d) => t == r || (t.Held? && d.at < t.doc.at)
  }

  /** Every loser met a row at least as new; every winner is or was the row; the holder
      came from the start or won; and the lock pins the row its owner saw. */
  ghost predicate Inv(subs: seq<Submission>, first: Row, s: State) {
    && |s.phases| == |subs|
    && Forward(first, s.row)
    && (forall k :: 0 <= k < |subs| && Decided(s.phases[k]) ==> AtLeast(s.row, subs[k].at))
    && (s.row.Held? && s.row != first ==> exists k :: 0 <= k < |subs| && s.phases[k].Won? && subs[k] == s.row.doc)
    && (s.lock.Some? ==> !s.row.Absent? && s.lock.value < |subs| && s.phases[s.lock.value] == Passed(s.row))
    && (forall k :: 0 <= k < |subs| && s.phases[k].Passed? && s.lock != Some(k) ==> s.phases[k].seen.Absent?)
  }

  predicate Decided(p: Phase) {
    p.Won? || p.Lost?
  }

  predicate AtLeast(row: Row, at: int) {
    row.Held? && at <= row.doc.at
  }

  lemma NextForward(subs: seq<Submission>, s: State, step: Step)
    requires |s.phases| == |subs| && Enabled(subs, s, step)
    ensures Forward(s.row, Next(subs, s, step).row)
  {
  }

  lemma NextInv(subs: seq<Submission>, first: Row, s: State, step: Step)
    requires Inv(subs, first, s) && Enabled(subs, s, step)
    ensures Inv(subs, first, Next(subs, s, step))
  {
    var t := Next(subs, s, step);
    if step.Upsert? && Beats(subs[step.k], s.row) {
      assert t.phases[step.k].Won? && subs[step.k] == t.row.doc;
    } else if t.row.Held? && t.row != first {
      var k :| 0 <= k < |subs| && s.phases[k].Won? && subs[k] == s.row.doc;
      assert t.phases[k].Won?;
    }
  }

  lemma {:induction false} RunInv(run: Run, n: nat)
    requires IsRun(run) && n <= |run.steps|
    ensures Inv(run.subs, run.states[0].row, run.states[n])
  {
    if n > 0 {
      RunInv(run, n - 1);
      assert Stepped(run, n - 1);
      NextInv(run.subs, run.states[0].row, run.states[n - 1], run.steps[n - 1]);
    }
  }

  /** In every interleaving the key's createdAt only strictly increases: whenever the
      holder changes between any two moments, the later one is strictly newer. */
  lemma {:induction false} OnlyForward(run: Run, i: nat, j: nat)
    requires IsRun(run) && i <= j <= |run.steps|
    ensures Forward(run.states[i].row, run.states[j].row)
  {
    if i < j {
      OnlyForward(run, i, j - 1);
      assert Stepped(run, j - 1);
      NextForward(run.subs, run.states[j - 1], run.steps[j - 1]);
    }
  }

  // ---- Convergence ----

  /** Nothing submitted, and nothing there at the start, is newer than this. */
  ghost predicate IsNewest(subs: seq<Submission>, first: Row, at: int) {
    && (forall k :: 0 <= k < |subs| ==> subs[k].at <= at)
    && (first.Held? ==> first.doc.at <= at)
  }

  /** Once every transaction has finished, the key ends at the maximum submitted, held by
      a document that was submitted with it or was there from the start. */
  lemma EndsAtMaximum(run: Run)
    requires IsRun(run) && Finished(run.states[|run.steps|]) && |run.subs| > 0
    ensures
      var last, first := run.states[|run.steps|].row, run.states[0].row;
      && last.Held?
      && IsNewest(run.subs, first, last.doc.at)
      && (last == first || last.doc in run.subs)
  {
    RunInv(run, |run.steps|);
    var s := run.states[|run.steps|];
    assert Decided(s.phases[0]);
  }

  predicate DistinctTimes(subs: seq<Submission>) {
    forall j, k :: 0 <= j < k < |subs| ==> subs[j].at != subs[k].at
  }

  /** With distinct timestamps every interleaving of the same submissions, in any order of
      arrival, leaves the same holder. */
  lemma SameHolder(a: Run, b: Run)
    requires IsRun(a) && IsRun(b) && |a.subs| > 0
    requires a.states[0].row == b.states[0].row && multiset(a.subs) == multiset(b.subs)
    requires DistinctTimes(a.subs) && forall s :: s in a.subs && a.states[0].row.Held? ==> s.at != a.states[0].row.doc.at
    requires Finished(a.states[|a.steps|]) && Finished(b.states[|b.steps|])
    ensures a.states[|a.steps|].row == b.states[|b.steps|].row
  {
    SameSize(a.subs, b.subs);
    EndsAtMaximum(a);
    EndsAtMaximum(b);
    var x, y := a.states[|a.steps|].row.doc, b.states[|b.steps|].row.doc;
    Members(a.subs, b.subs);
    assert x.at == y.at by {
      assert x in a.subs ==> x in b.subs;
      assert y in b.subs ==> y in a.subs;
    }
  }

  lemma SameSize(s: seq<Submission>, t: seq<Submission>)
    requires multiset(s) == multiset(t)
    ensures |s| == |t|
  {
    assert |multiset(s)| == |s| && |multiset(t)| == |t|;
  }

  lemma Members(s: seq<Submission>, t: seq<Submission>)
    requires multiset(s) == multiset(t)
    ensures forall x :: x in s <==> x in t
  {
    assert forall x :: x in s <==> x in multiset(s);
    assert forall x :: x in t <==> x in multiset(t);
  }

  // ---- Progress ----

  /** Steps the transactions still have to take. */
  function Left(phases: seq<Phase>): nat {
    if phases == [] then 0
    else (match phases[0] case Fresh => 2 case Passed(_) => 1 case _ => 0) + Left(phases[1..])
  }

  lemma {:induction false} LeftUpdate(phases: seq<Phase>, k: nat, p: Phase)
    requires k < |phases| && Left([p]) < Left([phases[k]])
    ensures Left(phases[k := p]) < Left(phases)
  {
    if k == 0 {
      assert phases[k := p][1..] == phases[1..];
    } else {
      LeftUpdate(phases[1..], k - 1, p);
      assert phases[k := p][1..] == phases[1..][k - 1 := p];
    }
  }

  /** No interleaving is stuck or endless: an unfinished state has a transaction that can
      move, and every move of a transaction leaves less to do. */
  lemma Progress(subs: seq<Submission>, first: Row, s: State) returns (step: Step)
    requires Inv(subs, first, s) && !Finished(s)
    ensures Enabled(subs, s, step) && Left(Next(subs, s, step).phases) < Left(s.phases)
  {
    if s.lock.Some? {
      step := Upsert(s.lock.value);
    } else {
      var k :| 0 <= k < |s.phases| && !Decided(s.phases[k]);
      step := if s.phases[k].Fresh? then Check(k) else Upsert(k);
    }
    var t := Next(subs, s, step);
    LeftUpdate(s.phases, step.k, t.phases[step.k]);
  }

  // ---- What is superseded ----

  /** A winner flags what it displaced exactly when its check had found that row; the lock
      then kept it in place, so the flagged document is the one displaced. */
  lemma DisplacedIsFlagged(subs: seq<Submission>, first: Row, s: State, k: nat)
    requires Inv(subs, first, s) && Enabled(subs, s, Upsert(k)) && Beats(subs[k], s.row)
    requires s.row.Held? && s.row.doc.clean && s.row.doc.id != subs[k].id && s.row.doc.id !in s.flagged
    ensures s.row.doc.id in Next(subs, s, Upsert(k)).flagged <==> !s.phases[k].seen.Absent?
  {
  }

  /** Two overlapping commits to a fresh key: the loser's document is superseded and never
      flagged, which one commit after the other would have done. */
  lemma FreshKeyRaceLeavesUnflagged() returns (run: Run)
    ensures IsRun(run) && |run.steps| == 4 && |run.subs| == 2 && Finished(run.states[4])
    ensures run.states[3].row == Held(run.subs[0]) && run.states[4].row == Held(run.subs[1])
    ensures run.subs[0].clean && run.subs[0].id !in run.states[4].flagged
  {
    var subs := [Submission("a", 1, true), Submission("b", 2, true)];
    var s0 := State(Absent, [Fresh, Fresh], None, {});
    var s1 := Next(subs, s0, Check(0));
    var s2 := Next(subs, s1, Check(1));
    var s3 := Next(subs, s2, Upsert(0));
    var s4 := Next(subs, s3, Upsert(1));
    run := Run(subs, [s0, s1, s2, s3, s4], [Check(0), Check(1), Upsert(0), Upsert(1)]);
    assert Stepped(run, 0) && Stepped(run, 1) && Stepped(run, 2) && Stepped(run, 3);
  }
}
