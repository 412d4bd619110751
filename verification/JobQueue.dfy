/** The job queue over Redis (internal/infra/jobqueue/redis.go): a stream with its pending
    list, a retry set keyed by the serialised job, and a dead-letter stream. Every Redis
    write is its own step, workers interleave freely, and any of them may crash between
    two writes. */
module JobQueue {
  import opened Wrappers

  type JobId = nat

  /** The envelope; payload, type and createdAt never change and are left to the id. */
  datatype Job = Job(id: JobId, attempt: nat, lastError: string)

  // `epoch` counts how often the job had been reinjected when the copy was written. It is
  // bookkeeping for the argument: neither Redis nor the code holds it.
  datatype Entry = Entry(job: Job, epoch: nat, acked: bool)

  /** What Redis holds, which jobs were ever handled, and the reinjections so far of every
      job ever enqueued. */
  datatype Shelf = Shelf(
    stream: map<nat, Entry>,
    retry: map<Job, nat>,
    dead: map<nat, Entry>,
    handled: set<JobId>,
    epochs: map<JobId, nat>,
    next: nat)

  /** A goroutine between two Redis writes. */
  datatype Worker =
    | Consuming(entry: nat, job: Job, epoch: nat)   // read or claimed, handler running
    | Acking(entry: nat, job: Job, epoch: nat)      // outcome written, XACK due
    | Deleting(entry: nat)                          // XDEL due
    | Moving(member: Job)                           // found due by the mover, XADD due
    | Moved(member: Job, epoch: nat)                // added to the stream as of this epoch, ZREM due
    | Reinjecting(entry: nat, job: Job)             // read from the dead letters, XADD due
    | Reinjected(entry: nat, job: Job, epoch: nat)  // XDEL due

  datatype Queue = Queue(shelf: Shelf, workers: map<nat, Worker>)

  const EMPTY: Queue := Queue(Shelf(map[], map[], map[], {}, map[], 0), map[])

  // ---- Redis writes ----

  function Push(s: Shelf, job: Job, epoch: nat): Shelf {
    s.(stream := s.stream[s.next := Entry(job, epoch, false)], next := s.next + 1)
  }

  /** A job enters the stream as new, for the first time or again from the dead letters. */
  function Enter(s: Shelf, id: JobId, epoch: nat): Shelf {
    Push(s.(epochs := s.epochs[id := epoch]), Job(id, 0, ""), epoch)
  }

  /** ZADD: the member is the serialised job, so writing it again is one member still. */
  function Schedule(s: Shelf, job: Job, epoch: nat): Shelf {
    s.(retry := s.retry[job := if job in s.retry && epoch < s.retry[job] then s.retry[job] else epoch])
  }

  function Bury(s: Shelf, job: Job, epoch: nat): Shelf {
    s.(dead := s.dead[s.next := Entry(job, epoch, false)], next := s.next + 1)
  }

  function AckEntry(s: Shelf, entry: nat): Shelf {
    if entry in s.stream then s.(stream := s.stream[entry := s.stream[entry].(acked := true)]) else s
  }

  /** process after a failed handler: one more attempt, to the retry set or, with the
      attempts exhausted, to the dead letters. */
  function Failed(max: int, s: Shelf, job: Job, error: string, epoch: nat): Shelf {
    var again := Job(job.id, job.attempt + 1, error);
    if max <= again.attempt then Bury(s, again, epoch) else Schedule(s, again, epoch)
  }

  // ---- Steps ----

  /** What a worker does next; the handler's outcome comes from outside. */
  datatype Move = Succeed | Fail(error: string) | Ack | Delete | Restream | Unschedule | Reinject | Forget | Crash

  datatype Step =
    | Enqueue(id: JobId)
    | Claim(w: nat, entry: nat)
    | FindDue(w: nat, member: Job)
    | FindDead(w: nat, entry: nat)
    | Act(w: nat, move: Move)

  predicate Can(s: Shelf, me: Worker, move: Move) {
    match move
    case Succeed => me.Consuming?
    case Fail(_) => me.Consuming?
    case Ack => me.Acking?
    case Delete => me.Deleting?
    case Restream => me.Moving? && me.member.id in s.epochs
    case Unschedule => me.Moved?
    case Reinject => me.Reinjecting? && me.job.id in s.epochs
    case Forget => me.Reinjected?
    case Crash => true
  }

  predicate Enabled(q: Queue, step: Step) {
    match step
    case Enqueue(id) => id !in q.shelf.epochs
    case Claim(w, entry) => w !in q.workers && entry in q.shelf.stream && !q.shelf.stream[entry].acked
    case FindDue(w, member) => w !in q.workers && member in q.shelf.retry
    case FindDead(w, entry) => w !in q.workers && entry in q.shelf.dead
    case Act(w, move) => w in q.workers && Can(q.shelf, q.workers[w], move)
  }

  function Write(max: int, s: Shelf, me: Worker, move: Move): Shelf
    requires Can(s, me, move)
  {
    match move
    case Succeed => s.(handled := s.handled + {me.job.id})
    case Fail(error) => Failed(max, s, me.job, error, me.epoch)
    case Ack => AckEntry(s, me.entry)
    case Delete => s.(stream := s.stream - {me.entry})
    case Restream => Push(s, me.member, s.epochs[me.member.id])
    case Unschedule => s.(retry := s.retry - {me.member})
    case Reinject => Enter(s, me.job.id, s.epochs[me.job.id] + 1)
    case Forget => s.(dead := s.dead - {me.entry})
    case Crash => s
  }

  /** Where the worker is after its write; nowhere when it is done or gone. */
  function Then(s: Shelf, me: Worker, move: Move): Option<Worker>
    requires Can(s, me, move)
  {
    match move
    case Succeed => Some(Acking(me.entry, me.job, me.epoch))
    case Fail(_) => Some(Acking(me.entry, me.job, me.epoch))
    case Ack => Some(Deleting(me.entry))
    case Restream => Some(Moved(me.member, s.epochs[me.member.id]))
    case Reinject => Some(Reinjected(me.entry, me.job, s.epochs[me.job.id]))
    case _ => None
  }

  function Next(max: int, q: Queue, step: Step): Queue
    requires Enabled(q, step)
  {
    match step
    case Enqueue(id) => q.(shelf := Enter(q.shelf, id, 0))
    case Claim(w, entry) =>
      var e := q.shelf.stream[entry];
      q.(workers := q.workers[w := Consuming(entry, e.job, e.epoch)])
    case FindDue(w, member) => q.(workers := q.workers[w := Moving(member)])
    case FindDead(w, entry) => q.(workers := q.workers[w := Reinjecting(entry, q.shelf.dead[entry].job)])
    case Act(w, move) =>
      var me := q.workers[w];
      var then' := Then(q.shelf, me, move);
      Queue(Write(max, q.shelf, me, move), if then'.None? then q.workers - {w} else q.workers[w := then'.value])
  }

  /** The member a mover is about to remove is no longer the one it moved: a copy of the job
      that was reinjected since has failed into it. */
  predicate Rewritten(s: Shelf, me: Worker) {
    me.Moved? && me.member in s.retry && me.epoch < s.retry[me.member]
  }

  /** The step does not remove a rewritten member of this job. */
  predicate Careful(q: Queue, step: Step, id: JobId)
    requires Enabled(q, step)
  {
    step.Act? && step.move.Unschedule? && q.workers[step.w].member.id == id ==> !Rewritten(q.shelf, q.workers[step.w])
  }

  // ---- Where a job is ----

  predicate InStream(s: Shelf, id: JobId, epoch: nat, level: nat, k: nat) {
    k in s.stream && !s.stream[k].acked && s.stream[k].job.id == id && s.stream[k].epoch == epoch && 2 * s.stream[k].job.attempt + 1 == level
  }

  predicate InRetry(s: Shelf, id: JobId, epoch: nat, level: nat, m: Job) {
    m in s.retry && m.id == id && s.retry[m] == epoch && 2 * m.attempt == level
  }

  predicate InDead(s: Shelf, id: JobId, epoch: nat, level: nat, k: nat) {
    k in s.dead && s.dead[k].job.id == id && s.dead[k].epoch == epoch && 2 * s.dead[k].job.attempt == level
  }

  /** A live copy of the job has come exactly this far: its epoch, then its attempt, the
      stream after the retry set. */
  ghost predicate At(s: Shelf, id: JobId, epoch: nat, level: nat) {
    || (exists k :: InStream(s, id, epoch, level, k))
    || (exists m :: InRetry(s, id, epoch, level, m))
    || (exists k :: InDead(s, id, epoch, level, k))
  }

  predicate Further(epoch: nat, level: nat, e: nat, l: nat) {
    epoch < e || (epoch == e && level < l)
  }

  /** The job was handled, or a live copy has come further than this. */
  ghost predicate Beyond(s: Shelf, id: JobId, epoch: nat, level: nat) {
    id in s.handled || exists e, l :: At(s, id, e, l) && Further(epoch, level, e, l)
  }

  /** The job was handled, or is in the stream or pending, in the retry set, or dead. */
  ghost predicate Kept(s: Shelf, id: JobId) {
    id in s.handled || exists e, l :: At(s, id, e, l)
  }

  /** No place any copy of the job had reached is given up. */
  ghost predicate NotLost(s: Shelf, t: Shelf, id: JobId) {
    && (id in s.handled ==> id in t.handled)
    && forall e, l :: At(s, id, e, l) ==> At(t, id, e, l) || Beyond(t, id, e, l)
  }

  lemma BeyondStays(s: Shelf, t: Shelf, id: JobId, epoch: nat, level: nat)
    requires NotLost(s, t, id) && Beyond(s, id, epoch, level)
    ensures Beyond(t, id, epoch, level)
  {
    if id !in s.handled {
      var e, l :| At(s, id, e, l) && Further(epoch, level, e, l);
      if id !in t.handled && !At(t, id, e, l) {
        var e', l' :| At(t, id, e', l') && Further(e, l, e', l');
        assert Further(epoch, level, e', l');
      }
    }
  }

  lemma KeptStays(s: Shelf, t: Shelf, id: JobId)
    requires NotLost(s, t, id) && Kept(s, id)
    ensures Kept(t, id)
  {
    if id !in s.handled {
      var e, l :| At(s, id, e, l);
      assert At(t, id, e, l) || Beyond(t, id, e, l);
    }
  }

  // ---- What is stored ----

  /** The attempts a job gets; there is always at least one. */
  function Limit(max: int): nat {
    if max < 1 then 1 else max
  }

  /** A copy's epoch and attempt counter are in range. */
  predicate Fits(s: Shelf, max: int, job: Job, epoch: nat) {
    job.id in s.epochs && epoch <= s.epochs[job.id] && job.attempt < Limit(max)
  }

  ghost predicate StreamOk(s: Shelf, max: int) {
    forall k :: k in s.stream ==> k < s.next && Fits(s, max, s.stream[k].job, s.stream[k].epoch)
  }

  ghost predicate RetryOk(s: Shelf, max: int) {
    forall m :: m in s.retry ==> Fits(s, max, m, s.retry[m])
  }

  ghost predicate DeadOk(s: Shelf, max: int) {
    forall k :: k in s.dead ==>
      && k < s.next
      && s.dead[k].job.attempt == Limit(max)
      && s.dead[k].job.id in s.epochs && s.dead[k].epoch <= s.epochs[s.dead[k].job.id]
  }

  ghost predicate Stored(s: Shelf, max: int) {
    StreamOk(s, max) && RetryOk(s, max) && DeadOk(s, max)
  }

  /** Entries are never rewritten, only added, acknowledged or removed. */
  ghost predicate Later(s: Shelf, t: Shelf) {
    && s.next <= t.next
    && (forall id :: id in s.epochs ==> id in t.epochs && s.epochs[id] <= t.epochs[id])
    && (forall k :: k in t.stream && k < s.next ==>
          k in s.stream && t.stream[k].job == s.stream[k].job && t.stream[k].epoch == s.stream[k].epoch && (s.stream[k].acked ==> t.stream[k].acked))
    && (forall k :: k in t.dead && k < s.next ==> k in s.dead && t.dead[k] == s.dead[k])
  }

  ghost predicate Sound(max: int, s: Shelf, t: Shelf) {
    Stored(t, max) && Later(s, t)
  }

  // ---- What workers remember ----

  predicate SameEntry(s: Shelf, entry: nat, job: Job, epoch: nat) {
    entry < s.next && (entry in s.stream ==> s.stream[entry].job == job && s.stream[entry].epoch == epoch)
  }

  /** What a worker remembers still fits what is stored. */
  predicate Remembers(s: Shelf, max: int, w: Worker) {
    match w
    case Consuming(entry, job, epoch) => Fits(s, max, job, epoch) && SameEntry(s, entry, job, epoch)
    case Acking(entry, job, epoch) => Fits(s, max, job, epoch) && SameEntry(s, entry, job, epoch)
    case Deleting(entry) => entry < s.next && (entry in s.stream ==> s.stream[entry].acked)
    case Moving(member) => Fits(s, max, member, 0)
    case Moved(member, epoch) => Fits(s, max, member, epoch)
    case Reinjecting(entry, job) =>
      entry < s.next && job.id in s.epochs && (entry in s.dead ==> s.dead[entry].job == job && s.dead[entry].epoch <= s.epochs[job.id])
    case Reinjected(entry, job, epoch) =>
      entry < s.next && (entry in s.dead ==> s.dead[entry].job == job && s.dead[entry].epoch <= epoch)
  }

  predicate RemembersNext(s: Shelf, max: int, w: Option<Worker>) {
    w.Some? ==> Remembers(s, max, w.value)
  }

  lemma PushSound(max: int, s: Shelf, job: Job, epoch: nat)
    requires Stored(s, max) && Fits(s, max, job, epoch)
    ensures Sound(max, s, Push(s, job, epoch))
  {
  }

  lemma EnterSound(max: int, s: Shelf, id: JobId, epoch: nat)
    requires Stored(s, max) && (id in s.epochs ==> s.epochs[id] <= epoch)
    ensures Sound(max, s, Enter(s, id, epoch))
  {
  }

  lemma FailSound(max: int, s: Shelf, job: Job, error: string, epoch: nat)
    requires Stored(s, max) && Fits(s, max, job, epoch)
    ensures Sound(max, s, Failed(max, s, job, error, epoch))
  {
    var again := Job(job.id, job.attempt + 1, error);
    if max <= again.attempt {
      assert again.attempt == Limit(max);
    }
  }

  lemma AckSound(max: int, s: Shelf, entry: nat)
    requires Stored(s, max)
    ensures Sound(max, s, AckEntry(s, entry))
    ensures entry in AckEntry(s, entry).stream ==> AckEntry(s, entry).stream[entry].acked
  {
  }

  lemma RemoveSound(max: int, s: Shelf, t: Shelf)
    requires Stored(s, max) && t.epochs == s.epochs && t.next == s.next
    requires forall k :: k in t.stream ==> k in s.stream && t.stream[k] == s.stream[k]
    requires forall m :: m in t.retry ==> m in s.retry && t.retry[m] == s.retry[m]
    requires forall k :: k in t.dead ==> k in s.dead && t.dead[k] == s.dead[k]
    ensures Sound(max, s, t)
  {
  }

  lemma ConsumerSound(max: int, s: Shelf, me: Worker, move: Move)
    requires Stored(s, max) && Remembers(s, max, me) && Can(s, me, move)
    requires me.Consuming? || me.Acking? || me.Deleting?
    ensures Sound(max, s, Write(max, s, me, move))
  {
    match move
    case Succeed => RemoveSound(max, s, s.(handled := s.handled + {me.job.id}));
    case Fail(error) => FailSound(max, s, me.job, error, me.epoch);
    case Ack => AckSound(max, s, me.entry);
    case Delete => RemoveSound(max, s, s.(stream := s.stream - {me.entry}));
    case Crash => RemoveSound(max, s, s);
  }

  lemma MoverSound(max: int, s: Shelf, me: Worker, move: Move)
    requires Stored(s, max) && Remembers(s, max, me) && Can(s, me, move)
    requires me.Moving? || me.Moved?
    ensures Sound(max, s, Write(max, s, me, move))
  {
    match move
    case Restream => PushSound(max, s, me.member, s.epochs[me.member.id]);
    case Unschedule => RemoveSound(max, s, s.(retry := s.retry - {me.member}));
    case Crash => RemoveSound(max, s, s);
  }

  lemma ReinjectSound(max: int, s: Shelf, me: Worker)
    requires Stored(s, max) && Can(s, me, Reinject)
    ensures Sound(max, s, Write(max, s, me, Reinject))
  {
  }

  lemma InjectorSound(max: int, s: Shelf, me: Worker, move: Move)
    requires Stored(s, max) && Remembers(s, max, me) && Can(s, me, move)
    requires me.Reinjecting? || me.Reinjected?
    ensures Sound(max, s, Write(max, s, me, move))
  {
    match move
    case Reinject => ReinjectSound(max, s, me);
    case Forget => RemoveSound(max, s, s.(dead := s.dead - {me.entry}));
    case Crash => RemoveSound(max, s, s);
  }

  /** Every write of every worker leaves a sound store. No care is needed for that. */
  lemma WriteSound(max: int, s: Shelf, me: Worker, move: Move)
    requires Stored(s, max) && Remembers(s, max, me) && Can(s, me, move)
    ensures Sound(max, s, Write(max, s, me, move))
  {
    if me.Moving? || me.Moved? {
      MoverSound(max, s, me, move);
    } else if me.Reinjecting? || me.Reinjected? {
      InjectorSound(max, s, me, move);
    } else {
      ConsumerSound(max, s, me, move);
    }
  }

  lemma StillRemembers(max: int, s: Shelf, t: Shelf, w: Worker)
    requires Remembers(s, max, w) && Later(s, t)
    ensures Remembers(t, max, w)
  {
  }

  lemma ThenRemembers(max: int, s: Shelf, me: Worker, move: Move)
    requires Stored(s, max) && Remembers(s, max, me) && Can(s, me, move) && Later(s, Write(max, s, me, move))
    ensures RemembersNext(Write(max, s, me, move), max, Then(s, me, move))
  {
    StillRemembers(max, s, Write(max, s, me, move), me);
    if move.Ack? { AckSound(max, s, me.entry); }
  }

  ghost predicate Steady(max: int, q: Queue) {
    && Stored(q.shelf, max)
    && (forall w :: w in q.workers ==> Remembers(q.shelf, max, q.workers[w]))
  }

  lemma ActSteady(max: int, q: Queue, w: nat, move: Move)
    requires Steady(max, q) && Enabled(q, Act(w, move))
    ensures Steady(max, Next(max, q, Act(w, move)))
  {
    var me := q.workers[w];
    var r := Next(max, q, Act(w, move));
    WriteSound(max, q.shelf, me, move);
    ThenRemembers(max, q.shelf, me, move);
    forall v | v in r.workers ensures Remembers(r.shelf, max, r.workers[v]) {
      if v != w { StillRemembers(max, q.shelf, r.shelf, q.workers[v]); }
    }
  }

  lemma NextSteady(max: int, q: Queue, step: Step)
    requires Steady(max, q) && Enabled(q, step)
    ensures Steady(max, Next(max, q, step))
  {
    match step
    case Enqueue(id) =>
      EnterSound(max, q.shelf, id, 0);
      forall v | v in q.workers ensures Remembers(Enter(q.shelf, id, 0), max, q.workers[v]) {
        StillRemembers(max, q.shelf, Enter(q.shelf, id, 0), q.workers[v]);
      }
    case Act(w, move) => ActSteady(max, q, w, move);
    case Claim(_, _) =>
    case FindDue(_, _) =>
    case FindDead(_, _) =>
  }

  // ---- What becomes of one job ----

  /** Every live copy is still there as it was. */
  lemma NothingRemoved(s: Shelf, t: Shelf, id: JobId)
    requires id in s.handled ==> id in t.handled
    requires forall k :: k in s.stream && !s.stream[k].acked ==> k in t.stream && t.stream[k] == s.stream[k]
    requires forall m :: m in s.retry ==> m in t.retry && t.retry[m] == s.retry[m]
    requires forall k :: k in s.dead ==> k in t.dead && t.dead[k] == s.dead[k]
    ensures NotLost(s, t, id)
  {
    forall e, l | At(s, id, e, l) ensures At(t, id, e, l) {
      if k :| InStream(s, id, e, l, k) { assert InStream(t, id, e, l, k); }
      if m :| InRetry(s, id, e, l, m) { assert InRetry(t, id, e, l, m); }
      if k :| InDead(s, id, e, l, k) { assert InDead(t, id, e, l, k); }
    }
  }

  lemma PushKeeps(s: Shelf, job: Job, epoch: nat, id: JobId)
    requires s.next !in s.stream
    ensures NotLost(s, Push(s, job, epoch), id) && At(Push(s, job, epoch), job.id, epoch, 2 * job.attempt + 1)
  {
    assert InStream(Push(s, job, epoch), job.id, epoch, 2 * job.attempt + 1, s.next);
    NothingRemoved(s, Push(s, job, epoch), id);
  }

  lemma EnterKeeps(s: Shelf, entered: JobId, epoch: nat, id: JobId)
    requires s.next !in s.stream
    ensures NotLost(s, Enter(s, entered, epoch), id) && At(Enter(s, entered, epoch), entered, epoch, 1)
  {
    assert InStream(Enter(s, entered, epoch), entered, epoch, 1, s.next);
    NothingRemoved(s, Enter(s, entered, epoch), id);
  }

  lemma BuryKeeps(s: Shelf, job: Job, epoch: nat, id: JobId)
    requires s.next !in s.dead
    ensures NotLost(s, Bury(s, job, epoch), id) && At(Bury(s, job, epoch), job.id, epoch, 2 * job.attempt)
  {
    assert InDead(Bury(s, job, epoch), job.id, epoch, 2 * job.attempt, s.next);
    NothingRemoved(s, Bury(s, job, epoch), id);
  }

  lemma ScheduleKeeps(s: Shelf, job: Job, epoch: nat, id: JobId)
    ensures NotLost(s, Schedule(s, job, epoch), id)
    ensures exists e :: epoch <= e && At(Schedule(s, job, epoch), job.id, e, 2 * job.attempt)
  {
    var t := Schedule(s, job, epoch);
    assert InRetry(t, job.id, t.retry[job], 2 * job.attempt, job);
    assert At(t, job.id, t.retry[job], 2 * job.attempt);
    forall e, l | At(s, id, e, l) ensures At(t, id, e, l) || Beyond(t, id, e, l) {
      if k :| InStream(s, id, e, l, k) { assert InStream(t, id, e, l, k); }
      if m :| InRetry(s, id, e, l, m) {
        if m != job { assert InRetry(t, id, e, l, m); }
      }
      if k :| InDead(s, id, e, l, k) { assert InDead(t, id, e, l, k); }
    }
  }

  /** Removing one copy loses nothing once the job has come further than that copy. */
  lemma RemovalKeeps(s: Shelf, t: Shelf, id: JobId, epoch: nat, level: nat)
    requires t.handled == s.handled && Beyond(s, id, epoch, level)
    requires forall e, l :: At(s, id, e, l) ==> At(t, id, e, l) || (e == epoch && l == level)
    ensures NotLost(s, t, id)
  {
    if id !in s.handled {
      var e, l :| At(s, id, e, l) && Further(epoch, level, e, l);
      assert At(t, id, e, l);
    }
  }

  lemma BeyondLess(s: Shelf, id: JobId, epoch: nat, level: nat, earlier: nat, lower: nat)
    requires Beyond(s, id, epoch, level) && earlier <= epoch && lower <= level
    ensures Beyond(s, id, earlier, lower)
  {
    if id !in s.handled {
      var e, l :| At(s, id, e, l) && Further(epoch, level, e, l);
      assert Further(earlier, lower, e, l);
    }
  }

  /** Before a worker removes a copy of this job, the job has come further than the copy. */
  ghost predicate Covered(s: Shelf, id: JobId, w: Worker) {
    match w
    case Acking(_, job, epoch) => job.id == id ==> Beyond(s, id, epoch, 2 * job.attempt + 1)
    case Moved(member, epoch) => member.id == id ==> Beyond(s, id, epoch, 2 * member.attempt)
    case Reinjected(_, job, epoch) => job.id == id ==> Beyond(s, id, epoch, 2 * job.attempt)
    case _ => true
  }

  ghost predicate CoveredNext(s: Shelf, id: JobId, w: Option<Worker>) {
    w.Some? ==> Covered(s, id, w.value)
  }

  /** The write gives up no place of the job, and the worker's next removal is covered. */
  ghost predicate Keeps(max: int, s: Shelf, me: Worker, move: Move, id: JobId)
    requires Can(s, me, move)
  {
    var t := Write(max, s, me, move);
    NotLost(s, t, id) && CoveredNext(t, id, Then(s, me, move))
  }

  lemma SucceedKeeps(max: int, s: Shelf, me: Worker, id: JobId)
    requires me.Consuming?
    ensures Keeps(max, s, me, Succeed, id)
  {
    NothingRemoved(s, Write(max, s, me, Succeed), id);
  }

  lemma FailKeeps(max: int, s: Shelf, me: Worker, error: string, id: JobId)
    requires me.Consuming? && s.next !in s.dead
    ensures Keeps(max, s, me, Fail(error), id)
  {
    var again := Job(me.job.id, me.job.attempt + 1, error);
    var t := Write(max, s, me, Fail(error));
    if max <= again.attempt {
      BuryKeeps(s, again, me.epoch, id);
      assert Further(me.epoch, 2 * me.job.attempt + 1, me.epoch, 2 * again.attempt);
    } else {
      ScheduleKeeps(s, again, me.epoch, id);
      var e :| me.epoch <= e && At(t, again.id, e, 2 * again.attempt);
      assert Further(me.epoch, 2 * me.job.attempt + 1, e, 2 * again.attempt);
    }
  }

  lemma AckKeeps(s: Shelf, entry: nat, job: Job, epoch: nat, id: JobId)
    requires SameEntry(s, entry, job, epoch) && (job.id == id ==> Beyond(s, id, epoch, 2 * job.attempt + 1))
    ensures NotLost(s, AckEntry(s, entry), id)
  {
    if entry in s.stream {
      var t := s.(stream := s.stream[entry := s.stream[entry].(acked := true)]);
      forall e, l | At(s, id, e, l) ensures At(t, id, e, l) || (job.id == id && e == epoch && l == 2 * job.attempt + 1) {
        if k :| InStream(s, id, e, l, k) {
          if k != entry { assert InStream(t, id, e, l, k); }
        }
        if m :| InRetry(s, id, e, l, m) { assert InRetry(t, id, e, l, m); }
        if k :| InDead(s, id, e, l, k) { assert InDead(t, id, e, l, k); }
      }
      if job.id == id { RemovalKeeps(s, t, id, epoch, 2 * job.attempt + 1); }
    }
  }

  lemma DeleteKeeps(s: Shelf, entry: nat, id: JobId)
    requires entry in s.stream ==> s.stream[entry].acked
    ensures NotLost(s, s.(stream := s.stream - {entry}), id)
  {
    NothingRemoved(s, s.(stream := s.stream - {entry}), id);
  }

  lemma RestreamKeeps(max: int, s: Shelf, me: Worker, id: JobId)
    requires me.Moving? && Can(s, me, Restream) && s.next !in s.stream
    ensures Keeps(max, s, me, Restream, id)
  {
    var epoch := s.epochs[me.member.id];
    PushKeeps(s, me.member, epoch, id);
    assert Further(epoch, 2 * me.member.attempt, epoch, 2 * me.member.attempt + 1);
  }

  lemma UnscheduleKeeps(s: Shelf, member: Job, epoch: nat, id: JobId)
    requires member.id == id ==> Beyond(s, id, epoch, 2 * member.attempt) && (member in s.retry ==> s.retry[member] <= epoch)
    ensures NotLost(s, s.(retry := s.retry - {member}), id)
  {
    var was := if member in s.retry then s.retry[member] else 0;
    OneLess(s, member, id);
    if member.id == id {
      BeyondLess(s, id, epoch, 2 * member.attempt, was, 2 * member.attempt);
      RemovalKeeps(s, s.(retry := s.retry - {member}), id, was, 2 * member.attempt);
    }
  }

  /** Without a member the job is everywhere it was, but perhaps there. */
  lemma OneLess(s: Shelf, member: Job, id: JobId)
    ensures
      var t := s.(retry := s.retry - {member});
      forall e, l :: At(s, id, e, l) ==>
        At(t, id, e, l) || (member.id == id && member in s.retry && e == s.retry[member] && l == 2 * member.attempt)
  {
    var t := s.(retry := s.retry - {member});
    forall e, l | At(s, id, e, l)
      ensures At(t, id, e, l) || (member.id == id && member in s.retry && e == s.retry[member] && l == 2 * member.attempt)
    {
      if k :| InStream(s, id, e, l, k) { assert InStream(t, id, e, l, k); }
      if m :| InRetry(s, id, e, l, m) {
        if m != member { assert InRetry(t, id, e, l, m); }
      }
      if k :| InDead(s, id, e, l, k) { assert InDead(t, id, e, l, k); }
    }
  }

  /** Another member stands for the same attempt of the same copy. */
  ghost predicate Twin(s: Shelf, member: Job)
    requires member in s.retry
  {
    exists m :: m != member && InRetry(s, member.id, s.retry[member], 2 * member.attempt, m)
  }

  /** What is held after the removal was held before, and by a twin if it was held there. */
  lemma HeldBefore(max: int, s: Shelf, member: Job, e: nat, l: nat)
    requires Stored(s, max) && At(s.(retry := s.retry - {member}), member.id, e, l)
    ensures At(s, member.id, e, l)
    ensures member in s.retry && e == s.retry[member] && l == 2 * member.attempt ==> Twin(s, member)
  {
    var t := s.(retry := s.retry - {member});
    if k :| InStream(t, member.id, e, l, k) { assert InStream(s, member.id, e, l, k); }
    if m :| InRetry(t, member.id, e, l, m) { assert InRetry(s, member.id, e, l, m); }
    if k :| InDead(t, member.id, e, l, k) { assert InDead(s, member.id, e, l, k); }
  }

  lemma GivesUp(max: int, s: Shelf, member: Job)
    requires Stored(s, max) && member in s.retry
    requires !Beyond(s, member.id, s.retry[member], 2 * member.attempt) && !Twin(s, member)
    ensures !NotLost(s, s.(retry := s.retry - {member}), member.id)
  {
    var t := s.(retry := s.retry - {member});
    var e, l := s.retry[member], 2 * member.attempt;
    assert InRetry(s, member.id, e, l, member);
    if At(t, member.id, e, l) { HeldBefore(max, s, member, e, l); }
    if Beyond(t, member.id, e, l) && member.id !in t.handled {
      var e', l' :| At(t, member.id, e', l') && Further(e, l, e', l');
      HeldBefore(max, s, member, e', l');
    }
  }

  /** Removing a member from the retry set gives up a place of its job exactly when the member
      is there, no copy of the job has come further, it was not handled, and no other member
      stands for the same attempt. */
  lemma UnscheduleGivesUpExactly(max: int, s: Shelf, member: Job)
    requires Stored(s, max)
    ensures !NotLost(s, s.(retry := s.retry - {member}), member.id) <==>
      member in s.retry && !Beyond(s, member.id, s.retry[member], 2 * member.attempt) && !Twin(s, member)
  {
    var t := s.(retry := s.retry - {member});
    OneLess(s, member, member.id);
    if member in s.retry {
      var e, l := s.retry[member], 2 * member.attempt;
      if Beyond(s, member.id, e, l) {
        RemovalKeeps(s, t, member.id, e, l);
      } else if Twin(s, member) {
        var m :| m != member && InRetry(s, member.id, e, l, m);
        assert InRetry(t, member.id, e, l, m);
      } else {
        GivesUp(max, s, member);
      }
    }
  }

  lemma ReinjectKeeps(max: int, s: Shelf, me: Worker, id: JobId)
    requires me.Reinjecting? && Can(s, me, Reinject) && s.next !in s.stream
    ensures Keeps(max, s, me, Reinject, id)
  {
    var epoch := s.epochs[me.job.id];
    EnterKeeps(s, me.job.id, epoch + 1, id);
    assert Further(epoch, 2 * me.job.attempt, epoch + 1, 1);
  }

  lemma ForgetKeeps(s: Shelf, entry: nat, job: Job, epoch: nat, id: JobId)
    requires entry in s.dead ==> s.dead[entry].job == job && s.dead[entry].epoch <= epoch
    requires job.id == id ==> Beyond(s, id, epoch, 2 * job.attempt)
    ensures NotLost(s, s.(dead := s.dead - {entry}), id)
  {
    var t := s.(dead := s.dead - {entry});
    var was := if entry in s.dead then s.dead[entry].epoch else 0;
    forall e, l | At(s, id, e, l) ensures At(t, id, e, l) || (job.id == id && e == was && l == 2 * job.attempt) {
      if k :| InStream(s, id, e, l, k) { assert InStream(t, id, e, l, k); }
      if m :| InRetry(s, id, e, l, m) { assert InRetry(t, id, e, l, m); }
      if k :| InDead(s, id, e, l, k) {
        if k != entry { assert InDead(t, id, e, l, k); }
      }
    }
    if job.id == id {
      BeyondLess(s, id, epoch, 2 * job.attempt, was, 2 * job.attempt);
      RemovalKeeps(s, t, id, was, 2 * job.attempt);
    }
  }

  /** Every write of a worker whose removals of the job are covered, but the removal of a
      rewritten member, gives up no place of the job and leaves the worker's next removal
      covered. */
  lemma WriteKeeps(max: int, s: Shelf, me: Worker, move: Move, id: JobId)
    requires Stored(s, max) && Remembers(s, max, me) && Covered(s, id, me) && Can(s, me, move)
    requires move.Unschedule? && me.member.id == id ==> !Rewritten(s, me)
    ensures Keeps(max, s, me, move, id)
  {
    match move
    case Succeed => SucceedKeeps(max, s, me, id);
    case Fail(error) => FailKeeps(max, s, me, error, id);
    case Ack => AckKeeps(s, me.entry, me.job, me.epoch, id);
    case Delete => DeleteKeeps(s, me.entry, id);
    case Restream => RestreamKeeps(max, s, me, id);
    case Unschedule => UnscheduleKeeps(s, me.member, me.epoch, id);
    case Reinject => ReinjectKeeps(max, s, me, id);
    case Forget => ForgetKeeps(s, me.entry, me.job, me.epoch, id);
    case Crash => NothingRemoved(s, s, id);
  }

  /** A worker that stands by while another writes. */
  lemma StaysCovered(s: Shelf, t: Shelf, id: JobId, w: Worker)
    requires Covered(s, id, w) && NotLost(s, t, id)
    ensures Covered(t, id, w)
  {
    match w
    case Acking(_, job, epoch) => if job.id == id { BeyondStays(s, t, id, epoch, 2 * job.attempt + 1); }
    case Moved(member, epoch) => if member.id == id { BeyondStays(s, t, id, epoch, 2 * member.attempt); }
    case Reinjected(_, job, epoch) => if job.id == id { BeyondStays(s, t, id, epoch, 2 * job.attempt); }
    case _ =>
  }

  ghost predicate Safe(q: Queue, id: JobId) {
    && (forall w :: w in q.workers ==> Covered(q.shelf, id, q.workers[w]))
    && (id in q.shelf.epochs ==> Kept(q.shelf, id))
  }

  lemma ActSafe(max: int, q: Queue, w: nat, move: Move, id: JobId)
    requires Steady(max, q) && Safe(q, id) && Enabled(q, Act(w, move)) && Careful(q, Act(w, move), id)
    ensures Safe(Next(max, q, Act(w, move)), id)
  {
    var me := q.workers[w];
    var r := Next(max, q, Act(w, move));
    WriteKeeps(max, q.shelf, me, move, id);
    forall v | v in r.workers ensures Covered(r.shelf, id, r.workers[v]) {
      if v != w { StaysCovered(q.shelf, r.shelf, id, q.workers[v]); }
    }
    if id in q.shelf.epochs { KeptStays(q.shelf, r.shelf, id); }
  }

  lemma EnqueueSafe(max: int, q: Queue, entered: JobId, id: JobId)
    requires Steady(max, q) && Safe(q, id) && Enabled(q, Enqueue(entered))
    ensures Safe(Next(max, q, Enqueue(entered)), id)
  {
    var r := Next(max, q, Enqueue(entered));
    EnterKeeps(q.shelf, entered, 0, id);
    forall v | v in r.workers ensures Covered(r.shelf, id, r.workers[v]) {
      StaysCovered(q.shelf, r.shelf, id, q.workers[v]);
    }
    if id in q.shelf.epochs { KeptStays(q.shelf, r.shelf, id); }
  }

  lemma NextSafe(max: int, q: Queue, step: Step, id: JobId)
    requires Steady(max, q) && Safe(q, id) && Enabled(q, step) && Careful(q, step, id)
    ensures Safe(Next(max, q, step), id)
  {
    match step
    case Enqueue(entered) => EnqueueSafe(max, q, entered, id);
    case Act(w, move) => ActSafe(max, q, w, move, id);
    case Claim(_, _) =>
    case FindDue(_, _) =>
    case FindDead(_, _) =>
  }

  // ---- Uninterrupted passes ----

  datatype Outcome = Handled | Errored(error: string)

  function MoveOf(outcome: Outcome): Move {
    match outcome
    case Handled => Succeed
    case Errored(error) => Fail(error)
  }

  /** One entry processed without a crash: the outcome, then XACK, then XDEL. */
  function Processed(max: int, s: Shelf, k: nat, outcome: Outcome): Shelf
    requires k in s.stream
  {
    var me := Consuming(k, s.stream[k].job, s.stream[k].epoch);
    var t := AckEntry(Write(max, s, me, MoveOf(outcome)), k);
    t.(stream := t.stream - {k})
  }

  /** Uninterrupted processing takes the entry off the stream and loses no job. */
  lemma ProcessedKeeps(max: int, s: Shelf, k: nat, outcome: Outcome, id: JobId)
    requires Stored(s, max) && k in s.stream
    ensures NotLost(s, Processed(max, s, k, outcome), id) && Stored(Processed(max, s, k, outcome), max)
    ensures k !in Processed(max, s, k, outcome).stream
  {
    var me := Consuming(k, s.stream[k].job, s.stream[k].epoch);
    var move := MoveOf(outcome);
    var t := Write(max, s, me, move);
    WriteSound(max, s, me, move);
    ThenRemembers(max, s, me, move);
    WriteKeeps(max, s, me, move, id);
    var u := AckEntry(t, k);
    AckSound(max, t, k);
    AckKeeps(t, k, me.job, me.epoch, id);
    DeleteKeeps(u, k, id);
    LostNothing(s, t, u, id);
    LostNothing(s, u, u.(stream := u.stream - {k}), id);
  }

  lemma LostNothing(r: Shelf, s: Shelf, t: Shelf, id: JobId)
    requires NotLost(r, s, id) && NotLost(s, t, id)
    ensures NotLost(r, t, id)
  {
    forall e, l | At(r, id, e, l) ensures At(t, id, e, l) || Beyond(t, id, e, l) {
      if !At(s, id, e, l) { BeyondStays(s, t, id, e, l); }
    }
  }

  /** The due members moved to the stream one by one. */
  function MovedAll(s: Shelf, due: seq<Job>): Shelf {
    if due == [] then s
    else
      var t := MovedAll(s, due[..|due| - 1]);
      var m := due[|due| - 1];
      var u := Push(t, m, if m.id in t.epochs then t.epochs[m.id] else 0);
      u.(retry := u.retry - {m})
  }

  /** Moving the due retries empties the retry set of them and appends each to the stream
      in order, with its attempt counter as it was. */
  lemma {:induction false} MovedAllExactly(s: Shelf, due: seq<Job>)
    ensures
      var t := MovedAll(s, due);
      && t.next == s.next + |due| && t.dead == s.dead && t.handled == s.handled && t.epochs == s.epochs
      && (forall m :: m in t.retry <==> m in s.retry && m !in due)
      && (forall k :: s.next <= k < s.next + |due| ==> k in t.stream && t.stream[k].job == due[k - s.next] && !t.stream[k].acked)
  {
    if due != [] {
      var n := |due| - 1;
      MovedAllExactly(s, due[..n]);
      assert due == due[..n] + [due[n]];
    }
  }

  class Redis {
    var shelf: Shelf

    constructor ()
      ensures shelf == EMPTY.shelf
    {
      shelf := EMPTY.shelf;
    }

    method Enqueue(id: JobId)
      modifies this
      ensures shelf == Enter(old(shelf), id, 0)
    {
      shelf := Enter(shelf, id, 0);
    }

    /** process, uninterrupted. */
    method Process(max: int, k: nat, outcome: Outcome)
      requires Stored(shelf, max) && k in shelf.stream
      modifies this
      ensures shelf == Processed(max, old(shelf), k, outcome)
      ensures Stored(shelf, max) && k !in shelf.stream
      ensures forall id :: NotLost(old(shelf), shelf, id)
    {
      forall id ensures NotLost(shelf, Processed(max, shelf, k, outcome), id) {
        ProcessedKeeps(max, shelf, k, outcome, id);
      }
      ProcessedKeeps(max, shelf, k, outcome, 0);
      var entry := shelf.stream[k];
      match outcome {
        case Handled =>
          shelf := shelf.(handled := shelf.handled + {entry.job.id});
        case Errored(error) =>
          var attempt := entry.job.attempt + 1;
          var job := Job(entry.job.id, attempt, error);
          if max <= attempt {
            shelf := Bury(shelf, job, entry.epoch);
          } else {
            shelf := Schedule(shelf, job, entry.epoch);
          }
      }
      shelf := AckEntry(shelf, k);
      shelf := shelf.(stream := shelf.stream - {k});
    }

    /** moveDueRetries, uninterrupted. */
    method MoveDueRetries(due: seq<Job>)
      modifies this
      ensures shelf == MovedAll(old(shelf), due)
    {
      var i := 0;
      while i < |due|
        invariant 0 <= i <= |due|
        invariant shelf == MovedAll(old(shelf), due[..i])
      {
        assert due[..i + 1][..i] == due[..i];
        var m := due[i];
        shelf := Push(shelf, m, if m.id in shelf.epochs then shelf.epochs[m.id] else 0);
        shelf := shelf.(retry := shelf.retry - {m});
        i := i + 1;
      }
      assert due[..i] == due;
    }
  }

  // ---- Runs ----

  datatype Run = Run(max: int, queues: seq<Queue>, steps: seq<Step>)

  ghost predicate IsRun(run: Run) {
    && |run.queues| == |run.steps| + 1
    && run.queues[0] == EMPTY
    && (forall k :: 0 <= k < |run.steps| ==> Stepped(run, k))
  }

  predicate Stepped(run: Run, k: nat)
    requires k < |run.steps| && |run.queues| == |run.steps| + 1
  {
    Enabled(run.queues[k], run.steps[k]) && run.queues[k + 1] == Next(run.max, run.queues[k], run.steps[k])
  }

  lemma {:induction false} RunSteady(run: Run, n: nat)
    requires IsRun(run) && n <= |run.steps|
    ensures Steady(run.max, run.queues[n])
  {
    if n > 0 {
      RunSteady(run, n - 1);
      assert Stepped(run, n - 1);
      NextSteady(run.max, run.queues[n - 1], run.steps[n - 1]);
    }
  }

  /** Step k does not remove a rewritten member of the job. */
  predicate CarefulAt(run: Run, k: nat, id: JobId)
    requires k < |run.steps| && |run.queues| == |run.steps| + 1
  {
    Enabled(run.queues[k], run.steps[k]) ==> Careful(run.queues[k], run.steps[k], id)
  }

  lemma {:induction false} RunSafe(run: Run, n: nat, id: JobId)
    requires IsRun(run) && n <= |run.steps| && forall k :: 0 <= k < n ==> CarefulAt(run, k, id)
    ensures Safe(run.queues[n], id)
  {
    if n > 0 {
      RunSafe(run, n - 1, id);
      RunSteady(run, n - 1);
      assert Stepped(run, n - 1) && CarefulAt(run, n - 1, id);
      NextSafe(run.max, run.queues[n - 1], run.steps[n - 1], id);
    }
  }

  /** In every interleaving and with every crash, at every moment: a job that was enqueued
      was handled, or is in the stream or pending list, in the retry set, or dead, unless
      a mover had removed a member of this very job that was rewritten since its add. */
  lemma JobsConserved(run: Run, n: nat, id: JobId)
    requires IsRun(run) && n <= |run.steps| && id in run.queues[n].shelf.epochs
    requires forall k :: 0 <= k < n ==> CarefulAt(run, k, id)
    ensures Kept(run.queues[n].shelf, id)
  {
    RunSafe(run, n, id);
  }

  // ---- An operator's rule ----

  /** No mover stands between adding this job to the stream and removing it from the
      retry set. */
  predicate NoneMidMove(q: Queue, id: JobId) {
    forall w :: w in q.workers && q.workers[w].Moved? ==> q.workers[w].member.id != id
  }

  /** Step k does not reinject the job while a mover is in the middle of moving it. */
  predicate Patient(run: Run, k: nat, id: JobId)
    requires k < |run.steps| && |run.queues| == |run.steps| + 1
  {
    var q, step := run.queues[k], run.steps[k];
    Enabled(q, step) && step.Act? && step.move.Reinject? && q.workers[step.w].job.id == id ==> NoneMidMove(q, id)
  }

  /** Movers of the job added it as of its latest reinjection. */
  ghost predicate Current(q: Queue, id: JobId) {
    forall w :: w in q.workers && q.workers[w].Moved? && q.workers[w].member.id == id ==>
      id in q.shelf.epochs && q.workers[w].epoch == q.shelf.epochs[id]
  }

  lemma NextCurrent(max: int, q: Queue, step: Step, id: JobId)
    requires Steady(max, q) && Current(q, id) && Enabled(q, step)
    requires step.Act? && step.move.Reinject? && q.workers[step.w].job.id == id ==> NoneMidMove(q, id)
    ensures Current(Next(max, q, step), id)
  {
    match step
    case Act(w, move) => if move.Fail? { assert Failed(max, q.shelf, q.workers[w].job, move.error, q.workers[w].epoch).epochs == q.shelf.epochs; }
    case _ =>
  }

  lemma {:induction false} RunCurrent(run: Run, n: nat, id: JobId)
    requires IsRun(run) && n <= |run.steps| && forall k :: 0 <= k < n ==> Patient(run, k, id)
    ensures Current(run.queues[n], id)
  {
    if n > 0 {
      RunCurrent(run, n - 1, id);
      RunSteady(run, n - 1);
      assert Stepped(run, n - 1) && Patient(run, n - 1, id);
      NextCurrent(run.max, run.queues[n - 1], run.steps[n - 1], id);
    }
  }

  /** It is enough not to reinject a job while a mover is in the middle of moving it. */
  lemma PatientReinjectionLosesNothing(run: Run, n: nat, id: JobId)
    requires IsRun(run) && n <= |run.steps| && id in run.queues[n].shelf.epochs
    requires forall k :: 0 <= k < n ==> Patient(run, k, id)
    ensures Kept(run.queues[n].shelf, id)
  {
    forall k | 0 <= k < n ensures CarefulAt(run, k, id) {
      RunCurrent(run, k, id);
      RunSteady(run, k);
    }
    JobsConserved(run, n, id);
  }

  /** In every run whatsoever, copies that will be tried again have attempts left; dead
      ones used exactly the maximum, or one where the maximum is below one. */
  lemma AttemptsExact(run: Run, n: nat)
    requires IsRun(run) && n <= |run.steps|
    ensures
      var s := run.queues[n].shelf;
      && (forall k :: k in s.stream ==> s.stream[k].job.attempt < Limit(run.max))
      && (forall m :: m in s.retry ==> m.attempt < Limit(run.max))
      && (forall k :: k in s.dead ==> s.dead[k].job.attempt == Limit(run.max))
  {
    RunSteady(run, n);
  }

  // ---- Why reinjection must be patient ----

  const ONE: Job := Job(0, 0, "")
  const TWO: Job := Job(0, 1, "x")
  const DEAD: Job := Job(0, 2, "x")

  function Mid(stream: map<nat, Entry>, retry: map<Job, nat>, dead: map<nat, Entry>, epoch: nat, workers: map<nat, Worker>, next: nat): Queue {
    Queue(Shelf(stream, retry, dead, {}, map[0 := epoch], next), workers)
  }

  function Last(run: Run): Queue
    requires |run.queues| == |run.steps| + 1
  {
    run.queues[|run.steps|]
  }

  lemma Extend(run: Run, step: Step, q: Queue) returns (longer: Run)
    requires IsRun(run) && Enabled(Last(run), step) && q == Next(run.max, Last(run), step)
    ensures IsRun(longer) && Last(longer) == q && longer.max == run.max
  {
    longer := Run(run.max, run.queues + [q], run.steps + [step]);
    forall k | 0 <= k < |longer.steps| ensures Stepped(longer, k) {
      if k < |run.steps| {
        assert Stepped(run, k);
      }
    }
  }

  const Q1: Queue := Mid(map[0 := Entry(ONE, 0, false)], map[], map[], 0, map[], 1)
  const Q2: Queue := Mid(map[0 := Entry(ONE, 0, false)], map[], map[], 0, map[0 := Consuming(0, ONE, 0)], 1)
  const Q3: Queue := Mid(map[0 := Entry(ONE, 0, false)], map[TWO := 0], map[], 0, map[0 := Acking(0, ONE, 0)], 1)
  const Q4: Queue := Mid(map[0 := Entry(ONE, 0, true)], map[TWO := 0], map[], 0, map[0 := Deleting(0)], 1)
  const Q5: Queue := Mid(map[0 := Entry(ONE, 0, true)], map[TWO := 0], map[], 0, map[0 := Deleting(0), 1 := Moving(TWO)], 1)
  const Q6: Queue := Mid(map[0 := Entry(ONE, 0, true), 1 := Entry(TWO, 0, false)], map[TWO := 0], map[], 0, map[0 := Deleting(0), 1 := Moved(TWO, 0)], 2)
  const Q7: Queue := Mid(map[0 := Entry(ONE, 0, true), 1 := Entry(TWO, 0, false)], map[TWO := 0], map[], 0, map[0 := Deleting(0), 1 := Moved(TWO, 0), 2 := Consuming(1, TWO, 0)], 2)
  const Q8: Queue := Mid(map[0 := Entry(ONE, 0, true), 1 := Entry(TWO, 0, false)], map[TWO := 0], map[2 := Entry(DEAD, 0, false)], 0, map[0 := Deleting(0), 1 := Moved(TWO, 0), 2 := Acking(1, TWO, 0)], 3)
  const Q9: Queue := Mid(map[0 := Entry(ONE, 0, true), 1 := Entry(TWO, 0, true)], map[TWO := 0], map[2 := Entry(DEAD, 0, false)], 0, map[0 := Deleting(0), 1 := Moved(TWO, 0), 2 := Deleting(1)], 3)
  const Q10: Queue := Mid(map[0 := Entry(ONE, 0, true), 1 := Entry(TWO, 0, true)], map[TWO := 0], map[2 := Entry(DEAD, 0, false)], 0, map[0 := Deleting(0), 1 := Moved(TWO, 0), 2 := Deleting(1), 3 := Reinjecting(2, DEAD)], 3)
  const Q11: Queue := Mid(map[0 := Entry(ONE, 0, true), 1 := Entry(TWO, 0, true), 3 := Entry(ONE, 1, false)], map[TWO := 0], map[2 := Entry(DEAD, 0, false)], 1, map[0 := Deleting(0), 1 := Moved(TWO, 0), 2 := Deleting(1), 3 := Reinjected(2, DEAD, 0)], 4)
  const Q12: Queue := Mid(map[0 := Entry(ONE, 0, true), 1 := Entry(TWO, 0, true), 3 := Entry(ONE, 1, false)], map[TWO := 0], map[], 1, map[0 := Deleting(0), 1 := Moved(TWO, 0), 2 := Deleting(1)], 4)
  const Q13: Queue := Mid(map[0 := Entry(ONE, 0, true), 1 := Entry(TWO, 0, true), 3 := Entry(ONE, 1, false)], map[TWO := 0], map[], 1, map[0 := Deleting(0), 1 := Moved(TWO, 0), 2 := Deleting(1), 4 := Consuming(3, ONE, 1)], 4)
  const Q14: Queue := Mid(map[0 := Entry(ONE, 0, true), 1 := Entry(TWO, 0, true), 3 := Entry(ONE, 1, false)], map[TWO := 1], map[], 1, map[0 := Deleting(0), 1 := Moved(TWO, 0), 2 := Deleting(1), 4 := Acking(3, ONE, 1)], 4)
  const Q15: Queue := Mid(map[0 := Entry(ONE, 0, true), 1 := Entry(TWO, 0, true), 3 := Entry(ONE, 1, true)], map[TWO := 1], map[], 1, map[0 := Deleting(0), 1 := Moved(TWO, 0), 2 := Deleting(1), 4 := Deleting(3)], 4)
  const Q16: Queue := Mid(map[0 := Entry(ONE, 0, true), 1 := Entry(TWO, 0, true), 3 := Entry(ONE, 1, true)], map[], map[], 1, map[0 := Deleting(0), 2 := Deleting(1), 4 := Deleting(3)], 4)

  lemma Leg1(run: Run) returns (longer: Run)
    requires IsRun(run) && run.max == 2 && Last(run) == EMPTY
    ensures IsRun(longer) && longer.max == 2 && Last(longer) == Q2
  {
    longer := Extend(run, Enqueue(0), Q1);
    longer := Extend(longer, Claim(0, 0), Q2);
  }

  lemma Leg2(run: Run) returns (longer: Run)
    requires IsRun(run) && run.max == 2 && Last(run) == Q2
    ensures IsRun(longer) && longer.max == 2 && Last(longer) == Q4
  {
    longer := Extend(run, Act(0, Fail("x")), Q3);
    longer := Extend(longer, Act(0, Ack), Q4);
  }

  lemma Leg3(run: Run) returns (longer: Run)
    requires IsRun(run) && run.max == 2 && Last(run) == Q4
    ensures IsRun(longer) && longer.max == 2 && Last(longer) == Q6
  {
    longer := Extend(run, FindDue(1, TWO), Q5);
    longer := Extend(longer, Act(1, Restream), Q6);
  }

  lemma Leg4(run: Run) returns (longer: Run)
    requires IsRun(run) && run.max == 2 && Last(run) == Q6
    ensures IsRun(longer) && longer.max == 2 && Last(longer) == Q8
  {
    longer := Extend(run, Claim(2, 1), Q7);
    longer := Extend(longer, Act(2, Fail("x")), Q8);
  }

  lemma Leg5(run: Run) returns (longer: Run)
    requires IsRun(run) && run.max == 2 && Last(run) == Q8
    ensures IsRun(longer) && longer.max == 2 && Last(longer) == Q10
  {
    longer := Extend(run, Act(2, Ack), Q9);
    longer := Extend(longer, FindDead(3, 2), Q10);
  }

  lemma Leg6(run: Run) returns (longer: Run)
    requires IsRun(run) && run.max == 2 && Last(run) == Q10
    ensures IsRun(longer) && longer.max == 2 && Last(longer) == Q12
  {
    longer := Extend(run, Act(3, Reinject), Q11);
    longer := Extend(longer, Act(3, Forget), Q12);
  }

  lemma Leg7(run: Run) returns (longer: Run)
    requires IsRun(run) && run.max == 2 && Last(run) == Q12
    ensures IsRun(longer) && longer.max == 2 && Last(longer) == Q14
  {
    longer := Extend(run, Claim(4, 3), Q13);
    longer := Extend(longer, Act(4, Fail("x")), Q14);
  }

  lemma Leg8(run: Run) returns (longer: Run)
    requires IsRun(run) && run.max == 2 && Last(run) == Q14
    ensures IsRun(longer) && longer.max == 2 && Last(longer) == Q16
  {
    longer := Extend(run, Act(4, Ack), Q15);
    longer := Extend(longer, Act(1, Unschedule), Q16);
  }

  /** Without patience a job can be lost. With two attempts at most, a mover adds the job's
      second attempt to the stream and stops; the job dies there, is reinjected, fails once
      more into the very member the mover has yet to remove, and the mover removes it: no
      copy of job 0 is left anywhere. */
  lemma CarelessReinjectionLoses() returns (run: Run)
    ensures IsRun(run) && exists k :: 0 <= k < |run.steps| && !CarefulAt(run, k, 0)
    ensures exists k :: 0 <= k < |run.steps| && !Patient(run, k, 0)
    ensures 0 in Last(run).shelf.epochs && !Kept(Last(run).shelf, 0)
  {
    run := Run(2, [EMPTY], []);
    run := Leg1(run);
    run := Leg2(run);
    run := Leg3(run);
    run := Leg4(run);
    run := Leg5(run);
    run := Leg6(run);
    run := Leg7(run);
    run := Leg8(run);
    if forall k :: 0 <= k < |run.steps| ==> CarefulAt(run, k, 0) { JobsConserved(run, |run.steps|, 0); }
    if forall k :: 0 <= k < |run.steps| ==> Patient(run, k, 0) { PatientReinjectionLosesNothing(run, |run.steps|, 0); }
  }

  // ---- Backoff ----

  /** The delay without a ceiling: three times longer each attempt. */
  function Tripled(base: int, n: nat): int {
    if n == 0 then base else 3 * Tripled(base, n - 1)
  }

  lemma {:induction false} TripledGrows(base: int, m: nat, n: nat)
    requires m <= n
    ensures 0 <= base ==> 0 <= Tripled(base, m) <= Tripled(base, n)
    ensures base < 0 ==> Tripled(base, n) <= Tripled(base, m) < 0
    decreases n
  {
    if m < n {
      TripledGrows(base, m, n - 1);
    } else if n > 0 {
      TripledGrows(base, n - 1, n - 1);
    }
  }

  /** backoffDuration: base times 3^(attempt-1), capped; an attempt below one counts as
      the first, and a cap at or below the base is the answer at once. */
  method BackoffDuration(attempt: int, base: int, ceiling: int) returns (d: int)
    ensures
      var full := Tripled(base, if attempt < 1 then 0 else attempt - 1);
      d == if base < ceiling && full < ceiling then full else ceiling
  {
    var n := if attempt < 1 then 1 else attempt;
    d := base;
    var i := 1;
    while i < n
      invariant 1 <= i <= n && d == Tripled(base, i - 1)
      invariant i > 1 ==> base < ceiling
    {
      TripledGrows(base, i - 1, n - 1);
      TripledGrows(base, 0, i - 1);
      if ceiling <= d {
        return ceiling;
      }
      d := d * 3;
      i := i + 1;
    }
    if ceiling < d {
      return ceiling;
    }
  }
}
