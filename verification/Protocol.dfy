/** The whole job-lifecycle protocol as a state machine. Each script, transaction or single
    Redis command is one atomic step; enqueuers, workers, reapers, requeuers, periodic
    enqueuers and clients interleave freely, because a run is any sequence of steps. A step
    whose guard does not hold leaves the system as it is. The client scripts that handle many
    jobs in one call are runs of one step per job. */
module Protocol {
  import opened Tally
  import opened JobStore

  /** How far a worker got with the job it fetched. */
  datatype Phase =
    | Fetched
    | KeyRead(payload: Payload)  // GET of the uniqueness key done, DEL still to come
    | Running(job: Job)          // past key deletion; the job actually run

  /** One entry of an in-progress list, with what its worker knows. The entry outlives its
      worker: a worker that lost the reply or whose pool died leaves live == false or a dead
      pool, and only the reaper can end the entry. */
  datatype Exec = Exec(pool: Pool, from: Name, raw: Job, phase: Phase, live: bool)

  /** A client's outstanding DEL of a uniqueness key. own: the deleted job held that key. */
  datatype PendingDel = PendingDel(key: UniqueKey, own: bool)

  /** dead: pools whose workers take no step (crashed, or stopped after wg.Wait and not restarted).
      issued: every identifier handed out, with the uniqueness of the job it went to. */
  datatype Sys = Sys(
    store: Store, execs: seq<Exec>, dead: set<Pool>, issued: map<Id, bool>, pending: seq<PendingDel>)
  {
    predicate Live(e: Exec) {
      e.live && e.pool !in dead
    }

    predicate LiveAt(i: nat) {
      i < |execs| && Live(execs[i])
    }
  }

  const INIT := Sys(EMPTY_STORE, [], {}, map[], [])

  datatype Outcome = Succeeded | Errored(err: ErrText)

  datatype Step =
    // enqueuers
    | Enqueue(job: Job)
    | EnqueueAt(job: Job, at: int)
    | EnqueueUniqueJob(job: Job, runAt: Option<int>, update: bool)
    | EnqueuePeriodic(name: Name, spec: Text, epoch: int, now: int)
    // workers
    | FetchJob(pool: Pool, order: seq<Name>)
    | Start(i: nat)
    | ReadKey(i: nat)
    | DeleteKey(i: nat)
    | Ack(i: nat, outcome: Outcome, opts: Option<JobOptions>, now: int, backoff: int)
    | Forget(i: nat)  // a reply was lost: the worker drops the job, Redis keeps it in progress
    | Crash(pool: Pool)
    | Restart(pool: Pool)  // Start after Stop, which left the pool nothing in progress
    // reapers, and Stop
    | ReenqueueJob(pool: Pool, names: seq<Name>, i: nat)
    | ReapLocks(pool: Pool, names: seq<Name>)
    // requeuers
    | Requeue(zset: ZsetName, job: Job, known: set<Name>, now: int)
    // clients and operators
    | RetryDead(job: Job, known: set<Name>, now: int)
    | Delete(zset: ZsetName, job: Job, last: bool)
    | FinishDelete(d: nat)
    | Expire(key: UniqueKey)
    | Configure(name: Name, paused: bool, cap: nat)

  const NIL_ARGS: Text := 0

  function PeriodicJob(name: Name, spec: Text, epoch: int): Job {
    Job(name, Periodic(name, spec, epoch), epoch, NIL_ARGS, false, None, 0, NoError, 0)
  }

  /** A job as an enqueuer builds it: a fresh identifier, no failures. */
  predicate Fresh(s: Sys, j: Job) {
    j.id.Hex? && j.id !in s.issued && j.fails == 0
  }

  function WithJobs(s: Sys, jobs: Jobs): Sys {
    s.(store := s.store.(jobs := jobs))
  }

  /** Reaping applies to dead pools, and never to a list whose lock entry was already cleaned
      while jobs were left in it (the branch of reap without heartbeat). */
  predicate CanReenqueue(s: Sys, pool: Pool, names: seq<Name>, i: nat) {
    var k := FirstHeld(s.store.jobs, names, pool);
    && pool in s.dead
    && k < |names|
    && pool in s.store.Lock(names[k]).info
    && i < |s.execs|
    && Entry(s.execs[i], names[k], pool, Last(s.store.jobs.List(InProgress(names[k], pool))))
  }

  predicate Entry(e: Exec, n: Name, p: Pool, x: Job) {
    e.from == n && e.pool == p && e.raw == x
  }

  ghost predicate Enabled(s: Sys, step: Step) {
    match step
    case Enqueue(j) => Fresh(s, j) && !j.unique
    case EnqueueAt(j, _) => Fresh(s, j) && !j.unique
    case EnqueueUniqueJob(j, _, _) => Fresh(s, j) && j.unique && j.uniqueKey.Some? && j.Key().name == j.name
    case EnqueuePeriodic(_, _, epoch, now) => now < epoch
    case FetchJob(p, order) => p !in s.dead && FirstEligible(s.store, order) < |order|
    case Start(i) => s.LiveAt(i) && s.execs[i].phase.Fetched? && !s.execs[i].raw.unique
    case ReadKey(i) => s.LiveAt(i) && s.execs[i].phase.Fetched? && s.execs[i].raw.unique
    case DeleteKey(i) => s.LiveAt(i) && s.execs[i].phase.KeyRead?
    case Ack(i, _, _, _, _) => s.LiveAt(i) && s.execs[i].phase.Running?
    case Forget(i) => s.LiveAt(i)
    case Crash(_) => true
    case Restart(p) => forall n :: s.store.jobs.List(InProgress(n, p)) == []
    case ReenqueueJob(p, names, i) => CanReenqueue(s, p, names, i)
    case ReapLocks(p, _) => p in s.dead
    case Requeue(w, j, _, now) => w != Dead && IsFirstDue(s.store.jobs.Zset(w), j, now)
    case RetryDead(j, _, _) => j in s.store.jobs.Zset(Dead)
    case Delete(w, j, _) => j in s.store.jobs.Zset(w)
    case FinishDelete(d) => d < |s.pending|
    case Expire(k) => k in s.store.keys
    case Configure(_, _, _) => true
  }

  // ----- Effects -----

  function Issue(s: Sys, j: Job): Sys {
    s.(issued := s.issued[j.id := j.unique])
  }

  function DoFetch(s: Sys, p: Pool, order: seq<Name>): Sys
    requires FirstEligible(s.store, order) < |order|
  {
    var n := order[FirstEligible(s.store, order)];
    s.(store := Fetch(s.store, order, p),
       execs := s.execs + [Exec(p, n, Last(s.store.jobs.List(Queue(n))), Fetched, true)])
  }

  function SetPhase(s: Sys, i: nat, ph: Phase): Sys
    requires i < |s.execs|
  {
    s.(execs := s.execs[i := s.execs[i].(phase := ph)])
  }

  /** GET of the key. A missing key ends the exchange: the job off the queue runs, no DEL. */
  function DoReadKey(s: Sys, i: nat): Sys
    requires i < |s.execs|
  {
    var raw := s.execs[i].raw;
    SetPhase(s, i, if raw.Key() in s.store.keys then KeyRead(s.store.keys[raw.Key()]) else Running(raw))
  }

  /** DEL of the key; the payload read before it, if any, replaces the job off the queue. */
  function DoDeleteKey(s: Sys, i: nat): Sys
    requires i < |s.execs| && s.execs[i].phase.KeyRead?
  {
    var e := s.execs[i];
    var job := if e.phase.payload.Updated? then e.phase.payload.job else e.raw;
    DelKey(SetPhase(s, i, Running(job)), e.raw.Key())
  }

  function DelKey(s: Sys, k: UniqueKey): Sys {
    s.(store := s.store.(keys := s.store.keys - {k}))
  }

  /** The job as it leaves the worker, and its fate. */
  function Finished(e: Exec, outcome: Outcome, opts: Option<JobOptions>, now: int, backoff: int): (Job, Fate)
    requires e.phase.Running?
  {
    match outcome
    case Succeeded => (e.phase.job, Terminate)
    case Errored(err) =>
      var job := e.phase.job.Failed(err, now);
      (job, JobFate(opts, job, now, backoff))
  }

  function DoAck(s: Sys, i: nat, outcome: Outcome, opts: Option<JobOptions>, now: int, backoff: int): Sys
    requires i < |s.execs| && s.execs[i].phase.Running?
  {
    var e := s.execs[i];
    var (job, fate) := Finished(e, outcome, opts, now, backoff);
    s.(store := Acknowledge(s.store, e.pool, e.from, e.raw, job, fate), execs := Without(s.execs, i))
  }

  /** Deleting a scheduled unique job leaves a key to delete: that of the last job removed. */
  function NewPending(w: ZsetName, j: Job, last: bool): seq<PendingDel> {
    if w == Scheduled && last && j.unique then [PendingDel(j.ArgsKey(), j.Key() == j.ArgsKey())] else []
  }

  function Apply(s: Sys, step: Step): Sys
    requires Enabled(s, step)
  {
    match step
    case Enqueue(j) => WithJobs(Issue(s, j), s.store.jobs.Push(Queue(j.name), j))
    case EnqueueAt(j, at) => WithJobs(Issue(s, j), s.store.jobs.Zadd(Scheduled, j, at))
    case EnqueueUniqueJob(j, at, update) =>
      Issue(s, j).(store := EnqueueUnique(s.store, j, at, if update then Updated(j) else One))
    case EnqueuePeriodic(n, spec, epoch, _) =>
      WithJobs(s, s.store.jobs.Zadd(Scheduled, PeriodicJob(n, spec, epoch), epoch))
    case FetchJob(p, order) => DoFetch(s, p, order)
    case Start(i) => SetPhase(s, i, Running(s.execs[i].raw))
    case ReadKey(i) => DoReadKey(s, i)
    case DeleteKey(i) => DoDeleteKey(s, i)
    case Ack(i, outcome, opts, now, backoff) => DoAck(s, i, outcome, opts, now, backoff)
    case Forget(i) => s.(execs := s.execs[i := s.execs[i].(live := false)])
    case Crash(p) => s.(dead := s.dead + {p})
    case Restart(p) => s.(dead := s.dead - {p})
    case ReenqueueJob(p, names, i) =>
      s.(store := Reenqueue(s.store, names, p), execs := Without(s.execs, i))
    case ReapLocks(p, names) => s.(store := s.store.(locks := CleanLocks(s.store.locks, names, p)))
    case Requeue(w, j, known, now) => WithJobs(s, Promote(s.store.jobs, w, j, known, now))
    case RetryDead(j, known, now) => WithJobs(s, Revive(s.store.jobs, j, known, now))
    case Delete(w, j, last) => WithJobs(s, s.store.jobs.Zrem(w, j)).(pending := s.pending + NewPending(w, j, last))
    case FinishDelete(d) => DelKey(s, s.pending[d].key).(pending := Without(s.pending, d))
    case Expire(k) => DelKey(s, k)
    case Configure(n, paused, cap) =>
      s.(store := s.store.(settings := s.store.settings[n := Setting.Setting(paused, cap)]))
  }

  ghost function Next(s: Sys, step: Step): Sys {
    if Enabled(s, step) then Apply(s, step) else s
  }

  /** The state after a run. */
  ghost function After(s: Sys, run: seq<Step>): Sys {
    if run == [] then s else Next(After(s, run[..|run| - 1]), run[|run| - 1])
  }

  lemma AfterSnoc(s: Sys, run: seq<Step>, step: Step)
    ensures After(s, run + [step]) == Next(After(s, run), step)
  {
    assert (run + [step])[..|run + [step]| - 1] == run;
  }

  /** The state after a run that continues another. */
  lemma {:induction false} AfterConcat(s: Sys, a: seq<Step>, b: seq<Step>)
    ensures After(s, a + b) == After(After(s, a), b)
  {
    if b == [] {
      assert a + b == a;
    } else {
      assert (a + b)[..|a + b| - 1] == a + b[..|b| - 1];
      AfterConcat(s, a, b[..|b| - 1]);
    }
  }

  lemma AfterTwo(s: Sys, a: Step, b: Step)
    ensures [a] + [b] == [a, b] && After(s, [a, b]) == Next(Next(s, a), b)
  {
    assert [a, b][..1] == [a] && [a][..0] == [];
    assert After(s, [a]) == Next(After(s, []), a);
  }

  lemma AfterThree(s: Sys, a: Step, b: Step, c: Step)
    ensures [a, b] + [c] == [a, b, c] && After(s, [a, b, c]) == Next(Next(Next(s, a), b), c)
  {
    assert [a, b, c][..2] == [a, b];
    AfterTwo(s, a, b);
  }
}
