/** Runs that show how an accepted update can be lost, and how it can not. */
module UpdateRuns {
  import opened JobStore
  import opened Protocol
  import opened Discipline
  import opened Updates
  import opened Completion

  /** Versions of one job, differing in their arguments. */
  function Version(args: Text): Job {
    Job(1, Hex(args), 0, args, true, Some(UniqueKey(1, 0)), 0, NoError, 0)
  }

  function Enqueued(args: Text): Step {
    EnqueueUniqueJob(Version(args), None, true)
  }

  /** Enqueued without a key map: its arguments are the content of the key. */
  const PLAIN := EnqueueUniqueJob(Version(9).(args := 0), None, false)

  /** Only these identifiers are issued, the key holds that version, the queue and the workers
      are these. */
  predicate Stage(s: Sys, queue: seq<Job>, execs: seq<Exec>, held: Job, ids: set<Id>) {
    && s.execs == execs && s.dead == {} && s.issued.Keys == ids && s.pending == []
    && s.store.keys == map[UniqueKey(1, 0) := Updated(held)] && s.store.settings == map[]
    && s.store.jobs.List(Queue(1)) == queue
    && s.store.jobs.List(InProgress(1, 2)) == (if execs == [] then [] else [Version(0)])
    && (execs != [] ==> 2 in s.store.Lock(1).info)
  }

  /** The worker that fetched the first version. */
  function Holder(phase: Phase): Exec {
    Exec(2, 1, Version(0), phase, true)
  }

  lemma FirstEnqueued()
    ensures Stage(After(INIT, [Enqueued(0)]), [Version(0)], [], Version(0), {Hex(0)})
  {
    AfterSnoc(INIT, [], Enqueued(0));
    assert [] + [Enqueued(0)] == [Enqueued(0)];
  }

  lemma ThenUpdated(s: Sys, queue: seq<Job>, execs: seq<Exec>)
    requires Stage(s, queue, execs, Version(0), {Hex(0)})
    ensures Duplicate(s, Enqueued(7)) && Stage(Next(s, Enqueued(7)), queue, execs, Version(7), {Hex(0), Hex(7)})
  {
  }

  lemma ThenFetched(s: Sys, held: Job, ids: set<Id>)
    requires Stage(s, [Version(0)], [], held, ids)
    ensures Stage(Next(s, FetchJob(2, [1])), [], [Holder(Fetched)], held, ids)
  {
    assert FirstEligible(s.store, [1]) == 0;
  }

  lemma ThenRead(s: Sys, held: Job, ids: set<Id>)
    requires Stage(s, [], [Holder(Fetched)], held, ids)
    ensures Stage(Next(s, ReadKey(0)), [], [Holder(KeyRead(Updated(held)))], held, ids)
  {
  }

  lemma ThenExpired(s: Sys, execs: seq<Exec>, held: Job, ids: set<Id>)
    requires Stage(s, [], execs, held, ids)
    ensures Next(s, Expire(UniqueKey(1, 0))).execs == execs && Next(s, Expire(UniqueKey(1, 0))).dead == {}
  {
  }

  const RACED := [Enqueued(0), FetchJob(2, [1]), ReadKey(0)]

  lemma FirstVersionRead()
    ensures Stage(After(INIT, RACED), [], [Holder(KeyRead(Updated(Version(0))))], Version(0), {Hex(0)})
  {
    var s := After(INIT, [Enqueued(0)]);
    FirstEnqueued();
    ThenFetched(s, Version(0), {Hex(0)});
    ThenRead(Next(s, FetchJob(2, [1])), Version(0), {Hex(0)});
    AfterSnoc(INIT, [], Enqueued(0));
    assert [] + [Enqueued(0)] == [Enqueued(0)];
    AfterThree(INIT, Enqueued(0), FetchJob(2, [1]), ReadKey(0));
  }

  /** An update between a worker's GET and DEL is accepted as the new version of a waiting job,
      but the old version runs and the new one is gone for good. */
  lemma UpdateLost()
    ensures var s := After(INIT, RACED);
            var s' := Next(Next(s, Enqueued(7)), DeleteKey(0));
            && Duplicate(s, Enqueued(7))
            && RunsNow(s', Version(0)) && Gone(s', Version(7)) && Lost(s', Version(7))
  {
    var s := After(INIT, RACED);
    FirstVersionRead();
    ThenUpdated(s, [], s.execs);
    NextTouchDecides(RACED, Enqueued(7), [], DeleteKey(0));
    assert Next(Next(s, Enqueued(7)), DeleteKey(0)).execs[0].phase == Running(Version(0));
  }

  /** No race is needed: a plain duplicate, or expiry, before any worker reads the key loses an
      accepted update as well. */
  lemma UpdateWiped(wipe: Step)
    requires wipe == PLAIN || wipe == Expire(UniqueKey(1, 0))
    ensures var s := After(INIT, [Enqueued(0)]);
            var s' := Next(Next(s, Enqueued(7)), wipe);
            && Duplicate(s, Enqueued(7)) && Enabled(Next(s, Enqueued(7)), wipe)
            && s'.store.jobs.List(Queue(1)) == [Version(0)] && Gone(s', Version(7)) && Lost(s', Version(7))
  {
    var s := After(INIT, [Enqueued(0)]);
    FirstEnqueued();
    ThenUpdated(s, [Version(0)], []);
    NextTouchDecides([Enqueued(0)], Enqueued(7), [], wipe);
  }

  const FETCH := FetchJob(2, [1])
  const IDS: set<Id> := {Hex(0), Hex(7)}

  /** The first version waits, the second is written over it, and a worker reads that. */
  lemma SecondVersionRead()
    ensures var s := After(INIT, [Enqueued(0)]);
            && Duplicate(s, Enqueued(7))
            && Stage(Next(Next(Next(s, Enqueued(7)), FETCH), ReadKey(0)), [],
                     [Holder(KeyRead(Updated(Version(7))))], Version(7), IDS)
  {
    var s := After(INIT, [Enqueued(0)]);
    var s0 := Next(s, Enqueued(7));
    FirstEnqueued();
    ThenUpdated(s, [Version(0)], []);
    ThenFetched(s0, Version(7), IDS);
    ThenRead(Next(s0, FETCH), Version(7), IDS);
  }

  const EXPIRED := [FETCH, ReadKey(0), Expire(UniqueKey(1, 0)), DeleteKey(0)]

  lemma ExpiredRan(s: Sys)
    requires Stage(Next(Next(s, FETCH), ReadKey(0)), [], [Holder(KeyRead(Updated(Version(7))))], Version(7), IDS)
    ensures Ran(s, EXPIRED, Version(7))
  {
    var c := Expire(UniqueKey(1, 0));
    ThenExpired(Next(Next(s, FETCH), ReadKey(0)), [Holder(KeyRead(Updated(Version(7))))], Version(7), IDS);
    AfterThree(s, FETCH, ReadKey(0), c);
    assert EXPIRED[..3] == [FETCH, ReadKey(0), c];
    BeginsRuns(s, EXPIRED, 3, Version(7));
  }

  /** A worker that has read the update starts to run it even though the key expires before its DEL. */
  lemma ExpiryTooLate()
    ensures var s := After(INIT, [Enqueued(0)]);
            Duplicate(s, Enqueued(7)) && Ran(Next(s, Enqueued(7)), EXPIRED, Version(7))
  {
    SecondVersionRead();
    ExpiredRan(Next(After(INIT, [Enqueued(0)]), Enqueued(7)));
  }

  /** The worker that read the update deletes the key. */
  predicate Deleted(s: Sys) {
    && s.execs == [Holder(Running(Version(7)))] && s.dead == {} && s.store.keys == map[]
    && s.store.jobs.List(Queue(1)) == [] && s.store.jobs.List(InProgress(1, 2)) == [Version(0)]
    && 2 in s.store.Lock(1).info
  }

  lemma ThenDeleted(s: Sys)
    requires Stage(s, [], [Holder(KeyRead(Updated(Version(7))))], Version(7), IDS)
    ensures Deleted(Next(s, DeleteKey(0)))
  {
  }

  /** It crashes, and the reaper gives back the job off the queue. */
  predicate GivenBack(s: Sys) {
    s.execs == [] && s.store.keys == map[] && s.store.jobs.List(Queue(1)) == [Version(0)]
  }

  lemma ThenCrashed(s: Sys)
    requires Deleted(s)
    ensures GivenBack(Next(Next(s, Crash(2)), ReenqueueJob(2, [1], 0)))
  {
    var s1 := Next(s, Crash(2));
    assert FirstHeld(s1.store.jobs, [1], 2) == 0;
  }

  const CRASHED := [FETCH, ReadKey(0), DeleteKey(0)] + [Crash(2), ReenqueueJob(2, [1], 0)]

  predicate NoAck(run: seq<Step>) {
    forall m :: 0 <= m < |run| ==> !run[m].Ack?
  }

  /** Nobody carries the update any more and nobody acknowledged it. */
  lemma NothingCarries(before: seq<Step>, write: Step, run: seq<Step>, s: Sys)
    requires Duplicate(After(INIT, before), write) && NoAck(run) && s == After(Next(After(INIT, before), write), run)
    requires s.execs == [] && write.job.Key() !in s.store.keys
    ensures !CanComplete(s, write.job)
  {
    var s0, j := Next(After(INIT, before), write), write.job;
    RunDisciplined(before);
    UpdateWritten(After(INIT, before), write);
    RunInKey(s0, run, j);
    UpdateCompletes(before, write, run);
  }

  lemma CrashedStates(s: Sys)
    requires Stage(Next(Next(s, FETCH), ReadKey(0)), [], [Holder(KeyRead(Updated(Version(7))))], Version(7), IDS)
    ensures Ran(s, CRASHED, Version(7)) && NoAck(CRASHED) && GivenBack(After(s, CRASHED))
  {
    var s3 := After(s, [FETCH, ReadKey(0), DeleteKey(0)]);
    AfterThree(s, FETCH, ReadKey(0), DeleteKey(0));
    ThenDeleted(Next(Next(s, FETCH), ReadKey(0)));
    ThenCrashed(s3);
    AfterTwo(s3, Crash(2), ReenqueueJob(2, [1], 0));
    AfterConcat(s, [FETCH, ReadKey(0), DeleteKey(0)], [Crash(2), ReenqueueJob(2, [1], 0)]);
    assert CRASHED[..3] == [FETCH, ReadKey(0), DeleteKey(0)];
    assert After(s, CRASHED[..3]).execs[0].phase == Running(Version(7));
  }

  /** A worker reads the update, deletes the key and starts to run the update; it crashes, and
      recovery puts the old version back to work. No run of the update is ever completed. */
  lemma CrashUndoes() returns (before: seq<Step>, run: seq<Step>, s: Sys)
    ensures before == [Enqueued(0)] && run == CRASHED && s == After(Next(After(INIT, before), Enqueued(7)), run)
    ensures Duplicate(After(INIT, before), Enqueued(7)) && Ran(Next(After(INIT, before), Enqueued(7)), run, Version(7))
    ensures GivenBack(s) && !CanComplete(s, Version(7))
  {
    SecondVersionRead();
    CrashedStates(Next(After(INIT, [Enqueued(0)]), Enqueued(7)));
    before, run := [Enqueued(0)], CRASHED;
    s := After(Next(After(INIT, before), Enqueued(7)), run);
    NothingCarries(before, Enqueued(7), run, s);
  }
}
