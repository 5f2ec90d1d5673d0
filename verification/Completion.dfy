/** Completing an update. A worker that has read a new version of a job and deleted its key is the
    only one that knows it: until it acknowledges, its crash loses the version, and recovery puts
    the old one back to work. */
module Completion {
  import opened JobStore
  import opened Protocol
  import opened Movement
  import opened Discipline
  import opened Conservation
  import opened Updates

  /** A worker that runs the version acknowledges it. */
  ghost predicate Finishes(s: Sys, step: Step, j: Job) {
    Enabled(s, step) && step.Ack? && s.execs[step.i].phase == Running(j)
  }

  ghost predicate Completed(s: Sys, run: seq<Step>, j: Job) {
    exists m :: 0 <= m < |run| && Finishes(After(s, run[..m]), run[m], j)
  }

  /** Some continuation completes a run of the version. */
  ghost predicate CanComplete(s: Sys, j: Job) {
    exists more: seq<Step> :: Completed(s, more, j)
  }

  /** The worker has read the version or runs it. */
  predicate Carries(e: Exec, j: Job) {
    Holds(e, j) || e.phase == Running(j)
  }

  /** A worker that is still acting has read the version or runs it. */
  ghost predicate HasLiveCarrier(s: Sys, j: Job) {
    exists i :: 0 <= i < |s.execs| && s.LiveAt(i) && Carries(s.execs[i], j)
  }

  predicate OnlyRuns(e: Exec, j: Job) {
    e.raw.id != j.id && (e.phase.Running? && e.phase.job.id == j.id ==> e.phase.job == j)
  }

  /** The version is on no list and in no sorted set, nobody fetched it, and who runs it runs it
      as it was written. */
  ghost predicate Unfinished(s: Sys, j: Job) {
    !Present(Where(s.store.jobs), j.id) && forall i :: 0 <= i < |s.execs| ==> OnlyRuns(s.execs[i], j)
  }

  lemma UnplacedUnfinished(s: Sys, j: Job)
    requires Unplaced(s, j.id)
    ensures Unfinished(s, j)
  {
    forall i | 0 <= i < |s.execs| ensures OnlyRuns(s.execs[i], j) {
      assert !Works(s.execs[i], j.id);
    }
  }

  lemma StepOnlyRuns(s: Sys, step: Step, j: Job, e: Exec)
    requires Versioned(s, j) && Unfinished(s, j) && Enabled(s, step) && ComesFrom(s, step, e)
    ensures OnlyRuns(e, j)
  {
    if e in s.execs {
      var k :| 0 <= k < |s.execs| && s.execs[k] == e;
      assert OnlyRuns(s.execs[k], j);
    } else if step.FetchJob? {
      assert e.raw in Where(s.store.jobs)(AtList(Queue(e.from)));
    } else {
      assert OnlyRuns(s.execs[step.i], j) && VersionOf(s.execs[step.i], j);
    }
  }

  lemma StepUnfinished(s: Sys, step: Step, j: Job)
    requires Disciplined(s) && Versioned(s, j) && Unfinished(s, j) && !Finishes(s, step, j)
    ensures Unfinished(Next(s, step), j)
  {
    if Enabled(s, step) {
      var s' := Apply(s, step);
      assert step.Ack? ==> OnlyRuns(s.execs[step.i], j);
      StaysAbsent(s, step, j.id);
      forall i | 0 <= i < |s'.execs| ensures OnlyRuns(s'.execs[i], j) {
        ExecOrigin(s, step, s'.execs[i]);
        StepOnlyRuns(s, step, j, s'.execs[i]);
      }
    }
  }

  lemma NotCompletedBefore(s: Sys, run: seq<Step>, j: Job)
    requires run != [] && !Completed(s, run, j)
    ensures !Completed(s, run[..|run| - 1], j) && !Finishes(After(s, run[..|run| - 1]), run[|run| - 1], j)
  {
    var prefix := run[..|run| - 1];
    forall m | 0 <= m < |prefix| ensures !Finishes(After(s, prefix[..m]), prefix[m], j) {
      assert prefix[..m] == run[..m] && prefix[m] == run[m];
      assert !Finishes(After(s, run[..m]), run[m], j);
    }
  }

  lemma NotCompletedAfter(s: Sys, run: seq<Step>, j: Job)
    requires run != [] && !Completed(s, run[..|run| - 1], j) && !Finishes(After(s, run[..|run| - 1]), run[|run| - 1], j)
    ensures !Completed(s, run, j)
  {
    var prefix := run[..|run| - 1];
    forall m | 0 <= m < |run| ensures !Finishes(After(s, run[..m]), run[m], j) {
      if m < |prefix| {
        assert prefix[..m] == run[..m] && prefix[m] == run[m];
        assert !Finishes(After(s, prefix[..m]), prefix[m], j);
      }
    }
  }

  lemma {:induction false} RunUnfinished(s: Sys, run: seq<Step>, j: Job)
    requires Disciplined(s) && Versioned(s, j) && Unfinished(s, j) && !Completed(s, run, j)
    ensures Unfinished(After(s, run), j)
  {
    if run != [] {
      NotCompletedBefore(s, run, j);
      RunUnfinished(s, run[..|run| - 1], j);
      RunVersioned(s, run[..|run| - 1], j);
      StepUnfinished(After(s, run[..|run| - 1]), run[|run| - 1], j);
    }
  }

  lemma CarrierOrigin(s: Sys, step: Step, j: Job, e: Exec)
    requires Disciplined(s) && Versioned(s, j) && Unfinished(s, j) && !InKey(s, j) && !HasLiveCarrier(s, j)
    requires Enabled(s, step) && ComesFrom(s, step, e) && Apply(s, step).Live(e)
    ensures !Carries(e, j)
  {
    if e in s.execs {
      var k :| 0 <= k < |s.execs| && s.execs[k] == e;
      if !s.Live(e) {
        StaysIdle(s, step, k);
      }
      assert s.LiveAt(k) ==> !Carries(s.execs[k], j);
    } else if !step.FetchJob? {
      assert OnlyRuns(s.execs[step.i], j);
      assert s.LiveAt(step.i) ==> !Carries(s.execs[step.i], j);
    }
  }

  lemma StepNoLiveCarrier(s: Sys, step: Step, j: Job)
    requires Disciplined(s) && Versioned(s, j) && Unfinished(s, j) && !InKey(s, j) && !HasLiveCarrier(s, j)
    ensures !HasLiveCarrier(Next(s, step), j) && !Finishes(s, step, j)
  {
    assert Enabled(s, step) && step.Ack? ==> s.LiveAt(step.i) && !Carries(s.execs[step.i], j);
    if Enabled(s, step) {
      var s' := Apply(s, step);
      forall i | 0 <= i < |s'.execs| && s'.LiveAt(i) ensures !Carries(s'.execs[i], j) {
        ExecOrigin(s, step, s'.execs[i]);
        CarrierOrigin(s, step, j, s'.execs[i]);
      }
    }
  }

  lemma {:induction false} NeverCompletes(s: Sys, run: seq<Step>, j: Job)
    requires Disciplined(s) && Versioned(s, j) && Unfinished(s, j) && !InKey(s, j) && !HasLiveCarrier(s, j)
    ensures var s' := After(s, run);
            && Disciplined(s') && Versioned(s', j) && Unfinished(s', j) && !InKey(s', j) && !HasLiveCarrier(s', j)
            && !Completed(s, run, j)
  {
    if run != [] {
      var prefix, last := run[..|run| - 1], run[|run| - 1];
      var s1 := After(s, prefix);
      NeverCompletes(s, prefix, j);
      StepDisciplined(s1, last);
      StepVersioned(s1, last, j);
      StepNoLiveCarrier(s1, last, j);
      StepUnfinished(s1, last, j);
      StepInKey(s1, last, j);
      NotCompletedAfter(s, run, j);
    }
  }

  function Success(i: nat): Step {
    Ack(i, Succeeded, None, 0, 0)
  }

  lemma RunnerCompletes(s: Sys, i: nat, j: Job)
    requires s.LiveAt(i) && s.execs[i].phase == Running(j)
    ensures Completed(s, [Success(i)], j)
  {
    assert [Success(i)][..0] == [];
    assert Finishes(After(s, [Success(i)][..0]), [Success(i)][0], j);
  }

  lemma ReaderCompletes(s: Sys, i: nat, j: Job)
    requires s.LiveAt(i) && Holds(s.execs[i], j)
    ensures Completed(s, [DeleteKey(i), Success(i)], j)
  {
    var run := [DeleteKey(i), Success(i)];
    assert run[..0] == [] && run[..1] == [] + [DeleteKey(i)];
    AfterSnoc(s, [], DeleteKey(i));
    assert Finishes(After(s, run[..1]), run[1], j);
  }

  lemma CarrierCompletes(s: Sys, j: Job)
    requires HasLiveCarrier(s, j)
    ensures CanComplete(s, j)
  {
    var i :| 0 <= i < |s.execs| && s.LiveAt(i) && Carries(s.execs[i], j);
    if Holds(s.execs[i], j) {
      ReaderCompletes(s, i, j);
    } else {
      RunnerCompletes(s, i, j);
    }
  }

  /** What the update is for: a completed run of the new version. Once anybody touched the key, an
      update skipped as a duplicate that has not completed a run can still do so if and only if
      some worker that is still acting has read it or runs it. A crash of that worker loses it,
      before or after the key is deleted: what the reaper gives back is the job off the queue. */
  lemma UpdateCompletes(before: seq<Step>, write: Step, run: seq<Step>)
    requires Duplicate(After(INIT, before), write)
    requires !Completed(Next(After(INIT, before), write), run, write.job)
    requires !Quiet(Next(After(INIT, before), write), run, write.job.Key())
    ensures var s := After(Next(After(INIT, before), write), run);
            CanComplete(s, write.job) <==> HasLiveCarrier(s, write.job)
  {
    var s0, j := Next(After(INIT, before), write), write.job;
    var s := After(s0, run);
    RunDisciplined(before);
    UpdateWritten(After(INIT, before), write);
    UnplacedUnfinished(s0, j);
    RunVersioned(s0, run, j);
    RunUnfinished(s0, run, j);
    RunInKey(s0, run, j);
    if HasLiveCarrier(s, j) {
      CarrierCompletes(s, j);
    } else {
      forall more: seq<Step> ensures !Completed(s, more, j) {
        NeverCompletes(s, more, j);
      }
    }
  }

  // ----- While the key is untouched -----

  lemma {:induction false} FreePool(dead: set<Pool>) returns (p: Pool)
    ensures forall q :: q in dead ==> q < p
    decreases |dead|
  {
    if dead == {} {
      p := 0;
    } else {
      var d :| d in dead;
      var rest := FreePool(dead - {d});
      p := if rest > d then rest else d + 1;
      forall q | q in dead ensures q < p {
        assert q != d ==> q in dead - {d};
      }
    }
  }

  lemma FetchLast(s: Sys, n: Name, p: Pool)
    requires s.store.jobs.List(Queue(n)) != [] && s.store.Setting(n) == NO_SETTING && p !in s.dead
    ensures var s', q := Next(s, FetchJob(p, [n])), s.store.jobs.List(Queue(n));
            && s'.store.jobs.List(Queue(n)) == q[..|q| - 1] && s'.store.Setting(n) == NO_SETTING
            && s'.dead == s.dead && s'.store.keys == s.store.keys
            && s'.execs == s.execs + [Exec(p, n, Last(q), Fetched, true)]
  {
    assert FirstEligible(s.store, [n]) == 0;
  }

  /** Fetching until the job at position m of the queue is fetched. */
  lemma {:induction false} FetchUntil(s: Sys, n: Name, p: Pool, m: nat) returns (run: seq<Step>)
    requires m < |s.store.jobs.List(Queue(n))| && s.store.Setting(n) == NO_SETTING && p !in s.dead
    ensures var s' := After(s, run);
            && s'.dead == s.dead && s'.store.keys == s.store.keys && s'.execs != []
            && s'.execs[|s'.execs| - 1] == Exec(p, n, s.store.jobs.List(Queue(n))[m], Fetched, true)
    decreases |s.store.jobs.List(Queue(n))|
  {
    var step, q := FetchJob(p, [n]), s.store.jobs.List(Queue(n));
    FetchLast(s, n, p);
    AfterConcat(s, [step], []);
    AfterSnoc(s, [], step);
    assert [] + [step] == [step];
    if m == |q| - 1 {
      run := [step];
    } else {
      var rest := FetchUntil(Next(s, step), n, p, m);
      run := [step] + rest;
      AfterConcat(s, [step], rest);
    }
  }

  lemma FetchedCompletes(s: Sys, i: nat, j: Job)
    requires s.LiveAt(i) && s.execs[i].phase.Fetched? && s.execs[i].raw.unique
    requires s.execs[i].raw.Key() == j.Key() && InKey(s, j)
    ensures Completed(s, [ReadKey(i)] + [DeleteKey(i), Success(i)], j)
  {
    var run := [ReadKey(i)] + [DeleteKey(i), Success(i)];
    var s1 := Next(s, ReadKey(i));
    AfterSnoc(s, [], ReadKey(i));
    assert [] + [ReadKey(i)] == [ReadKey(i)];
    ReaderCompletes(s1, i, j);
    CompletedLater(s, [ReadKey(i)], [DeleteKey(i), Success(i)], j);
  }

  lemma {:induction false} CompletedLater(s: Sys, first: seq<Step>, later: seq<Step>, j: Job)
    requires Completed(After(s, first), later, j)
    ensures Completed(s, first + later, j)
  {
    var m :| 0 <= m < |later| && Finishes(After(After(s, first), later[..m]), later[m], j);
    var run := first + later;
    assert run[..|first| + m] == first + later[..m] && run[|first| + m] == later[m];
    AfterConcat(s, first, later[..m]);
    assert Finishes(After(s, run[..|first| + m]), run[|first| + m], j);
  }

  lemma {:induction false} OpenAndFetch(s: Sys, n: Name, m: nat) returns (run: seq<Step>)
    requires m < |s.store.jobs.List(Queue(n))|
    ensures var s' := After(s, run);
            && s'.store.keys == s.store.keys && s'.execs != [] && s'.LiveAt(|s'.execs| - 1)
            && s'.execs[|s'.execs| - 1].raw == s.store.jobs.List(Queue(n))[m] && s'.execs[|s'.execs| - 1].phase.Fetched?
  {
    var open := Configure(n, false, 0);
    AfterSnoc(s, [], open);
    assert [] + [open] == [open];
    var p := FreePool(s.dead);
    var fetches := FetchUntil(Next(s, open), n, p, m);
    AfterConcat(s, [open], fetches);
    run := [open] + fetches;
  }

  lemma QueuedCompletes(s: Sys, j: Job, m: nat)
    requires InKey(s, j) && m < |s.store.jobs.List(Queue(j.name))|
    requires s.store.jobs.List(Queue(j.name))[m].unique && s.store.jobs.List(Queue(j.name))[m].Key() == j.Key()
    ensures CanComplete(s, j)
  {
    var fetch := OpenAndFetch(s, j.name, m);
    var i := |After(s, fetch).execs| - 1;
    FetchedCompletes(After(s, fetch), i, j);
    CompletedLater(s, fetch, [ReadKey(i)] + [DeleteKey(i), Success(i)], j);
  }

  /** As long as nobody touched the key and a job with that key waits in its queue, a run of the
      update can still be completed. */
  lemma WaitingCompletes(before: seq<Step>, write: Step, run: seq<Step>, m: nat)
    requires Update(After(INIT, before), write)
    requires Quiet(Next(After(INIT, before), write), run, write.job.Key())
    requires var q := After(Next(After(INIT, before), write), run).store.jobs.List(Queue(write.job.name));
             m < |q| && q[m].unique && q[m].Key() == write.job.Key()
    ensures CanComplete(After(Next(After(INIT, before), write), run), write.job)
  {
    RunDisciplined(before);
    UpdateWritten(After(INIT, before), write);
    RunInKey(Next(After(INIT, before), write), run, write.job);
    QueuedCompletes(After(Next(After(INIT, before), write), run), write.job, m);
  }
}
