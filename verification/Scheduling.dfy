/** Scheduled jobs over whole runs: a delayed job never leaves the scheduled set early, and a
    periodic instance exists at most once and is moved to its queue at most once. */
module Scheduling {
  import opened JobStore
  import opened Protocol
  import opened Movement
  import opened Discipline
  import opened Conservation
  import Clock

  function Scores(s: Sys): Zset {
    s.store.jobs.Zset(Scheduled)
  }

  /** A scheduled member after a step was there before with the same score, or was just added. */
  ghost predicate Added(step: Step, j: Job, score: int) {
    match step
    case EnqueueAt(job, at) => j == job && score == at
    case EnqueueUniqueJob(job, at, _) => j == job && at == Some(score)
    case EnqueuePeriodic(n, spec, epoch, _) => j == PeriodicJob(n, spec, epoch) && score == epoch
    case _ => false
  }

  lemma ScheduledOrigin(s: Sys, step: Step, j: Job)
    requires Enabled(s, step) && j in Scores(Apply(s, step))
    ensures (j in Scores(s) && Scores(s)[j] == Scores(Apply(s, step))[j]) || Added(step, j, Scores(Apply(s, step))[j])
  {
    if step.Requeue? || step.RetryDead? || step.Ack? || step.ReenqueueJob? || step.FetchJob? {
      ScoresStay(s, step, j);
    }
  }

  /** The steps that move jobs out of a set or a list leave the other scheduled scores alone. */
  lemma ScoresStay(s: Sys, step: Step, j: Job)
    requires step.Requeue? || step.RetryDead? || step.Ack? || step.ReenqueueJob? || step.FetchJob?
    requires Enabled(s, step) && j in Scores(Apply(s, step))
    ensures j in Scores(s) && Scores(s)[j] == Scores(Apply(s, step))[j]
  {
    if step.Ack? {
      var e := s.execs[step.i];
      var (job, fate) := Finished(e, step.outcome, step.opts, step.now, step.backoff);
      SettleKeeps(s.store.jobs.Lrem(InProgress(e.from, e.pool), e.raw), job, fate);
    }
  }

  lemma SettleKeeps(r: Jobs, job: Job, fate: Fate)
    ensures Settle(r, job, fate).Zset(Scheduled) == r.Zset(Scheduled)
  {
  }

  // ----- Delayed jobs -----

  /** The job is scheduled only as it was enqueued, at the score it was given. */
  ghost predicate ScheduledAs(s: Sys, job: Job, at: int) {
    forall j :: j in Scores(s) && j.id == job.id ==> j == job && Scores(s)[j] == at
  }

  lemma StepScheduledAs(s: Sys, step: Step, job: Job, at: int)
    requires ScheduledAs(s, job, at) && job.id in s.issued && job.id.Hex?
    ensures ScheduledAs(Next(s, step), job, at)
  {
    if Enabled(s, step) {
      forall j | j in Scores(Apply(s, step)) && j.id == job.id
        ensures j == job && Scores(Apply(s, step))[j] == at
      {
        ScheduledOrigin(s, step, j);
      }
    }
  }

  lemma {:induction false} RunScheduledAs(s: Sys, run: seq<Step>, job: Job, at: int)
    requires ScheduledAs(s, job, at) && job.id in s.issued && job.id.Hex?
    ensures ScheduledAs(After(s, run), job, at) && job.id in After(s, run).issued
  {
    if run != [] {
      var s' := After(s, run[..|run| - 1]);
      RunScheduledAs(s, run[..|run| - 1], job, at);
      StepScheduledAs(s', run[|run| - 1], job, at);
      IssuedStays(s', run[|run| - 1], job.id);
    }
  }

  lemma IssuedStays(s: Sys, step: Step, id: Id)
    requires id in s.issued
    ensures id in Next(s, step).issued
  {
  }

  /** The step asks for its job to be scheduled at a time. A unique job whose key is set is
      not placed. */
  predicate Schedules(step: Step, at: int) {
    match step
    case EnqueueAt(_, t) => t == at
    case EnqueueUniqueJob(_, t, _) => t == Some(at)
    case _ => false
  }

  lemma EnqueueScheduledAs(s: Sys, step: Step, at: int)
    requires Disciplined(s) && Schedules(step, at) && Enabled(s, step)
    ensures ScheduledAs(Apply(s, step), step.job, at)
  {
    UnissuedAbsent(s, step.job.id);
    forall j | j in Scores(Apply(s, step)) && j.id == step.job.id
      ensures j == step.job && Scores(Apply(s, step))[j] == at
    {
      ScheduledOrigin(s, step, j);
      assert j !in Where(s.store.jobs)(AtZset(Scheduled));
    }
  }

  /** EnqueueIn and EnqueueUniqueIn, over any run: when a requeuer takes the job out of the
      scheduled set, its clock reads no earlier than the requested instant. */
  lemma NeverRunsEarly(before: seq<Step>, enqueue: Step, run: seq<Step>, requeue: Step, clock: int, seconds: int, reading: int)
    requires Clock.Fits(seconds) && Schedules(enqueue, Clock.EpochAfter(clock, seconds))
    requires Enabled(After(INIT, before), enqueue)
    requires requeue.Requeue? && requeue.zset == Scheduled && requeue.job.id == enqueue.job.id
    requires Enabled(After(INIT, before + [enqueue] + run), requeue) && requeue.now == Clock.Unix(reading)
    ensures reading >= Clock.Requested(clock, seconds)
  {
    var head, at := before + [enqueue], Clock.EpochAfter(clock, seconds);
    assert head[..|head| - 1] == before;
    RunDisciplined(before);
    EnqueueScheduledAs(After(INIT, before), enqueue, at);
    AfterConcat(INIT, head, run);
    RunScheduledAs(After(INIT, head), run, enqueue.job, at);
    Clock.NeverEarly(clock, seconds);
  }

  // ----- Periodic jobs -----

  /** No instance is added after a requeuer read a clock at or past its epoch. A pass reads its
      clock once and adds afterwards, so besides clocks that agree this needs passes that do not
      straddle a requeuer's step. */
  predicate Timely(run: seq<Step>, id: Id) {
    forall i, j :: 0 <= i < j < |run| && Reaches(run[i], id) ==> !Adds(run[j], id)
  }

  predicate Reaches(step: Step, id: Id) {
    id.Periodic? && step.Requeue? && step.now >= id.epoch
  }

  predicate Adds(step: Step, id: Id) {
    step.EnqueuePeriodic? && PeriodicJob(step.name, step.spec, step.epoch).id == id && step.now < step.epoch
  }

  /** The steps that carry a clock reading of the two processes that matter here. */
  predicate Timed(step: Step) {
    step.EnqueuePeriodic? || step.Requeue?
  }

  /** In the order of the steps, their readings go back by at most d. */
  predicate SkewAtMost(run: seq<Step>, d: int) {
    forall i, j :: 0 <= i < j < |run| && Timed(run[i]) && Timed(run[j]) ==> run[i].now <= run[j].now + d
  }

  lemma NoSkewTimely(run: seq<Step>, d: int, id: Id)
    requires SkewAtMost(run, d) && d <= 0
    ensures Timely(run, id)
  {
    forall i, j | 0 <= i < j < |run| && Reaches(run[i], id) ensures !Adds(run[j], id) {
      assert Timed(run[i]) && (Adds(run[j], id) ==> Timed(run[j]));
    }
  }

  /** The requeuer takes the instance out of the scheduled set. */
  ghost predicate Fires(s: Sys, step: Step, id: Id) {
    Enabled(s, step) && step.Requeue? && step.zset == Scheduled && step.job.id == id
  }

  ghost function Firings(run: seq<Step>, id: Id): nat {
    if run == [] then 0 else
      Firings(run[..|run| - 1], id) + (if Fires(After(INIT, run[..|run| - 1]), run[|run| - 1], id) then 1 else 0)
  }

  function Instance(id: Id): Job
    requires id.Periodic?
  {
    PeriodicJob(id.name, id.spec, id.epoch)
  }

  /** One scheduled entry per name, spec and epoch: this record, at this score. */
  ghost predicate OneEntry(s: Sys, id: Id)
    requires id.Periodic?
  {
    forall j :: j in Scores(s) && j.id == id ==> j == Instance(id) && Scores(s)[j] == id.epoch
  }

  lemma StepOneEntry(s: Sys, step: Step, id: Id)
    requires id.Periodic? && OneEntry(s, id)
    ensures OneEntry(Next(s, step), id)
  {
    if Enabled(s, step) {
      forall j | j in Scores(Apply(s, step)) && j.id == id
        ensures j == Instance(id) && Scores(Apply(s, step))[j] == id.epoch
      {
        ScheduledOrigin(s, step, j);
      }
    }
  }

  lemma {:induction false} RunOneEntry(run: seq<Step>, id: Id)
    requires id.Periodic?
    ensures OneEntry(After(INIT, run), id)
  {
    if run != [] {
      RunOneEntry(run[..|run| - 1], id);
      StepOneEntry(After(INIT, run[..|run| - 1]), run[|run| - 1], id);
    }
  }

  /** Some requeuer read a clock at or past the instance's epoch. */
  predicate Passed(run: seq<Step>, id: Id) {
    exists k :: 0 <= k < |run| && Reaches(run[k], id)
  }

  /** Before it fires the instance is at most once in the scheduled set and nowhere else;
      afterwards it is at most once, somewhere else. */
  ghost predicate InstanceIn(f: Bags, id: Id, fired: bool)
    requires id.Periodic?
  {
    if !fired then OnlyAt(f, id, AtZset(Scheduled), Instance(id))
    else AtMostOnce(f, id) && forall j :: j in f(AtZset(Scheduled)) ==> j.id != id
  }

  ghost predicate InstanceAt(s: Sys, id: Id, fired: bool)
    requires id.Periodic?
  {
    InstanceIn(Where(s.store.jobs), id, fired)
  }

  lemma PassedExtends(run: seq<Step>, id: Id)
    requires run != [] && Passed(run[..|run| - 1], id)
    ensures Passed(run, id)
    ensures Timely(run, id) ==> !Adds(run[|run| - 1], id)
  {
    var k :| 0 <= k < |run| - 1 && Reaches(run[..|run| - 1][k], id);
    assert run[k] == run[..|run| - 1][k];
  }

  lemma UntouchedInstance(f: Bags, g: Bags, m: Move, id: Id, fired: bool)
    requires id.Periodic? && InstanceIn(f, id, fired) && Shifted(f, g, m) && (m.dst.Spot? ==> m.dst.job.id != id)
    ensures InstanceIn(g, id, fired)
  {
    var b, k :| OnlyAt(f, id, b, k) && (!fired ==> b == AtZset(Scheduled) && k == Instance(id));
    OtherIdOnce(f, g, m, id, b, k);
    forall j | j in g(AtZset(Scheduled)) && j.id == id ensures j in f(AtZset(Scheduled)) {
      Origin(f, g, m, AtZset(Scheduled), j);
    }
  }

  /** The step leaves the instance where it is. */
  lemma ElsewhereInstance(s: Sys, step: Step, id: Id, fired: bool)
    requires Disciplined(s) && id.Periodic? && InstanceAt(s, id, fired) && Enabled(s, step)
    requires MoveOf(s, step).dst.Spot? ==> MoveOf(s, step).dst.job.id != id
    ensures InstanceAt(Apply(s, step), id, fired) && !Fires(s, step, id)
  {
    StepShifts(s, step);
    UntouchedInstance(Where(s.store.jobs), Where(Apply(s, step).store.jobs), MoveOf(s, step), id, fired);
  }

  /** A periodic enqueuer adds the instance, which an earlier pass may have added already. */
  lemma AddedInstance(s: Sys, step: Step, id: Id)
    requires Disciplined(s) && id.Periodic? && InstanceAt(s, id, false)
    requires Enabled(s, step) && step.EnqueuePeriodic? && PeriodicJob(step.name, step.spec, step.epoch).id == id
    ensures InstanceAt(Apply(s, step), id, false)
  {
    var f, g, m := Where(s.store.jobs), Where(Apply(s, step).store.jobs), MoveOf(s, step);
    StepShifts(s, step);
    if Present(f, id) {
      forall a ensures g(a) == f(a) {
      }
    } else {
      NewIdOnce(f, g, m);
    }
  }

  /** Apart from the enqueuer, what brings the instance somewhere took it from somewhere. */
  lemma InstanceOrigin(s: Sys, step: Step, id: Id)
    requires Disciplined(s) && id.Periodic? && Enabled(s, step) && !step.EnqueuePeriodic?
    requires MoveOf(s, step).dst.Spot? && MoveOf(s, step).dst.job.id == id
    ensures var m := MoveOf(s, step);
            && m.src.Spot? && m.src.job.id == id
            && m.dst.place != AtZset(Scheduled)
            && (m.src.place == AtZset(Scheduled) <==> Fires(s, step, id))
  {
    Relocated(s, step);
  }

  lemma MovedInstance(s: Sys, step: Step, id: Id, fired: bool)
    requires Disciplined(s) && id.Periodic? && InstanceAt(s, id, fired)
    requires Enabled(s, step) && !step.EnqueuePeriodic?
    requires MoveOf(s, step).dst.Spot? && MoveOf(s, step).dst.job.id == id
    ensures InstanceAt(Apply(s, step), id, true) && Fires(s, step, id) == !fired
  {
    var f, g, m := Where(s.store.jobs), Where(Apply(s, step).store.jobs), MoveOf(s, step);
    StepShifts(s, step);
    InstanceOrigin(s, step, id);
    var b, k :| OnlyAt(f, id, b, k);
    assert m.src.job in f(m.src.place);
    SameIdOnce(f, g, m, b, k);
  }

  /** An instance fires only when the requeuer's clock has reached its epoch. */
  lemma FiresDue(s: Sys, step: Step, id: Id)
    requires id.Periodic? && OneEntry(s, id) && Fires(s, step, id)
    ensures step.now >= id.epoch
  {
  }

  lemma StepInstance(run: seq<Step>, id: Id, fired: bool)
    requires id.Periodic? && run != [] && Timely(run, id)
    requires var s := After(INIT, run[..|run| - 1]);
             Disciplined(s) && OneEntry(s, id) && InstanceAt(s, id, fired)
    requires fired ==> Passed(run[..|run| - 1], id)
    ensures var fires := Fires(After(INIT, run[..|run| - 1]), run[|run| - 1], id);
            && !(fired && fires)
            && InstanceAt(After(INIT, run), id, fired || fires)
            && (fired || fires ==> Passed(run, id))
  {
    var s, step := After(INIT, run[..|run| - 1]), run[|run| - 1];
    if fired {
      PassedExtends(run, id);
    }
    if Enabled(s, step) {
      var m := MoveOf(s, step);
      if !(m.dst.Spot? && m.dst.job.id == id) {
        ElsewhereInstance(s, step, id, fired);
      } else if step.EnqueuePeriodic? {
        assert Adds(step, id);
        AddedInstance(s, step, id);
      } else {
        MovedInstance(s, step, id, fired);
        if !fired {
          FiresDue(s, step, id);
          assert Reaches(run[|run| - 1], id);
        }
      }
    }
  }

  lemma {:induction false} RunInstance(run: seq<Step>, id: Id)
    requires id.Periodic? && Timely(run, id)
    ensures Firings(run, id) <= 1 && InstanceAt(After(INIT, run), id, Firings(run, id) == 1)
    ensures Firings(run, id) == 1 ==> Passed(run, id)
  {
    if run != [] {
      var prefix := run[..|run| - 1];
      RunInstance(prefix, id);
      RunDisciplined(prefix);
      RunOneEntry(prefix, id);
      StepInstance(run, id, Firings(prefix, id) == 1);
    }
  }

  /** However many periodic enqueuers write the same instance: as long as none adds it after a
      requeuer's clock reached its epoch, at most one copy exists at any time, and the requeuer
      hands it over at most once, never before its epoch. */
  lemma PeriodicOnce(run: seq<Step>, id: Id)
    requires id.Periodic? && Timely(run, id)
    ensures AtMostOnce(Where(After(INIT, run).store.jobs), id)
    ensures Firings(run, id) <= 1
    ensures Firings(run, id) == 1 ==> Passed(run, id)
  {
    RunInstance(run, id);
  }

  // The requeuer hands the instance over at its epoch, and an enqueuer whose reading is older,
  // because its clock is behind or its pass is slow, schedules it again.
  const LATE := EnqueuePeriodic(1, 1, 5, 4)
  const MOVE := Requeue(Scheduled, PeriodicJob(1, 1, 5), {1}, 5)

  lemma Rescheduled(s: Sys)
    requires Scores(s) == map[]
    ensures var s1 := Next(s, LATE);
            Fires(s1, MOVE, PeriodicJob(1, 1, 5).id) && Scores(Next(s1, MOVE)) == map[] && !Fires(s, LATE, PeriodicJob(1, 1, 5).id)
  {
    assert Scores(Next(s, LATE)) == map[PeriodicJob(1, 1, 5) := 5];
  }

  lemma FiresAgain(run: seq<Step>, run': seq<Step>)
    requires Scores(After(INIT, run)) == map[] && run' == run + [LATE] + [MOVE]
    ensures Scores(After(INIT, run')) == map[]
    ensures Firings(run', PeriodicJob(1, 1, 5).id) == Firings(run, PeriodicJob(1, 1, 5).id) + 1
  {
    var mid := run + [LATE];
    assert mid[..|mid| - 1] == run && run'[..|run'| - 1] == mid;
    AfterSnoc(INIT, run, LATE);
    AfterSnoc(INIT, mid, MOVE);
    Rescheduled(After(INIT, run));
  }

  const TWICE := [LATE, MOVE, LATE, MOVE]

  /** Readings that go back by one second are enough for an instance to fire twice. */
  lemma SkewFiresTwice()
    ensures Firings(TWICE, PeriodicJob(1, 1, 5).id) == 2
  {
    FiresAgain([], [LATE, MOVE]);
    FiresAgain([LATE, MOVE], TWICE);
  }

  lemma TwiceSkew(d: int)
    requires d > 0
    ensures SkewAtMost(TWICE, d)
  {
  }

  /** Readings that go back by at most d never make an instance fire twice. */
  ghost predicate SafeSkew(d: int) {
    forall run: seq<Step>, id: Id :: id.Periodic? && SkewAtMost(run, d) ==> Firings(run, id) <= 1
  }

  /** Exactly the readings that never go back are safe. */
  lemma SafeSkews(d: int)
    ensures SafeSkew(d) <==> d <= 0
  {
    if d <= 0 {
      forall run: seq<Step>, id: Id | id.Periodic? && SkewAtMost(run, d) ensures Firings(run, id) <= 1 {
        NoSkewTimely(run, d, id);
        PeriodicOnce(run, id);
      }
    } else {
      SkewFiresTwice();
      TwiceSkew(d);
    }
  }
}
