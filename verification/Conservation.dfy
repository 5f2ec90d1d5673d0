/** No job is lost, duplicated or altered. A job that is neither unique nor periodic sits, from
    its enqueueing on, in exactly one place once, with its name and arguments intact, until a
    successful run, the exhaustion of its retries with SkipDead, or a client delete ends it. */
module Conservation {
  import opened JobStore
  import opened Protocol
  import opened Movement
  import opened Discipline

  /** The contents of every place. */
  type Bags = Place -> multiset<Job>

  function Where(jobs: Jobs): Bags {
    a => At(jobs, a)
  }

  /** Only job k at place b has this identifier, and only once. */
  ghost predicate OnlyAt(f: Bags, id: Id, b: Place, k: Job) {
    forall a, j :: j in f(a) && j.id == id ==> a == b && j == k && f(a)[j] == 1
  }

  ghost predicate AtMostOnce(f: Bags, id: Id) {
    exists b, k :: OnlyAt(f, id, b, k)
  }

  ghost predicate Present(f: Bags, id: Id) {
    exists a, j :: j in f(a) && j.id == id
  }

  ghost predicate ExactlyOnce(f: Bags, id: Id) {
    exists b, k :: f(b)[k] == 1 && k.id == id && OnlyAt(f, id, b, k)
  }

  /** The same piece of work, whatever its failure record and timestamps. */
  predicate SameWork(j: Job, k: Job) {
    j.id == k.id && j.name == k.name && j.args == k.args && j.unique == k.unique
  }

  ghost predicate Intact(f: Bags, job: Job) {
    forall a, j :: j in f(a) && j.id == job.id ==> SameWork(j, job)
  }

  // ----- Moves -----

  ghost predicate Shifted(f: Bags, g: Bags, m: Move) {
    && (m.src.Spot? ==> m.src.job in f(m.src.place))
    && forall a :: g(a) == Gain(a, m.dst, Lose(a, m.src, f(a)))
  }

  lemma StepShifts(s: Sys, step: Step)
    requires Disciplined(s) && Enabled(s, step)
    ensures Shifted(Where(s.store.jobs), Where(Apply(s, step).store.jobs), MoveOf(s, step))
  {
    if step.Ack? {
      AckOnList(s, step.i);
    }
    StepMoves(s, step);
    ShiftedWhere(s.store.jobs, Apply(s, step).store.jobs, MoveOf(s, step));
  }

  lemma ShiftedWhere(r: Jobs, r': Jobs, m: Move)
    requires Moved(r, r', m)
    ensures Shifted(Where(r), Where(r'), m)
  {
    var f, g := Where(r), Where(r');
    forall a ensures g(a) == Gain(a, m.dst, Lose(a, m.src, f(a))) {
      assert MovedAt(r, r', m, a);
    }
  }

  /** Whatever is somewhere after a move was there before it, or just arrived. */
  lemma Origin(f: Bags, g: Bags, m: Move, a: Place, j: Job)
    requires Shifted(f, g, m) && j in g(a)
    ensures j in f(a) || m.dst == Spot(a, j)
  {
  }

  /** Whatever was somewhere before a move is still there, or is what the move took. */
  lemma Stayed(f: Bags, g: Bags, m: Move, a: Place, j: Job)
    requires Shifted(f, g, m) && j in f(a)
    ensures j in g(a) || m.src == Spot(a, j)
  {
  }

  lemma Arrived(f: Bags, g: Bags, m: Move)
    requires Shifted(f, g, m) && m.dst.Spot?
    ensures m.dst.job in g(m.dst.place)
  {
  }

  /** What the move did not bring was there before, at least as often. */
  lemma OriginCount(f: Bags, g: Bags, m: Move, a: Place, j: Job)
    requires Shifted(f, g, m) && j in g(a) && (m.dst.Spot? ==> m.dst.job != j)
    ensures j in f(a) && g(a)[j] <= f(a)[j]
  {
  }

  /** The move concerns other identifiers. */
  lemma OtherIdOnce(f: Bags, g: Bags, m: Move, id: Id, b: Place, k: Job)
    requires OnlyAt(f, id, b, k) && Shifted(f, g, m) && (m.dst.Spot? ==> m.dst.job.id != id)
    ensures OnlyAt(g, id, b, k)
  {
    forall a, j | j in g(a) && j.id == id ensures a == b && j == k && g(a)[j] == 1 {
      OriginCount(f, g, m, a, j);
    }
  }

  /** The move brings a job whose identifier is nowhere else. */
  lemma NewIdOnce(f: Bags, g: Bags, m: Move)
    requires Shifted(f, g, m) && m.dst.Spot? && !Present(f, m.dst.job.id)
    ensures OnlyAt(g, m.dst.job.id, m.dst.place, m.dst.job)
  {
    forall a, j | j in g(a) && j.id == m.dst.job.id ensures Spot(a, j) == m.dst && g(a)[j] == 1 {
      Origin(f, g, m, a, j);
    }
  }

  /** The move takes the only job with an identifier and puts it elsewhere. */
  lemma SameIdOnce(f: Bags, g: Bags, m: Move, b: Place, k: Job)
    requires m.src.Spot? && m.dst.Spot? && m.src.job.id == m.dst.job.id
    requires OnlyAt(f, m.src.job.id, b, k) && Shifted(f, g, m)
    ensures OnlyAt(g, m.dst.job.id, m.dst.place, m.dst.job)
  {
    assert m.src == Spot(b, k);
    forall a, j | j in g(a) && j.id == m.dst.job.id ensures Spot(a, j) == m.dst && g(a)[j] == 1 {
      Origin(f, g, m, a, j);
    }
  }

  lemma PresentShift(f: Bags, g: Bags, m: Move, id: Id)
    requires Present(f, id) && Shifted(f, g, m)
    requires m.src.Spot? && m.src.job.id == id ==> m.dst.Spot? && m.dst.job.id == id
    ensures Present(g, id)
  {
    var a, j :| j in f(a) && j.id == id;
    if m.src == Spot(a, j) {
      Arrived(f, g, m);
    } else {
      Stayed(f, g, m, a, j);
    }
  }

  lemma IntactShift(f: Bags, g: Bags, m: Move, job: Job)
    requires Intact(f, job) && Shifted(f, g, m)
    requires m.dst.Spot? && m.dst.job.id == job.id ==> m.src.Spot? && SameWork(m.src.job, m.dst.job)
    ensures Intact(g, job)
  {
    if m.dst.Spot? && m.dst.job.id == job.id {
      assert m.src.job in f(m.src.place) && SameWork(m.src.job, job);
    }
    assert m.dst.Spot? && m.dst.job.id == job.id ==> SameWork(m.dst.job, job);
    forall a, j | j in g(a) && j.id == job.id ensures SameWork(j, job) {
      Origin(f, g, m, a, j);
    }
  }

  // ----- Steps -----

  /** The identifier was not given to a unique job. */
  predicate Ordinary(s: Sys, id: Id) {
    id.Hex? && !(id in s.issued && s.issued[id])
  }

  lemma UnissuedAbsent(s: Sys, id: Id)
    requires JobsOk(s.store.jobs, s.issued) && id.Hex? && id !in s.issued
    ensures !Present(Where(s.store.jobs), id)
  {
    forall a, j | j in At(s.store.jobs, a) ensures j.id != id {
      assert GoodAt(s.issued, a, j);
    }
  }

  /** A step that issues nothing moves a job it found, keeping its work, except that a unique
      job may be replaced by another unique one. */
  lemma Relocated(s: Sys, step: Step)
    requires ExecsOk(s) && Enabled(s, step) && MoveOf(s, step).dst.Spot?
    requires IssuedBy(step).None? && !step.EnqueuePeriodic?
    ensures var m := MoveOf(s, step);
            && m.src.Spot?
            && (SameWork(m.src.job, m.dst.job) || (m.dst.job.unique && GoodJob(s.issued, m.dst.job)))
  {
    if step.Ack? {
      FinishedGood(s.issued, s.execs[step.i], step.outcome, step.opts, step.now, step.backoff);
    }
  }

  /** A job with an ordinary identifier arrives only where the step took it from somewhere,
      keeping its work, or where the step just created it. */
  lemma ArrivalHasOrigin(s: Sys, step: Step, id: Id)
    requires Disciplined(s) && Enabled(s, step) && Ordinary(Apply(s, step), id)
    requires MoveOf(s, step).dst.Spot? && MoveOf(s, step).dst.job.id == id
    ensures var m := MoveOf(s, step);
            || (IssuedBy(step) == Some(m.dst.job) && id !in s.issued)
            || (m.src.Spot? && SameWork(m.src.job, m.dst.job))
  {
    if IssuedBy(step).None? && !step.EnqueuePeriodic? {
      Relocated(s, step);
    }
  }

  lemma StepOnce(s: Sys, step: Step, id: Id)
    requires Disciplined(s) && (Ordinary(s, id) ==> AtMostOnce(Where(s.store.jobs), id))
    ensures Ordinary(Next(s, step), id) ==> AtMostOnce(Where(Next(s, step).store.jobs), id)
  {
    if !Enabled(s, step) || !Ordinary(Apply(s, step), id) {
      return;
    }
    var f, g, m := Where(s.store.jobs), Where(Apply(s, step).store.jobs), MoveOf(s, step);
    StepShifts(s, step);
    var b, k :| OnlyAt(f, id, b, k);
    if !(m.dst.Spot? && m.dst.job.id == id) {
      OtherIdOnce(f, g, m, id, b, k);
    } else {
      ArrivalHasOrigin(s, step, id);
      if id !in s.issued {
        UnissuedAbsent(s, id);
        NewIdOnce(f, g, m);
      } else {
        SameIdOnce(f, g, m, b, k);
      }
    }
  }

  lemma {:induction false} RunOnce(run: seq<Step>, id: Id)
    ensures Ordinary(After(INIT, run), id) ==> AtMostOnce(Where(After(INIT, run).store.jobs), id)
  {
    if run == [] {
      assert OnlyAt(Where(INIT.store.jobs), id, AtZset(Dead), PeriodicJob(0, 0, 0));
    } else {
      RunOnce(run[..|run| - 1], id);
      RunDisciplined(run[..|run| - 1]);
      StepOnce(After(INIT, run[..|run| - 1]), run[|run| - 1], id);
    }
  }

  /** What may end a job: a successful run, SkipDead with no retries left, a client delete. */
  predicate Ends(s: Sys, step: Step, id: Id) {
    match step
    case Ack(i, outcome, opts, _, _) =>
      && s.LiveAt(i) && s.execs[i].raw.id == id
      && (outcome.Succeeded?
          || (opts.Some? && opts.value.skipDead && opts.value.maxFails <= s.execs[i].raw.fails + 1))
    case Delete(_, j, _) => j.id == id
    case _ => false
  }

  /** A step that does not end an ordinary job puts it somewhere. */
  lemma NotEndedArrives(s: Sys, step: Step, id: Id)
    requires Disciplined(s) && Enabled(s, step) && Ordinary(s, id) && !Ends(s, step, id)
    requires MoveOf(s, step).src.Spot? && MoveOf(s, step).src.job.id == id
    ensures MoveOf(s, step).dst.Spot? && SameWork(MoveOf(s, step).src.job, MoveOf(s, step).dst.job)
  {
    if step.Ack? {
      assert GoodExec(s.issued, s.execs[step.i]);
    }
  }

  predicate IssuedTo(s: Sys, id: Id) {
    id in s.issued && !s.issued[id] && id.Hex?
  }

  ghost predicate Kept(s: Sys, job: Job) {
    && IssuedTo(s, job.id)
    && Present(Where(s.store.jobs), job.id) && Intact(Where(s.store.jobs), job)
  }

  lemma StaysIssued(s: Sys, step: Step, id: Id)
    requires IssuedTo(s, id) && Enabled(s, step)
    ensures IssuedTo(Apply(s, step), id)
  {
  }

  lemma ArrivalIntact(s: Sys, step: Step, id: Id)
    requires Disciplined(s) && IssuedTo(s, id) && Enabled(s, step)
    requires MoveOf(s, step).dst.Spot? && MoveOf(s, step).dst.job.id == id
    ensures MoveOf(s, step).src.Spot? && SameWork(MoveOf(s, step).src.job, MoveOf(s, step).dst.job)
  {
    StaysIssued(s, step, id);
    ArrivalHasOrigin(s, step, id);
  }

  lemma StepKept(s: Sys, step: Step, job: Job)
    requires Disciplined(s) && Kept(s, job) && !Ends(s, step, job.id)
    ensures Kept(Next(s, step), job)
  {
    if Enabled(s, step) {
      var f, g, m := Where(s.store.jobs), Where(Apply(s, step).store.jobs), MoveOf(s, step);
      StepShifts(s, step);
      if m.src.Spot? && m.src.job.id == job.id {
        NotEndedArrives(s, step, job.id);
      }
      PresentShift(f, g, m, job.id);
      if m.dst.Spot? && m.dst.job.id == job.id {
        ArrivalIntact(s, step, job.id);
      }
      IntactShift(f, g, m, job);
      StaysIssued(s, step, job.id);
    }
  }

  /** Nothing ends the job during the run. */
  ghost predicate NeverEnds(s: Sys, run: seq<Step>, id: Id) {
    forall k :: 0 <= k < |run| ==> !Ends(After(s, run[..k]), run[k], id)
  }

  lemma {:induction false} RunKept(s: Sys, run: seq<Step>, job: Job)
    requires Disciplined(s) && Kept(s, job) && NeverEnds(s, run, job.id)
    ensures Kept(After(s, run), job) && Disciplined(After(s, run))
  {
    if run != [] {
      var prefix, last := run[..|run| - 1], run[|run| - 1];
      forall k | 0 <= k < |prefix| ensures !Ends(After(s, prefix[..k]), prefix[k], job.id) {
        assert prefix[..k] == run[..k];
      }
      RunKept(s, prefix, job);
      StepDisciplined(After(s, prefix), last);
      StepKept(After(s, prefix), last, job);
    }
  }

  /** From its enqueueing on, a job is in exactly one place, once, with its work intact, in
      every interleaving with every other step, until something named by Ends happens to it. */
  lemma NoJobLost(before: seq<Step>, enqueue: Step, run: seq<Step>)
    requires enqueue.Enqueue? || enqueue.EnqueueAt?
    requires Enabled(After(INIT, before), enqueue)
    requires NeverEnds(After(INIT, before + [enqueue]), run, enqueue.job.id)
    ensures var f := Where(After(INIT, before + [enqueue] + run).store.jobs);
            ExactlyOnce(f, enqueue.job.id) && Intact(f, enqueue.job)
  {
    var head := before + [enqueue];
    assert head[..|head| - 1] == before;
    RunDisciplined(before);
    RunDisciplined(head);
    EnqueueKept(After(INIT, before), enqueue);
    AfterConcat(INIT, head, run);
    RunKept(After(INIT, head), run, enqueue.job);
    RunOnce(head + run, enqueue.job.id);
    PresentOnce(Where(After(INIT, head + run).store.jobs), enqueue.job.id);
  }

  lemma PresentOnce(f: Bags, id: Id)
    requires Present(f, id) && AtMostOnce(f, id)
    ensures ExactlyOnce(f, id)
  {
    var b, k :| OnlyAt(f, id, b, k);
    var a, j :| j in f(a) && j.id == id;
    assert f(b)[k] == 1;
  }

  lemma EnqueueKept(s: Sys, step: Step)
    requires Disciplined(s) && (step.Enqueue? || step.EnqueueAt?) && Enabled(s, step)
    ensures Kept(Apply(s, step), step.job)
  {
    var f, g, m := Where(s.store.jobs), Where(Apply(s, step).store.jobs), MoveOf(s, step);
    UnissuedAbsent(s, step.job.id);
    StepShifts(s, step);
    Arrived(f, g, m);
    forall b, k | k in g(b) && k.id == step.job.id ensures SameWork(k, step.job) {
      Origin(f, g, m, b, k);
    }
  }

  /** The converse of NoJobLost: what Ends names does remove the job, and nothing else does. */
  lemma EndsExactly(run: seq<Step>, step: Step, id: Id)
    requires var s := After(INIT, run);
             IssuedTo(s, id) && Present(Where(s.store.jobs), id) && Enabled(s, step)
    ensures Present(Where(After(INIT, run + [step]).store.jobs), id) <==> !Ends(After(INIT, run), step, id)
  {
    var s := After(INIT, run);
    var f, g, m := Where(s.store.jobs), Where(Apply(s, step).store.jobs), MoveOf(s, step);
    assert (run + [step])[..|run + [step]| - 1] == run;
    RunDisciplined(run);
    RunOnce(run, id);
    StepShifts(s, step);
    if Ends(s, step, id) {
      EndsTakes(s, step, id);
      var b, k :| OnlyAt(f, id, b, k);
      LastCopyGone(f, g, m, b, k);
    } else {
      if m.src.Spot? && m.src.job.id == id {
        NotEndedArrives(s, step, id);
      }
      PresentShift(f, g, m, id);
    }
  }

  lemma EndsTakes(s: Sys, step: Step, id: Id)
    requires ExecsOk(s) && Enabled(s, step) && IssuedTo(s, id) && Ends(s, step, id)
    ensures MoveOf(s, step).src.Spot? && MoveOf(s, step).src.job.id == id && MoveOf(s, step).dst.Nowhere?
  {
    if step.Ack? {
      assert GoodExec(s.issued, s.execs[step.i]);
    }
  }

  lemma LastCopyGone(f: Bags, g: Bags, m: Move, b: Place, k: Job)
    requires m.src.Spot? && m.dst.Nowhere? && Shifted(f, g, m) && OnlyAt(f, m.src.job.id, b, k)
    ensures !Present(g, m.src.job.id)
  {
    assert m.src == Spot(b, k);
    forall a, j | j in g(a) ensures j.id != m.src.job.id {
      Origin(f, g, m, a, j);
    }
  }
}
