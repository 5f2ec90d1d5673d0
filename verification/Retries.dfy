/** Retries are bounded. Between requeues from the dead set, a job with a fixed MaxFails
    completes at most MaxFails runs, and its recorded failure count is exactly the number of
    runs it has completed wherever it sits. */
module Retries {
  import opened JobStore
  import opened Protocol
  import opened Movement
  import opened Discipline
  import opened Conservation

  /** The step completes a run of the job. */
  ghost predicate Completes(s: Sys, step: Step, id: Id) {
    Enabled(s, step) && step.Ack? && s.execs[step.i].raw.id == id
  }

  /** The step puts the job back to work from the dead set. */
  ghost predicate Revives(s: Sys, step: Step, id: Id) {
    Enabled(s, step) && step.RetryDead? && step.job.id == id && step.job.name in step.known
  }

  /** Runs the job completed since it was enqueued or last revived. */
  ghost function Runs(run: seq<Step>, id: Id): nat {
    if run == [] then 0 else
      var prefix, last := run[..|run| - 1], run[|run| - 1];
      CountNext(After(INIT, prefix), last, id, Runs(prefix, id))
  }

  /** Whenever the job's handler is known, it allows the same number of failures. */
  ghost predicate FixedMaxFails(run: seq<Step>, id: Id, max: nat) {
    forall k :: 0 <= k < |run| && Completes(After(INIT, run[..k]), run[k], id) && run[k].opts.Some? ==>
      run[k].opts.value.maxFails == max
  }

  /** Failure counts allowed at a place. */
  predicate FailsFit(a: Place, fails: int, max: nat) {
    match a
    case AtZset(Retry) => 1 <= fails < max
    case AtZset(Dead) => 0 <= fails <= max
    case _ => 0 <= fails < max
  }

  predicate Shows(a: Place, j: Job, count: nat, max: nat) {
    j.fails == count && FailsFit(a, count, max)
  }

  /** Every record of the job carries count failures, a number allowed where it is. */
  ghost predicate Tallied(f: Bags, id: Id, count: nat, max: nat) {
    forall a, j :: j in f(a) && j.id == id ==> Shows(a, j, count, max)
  }

  lemma ShiftTallied(f: Bags, g: Bags, m: Move, id: Id, count: nat, max: nat)
    requires Tallied(f, id, count, max) && Shifted(f, g, m)
    requires m.dst.Spot? && m.dst.job.id == id ==> Shows(m.dst.place, m.dst.job, count, max)
    ensures Tallied(g, id, count, max)
  {
    forall a, j | j in g(a) && j.id == id ensures Shows(a, j, count, max) {
      Origin(f, g, m, a, j);
      if j in f(a) {
        assert Shows(a, j, count, max);
      }
    }
  }

  /** The only record is replaced by another. */
  lemma ReplaceTallied(f: Bags, g: Bags, m: Move, id: Id, count: nat, max: nat)
    requires AtMostOnce(f, id) && Shifted(f, g, m) && m.src.Spot? && m.src.job.id == id
    requires m.dst.Spot? ==> m.dst.job.id == id && Shows(m.dst.place, m.dst.job, count, max)
    ensures Tallied(g, id, count, max)
  {
    var b, k :| OnlyAt(f, id, b, k);
    assert m.src == Spot(b, k);
    forall a, j | j in g(a) && j.id == id ensures Shows(a, j, count, max) {
      Origin(f, g, m, a, j);
    }
  }

  /** The fate of a run: to retry only with failures left, to dead from a known handler only
      with none left. */
  lemma CompletionFits(s: Sys, step: Step, id: Id, count: nat, max: nat)
    requires ExecsOk(s) && Ordinary(s, id) && Completes(s, step, id)
    requires step.opts.Some? ==> step.opts.value.maxFails == max
    requires Shows(MoveOf(s, step).src.place, MoveOf(s, step).src.job, count, max)
    ensures count < max && MoveOf(s, step).src.job.id == id
    ensures var dst := MoveOf(s, step).dst;
            dst.Spot? ==> dst.job.id == id && Shows(dst.place, dst.job, count + 1, max)
    ensures var dst := MoveOf(s, step).dst;
            dst.Spot? && dst.place == AtZset(Dead) && step.opts.Some? ==> dst.job.fails == max
  {
    assert GoodExec(s.issued, s.execs[step.i]);
  }

  /** Steps other than completions and revivals carry the failure count along. */
  lemma CarriedFits(s: Sys, step: Step, id: Id, count: nat, max: nat)
    requires Enabled(s, step) && !Completes(s, step, id) && !Revives(s, step, id)
    requires var m := MoveOf(s, step);
             m.src.Spot? && m.dst.Spot? && m.src.job.id == id && Shows(m.src.place, m.src.job, count, max)
    ensures Shows(MoveOf(s, step).dst.place, MoveOf(s, step).dst.job, count, max)
  {
  }

  lemma NewJobFits(s: Sys, step: Step, max: nat)
    requires Enabled(s, step) && IssuedBy(step).Some? && max > 0
    ensures var dst := MoveOf(s, step).dst; dst.Spot? ==> Shows(dst.place, dst.job, 0, max)
  {
  }

  lemma ArrivalFits(s: Sys, step: Step, id: Id, count: nat, max: nat)
    requires Disciplined(s) && Enabled(s, step) && Ordinary(Apply(s, step), id) && max > 0
    requires !Completes(s, step, id) && !Revives(s, step, id)
    requires var m := MoveOf(s, step);
             && m.dst.Spot? && m.dst.job.id == id
             && (m.src.Spot? && m.src.job.id == id ==> Shows(m.src.place, m.src.job, count, max))
    requires id !in s.issued ==> count == 0
    ensures Shows(MoveOf(s, step).dst.place, MoveOf(s, step).dst.job, count, max)
  {
    ArrivalHasOrigin(s, step, id);
    if IssuedBy(step).Some? {
      NewJobFits(s, step, max);
    } else {
      CarriedFits(s, step, id, count, max);
    }
  }

  lemma SourceFits(f: Bags, g: Bags, m: Move, id: Id, count: nat, max: nat)
    requires Tallied(f, id, count, max) && Shifted(f, g, m) && m.src.Spot? && m.src.job.id == id
    ensures Shows(m.src.place, m.src.job, count, max)
  {
  }

  lemma CompletionTallied(s: Sys, step: Step, id: Id, count: nat, max: nat)
    requires Disciplined(s) && Ordinary(s, id) && AtMostOnce(Where(s.store.jobs), id)
    requires Tallied(Where(s.store.jobs), id, count, max) && Completes(s, step, id)
    requires step.opts.Some? ==> step.opts.value.maxFails == max
    ensures count < max && Tallied(Where(Apply(s, step).store.jobs), id, count + 1, max)
  {
    var f, g, m := Where(s.store.jobs), Where(Apply(s, step).store.jobs), MoveOf(s, step);
    StepShifts(s, step);
    CompletionSource(s, step, id);
    SourceFits(f, g, m, id, count, max);
    CompletionFits(s, step, id, count, max);
    ReplaceTallied(f, g, m, id, count + 1, max);
  }

  lemma CompletionSource(s: Sys, step: Step, id: Id)
    requires Completes(s, step, id)
    ensures MoveOf(s, step).src.Spot? && MoveOf(s, step).src.job.id == id
  {
  }

  lemma RevivalTallied(s: Sys, step: Step, id: Id, max: nat)
    requires Disciplined(s) && AtMostOnce(Where(s.store.jobs), id) && max > 0 && Revives(s, step, id)
    ensures Tallied(Where(Apply(s, step).store.jobs), id, 0, max)
  {
    StepShifts(s, step);
    ReplaceTallied(Where(s.store.jobs), Where(Apply(s, step).store.jobs), MoveOf(s, step), id, 0, max);
  }

  lemma CarriedTallied(s: Sys, step: Step, id: Id, count: nat, max: nat)
    requires Disciplined(s) && Enabled(s, step) && Ordinary(Apply(s, step), id) && max > 0
    requires !Completes(s, step, id) && !Revives(s, step, id)
    requires Tallied(Where(s.store.jobs), id, count, max) && (id !in s.issued ==> count == 0)
    ensures Tallied(Where(Apply(s, step).store.jobs), id, count, max)
  {
    var f, g, m := Where(s.store.jobs), Where(Apply(s, step).store.jobs), MoveOf(s, step);
    StepShifts(s, step);
    if m.src.Spot? && m.src.job.id == id {
      SourceFits(f, g, m, id, count, max);
    }
    if m.dst.Spot? && m.dst.job.id == id {
      ArrivalFits(s, step, id, count, max);
    }
    ShiftTallied(f, g, m, id, count, max);
  }

  /** The count after one more step. */
  ghost function CountNext(s: Sys, step: Step, id: Id, count: nat): nat {
    if Completes(s, step, id) then count + 1 else if Revives(s, step, id) then 0 else count
  }

  lemma StepTallied(s: Sys, step: Step, id: Id, count: nat, max: nat)
    requires Disciplined(s) && Ordinary(s, id) && Ordinary(Next(s, step), id) && max > 0 && count <= max
    requires AtMostOnce(Where(s.store.jobs), id)
    requires Tallied(Where(s.store.jobs), id, count, max) && (id !in s.issued ==> count == 0)
    requires Completes(s, step, id) && step.opts.Some? ==> step.opts.value.maxFails == max
    ensures CountNext(s, step, id, count) <= max
    ensures Tallied(Where(Next(s, step).store.jobs), id, CountNext(s, step, id, count), max)
  {
    if Completes(s, step, id) {
      CompletionTallied(s, step, id, count, max);
    } else if Revives(s, step, id) {
      RevivalTallied(s, step, id, max);
    } else if Enabled(s, step) {
      CarriedTallied(s, step, id, count, max);
    }
  }

  lemma OrdinaryBefore(s: Sys, step: Step, id: Id)
    requires Ordinary(Next(s, step), id)
    ensures Ordinary(s, id)
  {
  }

  lemma {:induction false} RunsNeedIssue(run: seq<Step>, id: Id)
    requires id.Hex? && id !in After(INIT, run).issued
    ensures Runs(run, id) == 0
  {
    if run != [] {
      var prefix, last := run[..|run| - 1], run[|run| - 1];
      var s := After(INIT, prefix);
      assert id !in s.issued by {
        if Enabled(s, last) {
          assert s.issued.Keys <= Apply(s, last).issued.Keys;
        }
      }
      RunsNeedIssue(prefix, id);
      RunDisciplined(prefix);
      assert !Completes(s, last, id) by {
        assert Enabled(s, last) && last.Ack? ==> GoodExec(s.issued, s.execs[last.i]);
      }
    }
  }

  lemma FixedBefore(run: seq<Step>, id: Id, max: nat)
    requires run != [] && FixedMaxFails(run, id, max)
    ensures FixedMaxFails(run[..|run| - 1], id, max)
  {
    var prefix := run[..|run| - 1];
    forall k | 0 <= k < |prefix| && Completes(After(INIT, prefix[..k]), prefix[k], id) && prefix[k].opts.Some?
      ensures prefix[k].opts.value.maxFails == max
    {
      assert prefix[..k] == run[..k];
    }
  }

  /** At most MaxFails runs, and every record shows how many. */
  lemma {:induction false} BoundedRetries(run: seq<Step>, id: Id, max: nat)
    requires max > 0 && Ordinary(After(INIT, run), id) && FixedMaxFails(run, id, max)
    ensures Runs(run, id) <= max
    ensures Tallied(Where(After(INIT, run).store.jobs), id, Runs(run, id), max)
  {
    if run != [] {
      var prefix, last := run[..|run| - 1], run[|run| - 1];
      var s := After(INIT, prefix);
      OrdinaryBefore(s, last, id);
      FixedBefore(run, id, max);
      BoundedRetries(prefix, id, max);
      RunDisciplined(prefix);
      RunOnce(prefix, id);
      if id !in s.issued {
        RunsNeedIssue(prefix, id);
      }
      assert run[..|run| - 1] == prefix;
      StepTallied(s, last, id, Runs(prefix, id), max);
    }
  }

  /** A run that sends the job to the dead set although its handler is known used the last of
      its failures: the record shows MaxFails, and it has completed that many runs. */
  lemma KilledExhausted(run: seq<Step>, ack: Step, id: Id, max: nat)
    requires max > 0 && Ordinary(After(INIT, run), id) && FixedMaxFails(run + [ack], id, max)
    requires Completes(After(INIT, run), ack, id) && ack.opts.Some?
    requires MoveOf(After(INIT, run), ack).dst.Spot? && MoveOf(After(INIT, run), ack).dst.place == AtZset(Dead)
    ensures MoveOf(After(INIT, run), ack).dst.job.id == id && MoveOf(After(INIT, run), ack).dst.job.fails == max
    ensures Runs(run + [ack], id) == max
  {
    var s, all := After(INIT, run), run + [ack];
    var m := MoveOf(s, ack);
    assert all[..|run|] == run && all[|run|] == ack;
    FixedBefore(all, id, max);
    BoundedRetries(run, id, max);
    RunDisciplined(run);
    StepShifts(s, ack);
    SourceFits(Where(s.store.jobs), Where(Apply(s, ack).store.jobs), m, id, Runs(run, id), max);
    CompletionFits(s, ack, id, Runs(run, id), max);
  }
}
