/** Work queues are first in, first out, whoever fills them: enqueuers, requeuers, clients that
    retry dead jobs, and reapers that give back what a dead pool held. */
module Fifo {
  import opened JobStore
  import opened Protocol
  import opened Movement

  function QueueOf(s: Sys, n: Name): seq<Job> {
    s.store.jobs.List(Queue(n))
  }

  /** The job a step puts into the queue of a name, if any. */
  ghost function Enters(s: Sys, step: Step, n: Name): seq<Job> {
    if Enabled(s, step) && MoveOf(s, step).dst.Spot? && MoveOf(s, step).dst.place == AtList(Queue(n))
    then [MoveOf(s, step).dst.job] else []
  }

  /** The job a step takes out of the queue of a name, if any. */
  ghost function Leaves(s: Sys, step: Step, n: Name): seq<Job> {
    if Enabled(s, step) && MoveOf(s, step).src.Spot? && MoveOf(s, step).src.place == AtList(Queue(n))
    then [MoveOf(s, step).src.job] else []
  }

  /** All jobs that entered the queue during a run from the start, the latest first. */
  ghost function Entered(run: seq<Step>, n: Name): seq<Job> {
    if run == [] then [] else
      Enters(After(INIT, run[..|run| - 1]), run[|run| - 1], n) + Entered(run[..|run| - 1], n)
  }

  /** All jobs that left the queue, the latest first. */
  ghost function Left(run: seq<Step>, n: Name): seq<Job> {
    if run == [] then [] else
      Leaves(After(INIT, run[..|run| - 1]), run[|run| - 1], n) + Left(run[..|run| - 1], n)
  }

  lemma FetchQueue(s: Sys, step: Step, n: Name)
    requires Enabled(s, step) && step.FetchJob?
    ensures Enters(s, step, n) + QueueOf(s, n) == QueueOf(Apply(s, step), n) + Leaves(s, step, n)
  {
    var m := step.order[FirstEligible(s.store, step.order)];
    var q := QueueOf(s, m);
    assert q == q[..|q| - 1] + [Last(q)];
  }

  lemma SettleQueue(r: Jobs, k: ListKey, raw: Job, job: Job, fate: Fate, n: Name)
    requires k.InProgress?
    ensures Settle(r.Lrem(k, raw), job, fate).List(Queue(n)) == r.List(Queue(n))
  {
    var r1 := r.Lrem(k, raw);
    assert r1.List(Queue(n)) == r.List(Queue(n));
    match fate
    case Terminate =>
    case ToRetry(at) =>
    case ToDead(at) =>
  }

  lemma AckQueue(s: Sys, step: Step, n: Name)
    requires Enabled(s, step) && step.Ack?
    ensures QueueOf(Apply(s, step), n) == QueueOf(s, n)
  {
    var e := s.execs[step.i];
    var (job, fate) := Finished(e, step.outcome, step.opts, step.now, step.backoff);
    SettleQueue(s.store.jobs, InProgress(e.from, e.pool), e.raw, job, fate, n);
  }

  /** An acknowledged job goes to a sorted set or away. */
  lemma AckElsewhere(s: Sys, step: Step, n: Name)
    requires Enabled(s, step) && step.Ack?
    ensures Enters(s, step, n) == [] && Leaves(s, step, n) == []
  {
    var e := s.execs[step.i];
    var (job, fate) := Finished(e, step.outcome, step.opts, step.now, step.backoff);
    assert MoveOf(s, step) == Move(Spot(AtList(InProgress(e.from, e.pool)), e.raw), FateSpot(job, fate));
  }

  /** A step adds to a queue at one end only and takes from the other end only. */
  lemma StepQueue(s: Sys, step: Step, n: Name)
    ensures Enters(s, step, n) + QueueOf(s, n) == QueueOf(Next(s, step), n) + Leaves(s, step, n)
  {
    if Enabled(s, step) {
      if step.FetchJob? {
        FetchQueue(s, step, n);
      } else if step.Ack? {
        AckQueue(s, step, n);
        AckElsewhere(s, step, n);
      } else {
        OtherQueue(s, step, n);
      }
    }
  }

  lemma OtherQueue(s: Sys, step: Step, n: Name)
    requires Enabled(s, step) && !step.FetchJob? && !step.Ack?
    ensures QueueOf(Apply(s, step), n) == Enters(s, step, n) + QueueOf(s, n) && Leaves(s, step, n) == []
  {
  }

  /** A fetch by a pool that is not dead comes to this queue first of those that are not shut. */
  ghost predicate Serves(s: Sys, step: Step, n: Name) {
    && step.FetchJob? && step.pool !in s.dead
    && exists i :: 0 <= i < |step.order| && step.order[i] == n && FirstOpen(s.store, step.order, i)
  }

  lemma FetchLeaves(s: Sys, step: Step, n: Name)
    requires step.FetchJob?
    ensures Leaves(s, step, n) != [] <==> Serves(s, step, n)
  {
    var i := FirstEligible(s.store, step.order);
    forall m ensures s.store.Shut(m) <==> !s.store.Eligible(m) {
    }
    if Serves(s, step, n) {
      var k :| 0 <= k < |step.order| && step.order[k] == n && FirstOpen(s.store, step.order, k);
      assert k == i;
    } else if i < |step.order| {
      assert FirstOpen(s.store, step.order, i);
    }
  }

  /** A job leaves a queue exactly when a fetch serves it: whatever the order of the fetch, a
      queue that is paused or at its cap is not served, and one that is neither is not passed
      over. */
  lemma LeavesExactly(s: Sys, step: Step, n: Name)
    ensures Leaves(s, step, n) != [] <==> Serves(s, step, n)
  {
    if Enabled(s, step) {
      if step.FetchJob? {
        FetchLeaves(s, step, n);
      } else if step.Ack? {
        AckElsewhere(s, step, n);
      } else {
        OtherQueue(s, step, n);
      }
    } else if step.FetchJob? {
      FetchLeaves(s, step, n);
    }
  }

  /** No step of the run lifts the pause. */
  predicate StaysPaused(run: seq<Step>, n: Name) {
    forall i :: 0 <= i < |run| && run[i].Configure? && run[i].name == n ==> run[i].paused
  }

  lemma StepPaused(s: Sys, step: Step, n: Name)
    requires s.store.Setting(n).paused && (step.Configure? && step.name == n ==> step.paused)
    ensures Next(s, step).store.Setting(n).paused
    ensures QueueOf(Next(s, step), n) == Enters(s, step, n) + QueueOf(s, n)
  {
    LeavesExactly(s, step, n);
    StepQueue(s, step, n);
  }

  /** While a job type is paused nothing leaves its queue: what it held stays first in
      line, in order, and new jobs wait behind it. */
  lemma {:induction false} PausedQueue(s: Sys, run: seq<Step>, n: Name)
    requires s.store.Setting(n).paused && StaysPaused(run, n)
    ensures After(s, run).store.Setting(n).paused
    ensures exists more :: QueueOf(After(s, run), n) == more + QueueOf(s, n)
  {
    if run == [] {
      assert QueueOf(s, n) == [] + QueueOf(s, n);
    } else {
      var prefix, last := run[..|run| - 1], run[|run| - 1];
      PausedQueue(s, prefix, n);
      StepPaused(After(s, prefix), last, n);
      var more :| QueueOf(After(s, prefix), n) == more + QueueOf(s, n);
      var enters := Enters(After(s, prefix), last, n);
      assert enters + (more + QueueOf(s, n)) == (enters + more) + QueueOf(s, n);
    }
  }

  lemma Joined(enters: seq<Job>, q: seq<Job>, left: seq<Job>, q': seq<Job>, leaves: seq<Job>)
    requires enters + q == q' + leaves
    ensures enters + (q + left) == q' + (leaves + left)
  {
    assert enters + (q + left) == (enters + q) + left;
    assert q' + (leaves + left) == (q' + leaves) + left;
  }

  /** First in, first out: over any interleaving, what ever entered a queue is what left it, in
      the same order, followed by what it still holds. */
  lemma {:induction false} FirstInFirstOut(run: seq<Step>, n: Name)
    ensures Entered(run, n) == QueueOf(After(INIT, run), n) + Left(run, n)
  {
    if run != [] {
      var prefix, last := run[..|run| - 1], run[|run| - 1];
      var s := After(INIT, prefix);
      FirstInFirstOut(prefix, n);
      StepQueue(s, last, n);
      Joined(Enters(s, last, n), QueueOf(s, n), Left(prefix, n), QueueOf(Next(s, last), n), Leaves(s, last, n));
    }
  }

  /** The k-th job to leave a queue is the k-th that entered it. */
  lemma NoOvertaking(run: seq<Step>, n: Name, k: nat)
    requires k < |Left(run, n)|
    ensures k < |Entered(run, n)|
    ensures Left(run, n)[|Left(run, n)| - 1 - k] == Entered(run, n)[|Entered(run, n)| - 1 - k]
  {
    FirstInFirstOut(run, n);
  }
}
