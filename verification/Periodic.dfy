/** The periodic enqueuer: one pass over the cron schedules, the rule that skips a pass soon
    after another, and the coverage that overlapping horizons give together. */
module Periodic {
  import opened JobStore
  import opened Protocol
  import opened RedisServer

  /** A registered periodic job. next gives the first schedule instant after a time, in whole
      seconds. */
  datatype PeriodicSpec = PeriodicSpec(name: Name, spec: Text, next: int -> int)

  /** The instants of a schedule. */
  predicate Instant(next: int -> int, e: int) {
    next(e - 1) == e
  }

  /** The schedule moves forward, lands on instants and skips none. */
  ghost predicate IsSchedule(next: int -> int) {
    forall t :: next(t) > t && Instant(next, next(t)) && forall e :: t < e < next(t) ==> !Instant(next, e)
  }

  ghost predicate AreSchedules(jobs: seq<PeriodicSpec>) {
    forall i :: 0 <= i < |jobs| ==> IsSchedule(jobs[i].next)
  }

  const HORIZON := 240

  /** The instances of one periodic job strictly between two times. */
  predicate Due(pj: PeriodicSpec, lo: int, hi: int, j: Job) {
    var e := j.enqueuedAt;
    && j == Job(pj.name, Periodic(pj.name, pj.spec, e), e, NIL_ARGS, false, None, 0, NoError, 0)
    && lo < e < hi && Instant(pj.next, e)
  }

  /** The instances a pass at that time is meant to schedule. */
  ghost predicate Planned(jobs: seq<PeriodicSpec>, now: int, j: Job) {
    exists i :: 0 <= i < |jobs| && Due(jobs[i], now, now + HORIZON, j)
  }

  /** The set gained exactly the instances of one job in a window, each scored with its instant. */
  ghost predicate GainedDue(z: Zset, z': Zset, pj: PeriodicSpec, lo: int, hi: int) {
    forall j :: && (j in z' <==> j in z || Due(pj, lo, hi, j))
                && (j in z' ==> z'[j] == if Due(pj, lo, hi, j) then j.enqueuedAt else z[j])
  }

  /** The set gained exactly the planned instances, each scored with its instant. */
  ghost predicate GainedPlan(z: Zset, z': Zset, jobs: seq<PeriodicSpec>, now: int) {
    forall j :: && (j in z' <==> j in z || Planned(jobs, now, j))
                && (j in z' ==> z'[j] == if Planned(jobs, now, j) then j.enqueuedAt else z[j])
  }

  function Min(a: int, b: int): int {
    if a < b then a else b
  }

  /** Between an instant and the next one there is nothing to add. */
  lemma DueGrows(z: Zset, z1: Zset, z2: Zset, pj: PeriodicSpec, now: int, t: int, hi: int)
    requires IsSchedule(pj.next) && Instant(pj.next, t) && now < t < hi
    requires GainedDue(z, z1, pj, now, t) && z2 == z1[PeriodicJob(pj.name, pj.spec, t) := t]
    ensures GainedDue(z, z2, pj, now, Min(pj.next(t), hi))
  {
    forall j ensures Due(pj, now, Min(pj.next(t), hi), j) <==> Due(pj, now, t, j) || j == PeriodicJob(pj.name, pj.spec, t) {
    }
  }

  lemma PlanGrows(z: Zset, z1: Zset, z2: Zset, jobs: seq<PeriodicSpec>, i: nat, now: int)
    requires i < |jobs| && GainedPlan(z, z1, jobs[..i], now) && GainedDue(z1, z2, jobs[i], now, now + HORIZON)
    ensures GainedPlan(z, z2, jobs[..i + 1], now)
  {
    forall j ensures Planned(jobs[..i + 1], now, j) <==> Planned(jobs[..i], now, j) || Due(jobs[i], now, now + HORIZON, j) {
      PlannedGrows(jobs, i, now, j);
    }
  }

  lemma PlannedGrows(jobs: seq<PeriodicSpec>, i: nat, now: int, j: Job)
    requires i < |jobs|
    ensures Planned(jobs[..i + 1], now, j) <==> Planned(jobs[..i], now, j) || Due(jobs[i], now, now + HORIZON, j)
  {
    var now' := now + HORIZON;
    if Planned(jobs[..i], now, j) {
      var k :| 0 <= k < i && Due(jobs[..i][k], now, now', j);
      assert Due(jobs[..i + 1][k], now, now', j);
    }
    if Planned(jobs[..i + 1], now, j) {
      var k :| 0 <= k <= i && Due(jobs[..i + 1][k], now, now', j);
      assert k < i ==> Due(jobs[..i][k], now, now', j);
    }
    assert jobs[..i + 1][i] == jobs[i];
  }

  // ----- As protocol steps -----

  /** From s, the run reaches the given jobs by one pass: ZADDs of instances that lie ahead of
      its clock reading. */
  ghost predicate IsPass(s: Sys, run: seq<Step>, now: int, jobs: Jobs) {
    && (forall k :: 0 <= k < |run| ==> run[k].EnqueuePeriodic? && run[k].now == now && now < run[k].epoch)
    && After(s, run) == WithJobs(s, jobs)
  }

  lemma PassGrows(s: Sys, run: seq<Step>, now: int, jobs: Jobs, pj: PeriodicSpec, t: int)
    requires IsPass(s, run, now, jobs) && now < t
    ensures IsPass(s, run + [EnqueuePeriodic(pj.name, pj.spec, t, now)], now,
                   jobs.Zadd(Scheduled, PeriodicJob(pj.name, pj.spec, t), t))
  {
    var run' := run + [EnqueuePeriodic(pj.name, pj.spec, t, now)];
    assert run'[..|run'| - 1] == run;
  }

  lemma PassJoins(s: Sys, run: seq<Step>, more: seq<Step>, now: int, jobs: Jobs, jobs': Jobs)
    requires IsPass(s, run, now, jobs) && IsPass(WithJobs(s, jobs), more, now, jobs')
    ensures IsPass(s, run + more, now, jobs')
  {
    AfterConcat(s, run, more);
  }

  /** Only the scheduled set changed. */
  predicate OthersKept(jobs: Jobs, jobs': Jobs) {
    jobs'.lists == jobs.lists && jobs'.Zset(Retry) == jobs.Zset(Retry) && jobs'.Zset(Dead) == jobs.Zset(Dead)
  }

  lemma {:induction false} PassKeeps(s: Sys, run: seq<Step>)
    requires forall k :: 0 <= k < |run| ==> run[k].EnqueuePeriodic?
    ensures OthersKept(s.store.jobs, After(s, run).store.jobs)
  {
    if run != [] {
      PassKeeps(s, run[..|run| - 1]);
    }
  }

  lemma PassKeepsOthers(s: Sys, run: seq<Step>, now: int, jobs: Jobs)
    requires IsPass(s, run, now, jobs)
    ensures OthersKept(s.store.jobs, jobs)
  {
    PassKeeps(s, run);
  }

  /** What periodic enqueuers share: the Redis data and the key of the last pass. */
  class PeriodicEnqueuer {
    const redis: Redis
    const jobs: seq<PeriodicSpec>
    var last: Option<int>

    constructor (r: Redis, js: seq<PeriodicSpec>, l: Option<int>)
      ensures redis == r && jobs == js && last == l
    {
      redis, jobs, last := r, js, l;
    }

    function Entries(): Zset
      reads redis
    {
      redis.Contents().jobs.Zset(Scheduled)
    }

    /** The inner loop of enqueue: one periodic job, up to the horizon. */
    method EnqueueInstances(pj: PeriodicSpec, now: int, ghost s: Sys) returns (ghost run: seq<Step>)
      requires IsSchedule(pj.next) && s.store == redis.Contents()
      modifies redis`zsets
      ensures GainedDue(old(Entries()), Entries(), pj, now, now + HORIZON)
      ensures IsPass(s, run, now, redis.Contents().jobs)
    {
      var t := pj.next(now);
      run := [];
      while t < now + HORIZON
        invariant t > now && Instant(pj.next, t)
        invariant GainedDue(old(Entries()), Entries(), pj, now, Min(t, now + HORIZON))
        invariant IsPass(s, run, now, redis.Contents().jobs)
        decreases now + HORIZON - t
      {
        ghost var z := Entries();
        PassGrows(s, run, now, redis.Contents().jobs, pj, t);
        redis.ZAdd(Scheduled, PeriodicJob(pj.name, pj.spec, t), t);
        run := run + [EnqueuePeriodic(pj.name, pj.spec, t, now)];
        DueGrows(old(Entries()), z, Entries(), pj, now, t, now + HORIZON);
        t := pj.next(t);
      }
    }

    /** enqueue: every instance of every periodic job inside the horizon is scheduled at its
        own instant, nothing else, and the key of the last pass is set. */
    method Enqueue(now: int, ghost s: Sys) returns (ghost run: seq<Step>)
      requires AreSchedules(jobs) && s.store == redis.Contents()
      modifies redis`zsets, this`last
      ensures GainedPlan(old(Entries()), Entries(), jobs, now)
      ensures OthersKept(old(redis.Contents().jobs), redis.Contents().jobs)
      ensures last == Some(now)
      ensures IsPass(s, run, now, redis.Contents().jobs)
    {
      run := EnqueueAll(now, s);
      PassKeepsOthers(s, run, now, redis.Contents().jobs);
      last := Some(now);
    }

    /** The outer loop of enqueue. */
    method EnqueueAll(now: int, ghost s: Sys) returns (ghost run: seq<Step>)
      requires AreSchedules(jobs) && s.store == redis.Contents()
      modifies redis`zsets
      ensures GainedPlan(old(Entries()), Entries(), jobs, now)
      ensures IsPass(s, run, now, redis.Contents().jobs)
    {
      run := [];
      for i := 0 to |jobs|
        invariant GainedPlan(old(Entries()), Entries(), jobs[..i], now)
        invariant IsPass(s, run, now, redis.Contents().jobs)
      {
        ghost var z, r := Entries(), redis.Contents().jobs;
        ghost var more := EnqueueInstances(jobs[i], now, WithJobs(s, r));
        PlanGrows(old(Entries()), z, Entries(), jobs, i, now);
        PassJoins(s, run, more, now, r, redis.Contents().jobs);
        run := run + more;
      }
      assert jobs[..|jobs|] == jobs;
    }

    /** loop: the ticks of all pools in the order they happen, each pass taken as one step. */
    method Loop(ticks: seq<Tick>)
      requires AreSchedules(jobs)
      modifies redis`zsets, this`last
      ensures last == LastAfter(old(last), ticks) && OthersKept(old(redis.Contents().jobs), redis.Contents().jobs)
      ensures forall j :: j in Entries() <==> j in old(Entries()) || PlannedBy(Passes(old(last), ticks), jobs, j)
      ensures forall j :: j in Entries() ==>
                Entries()[j] == if PlannedBy(Passes(old(last), ticks), jobs, j) then j.enqueuedAt else old(Entries())[j]
    {
      for i := 0 to |ticks|
        invariant last == LastAfter(old(last), ticks[..i]) && OthersKept(old(redis.Contents().jobs), redis.Contents().jobs)
        invariant forall j :: j in Entries() <==> j in old(Entries()) || PlannedBy(Passes(old(last), ticks[..i]), jobs, j)
        invariant forall j :: j in Entries() ==>
          Entries()[j] == if PlannedBy(Passes(old(last), ticks[..i]), jobs, j) then j.enqueuedAt else old(Entries())[j]
      {
        assert ticks[..i + 1][..i] == ticks[..i];
        if ticks[i].failed || last.None? || last.value < ticks[i].now - 2 {
          ghost var run := Enqueue(ticks[i].now, INIT.(store := redis.Contents()));
        }
      }
      assert ticks[..|ticks|] == ticks;
    }
  }

  // ----- Coverage -----

  /** A timer firing in some pool. failed: the GET of the last-pass key returned an error. */
  datatype Tick = Tick(now: int, failed: bool)

  /** periodicEnqueuerSleep counted in minutes, then compared with seconds. */
  const SKIP := 2

  predicate ShouldEnqueue(last: Option<int>, tick: Tick) {
    tick.failed || last.None? || last.value < tick.now - SKIP
  }

  function LastAfter(last: Option<int>, ticks: seq<Tick>): Option<int> {
    if ticks == [] then last else
      var before := LastAfter(last, ticks[..|ticks| - 1]);
      if ShouldEnqueue(before, ticks[|ticks| - 1]) then Some(ticks[|ticks| - 1].now) else before
  }

  /** The clock readings of the passes made. */
  function Passes(last: Option<int>, ticks: seq<Tick>): seq<int> {
    if ticks == [] then [] else
      var before, tick := ticks[..|ticks| - 1], ticks[|ticks| - 1];
      Passes(last, before) + if ShouldEnqueue(LastAfter(last, before), tick) then [tick.now] else []
  }

  ghost predicate PlannedBy(passes: seq<int>, jobs: seq<PeriodicSpec>, j: Job) {
    exists p :: p in passes && Planned(jobs, p, j)
  }

  /** Ticks never go back and are at most gap seconds apart. */
  predicate Spaced(ticks: seq<Tick>, gap: int) {
    forall k :: 0 < k < |ticks| ==> ticks[k - 1].now <= ticks[k].now <= ticks[k - 1].now + gap
  }

  /** The widest spacing of ticks at which overlapping horizons still meet. */
  const MAX_GAP := HORIZON - SKIP - 1

  /** The last pass is recent at every tick, and it was made during the ticks or before them. */
  lemma {:induction false} LastRecent(last: Option<int>, ticks: seq<Tick>, gap: int)
    requires ticks != [] && Spaced(ticks, gap) && (last.Some? ==> last.value <= ticks[0].now)
    ensures var l, now := LastAfter(last, ticks), ticks[|ticks| - 1].now;
            && l.Some? && now - 2 <= l.value <= now
            && (l == last || l.value in Passes(last, ticks))
  {
    if |ticks| > 1 {
      LastRecent(last, ticks[..|ticks| - 1], gap);
    }
  }

  /** Some pass made before the instant had it inside its horizon. */
  predicate Covered(last: Option<int>, passes: seq<int>, e: int) {
    (exists p :: p in passes && p < e < p + HORIZON) || (last.Some? && last.value < e < last.value + HORIZON)
  }

  /** No firing is missed: although passes within two seconds of another are skipped, every
      instant after the first tick, and up to a horizon past the last one, was scheduled by a
      pass whose clock read strictly less. */
  lemma {:induction false} NoFiringMissed(last: Option<int>, ticks: seq<Tick>, gap: int, e: int)
    requires ticks != [] && Spaced(ticks, gap) && gap <= MAX_GAP && (last.Some? ==> last.value <= ticks[0].now)
    requires ticks[0].now < e < ticks[|ticks| - 1].now + HORIZON - SKIP
    ensures Covered(last, Passes(last, ticks), e)
  {
    if e > ticks[|ticks| - 1].now {
      LastRecent(last, ticks, gap);
    } else {
      var before := ticks[..|ticks| - 1];
      NoFiringMissed(last, before, gap, e);
      assert forall p :: p in Passes(last, before) ==> p in Passes(last, ticks);
    }
  }

  /** Every instant of every periodic job after the first tick is scheduled by some pass: one of
      these, or the last one before them. */
  lemma EveryInstantPlanned(last: Option<int>, jobs: seq<PeriodicSpec>, i: nat, ticks: seq<Tick>, gap: int, e: int)
    requires i < |jobs| && Instant(jobs[i].next, e)
    requires ticks != [] && Spaced(ticks, gap) && gap <= MAX_GAP && (last.Some? ==> last.value <= ticks[0].now)
    requires ticks[0].now < e < ticks[|ticks| - 1].now + HORIZON - SKIP
    ensures var job := PeriodicJob(jobs[i].name, jobs[i].spec, e);
            PlannedBy(Passes(last, ticks), jobs, job) || (last.Some? && Planned(jobs, last.value, job))
  {
    NoFiringMissed(last, ticks, gap, e);
    var p :| (p in Passes(last, ticks) || last == Some(p)) && p < e < p + HORIZON;
    assert Due(jobs[i], p, p + HORIZON, PeriodicJob(jobs[i].name, jobs[i].spec, e));
  }

  /** Ticks spaced this way miss nothing between the first and the last of them. */
  ghost predicate SafeGap(gap: int) {
    forall ticks: seq<Tick>, e: int :: ticks != [] && Spaced(ticks, gap) && ticks[0].now < e <= ticks[|ticks| - 1].now
                       ==> Covered(None, Passes(None, ticks), e)
  }

  /** 149 seconds, the longest the timer waits, is safe; the exact limit is 237. */
  lemma SafeGaps(gap: int)
    ensures SafeGap(gap) <==> gap <= 237
    ensures 149 <= MAX_GAP == 237
  {
    if gap <= MAX_GAP {
      forall ticks: seq<Tick>, e: int | ticks != [] && Spaced(ticks, gap) && ticks[0].now < e <= ticks[|ticks| - 1].now
        ensures Covered(None, Passes(None, ticks), e)
      {
        NoFiringMissed(None, ticks, gap, e);
      }
    } else {
      Missed();
    }
  }

  lemma OneMoreTick(ticks: seq<Tick>, tick: Tick)
    ensures LastAfter(None, ticks + [tick])
            == if ShouldEnqueue(LastAfter(None, ticks), tick) then Some(tick.now) else LastAfter(None, ticks)
    ensures Passes(None, ticks + [tick])
            == Passes(None, ticks) + if ShouldEnqueue(LastAfter(None, ticks), tick) then [tick.now] else []
  {
    assert (ticks + [tick])[..|ticks + [tick]| - 1] == ticks;
  }

  lemma Missed()
    ensures var ticks := [Tick(0, false), Tick(SKIP, false), Tick(HORIZON, false)];
            Spaced(ticks, MAX_GAP + 1) && !Covered(None, Passes(None, ticks), HORIZON)
  {
    var a, b, c := Tick(0, false), Tick(SKIP, false), Tick(HORIZON, false);
    assert Passes(None, [a]) == [0] && LastAfter(None, [a]) == Some(0) by {
      OneMoreTick([], a);
      assert [] + [a] == [a];
    }
    assert Passes(None, [a, b]) == [0] && LastAfter(None, [a, b]) == Some(0) by {
      OneMoreTick([a], b);
      assert [a] + [b] == [a, b];
    }
    assert Passes(None, [a, b, c]) == [0, HORIZON] by {
      OneMoreTick([a, b], c);
      assert [a, b] + [c] == [a, b, c];
    }
  }
}
