/** Crash recovery: requeueing a dead pool's in-progress jobs, cleaning its locks, and the two
    callers, the reaper and Stop. */
module Reaper {
  import opened Tally
  import opened JobStore
  import opened RedisServer
  import opened Locks
  import opened Clock

  /** Jobs in progress for a pool over a list of job types. */
  function TotalHeld(jobs: Jobs, names: seq<Name>, p: Pool): nat {
    if names == [] then 0 else TotalHeld(jobs, names[1..], p) + Held(jobs, names[0], p)
  }

  lemma {:induction false} TotalHeldDrops(jobs: Jobs, jobs': Jobs, names: seq<Name>, p: Pool)
    requires forall n :: Held(jobs', n, p) <= Held(jobs, n, p)
    ensures TotalHeld(jobs', names, p) <= TotalHeld(jobs, names, p)
    ensures (exists n :: n in names && Held(jobs', n, p) < Held(jobs, n, p)) ==>
              TotalHeld(jobs', names, p) < TotalHeld(jobs, names, p)
  {
    if names != [] {
      TotalHeldDrops(jobs, jobs', names[1..], p);
      assert forall n :: n in names ==> n == names[0] || n in names[1..];
    }
  }

  /** Taking a job back leaves, per job type, the in-progress list followed by the queue as it
      was, and the lock's distance from the in-progress length. */
  predicate SameLane(r: Store, r': Store, p: Pool, n: Name) {
    && r'.jobs.List(InProgress(n, p)) + r'.jobs.List(Queue(n)) == r.jobs.List(InProgress(n, p)) + r.jobs.List(Queue(n))
    && r'.Lock(n).count - Held(r'.jobs, n, p) == r.Lock(n).count - Held(r.jobs, n, p)
    && Get0(r'.Lock(n).info, p) - Held(r'.jobs, n, p) == Get0(r.Lock(n).info, p) - Held(r.jobs, n, p)
    && r'.Lock(n).info - {p} == r.Lock(n).info - {p}
    && Held(r'.jobs, n, p) <= Held(r.jobs, n, p)
  }

  /** Everything that is not a queue, a lock, or this pool's in-progress list stays. */
  ghost predicate OnlyPool(r: Store, r': Store, p: Pool) {
    && r'.jobs.zsets == r.jobs.zsets && r'.settings == r.settings && r'.keys == r.keys
    && forall n, q :: q != p ==> r'.jobs.List(InProgress(n, q)) == r.jobs.List(InProgress(n, q))
  }

  lemma ReenqueueSameLane(r: Store, n: Name, p: Pool, k: Name)
    requires r.jobs.List(InProgress(n, p)) != []
    ensures SameLane(r, ReenqueueTo(r, n, p), p, k)
    ensures OnlyPool(r, ReenqueueTo(r, n, p), p)
    ensures Held(ReenqueueTo(r, n, p).jobs, n, p) == Held(r.jobs, n, p) - 1
    ensures k != n ==> ReenqueueTo(r, n, p).Lock(k) == r.Lock(k)
                       && ReenqueueTo(r, n, p).jobs.List(Queue(k)) == r.jobs.List(Queue(k))
                       && ReenqueueTo(r, n, p).jobs.List(InProgress(k, p)) == r.jobs.List(InProgress(k, p))
  {
    var q := r.jobs.List(InProgress(n, p));
    assert q == q[..|q| - 1] + [Last(q)];
  }

  lemma SameLaneTransitive(a: Store, b: Store, c: Store, p: Pool, n: Name)
    requires SameLane(a, b, p, n) && SameLane(b, c, p, n)
    ensures SameLane(a, c, p, n)
  {
  }

  lemma ReenqueueShrinks(r: Store, names: seq<Name>, p: Pool)
    requires FirstHeld(r.jobs, names, p) < |names|
    ensures TotalHeld(Reenqueue(r, names, p).jobs, names, p) < TotalHeld(r.jobs, names, p)
  {
    var m, r' := names[FirstHeld(r.jobs, names, p)], Reenqueue(r, names, p);
    forall n ensures Held(r'.jobs, n, p) <= Held(r.jobs, n, p) {
      ReenqueueSameLane(r, m, p, n);
    }
    ReenqueueSameLane(r, m, p, m);
    TotalHeldDrops(r.jobs, r'.jobs, names, p);
  }

  /** Re-enqueueing until nothing is left. */
  function RequeueAll(r: Store, names: seq<Name>, p: Pool): Store
    decreases TotalHeld(r.jobs, names, p)
  {
    if FirstHeld(r.jobs, names, p) == |names| then r else
      ReenqueueShrinks(r, names, p);
      RequeueAll(Reenqueue(r, names, p), names, p)
  }

  /** requeueInProgressJobs: repeats the re-enqueue script until it finds nothing. Afterwards the
      pool has nothing in progress for these types; each queue holds its old jobs, to be popped
      first, and behind them the recovered ones in their original order; each lock was
      released once per recovered job. */
  method RequeueInProgressJobs(redis: Redis, p: Pool, names: seq<Name>)
    modifies redis`lists, redis`locks
    ensures redis.Contents() == RequeueAll(old(redis.Contents()), names, p)
    ensures OnlyPool(old(redis.Contents()), redis.Contents(), p)
    ensures forall n :: Requeued(old(redis.Contents()), redis.Contents(), p, names, n)
  {
    var more := true;
    while more
      invariant RequeueAll(redis.Contents(), names, p) == RequeueAll(old(redis.Contents()), names, p)
      invariant !more ==> FirstHeld(redis.Contents().jobs, names, p) == |names|
      invariant OnlyPool(old(redis.Contents()), redis.Contents(), p)
      invariant forall n :: SameLane(old(redis.Contents()), redis.Contents(), p, n)
      invariant forall n :: n !in names ==>
                  redis.Contents().Lock(n) == old(redis.Contents().Lock(n))
                  && redis.Contents().jobs.List(Queue(n)) == old(redis.Contents().jobs.List(Queue(n)))
                  && redis.Contents().jobs.List(InProgress(n, p)) == old(redis.Contents().jobs.List(InProgress(n, p)))
      invariant !more ==> forall n :: n in names ==> redis.Contents().jobs.List(InProgress(n, p)) == []
      decreases more, TotalHeld(redis.Contents().jobs, names, p)
    {
      ghost var r := redis.Contents();
      var res := redis.ReenqueueScript(names, p);
      more := res.Some?;
      ghost var r' := redis.Contents();
      if more {
        var m := res.value.1;
        assert r' == ReenqueueTo(r, m, p);
        forall n ensures SameLane(old(redis.Contents()), r', p, n) {
          ReenqueueSameLane(r, m, p, n);
          SameLaneTransitive(old(redis.Contents()), r, r', p, n);
        }
        forall n | n !in names
          ensures r'.Lock(n) == r.Lock(n) && r'.jobs.List(Queue(n)) == r.jobs.List(Queue(n))
                  && r'.jobs.List(InProgress(n, p)) == r.jobs.List(InProgress(n, p))
        {
          ReenqueueSameLane(r, m, p, n);
        }
        ReenqueueSameLane(r, m, p, m);
        ReenqueueShrinks(r, names, p);
      }
    }
    forall n ensures Requeued(old(redis.Contents()), redis.Contents(), p, names, n) {
      assert SameLane(old(redis.Contents()), redis.Contents(), p, n);
    }
  }

  /** Requeueing and then cleaning leaves a consistent lock consistent, whether or not the
      pool still had its entry when its jobs were taken back. */
  lemma RecoveredLock(r: Store, r': Store, p: Pool, n: Name)
    requires Counts(r.Lock(n), r.jobs, n) && SameLane(r, r', p, n) && OnlyPool(r, r', p) && Held(r'.jobs, n, p) == 0
    ensures Counts(r'.Lock(n).Cleaned(p), r'.jobs, n)
  {
    var info, info' := r.Lock(n).info, r'.Lock(n).info;
    SumWithout(info, p);
    SumWithout(info', p);
    SumNonNegative(info - {p});
    var l := r'.Lock(n).Cleaned(p);
    assert l.info == info - {p};
    forall q | q in l.info ensures l.info[q] == Held(r'.jobs, n, q) {
      assert q in info && l.info[q] == info[q] && q != p;
    }
  }

  lemma SumWithout(m: map<Pool, int>, p: Pool)
    ensures Sum(m) == Get0(m, p) + Sum(m - {p})
  {
    if p in m {
      SumRemove(m, p);
    } else {
      assert m - {p} == m;
    }
  }

  /** One job type of a recovered pool: nothing left in progress, its jobs behind the queue's
      own in their original order, no lock-info entry left, the other entries as they were. */
  predicate Recovered(r: Store, r': Store, p: Pool, n: Name) {
    && r'.jobs.List(InProgress(n, p)) == []
    && r'.jobs.List(Queue(n)) == r.jobs.List(InProgress(n, p)) + r.jobs.List(Queue(n))
    && r'.Lock(n).info == r.Lock(n).info - {p}
  }

  predicate Untouched(r: Store, r': Store, p: Pool, n: Name) {
    && r'.jobs.List(InProgress(n, p)) == r.jobs.List(InProgress(n, p))
    && r'.jobs.List(Queue(n)) == r.jobs.List(Queue(n))
    && r'.Lock(n) == r.Lock(n)
  }

  /** The effect of requeueing and then cleaning. */
  function RecoverStore(r: Store, names: seq<Name>, p: Pool): Store {
    var r1 := RequeueAll(r, names, p);
    r1.(locks := CleanLocks(r1.locks, names, p))
  }

  /** Requeueing followed by lock cleaning, as Stop and the reaper do for a pool whose job types
      are known. From consistent locks, every lock is exact afterwards: the sum of the other
      pools' entries. */
  method RecoverPool(redis: Redis, p: Pool, names: seq<Name>)
    modifies redis`lists, redis`locks
    ensures redis.Contents() == RecoverStore(old(redis.Contents()), names, p)
    ensures OnlyPool(old(redis.Contents()), redis.Contents(), p)
    ensures forall n :: n in names ==> Recovered(old(redis.Contents()), redis.Contents(), p, n)
    ensures forall n :: n !in names ==> Untouched(old(redis.Contents()), redis.Contents(), p, n)
    ensures old(LocksOk(redis.Contents())) ==>
              && LocksOk(redis.Contents())
              && forall n :: n in names ==>
                   redis.Contents().Lock(n).count == Sum(old(redis.Contents().Lock(n).info) - {p})
  {
    RequeueInProgressJobs(redis, p, names);
    ghost var r0, r := old(redis.Contents()), redis.Contents();
    redis.ReapLocksScript(names, p);
    forall n ensures if n in names then Recovered(r0, redis.Contents(), p, n) else Untouched(r0, redis.Contents(), p, n) {
      CleanedLane(r0, r, p, names, n);
    }
    if LocksOk(r0) {
      CleanedLocks(r0, r, p, names);
    }
  }

  /** What RequeueInProgressJobs leaves of one job type. */
  predicate Requeued(r0: Store, r: Store, p: Pool, names: seq<Name>, n: Name) {
    && SameLane(r0, r, p, n)
    && (if n in names then
          r.jobs.List(InProgress(n, p)) == []
          && r.jobs.List(Queue(n)) == r0.jobs.List(InProgress(n, p)) + r0.jobs.List(Queue(n))
        else
          r.Lock(n) == r0.Lock(n)
          && r.jobs.List(Queue(n)) == r0.jobs.List(Queue(n))
          && r.jobs.List(InProgress(n, p)) == r0.jobs.List(InProgress(n, p)))
  }

  lemma CleanedLane(r0: Store, r: Store, p: Pool, names: seq<Name>, n: Name)
    requires Requeued(r0, r, p, names, n)
    ensures var r' := r.(locks := CleanLocks(r.locks, names, p));
            if n in names then Recovered(r0, r', p, n) else Untouched(r0, r', p, n)
  {
    CleanLocksAt(r.locks, names, p, n);
  }

  lemma CleanedLocks(r0: Store, r: Store, p: Pool, names: seq<Name>)
    requires LocksOk(r0) && OnlyPool(r0, r, p) && forall n :: Requeued(r0, r, p, names, n)
    ensures var r' := r.(locks := CleanLocks(r.locks, names, p));
            LocksOk(r') && forall n :: n in names ==> r'.Lock(n).count == Sum(r0.Lock(n).info - {p})
  {
    var r' := r.(locks := CleanLocks(r.locks, names, p));
    forall n
      ensures Counts(r'.Lock(n), r'.jobs, n) && (n in names ==> r'.Lock(n).count == Sum(r0.Lock(n).info - {p}))
    {
      assert Counts(r0.Lock(n), r0.jobs, n) && Requeued(r0, r, p, names, n);
      CleanedLane(r0, r, p, names, n);
      CleanLocksAt(r.locks, names, p, n);
      if n in names {
        RecoveredLock(r0, r, p, n);
      } else {
        OtherLaneCounts(r0, r, p, n);
      }
    }
  }

  lemma OtherLaneCounts(r: Store, r': Store, p: Pool, n: Name)
    requires Counts(r.Lock(n), r.jobs, n) && OnlyPool(r, r', p) && r'.Lock(n) == r.Lock(n)
    requires r'.jobs.List(InProgress(n, p)) == r.jobs.List(InProgress(n, p))
    ensures Counts(r'.Lock(n), r'.jobs, n)
  {
    forall q ensures Held(r'.jobs, n, q) == Held(r.jobs, n, q) {
    }
  }

  // ----- Finding and reaping dead pools -----

  const DEAD_TIME := 10 * NANOS
  const EMPTY_NAME: Name := 0

  /** The heartbeat hash of a pool: when it last beat, and its job types. */
  datatype Beat = Beat(at: Option<int>, names: Option<seq<Name>>)

  /** strings.Split never yields an empty list. */
  function Split(names: seq<Name>): (r: seq<Name>)
    ensures r != []
  {
    if names == [] then [EMPTY_NAME] else names
  }

  /** The worker-pool set and the heartbeats beside the job data. */
  class Cluster {
    const redis: Redis
    var pools: set<Pool>
    var beats: map<Pool, Beat>

    constructor (redis: Redis)
      ensures this.redis == redis && pools == {} && beats == map[]
    {
      this.redis := redis;
      pools, beats := {}, map[];
    }

    /** findDeadPools. A pool in the set is dead when its heartbeat is gone, and when it last beat
        at least ten seconds ago and names its job types. Those are the job types found for it;
        none when the heartbeat is gone. */
    method FindDeadPools(now: int) returns (dead: map<Pool, seq<Name>>)
      ensures forall p :: p in dead <==> p in pools && (Vanished(beats, p) || Overdue(beats, p, now))
      ensures forall p :: p in dead ==> dead[p] == if Vanished(beats, p) then [] else NamesBeaten(beats, p)
    {
      dead := map[];
      var rest := pools;
      while rest != {}
        invariant rest <= pools
        invariant forall p :: p in dead <==> p in pools - rest && (Vanished(beats, p) || Overdue(beats, p, now))
        invariant forall p :: p in dead ==> dead[p] == if Vanished(beats, p) then [] else NamesBeaten(beats, p)
        decreases rest
      {
        var p :| p in rest;
        rest := rest - {p};
        if p !in beats || beats[p].at.None? {
          dead := dead[p := []];
          continue;
        }
        if beats[p].at.value * NANOS + DEAD_TIME > now {
          continue;
        }
        if beats[p].names.None? {
          continue;
        }
        dead := dead[p := Split(beats[p].names.value)];
      }
    }
  }

  /** The pool has no heartbeat. */
  predicate Vanished(beats: map<Pool, Beat>, p: Pool) {
    p in beats ==> beats[p].at.None?
  }

  /** The pool beat less than ten seconds ago. */
  predicate Beating(beats: map<Pool, Beat>, p: Pool, now: int) {
    p in beats && beats[p].at.Some? && now < (beats[p].at.value + 10) * NANOS
  }

  /** The pool last beat ten seconds ago or earlier, and names its job types. */
  predicate Overdue(beats: map<Pool, Beat>, p: Pool, now: int) {
    && p in beats && beats[p].at.Some? && (beats[p].at.value + 10) * NANOS <= now
    && beats[p].names.Some?
  }

  /** The job types a heartbeat names; an empty text names the empty one. */
  function NamesBeaten(beats: map<Pool, Beat>, p: Pool): seq<Name> {
    if p !in beats || beats[p].names.None? then []
    else if beats[p].names.value == [] then [EMPTY_NAME]
    else beats[p].names.value
  }

  /** The jobs recovered for one job type, given the pools in the order they were reaped. */
  function Gathered(jobs: Jobs, dead: map<Pool, seq<Name>>, order: seq<Pool>, n: Name): seq<Job>
    requires forall p :: p in order ==> p in dead
  {
    if order == [] then [] else
      var p := order[|order| - 1];
      (if n in dead[p] then jobs.List(InProgress(n, p)) else []) + Gathered(jobs, dead, order[..|order| - 1], n)
  }

  /** The job types whose lock entry of the pool is cleaned: those of its heartbeat, or the
      reaper's own when the heartbeat is gone. */
  function LockNames(dead: map<Pool, seq<Name>>, cur: seq<Name>, p: Pool): seq<Name>
    requires p in dead
  {
    if dead[p] == [] then cur else dead[p]
  }

  /** What reaping does to one pool's list and lock entry for one job type. In particular a
      pool without heartbeat keeps its in-progress jobs. */
  predicate Reaped(r: Store, r': Store, dead: map<Pool, seq<Name>>, cur: seq<Name>, p: Pool, n: Name)
    requires p in dead
  {
    && r'.jobs.List(InProgress(n, p)) == (if n in dead[p] then [] else r.jobs.List(InProgress(n, p)))
    && (if n in LockNames(dead, cur, p) then p !in r'.Lock(n).info
        else p in r'.Lock(n).info <==> p in r.Lock(n).info)
  }

  predicate Spared(r: Store, r': Store, p: Pool, n: Name) {
    && r'.jobs.List(InProgress(n, p)) == r.jobs.List(InProgress(n, p))
    && (p in r'.Lock(n).info <==> p in r.Lock(n).info)
    && Get0(r'.Lock(n).info, p) == Get0(r.Lock(n).info, p)
  }

  /** Nothing of the pool is left under this job type. */
  predicate Cleared(r: Store, p: Pool, n: Name) {
    r.jobs.List(InProgress(n, p)) == [] && p !in r.Lock(n).info
  }

  /** The pool keeps its jobs in progress, and loses its lock entries of the reaper's own types. */
  predicate LeftBehind(r: Store, r': Store, cur: seq<Name>, p: Pool, n: Name) {
    && r'.jobs.List(InProgress(n, p)) == r.jobs.List(InProgress(n, p))
    && (p in r'.Lock(n).info <==> p in r.Lock(n).info && n !in cur)
  }

  /** One pool reaped: its recovered job types, or only its lock entries of the current types
      when there was no heartbeat to name them. */
  predicate LaneReaped(r: Store, r': Store, p: Pool, names: seq<Name>, cur: seq<Name>, n: Name) {
    if n in names then Recovered(r, r', p, n)
    else
      && r'.jobs.List(InProgress(n, p)) == r.jobs.List(InProgress(n, p))
      && r'.jobs.List(Queue(n)) == r.jobs.List(Queue(n))
      && r'.Lock(n).info == if names == [] && n in cur then r.Lock(n).info - {p} else r.Lock(n).info
  }

  ghost predicate PoolReaped(r: Store, r': Store, p: Pool, names: seq<Name>, cur: seq<Name>) {
    && OnlyPool(r, r', p)
    && (LocksOk(r) ==> LocksOk(r'))
    && forall n :: LaneReaped(r, r', p, names, cur, n)
  }

  /** After reaping the pools in order: those are reaped, the others spared, and every queue
      has the recovered jobs behind its own. */
  ghost predicate Progress(r: Store, r': Store, dead: map<Pool, seq<Name>>, cur: seq<Name>, order: seq<Pool>)
    requires forall p :: p in order ==> p in dead
  {
    && (LocksOk(r) ==> LocksOk(r'))
    && (forall p, n :: p in order ==> Reaped(r, r', dead, cur, p, n))
    && (forall p, n :: p !in order ==> Spared(r, r', p, n))
    && (forall n :: r'.jobs.List(Queue(n)) == Gathered(r.jobs, dead, order, n) + r.jobs.List(Queue(n)))
  }

  lemma LaneStep(r0: Store, r: Store, r': Store, dead: map<Pool, seq<Name>>, cur: seq<Name>, p: Pool, q: Pool, n: Name)
    requires p in dead && q in dead && OnlyPool(r, r', p) && LaneReaped(r, r', p, dead[p], cur, n)
    requires p == q ==> Spared(r0, r, p, n)
    requires p != q ==> Reaped(r0, r, dead, cur, q, n)
    ensures Reaped(r0, r', dead, cur, q, n)
  {
  }

  lemma SparedStep(r0: Store, r: Store, r': Store, names: seq<Name>, cur: seq<Name>, p: Pool, q: Pool, n: Name)
    requires p != q && OnlyPool(r, r', p) && LaneReaped(r, r', p, names, cur, n) && Spared(r0, r, q, n)
    ensures Spared(r0, r', q, n)
  {
  }

  lemma ProgressStep(r0: Store, r: Store, r': Store, dead: map<Pool, seq<Name>>, cur: seq<Name>, order: seq<Pool>, p: Pool)
    requires (forall q :: q in order ==> q in dead) && p in dead && p !in order
    requires Progress(r0, r, dead, cur, order) && PoolReaped(r, r', p, dead[p], cur)
    ensures forall q :: q in order + [p] ==> q in dead
    ensures Progress(r0, r', dead, cur, order + [p])
  {
    forall q, n | q in order + [p] ensures Reaped(r0, r', dead, cur, q, n) {
      assert LaneReaped(r, r', p, dead[p], cur, n);
      assert p == q ==> Spared(r0, r, p, n);
      LaneStep(r0, r, r', dead, cur, p, q, n);
    }
    forall q, n | q !in order + [p] ensures Spared(r0, r', q, n) {
      assert LaneReaped(r, r', p, dead[p], cur, n) && Spared(r0, r, q, n);
      SparedStep(r0, r, r', dead[p], cur, p, q, n);
    }
    forall n ensures r'.jobs.List(Queue(n)) == Gathered(r0.jobs, dead, order + [p], n) + r0.jobs.List(Queue(n)) {
      assert LaneReaped(r, r', p, dead[p], cur, n) && Spared(r0, r, p, n);
      assert (order + [p])[..|order|] == order;
    }
  }

  /** The effect of reaping one pool, and several in order. */
  function ReapStore(r: Store, names: seq<Name>, cur: seq<Name>, p: Pool): Store {
    if names == [] then r.(locks := CleanLocks(r.locks, cur, p)) else RecoverStore(r, names, p)
  }

  function ReapAll(r: Store, dead: map<Pool, seq<Name>>, cur: seq<Name>, order: seq<Pool>): Store
    requires forall p :: p in order ==> p in dead
  {
    if order == [] then r else
      var p := order[|order| - 1];
      ReapStore(ReapAll(r, dead, cur, order[..|order| - 1]), dead[p], cur, p)
  }

  lemma {:induction false} RequeueAllHeld(r: Store, names: seq<Name>, p: Pool, n: Name)
    ensures RequeueAll(r, names, p).jobs.List(InProgress(n, p)) == if n in names then [] else r.jobs.List(InProgress(n, p))
    decreases TotalHeld(r.jobs, names, p)
  {
    var i := FirstHeld(r.jobs, names, p);
    if i < |names| {
      ReenqueueShrinks(r, names, p);
      ReenqueueSameLane(r, names[i], p, n);
      RequeueAllHeld(Reenqueue(r, names, p), names, p, n);
    }
  }

  /** Reaping is meant to requeue whatever a dead pool left in progress. It does so exactly when
      the job types found for the pool include all it holds, so without heartbeat only for a
      pool that holds nothing. */
  lemma ReapLeavesNothing(r: Store, names: seq<Name>, cur: seq<Name>, p: Pool)
    ensures (forall n :: ReapStore(r, names, cur, p).jobs.List(InProgress(n, p)) == [])
            <==> (forall n :: n !in names ==> r.jobs.List(InProgress(n, p)) == [])
  {
    forall n ensures ReapStore(r, names, cur, p).jobs.List(InProgress(n, p))
                     == if n in names then [] else r.jobs.List(InProgress(n, p)) {
      RequeueAllHeld(r, names, p, n);
    }
  }

  lemma ReapAllSnoc(r: Store, dead: map<Pool, seq<Name>>, cur: seq<Name>, order: seq<Pool>, p: Pool)
    requires (forall q :: q in order ==> q in dead) && p in dead
    ensures ReapAll(r, dead, cur, order + [p]) == ReapStore(ReapAll(r, dead, cur, order), dead[p], cur, p)
  {
    assert (order + [p])[..|order + [p]| - 1] == order;
  }

  /** Where the reaper's loop stands. */
  ghost predicate Reaping(r0: Store, r: Store, dead: map<Pool, seq<Name>>, cur: seq<Name>, order: seq<Pool>)
    requires forall p :: p in order ==> p in dead
  {
    && Progress(r0, r, dead, cur, order) && r == ReapAll(r0, dead, cur, order)
    && forall i, j :: 0 <= i < j < |order| ==> order[i] != order[j]
  }

  lemma ReapingStep(r0: Store, r: Store, r': Store, dead: map<Pool, seq<Name>>, cur: seq<Name>, order: seq<Pool>, p: Pool)
    requires (forall q :: q in order ==> q in dead) && p in dead && p !in order && Reaping(r0, r, dead, cur, order)
    requires PoolReaped(r, r', p, dead[p], cur) && r' == ReapStore(r, dead[p], cur, p)
    ensures forall q :: q in order + [p] ==> q in dead
    ensures Reaping(r0, r', dead, cur, order + [p])
  {
    ProgressStep(r0, r, r', dead, cur, order, p);
    ReapAllSnoc(r0, dead, cur, order, p);
  }

  /** What a whole reap means for a pool, by the state of its heartbeat. */
  lemma ReapOutcome(r: Store, r': Store, pools: set<Pool>, beats: map<Pool, Beat>, dead: map<Pool, seq<Name>>,
                    cur: seq<Name>, order: seq<Pool>, now: int)
    requires forall p :: p in dead <==> p in pools && (Vanished(beats, p) || Overdue(beats, p, now))
    requires forall p :: p in dead ==> dead[p] == if Vanished(beats, p) then [] else NamesBeaten(beats, p)
    requires (forall p :: p in order <==> p in dead) && Progress(r, r', dead, cur, order)
    ensures forall p :: p in pools && Beating(beats, p, now) ==> p !in dead && forall n :: Spared(r, r', p, n)
    ensures forall p :: p in pools && Overdue(beats, p, now) ==>
              p in dead && dead[p] != [] && forall n :: n in NamesBeaten(beats, p) ==> Cleared(r', p, n)
    ensures forall p :: p in pools && Vanished(beats, p) ==>
              p in dead && forall n :: LeftBehind(r, r', cur, p, n)
  {
    forall p, n | p in pools && Overdue(beats, p, now) && n in NamesBeaten(beats, p) ensures Cleared(r', p, n) {
      assert Reaped(r, r', dead, cur, p, n);
    }
    forall p, n | p in pools && Vanished(beats, p) ensures LeftBehind(r, r', cur, p, n) {
      assert Reaped(r, r', dead, cur, p, n);
    }
  }

  /** reap: requeue and clean every pool found dead. A pool that beat less than ten seconds ago
      keeps its jobs, its lock entries, its membership and its heartbeat. One that last beat
      earlier and names its job types has nothing left of these. One without heartbeat keeps its
      jobs in progress and loses its membership. */
  method Reap(c: Cluster, cur: seq<Name>, now: int) returns (ghost dead: map<Pool, seq<Name>>, ghost order: seq<Pool>)
    modifies c, c.redis`lists, c.redis`locks
    ensures forall p :: p in dead <==> p in old(c.pools) && (Vanished(old(c.beats), p) || Overdue(old(c.beats), p, now))
    ensures forall p :: p in dead ==> dead[p] == if Vanished(old(c.beats), p) then [] else NamesBeaten(old(c.beats), p)
    ensures (forall p :: p in order <==> p in dead) && forall i, j :: 0 <= i < j < |order| ==> order[i] != order[j]
    ensures Progress(old(c.redis.Contents()), c.redis.Contents(), dead, cur, order)
    ensures c.redis.Contents() == ReapAll(old(c.redis.Contents()), dead, cur, order)
    ensures c.pools == old(c.pools) - dead.Keys
    ensures forall p :: p in c.beats <==> p in old(c.beats) && !(p in dead && dead[p] != [])
    ensures forall p :: p in c.beats ==> c.beats[p] == old(c.beats)[p]
    ensures forall p :: p in old(c.pools) && Beating(old(c.beats), p, now) ==>
              && p in c.pools && p in c.beats
              && forall n :: Spared(old(c.redis.Contents()), c.redis.Contents(), p, n)
    ensures forall p :: p in old(c.pools) && Overdue(old(c.beats), p, now) ==>
              && p !in c.pools && p !in c.beats
              && forall n :: n in NamesBeaten(old(c.beats), p) ==> Cleared(c.redis.Contents(), p, n)
    ensures forall p :: p in old(c.pools) && Vanished(old(c.beats), p) ==>
              && p !in c.pools
              && forall n :: LeftBehind(old(c.redis.Contents()), c.redis.Contents(), cur, p, n)
  {
    ghost var r0 := c.redis.Contents();
    var found := c.FindDeadPools(now);
    dead := found;
    order := ReapFound(c, found, cur);
    ReapOutcome(r0, c.redis.Contents(), old(c.pools), old(c.beats), dead, cur, order, now);
  }

  /** The loop of reap over the pools found dead. */
  method ReapFound(c: Cluster, found: map<Pool, seq<Name>>, cur: seq<Name>) returns (ghost order: seq<Pool>)
    modifies c, c.redis`lists, c.redis`locks
    ensures forall p :: p in order <==> p in found
    ensures Reaping(old(c.redis.Contents()), c.redis.Contents(), found, cur, order)
    ensures c.pools == old(c.pools) - found.Keys
    ensures forall p :: p in c.beats <==> p in old(c.beats) && !(p in found && found[p] != [])
    ensures forall p :: p in c.beats ==> c.beats[p] == old(c.beats)[p]
  {
    order := [];
    var rest := found.Keys;
    ghost var r0 := c.redis.Contents();
    while rest != {}
      invariant rest <= found.Keys
      invariant forall p :: p in order <==> p in found.Keys - rest
      invariant Reaping(r0, c.redis.Contents(), found, cur, order)
      invariant c.pools == old(c.pools) - (found.Keys - rest)
      invariant forall p :: p in c.beats <==> p in old(c.beats) && !(p in order && found[p] != [])
      invariant forall p :: p in c.beats ==> c.beats[p] == old(c.beats)[p]
      decreases rest
    {
      var p :| p in rest;
      ghost var r := c.redis.Contents();
      ReapPool(c, p, found[p], cur);
      ReapingStep(r0, r, c.redis.Contents(), found, cur, order, p);
      order := order + [p];
      rest := rest - {p};
    }
  }

  /** The body of reap's loop for one dead pool. */
  method ReapPool(c: Cluster, p: Pool, names: seq<Name>, cur: seq<Name>)
    modifies c, c.redis`lists, c.redis`locks
    ensures PoolReaped(old(c.redis.Contents()), c.redis.Contents(), p, names, cur)
    ensures c.redis.Contents() == ReapStore(old(c.redis.Contents()), names, cur, p)
    ensures c.pools == old(c.pools) - {p}
    ensures c.beats == if names == [] then old(c.beats) else old(c.beats) - {p}
  {
    if names != [] {
      RecoverPool(c.redis, p, names);
      c.beats := c.beats - {p};
      c.pools := c.pools - {p};
    } else {
      c.pools := c.pools - {p};
      ghost var r := c.redis.Contents();
      c.redis.ReapLocksScript(cur, p);
      forall n ensures c.redis.Contents().Lock(n) == if n in cur then r.Lock(n).Cleaned(p) else r.Lock(n) {
        CleanLocksAt(r.locks, cur, p, n);
      }
      if LocksOk(r) {
        forall n ensures Counts(c.redis.Contents().Lock(n), r.jobs, n) {
          assert Counts(r.Lock(n), r.jobs, n);
          CleanCounts(r.Lock(n), r.jobs, n, p);
        }
      }
    }
  }

  /** Stop, once its workers have finished: recover the pool's own jobs, then drop its heartbeat. */
  method Stop(c: Cluster, p: Pool, names: seq<Name>)
    modifies c, c.redis`lists, c.redis`locks
    ensures c.redis.Contents() == RecoverStore(old(c.redis.Contents()), names, p)
    ensures OnlyPool(old(c.redis.Contents()), c.redis.Contents(), p)
    ensures forall n :: n in names ==> Recovered(old(c.redis.Contents()), c.redis.Contents(), p, n)
    ensures forall n :: n !in names ==> Untouched(old(c.redis.Contents()), c.redis.Contents(), p, n)
    ensures old(LocksOk(c.redis.Contents())) ==>
              && LocksOk(c.redis.Contents())
              && forall n :: n in names ==>
                   c.redis.Contents().Lock(n).count == Sum(old(c.redis.Contents().Lock(n).info) - {p})
    ensures c.pools == old(c.pools) - {p} && c.beats == old(c.beats) - {p}
  {
    RecoverPool(c.redis, p, names);
    c.pools, c.beats := c.pools - {p}, c.beats - {p};
  }
}
