/** The loops of the requeuer and of the reaper and the calls of an enqueuer are runs of the
    protocol, so whatever holds along every run holds for them. */
module Refinement {
  import opened Tally
  import opened JobStore
  import opened Protocol
  import opened Discipline
  import opened Locks
  import opened Capacity
  import opened RedisServer
  import opened Requeuer
  import opened Reaper
  import Pipeline
  import Bulk
  import Enqueueing

  lemma AfterOne(s: Sys, step: Step)
    ensures After(s, [step]) == Next(s, step)
  {
    assert [] + [step] == [step];
    AfterSnoc(s, [], step);
  }

  lemma AfterFirst(s: Sys, step: Step, rest: seq<Step>)
    ensures After(s, [step] + rest) == After(Next(s, step), rest)
  {
    AfterConcat(s, [step], rest);
    AfterOne(s, step);
  }

  // ----- The requeuer -----

  ghost function DrainRun(w: ZsetName, moved: seq<Job>, known: set<Name>, now: int): seq<Step> {
    if moved == [] then [] else
      DrainRun(w, moved[..|moved| - 1], known, now) + [Requeue(w, moved[|moved| - 1], known, now)]
  }

  lemma RequeueStep(s: Sys, w: ZsetName, j: Job, known: set<Name>, now: int)
    requires w != Dead && IsFirstDue(s.store.jobs.Zset(w), j, now)
    ensures Next(s, Requeue(w, j, known, now)) == WithJobs(s, Promote(s.store.jobs, w, j, known, now))
  {
  }

  /** Of what is left after the first n moves, the next one is the first due. */
  lemma NextIsFirst(z: Zset, moved: seq<Job>, n: nat, now: int)
    requires Ascending(z, moved, now) && n < |moved| && forall j :: j in z && z[j] <= now ==> j in moved
    ensures IsFirstDue(z - Members(moved[..n]), moved[n], now)
  {
    forall k | k in z && k !in moved[..n] ensures z[moved[n]] <= z[k] {
      if z[k] <= now {
        var i :| 0 <= i < |moved| && moved[i] == k;
        assert moved[..n] + moved[n..] == moved;
      }
    }
    forall i | 0 <= i < n ensures moved[..n][i] != moved[n] {
    }
  }

  lemma DrainStep(s: Sys, run: seq<Step>, jobs: Jobs, w: ZsetName, j: Job, known: set<Name>, now: int)
    requires After(s, run) == WithJobs(s, jobs) && w != Dead && IsFirstDue(jobs.Zset(w), j, now)
    ensures After(s, run + [Requeue(w, j, known, now)]) == WithJobs(s, Promote(jobs, w, j, known, now))
  {
    AfterSnoc(s, run, Requeue(w, j, known, now));
    RequeueStep(WithJobs(s, jobs), w, j, known, now);
  }

  lemma DrainSnoc(jobs: Jobs, w: ZsetName, moved: seq<Job>, j: Job, known: set<Name>, now: int)
    ensures DrainRun(w, moved + [j], known, now) == DrainRun(w, moved, known, now) + [Requeue(w, j, known, now)]
    ensures PromoteAll(jobs, w, moved + [j], known, now) == Promote(PromoteAll(jobs, w, moved, known, now), w, j, known, now)
  {
    assert (moved + [j])[..|moved + [j]| - 1] == moved;
  }

  lemma FirstAfter(jobs: Jobs, w: ZsetName, moved: seq<Job>, n: nat, known: set<Name>, now: int)
    requires w != Dead && Ascending(jobs.Zset(w), moved, now) && n < |moved|
    requires forall j :: j in jobs.Zset(w) && jobs.Zset(w)[j] <= now ==> j in moved
    ensures IsFirstDue(PromoteAll(jobs, w, moved[..n], known, now).Zset(w), moved[n], now)
  {
    PromoteAllZset(jobs, w, moved[..n], known, now, w);
    NextIsFirst(jobs.Zset(w), moved, n, now);
  }

  /** Draining is the run of one requeue step per job moved. */
  lemma {:induction false} DrainIsRun(s: Sys, w: ZsetName, moved: seq<Job>, n: nat, known: set<Name>, now: int)
    requires w != Dead && Ascending(s.store.jobs.Zset(w), moved, now) && n <= |moved|
    requires forall j :: j in s.store.jobs.Zset(w) && s.store.jobs.Zset(w)[j] <= now ==> j in moved
    ensures After(s, DrainRun(w, moved[..n], known, now)) == WithJobs(s, PromoteAll(s.store.jobs, w, moved[..n], known, now))
  {
    if n > 0 {
      var prefix, j, jobs := moved[..n - 1], moved[n - 1], s.store.jobs;
      assert moved[..n] == prefix + [j];
      DrainIsRun(s, w, moved, n - 1, known, now);
      FirstAfter(jobs, w, moved, n - 1, known, now);
      DrainSnoc(jobs, w, prefix, j, known, now);
      DrainStep(s, DrainRun(w, prefix, known, now), PromoteAll(jobs, w, prefix, known, now), w, j, known, now);
    }
  }

  // ----- The reaper -----

  /** What reaping assumes of a pool: it is dead, and no list of these names was orphaned. */
  ghost predicate Reapable(s: Sys, p: Pool, names: seq<Name>) {
    p in s.dead && forall n :: n in names ==> HasEntry(s, n, p)
  }

  /** The steps are those of a reaper working on these pools. */
  predicate Reaps(run: seq<Step>, pools: seq<Pool>) {
    forall k :: 0 <= k < |run| ==> (run[k].ReenqueueJob? || run[k].ReapLocks?) && run[k].pool in pools
  }

  lemma ReapsConcat(a: seq<Step>, b: seq<Step>, pools: seq<Pool>, all: seq<Pool>)
    requires Reaps(a, pools) && Reaps(b, all) && forall p :: p in pools ==> p in all
    ensures Reaps(a + b, all)
  {
    forall k | 0 <= k < |a + b|
      ensures ((a + b)[k].ReenqueueJob? || (a + b)[k].ReapLocks?) && (a + b)[k].pool in all
    {
      if k < |a| {
        assert (a + b)[k] == a[k];
      } else {
        assert (a + b)[k] == b[k - |a|];
      }
    }
  }

  lemma OnlyTheirs(run: seq<Step>, p: Pool, pools: seq<Pool>)
    requires Reaps(run, [p]) && p in pools
    ensures Reaps(run, pools)
  {
  }

  lemma ReapsOne(step: Step)
    requires step.ReenqueueJob? || step.ReapLocks?
    ensures Reaps([step], [step.pool])
  {
  }

  lemma CleanStep(s: Sys, p: Pool, names: seq<Name>)
    requires p in s.dead
    ensures Next(s, ReapLocks(p, names)).store == s.store.(locks := CleanLocks(s.store.locks, names, p))
  {
  }

  /** A job on an in-progress list has its entry on the ledger. */
  lemma {:induction false} FindEntry(es: seq<Exec>, n: Name, p: Pool, x: Job) returns (i: nat)
    requires Weigh(es, EntryWeight(n, p, x)) > 0
    ensures i < |es| && Entry(es[i], n, p, x)
  {
    i := |es| - 1;
    if !Entry(es[i], n, p, x) {
      i := FindEntry(es[..i], n, p, x);
    }
  }

  lemma ReenqueueStep(s: Sys, p: Pool, names: seq<Name>) returns (step: Step)
    requires Disciplined(s) && Reapable(s, p, names) && FirstHeld(s.store.jobs, names, p) < |names|
    ensures step.ReenqueueJob? && step.pool == p && Enabled(s, step)
    ensures Next(s, step).store == Reenqueue(s.store, names, p)
  {
    var n := names[FirstHeld(s.store.jobs, names, p)];
    var list := s.store.jobs.List(InProgress(n, p));
    assert HasEntry(s, n, p);
    assert LedgerAt(s, n, p, Last(list)) && Last(list) in multiset(list);
    var i := FindEntry(s.execs, n, p, Last(list));
    step := ReenqueueJob(p, names, i);
  }

  lemma StaysReapable(s: Sys, step: Step, p: Pool, names: seq<Name>)
    requires Disciplined(s) && Reapable(s, p, names) && (step.ReapLocks? || step.Restart? ==> step.pool != p)
    ensures Reapable(Next(s, step), p, names)
  {
    forall n | n in names ensures HasEntry(Next(s, step), n, p) {
      StepHasEntry(s, step, n, p);
    }
  }

  /** requeueInProgressJobs is a run of re-enqueue steps. */
  lemma {:induction false} RequeueIsRun(s: Sys, p: Pool, names: seq<Name>) returns (run: seq<Step>)
    requires Disciplined(s) && Reapable(s, p, names)
    ensures Reaps(run, [p]) && After(s, run).store == RequeueAll(s.store, names, p) && p in After(s, run).dead
    decreases TotalHeld(s.store.jobs, names, p)
  {
    if FirstHeld(s.store.jobs, names, p) == |names| {
      run := [];
    } else {
      var step := ReenqueueStep(s, p, names);
      ReenqueueShrinks(s.store, names, p);
      StepDisciplined(s, step);
      StaysReapable(s, step, p, names);
      var rest := RequeueIsRun(Next(s, step), p, names);
      run := [step] + rest;
      AfterFirst(s, step, rest);
      ReapsOne(step);
      ReapsConcat([step], rest, [p], [p]);
    }
  }

  /** Recovering a pool, as Stop and the reaper do, is such a run ending with the cleaning. */
  lemma RecoverIsRun(s: Sys, p: Pool, names: seq<Name>) returns (run: seq<Step>)
    requires Disciplined(s) && Reapable(s, p, names)
    ensures Reaps(run, [p]) && After(s, run).store == RecoverStore(s.store, names, p)
  {
    var requeues := RequeueIsRun(s, p, names);
    run := requeues + [ReapLocks(p, names)];
    AfterSnoc(s, requeues, ReapLocks(p, names));
    CleanStep(After(s, requeues), p, names);
    ReapsOne(ReapLocks(p, names));
    ReapsConcat(requeues, [ReapLocks(p, names)], [p], [p]);
  }

  lemma ReapIsRun(s: Sys, p: Pool, names: seq<Name>, cur: seq<Name>) returns (run: seq<Step>)
    requires Disciplined(s) && Reapable(s, p, names)
    ensures Reaps(run, [p]) && After(s, run).store == ReapStore(s.store, names, cur, p)
  {
    if names == [] {
      run := [ReapLocks(p, cur)];
      AfterOne(s, ReapLocks(p, cur));
      CleanStep(s, p, cur);
      ReapsOne(ReapLocks(p, cur));
    } else {
      run := RecoverIsRun(s, p, names);
    }
  }

  /** Reaping other pools does not orphan this one. */
  lemma {:induction false} OtherStaysReapable(s: Sys, run: seq<Step>, pools: seq<Pool>, q: Pool, names: seq<Name>)
    requires Disciplined(s) && Reapable(s, q, names) && Reaps(run, pools) && q !in pools
    ensures Disciplined(After(s, run)) && Reapable(After(s, run), q, names)
  {
    if run != [] {
      var prefix, last := run[..|run| - 1], run[|run| - 1];
      OtherStaysReapable(s, prefix, pools, q, names);
      StepDisciplined(After(s, prefix), last);
      StaysReapable(After(s, prefix), last, q, names);
    }
  }

  /** A whole reap is a run of re-enqueue and lock-cleaning steps of the pools found dead. */
  lemma {:induction false} ReapAllIsRun(s: Sys, dead: map<Pool, seq<Name>>, cur: seq<Name>, order: seq<Pool>)
    returns (run: seq<Step>)
    requires Disciplined(s) && forall p :: p in order ==> p in dead && Reapable(s, p, dead[p])
    requires forall i, j :: 0 <= i < j < |order| ==> order[i] != order[j]
    ensures Reaps(run, order) && After(s, run).store == ReapAll(s.store, dead, cur, order)
  {
    if order == [] {
      run := [];
    } else {
      var prefix, p := order[..|order| - 1], order[|order| - 1];
      assert order == prefix + [p] && p !in prefix;
      var first := ReapAllIsRun(s, dead, cur, prefix);
      OtherStaysReapable(s, first, prefix, p, dead[p]);
      var last := ReapIsRun(After(s, first), p, dead[p], cur);
      AfterConcat(s, first, last);
      ReapAllSnoc(s.store, dead, cur, prefix, p);
      run := first + last;
      OnlyTheirs(last, p, order);
      ReapsConcat(first, last, prefix, order);
    }
  }

  /** The branch of reap without heartbeat: the run it takes leaves the job in progress, with no
      lock entry that would let a later reap give it back. */
  lemma LeftInProgress(j: Job)
    requires j.id == Hex(0) && j.name == 1 && !j.unique && j.fails == 0
    ensures var s := After(INIT, [Enqueue(j), FetchJob(2, [1]), Crash(2)]);
            var s' := After(INIT, [Enqueue(j), FetchJob(2, [1]), Crash(2), ReapLocks(2, [1])]);
            && s'.store == ReapStore(s.store, [], [1], 2)
            && s'.store.jobs.List(InProgress(1, 2)) == [j] && s'.store.jobs.List(Queue(1)) == []
            && 2 !in s'.store.Lock(1).info && s'.store.Lock(1).count == 0
  {
    var a, b, c, d := Enqueue(j), FetchJob(2, [1]), Crash(2), ReapLocks(2, [1]);
    var s := After(INIT, [a, b, c]);
    AfterThree(INIT, a, b, c);
    AfterSnoc(INIT, [a, b, c], d);
    assert [a, b, c] + [d] == [a, b, c, d];
    OrphanSetup(j, s);
    OrphanCleaned(s, j);
  }

  lemma OrphanCleaned(s: Sys, j: Job)
    requires 2 in s.dead && s.store.jobs.List(InProgress(1, 2)) == [j] && s.store.Lock(1) == Lock.Lock(1, map[2 := 1])
    ensures var s' := Next(s, ReapLocks(2, [1]));
            && s'.store == ReapStore(s.store, [], [1], 2) && s'.store.jobs == s.store.jobs
            && 2 !in s'.store.Lock(1).info && s'.store.Lock(1).count == 0
  {
    CleanStep(s, 2, [1]);
    CleanLocksAt(s.store.locks, [1], 2, 1);
  }

  lemma OrphanSetup(j: Job, s: Sys)
    requires j.id == Hex(0) && j.name == 1 && !j.unique && j.fails == 0
    requires s == Next(Next(Next(INIT, Enqueue(j)), FetchJob(2, [1])), Crash(2))
    ensures 2 in s.dead && s.store.jobs.List(InProgress(1, 2)) == [j] && s.store.jobs.List(Queue(1)) == []
    ensures s.store.Lock(1) == Lock.Lock(1, map[2 := 1])
  {
    var s1 := Next(INIT, Enqueue(j));
    assert s1.store.jobs.List(Queue(1)) == [j] && s1.store.settings == map[];
    assert FirstEligible(s1.store, [1]) == 0;
  }

  // ----- Enqueuers -----

  function EnqueueRun(xs: seq<Bulk.Item>): seq<Step> {
    if xs == [] then [] else EnqueueRun(xs[..|xs| - 1]) + [Pipeline.StepOf(xs[|xs| - 1].param, xs[|xs| - 1].job)]
  }

  /** The item's job is built from its parameter under an identifier that is still free. */
  predicate FreshItem(s: Sys, x: Bulk.Item) {
    && x.job == Pipeline.JobOf(x.param, x.job.id, x.job.enqueuedAt)
    && x.job.id.Hex? && x.job.id !in s.issued
  }

  /** No two items share an identifier. */
  ghost predicate DistinctItems(bag: multiset<Bulk.Item>) {
    && (forall x :: bag[x] <= 1)
    && (forall x, y :: x in bag && y in bag && x.job.id == y.job.id ==> x == y)
  }

  lemma DistinctLast(xs: seq<Bulk.Item>)
    requires xs != [] && DistinctItems(multiset(xs))
    ensures DistinctItems(multiset(xs[..|xs| - 1]))
    ensures forall y :: y in xs[..|xs| - 1] ==> y.job.id != xs[|xs| - 1].job.id
  {
    var prefix, x := xs[..|xs| - 1], xs[|xs| - 1];
    assert xs == prefix + [x];
    assert multiset(xs) == multiset(prefix) + multiset{x};
    forall y ensures multiset(prefix)[y] <= 1 {
      assert multiset(xs)[y] <= 1;
    }
    forall y | y in prefix ensures y.job.id != x.job.id {
      assert y in multiset(prefix);
    }
  }

  lemma EnqueueIssues(s: Sys, x: Bulk.Item)
    requires FreshItem(s, x)
    ensures var s' := Next(s, Pipeline.StepOf(x.param, x.job));
            s'.store == Pipeline.Placed(s.store, x.param, x.job) && s'.issued.Keys == s.issued.Keys + {x.job.id}
  {
    Pipeline.PlacedIsStep(s, x.param, x.job.id, x.job.enqueuedAt);
  }

  /** Enqueueing items one after the other is a run of their steps. */
  lemma {:induction false} PlaceAllIsRun(s: Sys, xs: seq<Bulk.Item>)
    requires DistinctItems(multiset(xs)) && forall x :: x in xs ==> FreshItem(s, x)
    ensures After(s, EnqueueRun(xs)).store == Bulk.PlaceAll(s.store, xs)
    ensures forall id :: id in After(s, EnqueueRun(xs)).issued ==> id in s.issued || exists x :: x in xs && x.job.id == id
  {
    if xs != [] {
      var prefix, x := xs[..|xs| - 1], xs[|xs| - 1];
      DistinctLast(xs);
      PlaceAllIsRun(s, prefix);
      var s' := After(s, EnqueueRun(prefix));
      AfterSnoc(s, EnqueueRun(prefix), Pipeline.StepOf(x.param, x.job));
      assert x in xs && FreshItem(s, x);
      EnqueueIssues(s', x);
      forall id | id in Next(s', Pipeline.StepOf(x.param, x.job)).issued
        ensures id in s.issued || exists y :: y in xs && y.job.id == id
      {
        if id !in s.issued && id != x.job.id {
          var y :| y in prefix && y.job.id == id;
          assert y in xs;
        }
      }
    }
  }

  lemma BuiltDistinct(params: seq<Pipeline.BulkParam>, ids: seq<Id>, epoch: int)
    requires |ids| == |params| && forall i, j :: 0 <= i < j < |ids| ==> ids[i] != ids[j]
    ensures DistinctItems(multiset(Enqueueing.ItemsOf(params, ids, epoch)))
  {
    var xs := Enqueueing.ItemsOf(params, ids, epoch);
    forall x ensures multiset(xs)[x] <= 1 {
      CountOnce(xs, x);
    }
  }

  lemma {:induction false} CountOnce(xs: seq<Bulk.Item>, x: Bulk.Item)
    requires forall i, j :: 0 <= i < j < |xs| ==> xs[i].job.id != xs[j].job.id
    ensures multiset(xs)[x] <= 1
  {
    if xs != [] {
      var n := |xs| - 1;
      CountOnce(xs[..n], x);
      assert xs == xs[..n] + [xs[n]];
      assert xs[n] !in xs[..n];
    }
  }

  /** A bulk call is a run of enqueue steps, one per item it applies, whether all of them or, when
      the first WAIT failed, only those whose script was loaded. */
  lemma BulkIsRun(s: Sys, params: seq<Pipeline.BulkParam>, ids: seq<Id>, epoch: int, scripts: set<Pipeline.Script>)
    requires |ids| == |params| && forall i, j :: 0 <= i < j < |ids| ==> ids[i] != ids[j]
    requires forall id :: id in ids ==> id.Hex? && id !in s.issued
    ensures var xs := Bulk.Applied(scripts, Enqueueing.ItemsOf(params, ids, epoch));
            After(s, EnqueueRun(xs)).store == Bulk.PlaceAll(s.store, xs)
    ensures var xs := Bulk.Select(scripts, Enqueueing.ItemsOf(params, ids, epoch), false);
            After(s, EnqueueRun(xs)).store == Bulk.PlaceAll(s.store, xs)
  {
    var items := Enqueueing.ItemsOf(params, ids, epoch);
    var all, first := Bulk.Applied(scripts, items), Bulk.Select(scripts, items, false);
    BuiltDistinct(params, ids, epoch);
    Bulk.AppliedOnce(scripts, items);
    assert multiset(first) <= multiset(all);
    forall x | x in all ensures FreshItem(s, x) {
      assert x in multiset(items);
    }
    forall x | x in first ensures FreshItem(s, x) {
      assert x in multiset(all);
    }
    PlaceAllIsRun(s, all);
    PlaceAllIsRun(s, first);
  }
}
