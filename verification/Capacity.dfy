/** What the lock invariant is for: the exact meaning of each lock-info entry, the global cap
    on running jobs, and how lock counters behave from any state at all, consistent or not. */
module Capacity {
  import opened Tally
  import opened JobStore
  import opened Protocol
  import opened Movement
  import opened Discipline
  import opened Locks

  // ----- The lock in every reachable state -----

  /** The step removes a lock entry while the pool still has jobs of that name in progress:
      the branch of reap that finds no heartbeat. */
  ghost predicate Orphans(s: Sys, step: Step, n: Name, p: Pool) {
    Enabled(s, step) && step.ReapLocks? && step.pool == p && n in step.names && Held(s.store.jobs, n, p) > 0
  }

  predicate HasEntry(s: Sys, n: Name, p: Pool) {
    p in s.store.Lock(n).info || Held(s.store.jobs, n, p) == 0
  }

  /** The step fetches a job of that name for that pool. */
  predicate Fetches(s: Sys, step: Step, n: Name, p: Pool) {
    && step.FetchJob? && step.pool == p
    && FirstEligible(s.store, step.order) < |step.order| && step.order[FirstEligible(s.store, step.order)] == n
  }

  /** Only fetching adds to an in-progress list. */
  lemma HeldGrows(s: Sys, step: Step, n: Name, p: Pool)
    requires Disciplined(s) && Enabled(s, step)
    ensures Held(Apply(s, step).store.jobs, n, p) <= Held(s.store.jobs, n, p) || Fetches(s, step, n, p)
  {
    if step.Ack? {
      AckOnList(s, step.i);
    }
    StepMoves(s, step);
    MoveHeld(s.store.jobs, Apply(s, step).store.jobs, MoveOf(s, step), n, p);
  }

  /** Fetching creates the lock-info entry, and only reaping deletes it. */
  lemma EntryStays(s: Sys, step: Step, n: Name, p: Pool)
    requires Enabled(s, step) && (p in s.store.Lock(n).info || Fetches(s, step, n, p))
    ensures p in Apply(s, step).store.Lock(n).info || (step.ReapLocks? && step.pool == p && n in step.names)
  {
    if step.ReapLocks? {
      CleanLocksAt(s.store.locks, step.names, step.pool, n);
    }
  }

  lemma StepHasEntry(s: Sys, step: Step, n: Name, p: Pool)
    requires Disciplined(s) && HasEntry(s, n, p) && !Orphans(s, step, n, p)
    ensures HasEntry(Next(s, step), n, p)
  {
    if Enabled(s, step) {
      HeldGrows(s, step, n, p);
      if p in s.store.Lock(n).info || Fetches(s, step, n, p) {
        EntryStays(s, step, n, p);
      }
    }
  }

  lemma {:induction false} RunHasEntry(run: seq<Step>, n: Name, p: Pool)
    requires forall k :: 0 <= k < |run| ==> !Orphans(After(INIT, run[..k]), run[k], n, p)
    ensures HasEntry(After(INIT, run), n, p)
  {
    if run != [] {
      var prefix := run[..|run| - 1];
      forall k | 0 <= k < |prefix| ensures !Orphans(After(INIT, prefix[..k]), prefix[k], n, p) {
        assert prefix[..k] == run[..k];
      }
      RunHasEntry(prefix, n, p);
      RunDisciplined(prefix);
      StepHasEntry(After(INIT, prefix), run[|run| - 1], n, p);
    }
  }

  /** Lock = sum of lock-info; every entry between zero and the in-progress length, equal to it
      unless the entry was orphaned; the below-zero clamp never fires. */
  lemma LockInvariant(run: seq<Step>, n: Name, p: Pool)
    ensures var l, held := After(INIT, run).store.Lock(n), Held(After(INIT, run).store.jobs, n, p);
            && l.count == Sum(l.info)
            && 0 <= Get0(l.info, p) <= held
            && l.Cleaned(p).count == l.count - Get0(l.info, p)
    ensures (forall k :: 0 <= k < |run| ==> !Orphans(After(INIT, run[..k]), run[k], n, p))
            ==> Get0(After(INIT, run).store.Lock(n).info, p) == Held(After(INIT, run).store.jobs, n, p)
    ensures p !in After(INIT, run).dead
            ==> Get0(After(INIT, run).store.Lock(n).info, p) == Held(After(INIT, run).store.jobs, n, p)
  {
    var s := After(INIT, run);
    RunBalanced(run);
    assert Counts(s.store.Lock(n), s.store.jobs, n) && Tracked(s, n, p);
    CleanCounts(s.store.Lock(n), s.store.jobs, n, p);
    if forall k :: 0 <= k < |run| ==> !Orphans(After(INIT, run[..k]), run[k], n, p) {
      RunHasEntry(run, n, p);
    }
  }

  // ----- The cap -----

  function RunsWeight(dead: set<Pool>, n: Name): Exec -> nat {
    (e: Exec) => if e.live && e.pool !in dead && e.from == n then 1 else 0
  }

  /** Jobs of a name held by live workers, across all pools. */
  function LiveCount(s: Sys, n: Name): nat {
    Weigh(s.execs, RunsWeight(s.dead, n))
  }

  function PoolWeight(n: Name, p: Pool): Exec -> nat {
    (e: Exec) => if e.pool == p && e.from == n then 1 else 0
  }

  /** The jobs on the ledger for one list. */
  function Raws(es: seq<Exec>, n: Name, p: Pool): multiset<Job> {
    if es == [] then multiset{} else
      var e := es[|es| - 1];
      Raws(es[..|es| - 1], n, p) + (if e.pool == p && e.from == n then multiset{e.raw} else multiset{})
  }

  lemma {:induction false} RawsCount(es: seq<Exec>, n: Name, p: Pool, x: Job)
    ensures Raws(es, n, p)[x] == Weigh(es, EntryWeight(n, p, x))
  {
    if es != [] {
      RawsCount(es[..|es| - 1], n, p, x);
    }
  }

  lemma {:induction false} RawsSize(es: seq<Exec>, n: Name, p: Pool)
    ensures |Raws(es, n, p)| == Weigh(es, PoolWeight(n, p))
  {
    if es != [] {
      RawsSize(es[..|es| - 1], n, p);
    }
  }

  lemma LedgerLength(s: Sys, n: Name, p: Pool)
    requires Ledger(s)
    ensures Weigh(s.execs, PoolWeight(n, p)) == Held(s.store.jobs, n, p)
  {
    var list := multiset(s.store.jobs.List(InProgress(n, p)));
    forall x ensures Raws(s.execs, n, p)[x] == list[x] {
      assert LedgerAt(s, n, p, x);
      RawsCount(s.execs, n, p, x);
    }
    assert Raws(s.execs, n, p) == list;
    RawsSize(s.execs, n, p);
  }

  /** Entries of distinct pools add up to no more than the sum of the hash. */
  lemma {:induction false} LiveWithinSum(es: seq<Exec>, dead: set<Pool>, n: Name, info: map<Pool, int>)
    requires forall p :: p in info ==> info[p] >= 0
    requires forall p :: p !in dead ==> Weigh(es, PoolWeight(n, p)) <= Get0(info, p)
    ensures Weigh(es, RunsWeight(dead, n)) <= Sum(info)
  {
    if es == [] {
      SumNonNegative(info);
      return;
    }
    var es', e := es[..|es| - 1], es[|es| - 1];
    var counted := e.live && e.pool !in dead && e.from == n;
    assert counted ==> Weigh(es, PoolWeight(n, e.pool)) == Weigh(es', PoolWeight(n, e.pool)) + 1;
    var info' := if counted then info[e.pool := info[e.pool] - 1] else info;
    forall p | p !in dead ensures Weigh(es', PoolWeight(n, p)) <= Get0(info', p) {
      assert Weigh(es, PoolWeight(n, p)) <= Get0(info, p);
    }
    LiveWithinSum(es', dead, n, info');
    if counted {
      SumUpdate(info, e.pool, info[e.pool] - 1);
    }
  }

  /** Live workers hold at most as many jobs of a name as its lock counts. */
  lemma LiveWithinLock(s: Sys, n: Name)
    requires Disciplined(s) && Balanced(s)
    ensures LiveCount(s, n) <= s.store.Lock(n).count
  {
    var info := s.store.Lock(n).info;
    assert Counts(s.store.Lock(n), s.store.jobs, n);
    forall p | p !in s.dead ensures Weigh(s.execs, PoolWeight(n, p)) <= Get0(info, p) {
      assert Tracked(s, n, p);
      LedgerLength(s, n, p);
    }
    LiveWithinSum(s.execs, s.dead, n, info);
  }

  ghost predicate WithinCap(s: Sys, n: Name, cap: nat) {
    s.store.Setting(n).cap == cap && s.store.Lock(n).count <= cap
  }

  predicate KeepsCap(step: Step, n: Name, cap: nat) {
    step.Configure? && step.name == n ==> step.cap == cap
  }

  /** Only a fetch that found the name below its cap adds to the counter. */
  lemma CountGrows(s: Sys, step: Step, n: Name)
    requires Enabled(s, step) && !step.ReapLocks?
    ensures var count, count' := s.store.Lock(n).count, Apply(s, step).store.Lock(n).count;
            count' <= count || (count' == count + 1 && !s.store.AtCap(n))
  {
  }

  lemma CleaningShrinks(s: Sys, step: Step, n: Name)
    requires Balanced(s) && Enabled(s, step) && step.ReapLocks?
    ensures Apply(s, step).store.Lock(n).count <= s.store.Lock(n).count
  {
    assert Counts(s.store.Lock(n), s.store.jobs, n);
    CleanLocksAt(s.store.locks, step.names, step.pool, n);
    CleanCounts(s.store.Lock(n), s.store.jobs, n, step.pool);
  }

  lemma SettingStays(s: Sys, step: Step, n: Name, cap: nat)
    requires KeepsCap(step, n, cap) && s.store.Setting(n).cap == cap && Enabled(s, step)
    ensures Apply(s, step).store.Setting(n).cap == cap
  {
  }

  lemma StepWithinCap(s: Sys, step: Step, n: Name, cap: nat)
    requires Balanced(s) && cap > 0 && WithinCap(s, n, cap) && KeepsCap(step, n, cap)
    ensures WithinCap(Next(s, step), n, cap)
  {
    if Enabled(s, step) {
      if step.ReapLocks? { CleaningShrinks(s, step, n); } else { CountGrows(s, step, n); }
      SettingStays(s, step, n, cap);
    }
  }

  /** The global cap: once a non-zero cap is in force and not exceeded, then as long as it is
      not reconfigured no interleaving of fetches, acknowledgements, crashes, reaps, stops and restarts
      lets live workers of all pools together hold more jobs of that name. */
  lemma {:induction false} CapHolds(before: seq<Step>, run: seq<Step>, n: Name, cap: nat)
    requires cap > 0 && WithinCap(After(INIT, before), n, cap)
    requires forall k :: 0 <= k < |run| ==> KeepsCap(run[k], n, cap)
    ensures WithinCap(After(INIT, before + run), n, cap)
    ensures LiveCount(After(INIT, before + run), n) <= cap
  {
    AfterConcat(INIT, before, run);
    if run != [] {
      var prefix := run[..|run| - 1];
      CapHolds(before, prefix, n, cap);
      AfterConcat(INIT, before, prefix);
      RunDisciplined(before + prefix);
      RunBalanced(before + prefix);
      StepWithinCap(After(INIT, before + prefix), run[|run| - 1], n, cap);
    } else {
      assert before + run == before;
    }
    RunDisciplined(before + run);
    RunBalanced(before + run);
    LiveWithinLock(After(INIT, before + run), n);
  }

  // ----- Any state: drift -----

  ghost function Drift(l: Lock): int {
    l.count - Sum(l.info)
  }

  lemma AcquireDrift(l: Lock, p: Pool)
    ensures Drift(l.Acquired(p)) == Drift(l)
  {
    SumUpdate(l.info, p, Get0(l.info, p) + 1);
  }

  lemma ReleaseDrift(l: Lock, p: Pool)
    ensures Drift(l.Released(p)) == Drift(l)
  {
    SumUpdate(l.info, p, Get0(l.info, p) - 1);
  }

  /** Cleaning keeps the drift, or raises a negative one by clamping. */
  lemma CleanDrift(l: Lock, p: Pool)
    ensures p in l.info && l.count < l.info[p] ==> Drift(l) < Drift(l.Cleaned(p)) == -Sum(l.info - {p})
    ensures !(p in l.info && l.count < l.info[p]) ==> Drift(l.Cleaned(p)) == Drift(l)
  {
    if p in l.info {
      SumRemove(l.info, p);
    }
  }

  /** Drift moves from d to d': it stays, or rises towards zero from below. */
  predicate Settles(d: int, d': int) {
    d' == d || d < d' <= 0
  }

  /** The clamp would fire although the entries left behind sum to less than zero. */
  ghost predicate Overshoots(l: Lock, p: Pool) {
    p in l.info && l.count < l.info[p] && Sum(l.info - {p}) < 0
  }

  lemma CleanSettles(l: Lock, p: Pool)
    ensures Settles(Drift(l), Drift(l.Cleaned(p))) <==> !Overshoots(l, p)
  {
    CleanDrift(l, p);
  }

  /** Negative counts are needed for that. */
  lemma NonNegativeSettles(l: Lock, p: Pool)
    requires forall q :: q in l.info && q != p ==> l.info[q] >= 0
    ensures !Overshoots(l, p)
  {
    SumNonNegative(l.info - {p});
  }

  lemma SameLockSameDrift(s: Sys, step: Step, n: Name)
    requires Enabled(s, step) && !step.FetchJob? && !step.Ack? && !step.ReenqueueJob? && !step.ReapLocks?
    ensures Apply(s, step).store.Lock(n) == s.store.Lock(n)
  {
  }

  /** Fetching takes one lock once; acknowledging and re-enqueueing give one back once. */
  lemma FetchLock(s: Sys, step: Step, n: Name)
    requires step.FetchJob? && Enabled(s, step)
    ensures Apply(s, step).store.Lock(n) == s.store.Lock(n) || Apply(s, step).store.Lock(n) == s.store.Lock(n).Acquired(step.pool)
  {
  }

  lemma AckLock(s: Sys, step: Step, n: Name)
    requires step.Ack? && Enabled(s, step)
    ensures var l, l' := s.store.Lock(n), Apply(s, step).store.Lock(n);
            l' == l || l' == l.Released(s.execs[step.i].pool)
  {
  }

  lemma ReenqueueLock(s: Sys, step: Step, n: Name)
    requires step.ReenqueueJob? && Enabled(s, step)
    ensures Apply(s, step).store.Lock(n) == s.store.Lock(n) || Apply(s, step).store.Lock(n) == s.store.Lock(n).Released(step.pool)
  {
  }

  lemma LockStepDrift(s: Sys, step: Step, n: Name)
    requires Enabled(s, step) && (step.FetchJob? || step.Ack? || step.ReenqueueJob?)
    ensures Drift(Apply(s, step).store.Lock(n)) == Drift(s.store.Lock(n))
  {
    if step.FetchJob? {
      FetchLock(s, step, n);
      AcquireDrift(s.store.Lock(n), step.pool);
    } else if step.Ack? {
      AckLock(s, step, n);
      ReleaseDrift(s.store.Lock(n), s.execs[step.i].pool);
    } else {
      ReenqueueLock(s, step, n);
      ReleaseDrift(s.store.Lock(n), step.pool);
    }
  }

  /** The step cleans the lock of a name where cleaning makes its drift positive. */
  ghost predicate Spoils(s: Sys, step: Step, n: Name) {
    Enabled(s, step) && step.ReapLocks? && n in step.names && Overshoots(s.store.Lock(n), step.pool)
  }

  lemma StepDrift(s: Sys, step: Step, n: Name)
    ensures Settles(Drift(s.store.Lock(n)), Drift(Next(s, step).store.Lock(n))) <==> !Spoils(s, step, n)
    ensures !step.ReapLocks? ==> Drift(Next(s, step).store.Lock(n)) == Drift(s.store.Lock(n))
  {
    if Enabled(s, step) {
      if step.ReapLocks? {
        CleanLocksAt(s.store.locks, step.names, step.pool, n);
        CleanSettles(s.store.Lock(n), step.pool);
      } else if step.FetchJob? || step.Ack? || step.ReenqueueJob? {
        LockStepDrift(s, step, n);
      } else {
        SameLockSameDrift(s, step, n);
      }
    }
  }

  /** Self-stabilisation from any state: over any run in which no cleaning overshoots, drift
      never moves away from zero and never changes sign; a positive drift (a leaked lock) is
      never repaired. */
  lemma {:induction false} RunDrift(s: Sys, run: seq<Step>, n: Name)
    requires forall k :: 0 <= k < |run| ==> !Spoils(After(s, run[..k]), run[k], n)
    ensures Settles(Drift(s.store.Lock(n)), Drift(After(s, run).store.Lock(n)))
  {
    if run != [] {
      var prefix := run[..|run| - 1];
      forall k | 0 <= k < |prefix| ensures !Spoils(After(s, prefix[..k]), prefix[k], n) {
        assert prefix[..k] == run[..k];
      }
      RunDrift(s, prefix, n);
      StepDrift(After(s, prefix), run[|run| - 1], n);
    }
  }

  /** Why reaping must spare orphaned lists: re-enqueueing keeps the pool's entry from going
      negative exactly when the entry is still there. */
  lemma ReenqueueNeedsEntry(r: Store, n: Name, p: Pool)
    requires Counts(r.Lock(n), r.jobs, n) && Held(r.jobs, n, p) > 0
    ensures Get0(ReenqueueTo(r, n, p).Lock(n).info, p) >= 0 <==> p in r.Lock(n).info
  {
  }
}
