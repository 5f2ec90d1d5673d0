/** The concurrency lock: in every reachable state the counter is the sum of the lock-info
    hash and each entry is the length of its pool's in-progress list, so the clamp in the
    stale-lock script never fires and the global cap on running jobs holds. */
module Locks {
  import opened Tally
  import opened JobStore
  import opened Protocol
  import opened Movement
  import opened Discipline

  function Held(jobs: Jobs, n: Name, p: Pool): nat {
    |jobs.List(InProgress(n, p))|
  }

  /** The counter and the hash agree with each other and with the in-progress lists. */
  ghost predicate Counts(l: Lock, jobs: Jobs, n: Name) {
    && l.count == Sum(l.info)
    && forall p :: p in l.info ==> l.info[p] == Held(jobs, n, p)
  }

  ghost predicate LocksOk(r: Store) {
    forall n :: Counts(r.Lock(n), r.jobs, n)
  }

  /** A live pool with jobs in progress has its lock-info entry: only reaping removes one. */
  predicate Tracked(s: Sys, n: Name, p: Pool) {
    p in s.dead || p in s.store.Lock(n).info || s.store.jobs.List(InProgress(n, p)) == []
  }

  ghost predicate Balanced(s: Sys) {
    LocksOk(s.store) && forall n, p :: Tracked(s, n, p)
  }

  // ----- One lock -----

  lemma AcquireCounts(l: Lock, jobs: Jobs, jobs': Jobs, n: Name, p: Pool)
    requires Counts(l, jobs, n) && (p in l.info || Held(jobs, n, p) == 0)
    requires forall q :: Held(jobs', n, q) == Held(jobs, n, q) + (if q == p then 1 else 0)
    ensures Counts(l.Acquired(p), jobs', n)
  {
    SumUpdate(l.info, p, Get0(l.info, p) + 1);
  }

  lemma ReleaseCounts(l: Lock, jobs: Jobs, jobs': Jobs, n: Name, p: Pool)
    requires Counts(l, jobs, n) && p in l.info && Held(jobs, n, p) > 0
    requires forall q :: Held(jobs', n, q) == Held(jobs, n, q) - (if q == p then 1 else 0)
    ensures Counts(l.Released(p), jobs', n)
  {
    SumUpdate(l.info, p, Get0(l.info, p) - 1);
  }

  /** Cleaning a consistent lock is exact: the clamp at zero does not fire. */
  lemma CleanCounts(l: Lock, jobs: Jobs, n: Name, p: Pool)
    requires Counts(l, jobs, n)
    ensures Counts(l.Cleaned(p), jobs, n)
    ensures l.Cleaned(p).count == l.count - Get0(l.info, p) >= 0
  {
    if p in l.info {
      SumRemove(l.info, p);
      SumNonNegative(l.info - {p});
    } else {
      SumNonNegative(l.info);
    }
  }

  /** The script cleans each named lock once, however often it is named, and no other. */
  lemma {:induction false} CleanLocksAt(locks: Locks, names: seq<Name>, p: Pool, n: Name)
    ensures LockOf(CleanLocks(locks, names, p), n) == if n in names then LockOf(locks, n).Cleaned(p) else LockOf(locks, n)
  {
    if names != [] {
      CleanLocksAt(locks, names[..|names| - 1], p, n);
      assert names == names[..|names| - 1] + [names[|names| - 1]];
    }
  }

  lemma CleanLocksCounts(locks: Locks, jobs: Jobs, names: seq<Name>, p: Pool, n: Name)
    requires Counts(LockOf(locks, n), jobs, n)
    ensures Counts(LockOf(CleanLocks(locks, names, p), n), jobs, n)
    ensures LockOf(CleanLocks(locks, names, p), n).info ==
            if n in names then LockOf(locks, n).info - {p} else LockOf(locks, n).info
  {
    CleanLocksAt(locks, names, p, n);
    CleanCounts(LockOf(locks, n), jobs, n, p);
  }

  // ----- Steps -----

  lemma BagSize(a: Place, m: Move, bag: multiset<Job>)
    requires a.AtList? && (m.src.Spot? && m.src.place == a ==> m.src.job in bag)
    ensures |Gain(a, m.dst, Lose(a, m.src, bag))| ==
            |bag| - (if m.src.Spot? && m.src.place == a then 1 else 0) + (if m.dst.Spot? && m.dst.place == a then 1 else 0)
  {
  }

  /** How a move changes the length of an in-progress list. */
  lemma MoveHeld(r: Jobs, r': Jobs, m: Move, n: Name, p: Pool)
    requires Moved(r, r', m)
    ensures var a := AtList(InProgress(n, p));
            Held(r', n, p) == Held(r, n, p) - (if m.src.Spot? && m.src.place == a then 1 else 0)
                              + (if m.dst.Spot? && m.dst.place == a then 1 else 0)
  {
    var a := AtList(InProgress(n, p));
    assert MovedAt(r, r', m, a);
    BagSize(a, m, At(r, a));
    assert Held(r, n, p) == |At(r, a)| && Held(r', n, p) == |At(r', a)|;
  }

  /** Taking a job acquires the lock entry of the list it lengthens. */
  lemma AcquireBalanced(s: Sys, s': Sys, k: Name, p: Pool, m: Move)
    requires Balanced(s) && Moved(s.store.jobs, s'.store.jobs, m) && s'.dead == s.dead && p !in s.dead
    requires m.src.Spot? ==> m.src.place.AtZset? || m.src.place.list.Queue?
    requires m.dst.Spot? && m.dst.place == AtList(InProgress(k, p))
    requires s'.store.locks == s.store.locks[k := s.store.Lock(k).Acquired(p)]
    ensures Balanced(s')
  {
    forall n, q ensures Held(s'.store.jobs, n, q) == Held(s.store.jobs, n, q) + (if n == k && q == p then 1 else 0) {
      MoveHeld(s.store.jobs, s'.store.jobs, m, n, q);
    }
    assert Tracked(s, k, p);
    forall n ensures Counts(s'.store.Lock(n), s'.store.jobs, n) {
      assert Counts(s.store.Lock(n), s.store.jobs, n);
      if n == k {
        AcquireCounts(s.store.Lock(n), s.store.jobs, s'.store.jobs, n, p);
      }
    }
    forall n, q ensures Tracked(s', n, q) {
      assert Tracked(s, n, q);
      assert (n == k && q == p) || Held(s'.store.jobs, n, q) == Held(s.store.jobs, n, q);
    }
  }

  lemma FetchBalanced(s: Sys, p: Pool, order: seq<Name>)
    requires Balanced(s) && Enabled(s, FetchJob(p, order))
    ensures Balanced(Apply(s, FetchJob(p, order)))
  {
    var step := FetchJob(p, order);
    StepMoves(s, step);
    AcquireBalanced(s, Apply(s, step), order[FirstEligible(s.store, order)], p, MoveOf(s, step));
  }

  /** Acknowledging and re-enqueueing both release the lock entry of the list they shorten. */
  lemma ReleaseBalanced(s: Sys, s': Sys, k: Name, p: Pool, m: Move)
    requires Balanced(s) && Moved(s.store.jobs, s'.store.jobs, m) && s'.dead == s.dead
    requires m.src.Spot? && m.src.place == AtList(InProgress(k, p)) && p in s.store.Lock(k).info
    requires m.dst.Spot? ==> m.dst.place.AtZset? || m.dst.place.list.Queue?
    requires s'.store.locks == s.store.locks[k := s.store.Lock(k).Released(p)]
    ensures Balanced(s')
  {
    forall n, q ensures Held(s'.store.jobs, n, q) == Held(s.store.jobs, n, q) - (if n == k && q == p then 1 else 0) {
      MoveHeld(s.store.jobs, s'.store.jobs, m, n, q);
    }
    forall n ensures Counts(s'.store.Lock(n), s'.store.jobs, n) {
      assert Counts(s.store.Lock(n), s.store.jobs, n);
      if n == k {
        ReleaseCounts(s.store.Lock(n), s.store.jobs, s'.store.jobs, n, p);
      }
    }
    forall n, q ensures Tracked(s', n, q) {
      assert Tracked(s, n, q);
      assert Held(s'.store.jobs, n, q) <= Held(s.store.jobs, n, q);
    }
  }

  lemma AckBalanced(s: Sys, step: Step)
    requires Disciplined(s) && Balanced(s) && step.Ack? && Enabled(s, step)
    ensures Balanced(Apply(s, step))
  {
    var e := s.execs[step.i];
    AckOnList(s, step.i);
    StepMoves(s, step);
    assert GoodExec(s.issued, e);
    FinishedGood(s.issued, e, step.outcome, step.opts, step.now, step.backoff);
    assert Tracked(s, e.from, e.pool);
    ReleaseBalanced(s, Apply(s, step), e.from, e.pool, MoveOf(s, step));
  }

  lemma ReenqueueBalanced(s: Sys, step: Step)
    requires Balanced(s) && step.ReenqueueJob? && Enabled(s, step)
    ensures Balanced(Apply(s, step))
  {
    StepMoves(s, step);
    var n := step.names[FirstHeld(s.store.jobs, step.names, step.pool)];
    ReleaseBalanced(s, Apply(s, step), n, step.pool, MoveOf(s, step));
  }

  lemma ReapBalanced(s: Sys, step: Step)
    requires Balanced(s) && step.ReapLocks? && Enabled(s, step)
    ensures Balanced(Apply(s, step))
  {
    var s' := Apply(s, step);
    forall n ensures Counts(s'.store.Lock(n), s'.store.jobs, n) {
      assert Counts(s.store.Lock(n), s.store.jobs, n);
      CleanLocksCounts(s.store.locks, s.store.jobs, step.names, step.pool, n);
    }
    forall n, q ensures Tracked(s', n, q) {
      assert Tracked(s, n, q);
      assert Counts(s.store.Lock(n), s.store.jobs, n);
      CleanLocksCounts(s.store.locks, s.store.jobs, step.names, step.pool, n);
    }
  }

  predicate ChangesLocks(step: Step) {
    step.FetchJob? || step.Ack? || step.ReenqueueJob? || step.ReapLocks?
  }

  lemma OthersBalanced(s: Sys, step: Step)
    requires Balanced(s) && Enabled(s, step) && !ChangesLocks(step)
    ensures Balanced(Apply(s, step)) && Apply(s, step).store.locks == s.store.locks
  {
    var s' := Apply(s, step);
    StepMoves(s, step);
    forall n, q ensures Held(s'.store.jobs, n, q) == Held(s.store.jobs, n, q) {
      MoveHeld(s.store.jobs, s'.store.jobs, MoveOf(s, step), n, q);
    }
    forall n ensures Counts(s'.store.Lock(n), s'.store.jobs, n) {
      assert Counts(s.store.Lock(n), s.store.jobs, n);
    }
    forall n, q ensures Tracked(s', n, q) {
      assert Tracked(s, n, q);
      assert Held(s'.store.jobs, n, q) == Held(s.store.jobs, n, q);
    }
  }

  lemma StepBalanced(s: Sys, step: Step)
    requires Disciplined(s) && Balanced(s)
    ensures Balanced(Next(s, step))
  {
    if Enabled(s, step) {
      match step
      case FetchJob(p, order) => FetchBalanced(s, p, order);
      case Ack(_, _, _, _, _) => AckBalanced(s, step);
      case ReenqueueJob(_, _, _) => ReenqueueBalanced(s, step);
      case ReapLocks(_, _) => ReapBalanced(s, step);
      case _ => OthersBalanced(s, step);
    }
  }

  /** The lock invariant, in every reachable state. */
  lemma {:induction false} RunBalanced(run: seq<Step>)
    ensures Balanced(After(INIT, run))
  {
    if run != [] {
      var s := After(INIT, run[..|run| - 1]);
      RunBalanced(run[..|run| - 1]);
      RunDisciplined(run[..|run| - 1]);
      StepBalanced(s, run[|run| - 1]);
    }
  }
}
