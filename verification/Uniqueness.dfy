/** Unique jobs. In every interleaving, the copies of a key that are queued, scheduled, fetched
    but not past the worker's key deletion, or awaiting the client's key deletion number at
    most one if the key is set, plus one for every re-entry and every foreign key removal so
    far. Without those, at most one copy exists. */
module Uniqueness {
  import opened Tally
  import opened JobStore
  import opened Protocol
  import opened Movement
  import opened Discipline
  import opened Conservation

  // ----- Weighing bags -----

  ghost function BagWeigh(b: multiset<Job>, f: Job -> nat): nat
    decreases |b|
  {
    if b == multiset{} then 0 else
      var x :| x in b;
      f(x) + BagWeigh(b - multiset{x}, f)
  }

  lemma {:induction false} BagWeighRemove(b: multiset<Job>, x: Job, f: Job -> nat)
    requires x in b
    ensures BagWeigh(b, f) == f(x) + BagWeigh(b - multiset{x}, f)
    decreases |b|
  {
    var c :| c in b && BagWeigh(b, f) == f(c) + BagWeigh(b - multiset{c}, f);
    if c != x {
      BagWeighRemove(b - multiset{c}, x, f);
      BagWeighRemove(b - multiset{x}, c, f);
      assert b - multiset{c} - multiset{x} == b - multiset{x} - multiset{c};
    }
  }

  lemma BagWeighAdd(b: multiset<Job>, x: Job, f: Job -> nat)
    ensures BagWeigh(b + multiset{x}, f) == f(x) + BagWeigh(b, f)
  {
    BagWeighRemove(b + multiset{x}, x, f);
    assert b + multiset{x} - multiset{x} == b;
  }

  // ----- Copies of a key -----

  function HasKey(k: UniqueKey): Job -> nat {
    (j: Job) => if j.unique && j.Key() == k then 1 else 0
  }

  function HoldsKey(k: UniqueKey): Exec -> nat {
    (e: Exec) => if e.raw.unique && e.raw.Key() == k && !e.phase.Running? then 1 else 0
  }

  function OwesKey(k: UniqueKey): PendingDel -> nat {
    (d: PendingDel) => if d.own && d.key == k then 1 else 0
  }

  predicate Counted(a: Place, k: UniqueKey) {
    a == AtList(Queue(k.name)) || a == AtZset(Scheduled)
  }

  ghost function Waiting(f: Bags, k: UniqueKey): nat {
    BagWeigh(f(AtList(Queue(k.name))), HasKey(k)) + BagWeigh(f(AtZset(Scheduled)), HasKey(k))
  }

  /** Copies of the key: queued or scheduled, fetched but not past key deletion, or deleted by
      a client whose key deletion is still to come. */
  ghost function Copies(s: Sys, k: UniqueKey): nat {
    Waiting(Where(s.store.jobs), k) + Weigh(s.execs, HoldsKey(k)) + Weigh(s.pending, OwesKey(k))
  }

  function IsSet(s: Sys, k: UniqueKey): nat {
    if k in s.store.keys then 1 else 0
  }

  /** Re-entries of a copy that the key no longer guards, and removals of the key by someone
      who holds no copy. */
  ghost function Extra(s: Sys, step: Step, k: UniqueKey): nat {
    if !Enabled(s, step) then 0 else
      match step
      case Requeue(w, j, known, _) => if w == Retry && j.name in known then HasKey(k)(j) else 0
      case RetryDead(j, known, _) => if j.name in known then HasKey(k)(j) else 0
      case ReenqueueJob(_, _, i) => if s.execs[i].phase.Running? then HasKey(k)(s.execs[i].raw) else 0
      case Expire(k') => if k' == k then 1 else 0
      case FinishDelete(d) => if s.pending[d].key == k && !s.pending[d].own then 1 else 0
      case _ => 0
  }

  // ----- Moves -----

  function SpotLoad(t: Spot, k: UniqueKey): nat {
    if t.Spot? && Counted(t.place, k) then HasKey(k)(t.job) else 0
  }

  function LoadAt(t: Spot, a: Place, k: UniqueKey): nat {
    if t.Spot? && t.place == a then HasKey(k)(t.job) else 0
  }

  lemma BagMove(f: Bags, g: Bags, m: Move, a: Place, k: UniqueKey)
    requires Shifted(f, g, m)
    ensures BagWeigh(g(a), HasKey(k)) + LoadAt(m.src, a, k) <= BagWeigh(f(a), HasKey(k)) + LoadAt(m.dst, a, k)
  {
    var b := Lose(a, m.src, f(a));
    if m.src.Spot? && m.src.place == a {
      BagWeighRemove(f(a), m.src.job, HasKey(k));
    }
    if m.dst.Spot? && m.dst.place == a {
      BagWeighAdd(b, m.dst.job, HasKey(k));
    }
    assert g(a) == Gain(a, m.dst, b);
  }

  lemma WaitingMove(f: Bags, g: Bags, m: Move, k: UniqueKey)
    requires Shifted(f, g, m)
    ensures Waiting(g, k) + SpotLoad(m.src, k) <= Waiting(f, k) + SpotLoad(m.dst, k)
  {
    BagMove(f, g, m, AtList(Queue(k.name)), k);
    BagMove(f, g, m, AtZset(Scheduled), k);
  }

  // ----- Steps -----

  /** What the step changes outside lists and sorted sets. */
  ghost function Held(s: Sys, k: UniqueKey): nat {
    Weigh(s.execs, HoldsKey(k)) + Weigh(s.pending, OwesKey(k))
  }

  lemma FetchHeld(s: Sys, step: Step, k: UniqueKey)
    requires Disciplined(s) && Enabled(s, step) && step.FetchJob?
    ensures Held(Apply(s, step), k) + SpotLoad(MoveOf(s, step).dst, k) <= Held(s, k) + SpotLoad(MoveOf(s, step).src, k)
  {
    var s' := Apply(s, step);
    var e := s'.execs[|s.execs|];
    WeighAppend(s.execs, e, HoldsKey(k));
    ListGood(s.store.jobs, s.issued, Queue(e.from));
  }

  /** A change of phase never adds a copy. */
  lemma PhaseHeld(s: Sys, step: Step, k: UniqueKey)
    requires Disciplined(s) && Enabled(s, step) && (step.Start? || step.ReadKey? || step.Forget?)
    ensures Held(Apply(s, step), k) <= Held(s, k)
  {
    WeighUpdate(s.execs, step.i, Apply(s, step).execs[step.i], HoldsKey(k));
  }

  lemma DeleteKeyHeld(s: Sys, step: Step, k: UniqueKey)
    requires Disciplined(s) && Enabled(s, step) && step.DeleteKey?
    ensures Held(Apply(s, step), k) + IsSet(s, k) <= Held(s, k) + IsSet(Apply(s, step), k)
  {
    assert GoodExec(s.issued, s.execs[step.i]);
    WeighUpdate(s.execs, step.i, Apply(s, step).execs[step.i], HoldsKey(k));
  }

  lemma FateUncounted(job: Job, fate: Fate, k: UniqueKey)
    ensures SpotLoad(FateSpot(job, fate), k) == 0
  {
  }

  lemma AckHeld(s: Sys, step: Step, k: UniqueKey)
    requires Enabled(s, step) && step.Ack?
    ensures Held(Apply(s, step), k) + SpotLoad(MoveOf(s, step).dst, k) <= Held(s, k)
  {
    var (job, fate) := Finished(s.execs[step.i], step.outcome, step.opts, step.now, step.backoff);
    FateUncounted(job, fate, k);
    WeighWithout(s.execs, step.i, HoldsKey(k));
  }

  lemma ReenqueueHeld(s: Sys, step: Step, k: UniqueKey)
    requires Disciplined(s) && Enabled(s, step) && step.ReenqueueJob?
    ensures Held(Apply(s, step), k) + SpotLoad(MoveOf(s, step).dst, k)
            <= Held(s, k) + SpotLoad(MoveOf(s, step).src, k) + Extra(s, step, k)
  {
    WeighWithout(s.execs, step.i, HoldsKey(k));
  }

  /** The requeuer and the client's retry. */
  lemma RequeueHeld(s: Sys, step: Step, k: UniqueKey)
    requires Disciplined(s) && Enabled(s, step) && (step.Requeue? || step.RetryDead?)
    ensures Held(Apply(s, step), k) + SpotLoad(MoveOf(s, step).dst, k)
            <= Held(s, k) + SpotLoad(MoveOf(s, step).src, k) + Extra(s, step, k)
  {
    ZsetGood(s.store.jobs, s.issued, if step.Requeue? then step.zset else Dead, step.job);
  }

  lemma DeleteHeld(s: Sys, step: Step, k: UniqueKey)
    requires Disciplined(s) && Enabled(s, step) && step.Delete?
    ensures Held(Apply(s, step), k) <= Held(s, k) + SpotLoad(MoveOf(s, step).src, k)
  {
    var owed := NewPending(step.zset, step.job, step.last);
    if owed != [] {
      WeighAppend(s.pending, owed[0], OwesKey(k));
    } else {
      assert s.pending + owed == s.pending;
    }
  }

  lemma FinishDeleteHeld(s: Sys, step: Step, k: UniqueKey)
    requires Enabled(s, step) && step.FinishDelete?
    ensures Held(Apply(s, step), k) + IsSet(s, k) <= Held(s, k) + IsSet(Apply(s, step), k) + Extra(s, step, k)
  {
    WeighWithout(s.pending, step.d, OwesKey(k));
  }

  /** Enqueueing, crashes, reaping locks, expiry, settings. */
  lemma OtherHeld(s: Sys, step: Step, k: UniqueKey)
    requires Enabled(s, step) && Apply(s, step).execs == s.execs && Apply(s, step).pending == s.pending
    requires IssuedBy(step).Some? || step.EnqueuePeriodic? || step.Crash? || step.Restart? || step.ReapLocks? || step.Expire? || step.Configure?
    ensures SpotLoad(MoveOf(s, step).dst, k) + IsSet(s, k)
            <= SpotLoad(MoveOf(s, step).src, k) + IsSet(Apply(s, step), k) + Extra(s, step, k)
  {
  }

  /** Only deletions and expiry remove a key. */
  lemma KeyStays(s: Sys, step: Step, k: UniqueKey)
    requires Enabled(s, step) && !step.DeleteKey? && !step.FinishDelete? && !step.Expire?
    ensures IsSet(s, k) <= IsSet(Apply(s, step), k)
  {
  }

  predicate OfWorker(step: Step) {
    step.FetchJob? || step.Start? || step.ReadKey? || step.DeleteKey? || step.Ack? || step.Forget?
  }

  ghost predicate WithinBudget(s: Sys, step: Step, k: UniqueKey)
    requires Enabled(s, step)
  {
    Held(Apply(s, step), k) + SpotLoad(MoveOf(s, step).dst, k) + IsSet(s, k)
    <= Held(s, k) + SpotLoad(MoveOf(s, step).src, k) + IsSet(Apply(s, step), k) + Extra(s, step, k)
  }

  lemma WorkerBudget(s: Sys, step: Step, k: UniqueKey)
    requires Disciplined(s) && Enabled(s, step) && OfWorker(step)
    ensures WithinBudget(s, step, k)
  {
    if !step.DeleteKey? {
      KeyStays(s, step, k);
    }
    match step
    case FetchJob(_, _) => FetchHeld(s, step, k);
    case DeleteKey(_) => DeleteKeyHeld(s, step, k);
    case Ack(_, _, _, _, _) => AckHeld(s, step, k);
    case _ => PhaseHeld(s, step, k);
  }

  lemma OtherBudget(s: Sys, step: Step, k: UniqueKey)
    requires Disciplined(s) && Enabled(s, step) && !OfWorker(step)
    ensures WithinBudget(s, step, k)
  {
    if !step.FinishDelete? && !step.Expire? {
      KeyStays(s, step, k);
    }
    match step
    case ReenqueueJob(_, _, _) => ReenqueueHeld(s, step, k);
    case Requeue(_, _, _, _) => RequeueHeld(s, step, k);
    case RetryDead(_, _, _) => RequeueHeld(s, step, k);
    case Delete(_, _, _) => DeleteHeld(s, step, k);
    case FinishDelete(_) => FinishDeleteHeld(s, step, k);
    case _ => OtherHeld(s, step, k);
  }

  lemma StepCopies(s: Sys, step: Step, k: UniqueKey)
    requires Disciplined(s)
    ensures Copies(Next(s, step), k) + IsSet(s, k) <= Copies(s, k) + IsSet(Next(s, step), k) + Extra(s, step, k)
  {
    if Enabled(s, step) {
      StepShifts(s, step);
      WaitingMove(Where(s.store.jobs), Where(Apply(s, step).store.jobs), MoveOf(s, step), k);
      if OfWorker(step) { WorkerBudget(s, step, k); } else { OtherBudget(s, step, k); }
    }
  }

  // ----- Runs -----

  ghost function Extras(run: seq<Step>, k: UniqueKey): nat {
    if run == [] then 0 else
      Extras(run[..|run| - 1], k) + Extra(After(INIT, run[..|run| - 1]), run[|run| - 1], k)
  }

  /** The uniqueness bound, in every reachable state. */
  lemma {:induction false} UniqueBound(run: seq<Step>, k: UniqueKey)
    ensures Copies(After(INIT, run), k) <= IsSet(After(INIT, run), k) + Extras(run, k)
  {
    if run != [] {
      UniqueBound(run[..|run| - 1], k);
      RunDisciplined(run[..|run| - 1]);
      StepCopies(After(INIT, run[..|run| - 1]), run[|run| - 1], k);
    }
  }

  /** What the documentation promises: at most one copy at a time, when no copy re-enters and
      nobody else removes the key. */
  lemma AtMostOneCopy(run: seq<Step>, k: UniqueKey)
    requires Extras(run, k) == 0
    ensures Copies(After(INIT, run), k) <= 1
  {
    UniqueBound(run, k);
  }

  /** Deleting a scheduled unique job is meant to free its key. The client deletes the key
      built from name and arguments, so that happens exactly when the job's own key is that
      one; a job enqueued with a key map keeps its key set until it expires. */
  lemma DeleteFreesKey(s: Sys, j: Job)
    requires j in s.store.jobs.Zset(Scheduled) && j.unique && j.Key() in s.store.keys
    ensures var s1 := Next(s, Delete(Scheduled, j, true));
            j.Key() !in Next(s1, FinishDelete(|s.pending|)).store.keys <==> j.Key() == j.ArgsKey()
  {
  }

  /** A job scheduled with a key map: its key is not the one built from its arguments. */
  const KEYED := Job(1, Hex(0), 0, 5, true, Some(UniqueKey(1, 6)), 0, NoError, 0)

  lemma KeyedScheduled()
    ensures var s := Next(INIT, EnqueueUniqueJob(KEYED, Some(9), true));
            && s.store.jobs.Zset(Scheduled) == map[KEYED := 9] && s.store.keys == map[KEYED.Key() := Updated(KEYED)]
            && s.pending == [] && s.issued == map[Hex(0) := true]
  {
  }

  lemma KeyedDeleted(s: Sys)
    requires s.store.jobs.Zset(Scheduled) == map[KEYED := 9] && s.pending == []
    ensures var s' := Next(s, Delete(Scheduled, KEYED, true));
            && s'.store.jobs.Zset(Scheduled) == map[] && s'.store.keys == s.store.keys
            && s'.pending == [PendingDel(UniqueKey(1, 5), false)] && s'.issued == s.issued
  {
  }

  lemma WrongKeyFreed(s: Sys)
    requires s.pending == [PendingDel(UniqueKey(1, 5), false)] && s.store.keys == map[KEYED.Key() := Updated(KEYED)]
    ensures var s' := Next(s, FinishDelete(0));
            s'.store == s.store && s'.pending == [] && s'.issued == s.issued
  {
    assert s.store.keys - {UniqueKey(1, 5)} == s.store.keys;
  }

  /** Its deletion leaves the key set with no job scheduled, so that enqueueing it again is skipped
      as a duplicate of nothing. */
  lemma KeyOutlivesJob(again: Job)
    requires again == KEYED.(id := Hex(1))
    ensures var s := After(INIT, [EnqueueUniqueJob(KEYED, Some(9), true), Delete(Scheduled, KEYED, true), FinishDelete(0)]);
            && KEYED.Key() in s.store.keys && s.pending == [] && s.store.jobs.Zset(Scheduled) == map[]
            && Enabled(s, EnqueueUniqueJob(again, Some(9), true))
            && Next(s, EnqueueUniqueJob(again, Some(9), true)).store.jobs == s.store.jobs
  {
    var a := EnqueueUniqueJob(KEYED, Some(9), true);
    AfterThree(INIT, a, Delete(Scheduled, KEYED, true), FinishDelete(0));
    KeyedScheduled();
    KeyedDeleted(Next(INIT, a));
    WrongKeyFreed(Next(Next(INIT, a), Delete(Scheduled, KEYED, true)));
  }
}
