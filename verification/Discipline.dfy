/** Name discipline and the in-progress ledger, kept by every step: jobs sit only on lists of
    their own name, a worker releases the lock it acquired, and the in-progress lists hold
    exactly the jobs that were fetched and not yet acknowledged or re-enqueued. */
module Discipline {
  import opened Tally
  import opened JobStore
  import opened Protocol
  import opened Movement

  predicate GoodJob(issued: map<Id, bool>, j: Job) {
    && j.fails >= 0
    && (j.unique ==> j.Key().name == j.name && j.id.Hex?)
    && (j.id.Hex? ==> j.id in issued && issued[j.id] == j.unique)
  }

  /** Only jobs named X are on the lists of X. */
  predicate Fits(a: Place, j: Job) {
    match a
    case AtList(Queue(n)) => j.name == n
    case AtList(InProgress(n, _)) => j.name == n
    case AtZset(_) => true
  }

  predicate GoodAt(issued: map<Id, bool>, a: Place, j: Job) {
    GoodJob(issued, j) && Fits(a, j)
  }

  ghost predicate JobsOk(r: Jobs, issued: map<Id, bool>) {
    forall a, j :: j in At(r, a) ==> GoodAt(issued, a, j)
  }

  predicate GoodPayload(issued: map<Id, bool>, n: Name, p: Payload) {
    p.Updated? ==> GoodJob(issued, p.job) && p.job.unique && p.job.name == n
  }

  /** A worker runs the job it fetched, or for a unique job a replacement of the same name. */
  predicate GoodExec(issued: map<Id, bool>, e: Exec) {
    && GoodJob(issued, e.raw)
    && e.raw.name == e.from
    && (match e.phase
        case Fetched => true
        case KeyRead(p) => e.raw.unique && GoodPayload(issued, e.from, p)
        case Running(job) =>
          && GoodJob(issued, job) && job.name == e.from
          && job.unique == e.raw.unique && (!e.raw.unique ==> job == e.raw))
  }

  ghost predicate ExecsOk(s: Sys) {
    forall i :: 0 <= i < |s.execs| ==> GoodExec(s.issued, s.execs[i])
  }

  ghost predicate KeysOk(s: Sys) {
    forall k :: k in s.store.keys ==> GoodPayload(s.issued, k.name, s.store.keys[k])
  }

  function EntryWeight(n: Name, p: Pool, x: Job): Exec -> nat {
    e => if Entry(e, n, p, x) then 1 else 0
  }

  ghost predicate LedgerAt(s: Sys, n: Name, p: Pool, x: Job) {
    Weigh(s.execs, EntryWeight(n, p, x)) == At(s.store.jobs, AtList(InProgress(n, p)))[x]
  }

  ghost predicate Ledger(s: Sys) {
    forall n, p, x :: LedgerAt(s, n, p, x)
  }

  ghost predicate Disciplined(s: Sys) {
    JobsOk(s.store.jobs, s.issued) && ExecsOk(s) && KeysOk(s) && Ledger(s)
  }

  // ----- Jobs -----

  lemma MoveKeepsJobs(r: Jobs, r': Jobs, m: Move, issued: map<Id, bool>)
    requires JobsOk(r, issued) && Moved(r, r', m)
    requires m.dst.Spot? ==> GoodAt(issued, m.dst.place, m.dst.job)
    ensures JobsOk(r', issued)
  {
    forall a, j | j in At(r', a) ensures GoodAt(issued, a, j) {
      assert MovedAt(r, r', m, a);
      if !(m.dst.Spot? && m.dst.place == a && m.dst.job == j) {
        assert j in At(r, a);
      }
    }
  }

  /** What the step hands out as an identifier, if anything. */
  function IssuedBy(step: Step): Option<Job> {
    match step
    case Enqueue(j) => Some(j)
    case EnqueueAt(j, _) => Some(j)
    case EnqueueUniqueJob(j, _, _) => Some(j)
    case _ => None
  }

  lemma IssueKeepsJobs(r: Jobs, issued: map<Id, bool>, id: Id, u: bool)
    requires JobsOk(r, issued) && id !in issued
    ensures JobsOk(r, issued[id := u])
  {
    forall a, j | j in At(r, a) ensures GoodAt(issued[id := u], a, j) {
      assert GoodAt(issued, a, j);
    }
  }

  lemma AckOnList(s: Sys, i: nat)
    requires i < |s.execs| && Ledger(s)
    ensures OnList(s.store.jobs, s.execs[i])
  {
    var e := s.execs[i];
    assert LedgerAt(s, e.from, e.pool, e.raw);
    WeighMember(s.execs, i, EntryWeight(e.from, e.pool, e.raw));
  }

  lemma FinishedGood(issued: map<Id, bool>, e: Exec, outcome: Outcome, opts: Option<JobOptions>, now: int, backoff: int)
    requires GoodExec(issued, e) && e.phase.Running?
    ensures var (job, fate) := Finished(e, outcome, opts, now, backoff);
            GoodJob(issued, job) && job.name == e.from && job.unique == e.raw.unique
  {
  }

  lemma ListGood(r: Jobs, issued: map<Id, bool>, k: ListKey)
    requires JobsOk(r, issued) && r.List(k) != []
    ensures GoodAt(issued, AtList(k), Last(r.List(k)))
  {
    assert Last(r.List(k)) in At(r, AtList(k));
  }

  lemma ZsetGood(r: Jobs, issued: map<Id, bool>, w: ZsetName, j: Job)
    requires JobsOk(r, issued) && j in r.Zset(w)
    ensures GoodJob(issued, j)
  {
    assert j in At(r, AtZset(w));
    assert GoodAt(issued, AtZset(w), j);
  }

  /** The job arriving somewhere is a good one in the right place. */
  lemma ArrivalGood(s: Sys, step: Step)
    requires Disciplined(s) && Enabled(s, step) && MoveOf(s, step).dst.Spot?
    ensures GoodAt(Apply(s, step).issued, MoveOf(s, step).dst.place, MoveOf(s, step).dst.job)
  {
    if IssuedBy(step).None? && !step.EnqueuePeriodic? {
      MovedJobGood(s, step);
    }
  }

  /** A job that was already somewhere, or held by a worker, is good wherever it goes. */
  lemma MovedJobGood(s: Sys, step: Step)
    requires JobsOk(s.store.jobs, s.issued) && ExecsOk(s) && Enabled(s, step)
    requires IssuedBy(step).None? && !step.EnqueuePeriodic? && MoveOf(s, step).dst.Spot?
    ensures GoodAt(s.issued, MoveOf(s, step).dst.place, MoveOf(s, step).dst.job)
  {
    match step
    case FetchJob(p, order) => ListGood(s.store.jobs, s.issued, Queue(order[FirstEligible(s.store, order)]));
    case Ack(i, outcome, opts, now, backoff) =>
      FinishedGood(s.issued, s.execs[i], outcome, opts, now, backoff);
    case ReenqueueJob(p, names, i) =>
      ListGood(s.store.jobs, s.issued, InProgress(names[FirstHeld(s.store.jobs, names, p)], p));
    case Requeue(w, j, known, now) => ZsetGood(s.store.jobs, s.issued, w, j);
    case RetryDead(j, known, now) => ZsetGood(s.store.jobs, s.issued, Dead, j);
  }

  lemma StepJobs(s: Sys, step: Step)
    requires Disciplined(s) && Enabled(s, step)
    ensures JobsOk(Apply(s, step).store.jobs, Apply(s, step).issued)
  {
    if step.Ack? {
      AckOnList(s, step.i);
    }
    StepMoves(s, step);
    if MoveOf(s, step).dst.Spot? {
      ArrivalGood(s, step);
    }
    if IssuedBy(step).Some? {
      IssueKeepsJobs(s.store.jobs, s.issued, IssuedBy(step).value.id, IssuedBy(step).value.unique);
    }
    MoveKeepsJobs(s.store.jobs, Apply(s, step).store.jobs, MoveOf(s, step), Apply(s, step).issued);
  }

  // ----- Workers and keys -----

  lemma IssuedGrows(s: Sys, step: Step)
    requires Enabled(s, step)
    ensures forall j :: GoodJob(s.issued, j) ==> GoodJob(Apply(s, step).issued, j)
  {
  }

  lemma ExecGrows(issued: map<Id, bool>, issued': map<Id, bool>, e: Exec)
    requires GoodExec(issued, e)
    requires forall j :: GoodJob(issued, j) ==> GoodJob(issued', j)
    ensures GoodExec(issued', e)
  {
  }

  lemma ReadKeyGood(s: Sys, i: nat)
    requires KeysOk(s) && i < |s.execs| && GoodExec(s.issued, s.execs[i]) && s.execs[i].raw.unique
    ensures GoodExec(s.issued, DoReadKey(s, i).execs[i])
  {
  }

  /** The entry a step adds or rewrites, if any. */
  lemma ChangedExecGood(s: Sys, step: Step, e: Exec)
    requires Disciplined(s) && Enabled(s, step)
    requires e in Apply(s, step).execs && e !in s.execs
    ensures GoodExec(s.issued, e)
  {
    match step
    case FetchJob(p, order) => ListGood(s.store.jobs, s.issued, Queue(order[FirstEligible(s.store, order)]));
    case Start(i) => RewrittenExec(s, step, i, e);
    case ReadKey(i) => RewrittenExec(s, step, i, e); ReadKeyGood(s, i);
    case DeleteKey(i) => RewrittenExec(s, step, i, e);
    case Forget(i) => RewrittenExec(s, step, i, e);
    case _ =>
  }

  lemma RewrittenExec(s: Sys, step: Step, i: nat, e: Exec)
    requires ExecsOk(s) && Enabled(s, step) && i < |s.execs| && e in Apply(s, step).execs && e !in s.execs
    requires (step.Start? && step.i == i) || (step.ReadKey? && step.i == i) || (step.DeleteKey? && step.i == i)
             || (step.Forget? && step.i == i)
    ensures e == Apply(s, step).execs[i] && GoodExec(s.issued, s.execs[i])
  {
    assert GoodExec(s.issued, s.execs[i]);
    var k :| 0 <= k < |Apply(s, step).execs| && Apply(s, step).execs[k] == e;
    assert s.execs[k] != e;
  }

  lemma StepExecs(s: Sys, step: Step)
    requires Disciplined(s) && Enabled(s, step)
    ensures ExecsOk(Apply(s, step))
  {
    var s' := Apply(s, step);
    IssuedGrows(s, step);
    forall i | 0 <= i < |s'.execs| ensures GoodExec(s'.issued, s'.execs[i]) {
      var e := s'.execs[i];
      if e in s.execs {
        var k :| 0 <= k < |s.execs| && s.execs[k] == e;
        assert GoodExec(s.issued, s.execs[k]);
      } else {
        ChangedExecGood(s, step, e);
      }
      ExecGrows(s.issued, s'.issued, e);
    }
  }

  /** A step changes the uniqueness keys only by one write or one removal. */
  lemma KeysAfter(s: Sys, step: Step, k: UniqueKey)
    requires Enabled(s, step) && k in Apply(s, step).store.keys
    ensures || (k in s.store.keys && Apply(s, step).store.keys[k] == s.store.keys[k])
            || (step.EnqueueUniqueJob? && k == step.job.Key()
                && (Apply(s, step).store.keys[k] == One || Apply(s, step).store.keys[k] == Updated(step.job)))
  {
  }

  lemma StepKeys(s: Sys, step: Step)
    requires Disciplined(s) && Enabled(s, step)
    ensures KeysOk(Apply(s, step))
  {
    var s' := Apply(s, step);
    forall k | k in s'.store.keys ensures GoodPayload(s'.issued, k.name, s'.store.keys[k]) {
      KeysAfter(s, step, k);
      IssuedGrows(s, step);
    }
  }

  // ----- The ledger -----

  /** Entries keep their worker's pool, origin and job while its phase changes. */
  lemma RewriteKeepsLedger(s: Sys, i: nat, e: Exec, s': Sys)
    requires Ledger(s) && i < |s.execs| && s'.execs == s.execs[i := e]
    requires Entry(e, s.execs[i].from, s.execs[i].pool, s.execs[i].raw)
    requires forall n, p :: s'.store.jobs.List(InProgress(n, p)) == s.store.jobs.List(InProgress(n, p))
    ensures Ledger(s')
  {
    forall n, p, x ensures LedgerAt(s', n, p, x) {
      assert LedgerAt(s, n, p, x);
      WeighUpdate(s.execs, i, e, EntryWeight(n, p, x));
    }
  }

  /** 1 when the spot is job x on the in-progress list of n and p. */
  function Touch(t: Spot, n: Name, p: Pool, x: Job): nat {
    if t.Spot? && t.place == AtList(InProgress(n, p)) && t.job == x then 1 else 0
  }

  lemma BagCounts(a: Place, m: Move, bag: multiset<Job>, x: Job)
    requires a.AtList? && (m.src.Spot? && m.src.place == a ==> m.src.job in bag)
    ensures Gain(a, m.dst, Lose(a, m.src, bag))[x] ==
            bag[x] - (if m.src == Spot(a, x) then 1 else 0) + (if m.dst == Spot(a, x) then 1 else 0)
  {
  }

  lemma TouchCounts(r: Jobs, r': Jobs, m: Move, n: Name, p: Pool, x: Job)
    requires Moved(r, r', m)
    ensures At(r', AtList(InProgress(n, p)))[x] ==
            At(r, AtList(InProgress(n, p)))[x] - Touch(m.src, n, p, x) + Touch(m.dst, n, p, x)
  {
    var a := AtList(InProgress(n, p));
    assert MovedAt(r, r', m, a);
    BagCounts(a, m, At(r, a), x);
  }

  /** The ledger follows a move when the entries change by what the move takes and brings. */
  lemma MoveKeepsLedger(s: Sys, s': Sys, m: Move)
    requires Ledger(s) && Moved(s.store.jobs, s'.store.jobs, m)
    requires forall n, p, x :: Weigh(s'.execs, EntryWeight(n, p, x)) + Touch(m.src, n, p, x) ==
                               Weigh(s.execs, EntryWeight(n, p, x)) + Touch(m.dst, n, p, x)
    ensures Ledger(s')
  {
    forall n, p, x ensures LedgerAt(s', n, p, x) {
      assert LedgerAt(s, n, p, x);
      TouchCounts(s.store.jobs, s'.store.jobs, m, n, p, x);
    }
  }

  lemma FetchKeepsLedger(s: Sys, s': Sys, e: Exec)
    requires Ledger(s) && s'.execs == s.execs + [e]
    requires Moved(s.store.jobs, s'.store.jobs, Move(Spot(AtList(Queue(e.from)), e.raw), Spot(AtList(InProgress(e.from, e.pool)), e.raw)))
    ensures Ledger(s')
  {
    var m := Move(Spot(AtList(Queue(e.from)), e.raw), Spot(AtList(InProgress(e.from, e.pool)), e.raw));
    forall n, p, x ensures Weigh(s'.execs, EntryWeight(n, p, x)) + Touch(m.src, n, p, x) ==
                           Weigh(s.execs, EntryWeight(n, p, x)) + Touch(m.dst, n, p, x) {
      WeighAppend(s.execs, e, EntryWeight(n, p, x));
    }
    MoveKeepsLedger(s, s', m);
  }

  /** Acknowledging or re-enqueueing takes the entry off the list and off the ledger. */
  lemma RemovalKeepsLedger(s: Sys, s': Sys, i: nat, dst: Spot)
    requires Ledger(s) && i < |s.execs| && s'.execs == Without(s.execs, i)
    requires var e := s.execs[i];
             Moved(s.store.jobs, s'.store.jobs, Move(Spot(AtList(InProgress(e.from, e.pool)), e.raw), dst))
    requires dst.Spot? ==> dst.place.AtZset? || dst.place.list.Queue?
    ensures Ledger(s')
  {
    var m := Move(Spot(AtList(InProgress(s.execs[i].from, s.execs[i].pool)), s.execs[i].raw), dst);
    forall n, p, x ensures Weigh(s'.execs, EntryWeight(n, p, x)) + Touch(m.src, n, p, x) ==
                           Weigh(s.execs, EntryWeight(n, p, x)) + Touch(m.dst, n, p, x) {
      WeighWithout(s.execs, i, EntryWeight(n, p, x));
    }
    MoveKeepsLedger(s, s', m);
  }

  lemma OtherStepsKeepLedger(s: Sys, step: Step)
    requires Ledger(s) && Enabled(s, step) && Apply(s, step).execs == s.execs
    requires !step.FetchJob? && !step.Ack? && !step.ReenqueueJob?
    ensures Ledger(Apply(s, step))
  {
    StepMoves(s, step);
    var m := MoveOf(s, step);
    assert forall n, p, x :: Touch(m.src, n, p, x) == 0 && Touch(m.dst, n, p, x) == 0;
    MoveKeepsLedger(s, Apply(s, step), m);
  }

  lemma StepLedger(s: Sys, step: Step)
    requires Ledger(s) && Enabled(s, step)
    ensures Ledger(Apply(s, step))
  {
    match step
    case FetchJob(p, order) =>
      StepMoves(s, step);
      FetchKeepsLedger(s, Apply(s, step), Apply(s, step).execs[|s.execs|]);
    case Ack(i, _, _, _, _) =>
      AckOnList(s, i);
      StepMoves(s, step);
      RemovalKeepsLedger(s, Apply(s, step), i, MoveOf(s, step).dst);
    case ReenqueueJob(_, _, i) =>
      StepMoves(s, step);
      RemovalKeepsLedger(s, Apply(s, step), i, MoveOf(s, step).dst);
    case Start(i) => RewriteKeepsLedger(s, i, Apply(s, step).execs[i], Apply(s, step));
    case ReadKey(i) => RewriteKeepsLedger(s, i, Apply(s, step).execs[i], Apply(s, step));
    case DeleteKey(i) => RewriteKeepsLedger(s, i, Apply(s, step).execs[i], Apply(s, step));
    case Forget(i) => RewriteKeepsLedger(s, i, Apply(s, step).execs[i], Apply(s, step));
    case _ => OtherStepsKeepLedger(s, step);
  }

  lemma StepDisciplined(s: Sys, step: Step)
    requires Disciplined(s)
    ensures Disciplined(Next(s, step))
  {
    if Enabled(s, step) {
      StepJobs(s, step);
      StepExecs(s, step);
      StepKeys(s, step);
      StepLedger(s, step);
    }
  }

  /** Name discipline and the ledger hold in every reachable state. */
  lemma {:induction false} RunDisciplined(run: seq<Step>)
    ensures Disciplined(After(INIT, run))
  {
    if run != [] {
      RunDisciplined(run[..|run| - 1]);
      StepDisciplined(After(INIT, run[..|run| - 1]), run[|run| - 1]);
    }
  }
}
