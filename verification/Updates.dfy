/** Updating the arguments of a waiting unique job. A duplicate enqueue writes the new version of
    the job under the uniqueness key only, and a worker runs the version it reads there. Whatever
    changes the key before a worker has read the version loses it: another enqueue, expiry, a
    client's deletion, or the DEL of a worker whose GET came earlier. */
module Updates {
  import opened JobStore
  import opened Protocol
  import opened Movement
  import opened Discipline
  import opened Conservation

  /** The step writes or removes the key. */
  ghost predicate Touches(s: Sys, step: Step, k: UniqueKey) {
    && Enabled(s, step)
    && match step
       case EnqueueUniqueJob(j, _, _) => j.Key() == k
       case DeleteKey(i) => s.execs[i].raw.Key() == k
       case FinishDelete(d) => s.pending[d].key == k
       case Expire(k') => k' == k
       case _ => false
  }

  /** Nobody touches the key during the run. */
  ghost predicate Quiet(s: Sys, run: seq<Step>, k: UniqueKey) {
    forall m :: 0 <= m < |run| ==> !Touches(After(s, run[..m]), run[m], k)
  }

  predicate SameAt(a: map<UniqueKey, Payload>, b: map<UniqueKey, Payload>, k: UniqueKey) {
    (k in a <==> k in b) && (k in a ==> a[k] == b[k])
  }

  predicate ChangesKeys(step: Step) {
    step.EnqueueUniqueJob? || step.DeleteKey? || step.FinishDelete? || step.Expire?
  }

  lemma KeysStay(s: Sys, step: Step)
    requires Enabled(s, step) && !ChangesKeys(step)
    ensures Apply(s, step).store.keys == s.store.keys
  {
  }

  lemma OtherKey(s: Sys, step: Step, k: UniqueKey)
    requires Enabled(s, step) && ChangesKeys(step) && !Touches(s, step, k)
    ensures SameAt(s.store.keys, Apply(s, step).store.keys, k)
  {
  }

  lemma UntouchedKey(s: Sys, step: Step, k: UniqueKey)
    requires !Touches(s, step, k)
    ensures SameAt(s.store.keys, Next(s, step).store.keys, k)
  {
    if Enabled(s, step) {
      if ChangesKeys(step) { OtherKey(s, step, k); } else { KeysStay(s, step); }
    }
  }

  // ----- One version -----

  /** The worker has read the version and not yet deleted the key. */
  predicate Holds(e: Exec, j: Job) {
    e.phase == KeyRead(Updated(j))
  }

  /** Some worker has read the version and not yet deleted the key. */
  ghost predicate HasReader(s: Sys, j: Job) {
    exists i :: 0 <= i < |s.execs| && Holds(s.execs[i], j)
  }

  /** The key holds the version. */
  predicate InKey(s: Sys, j: Job) {
    j.Key() in s.store.keys && s.store.keys[j.Key()] == Updated(j)
  }

  predicate Names(p: Payload, id: Id) {
    p.Updated? && p.job.id == id
  }

  predicate VersionOf(e: Exec, j: Job) {
    e.phase.KeyRead? && Names(e.phase.payload, j.id) ==> e.phase.payload == Updated(j) && e.raw.Key() == j.Key()
  }

  /** What keys and workers carry under the version's identifier is the version, from its key. */
  ghost predicate Versioned(s: Sys, j: Job) {
    && j.id.Hex? && j.id in s.issued
    && (forall k :: k in s.store.keys && Names(s.store.keys[k], j.id) ==> k == j.Key() && s.store.keys[k] == Updated(j))
    && (forall i :: 0 <= i < |s.execs| ==> VersionOf(s.execs[i], j))
  }

  /** The worker fetched the job with this identifier, or runs it. */
  predicate Works(e: Exec, id: Id) {
    e.raw.id == id || (e.phase.Running? && e.phase.job.id == id)
  }

  /** The identifier is on no list, in no sorted set, and no worker fetched or runs it. */
  ghost predicate Unplaced(s: Sys, id: Id) {
    !Present(Where(s.store.jobs), id) && forall i :: 0 <= i < |s.execs| ==> !Works(s.execs[i], id)
  }

  /** No trace of the version is left anywhere. */
  ghost predicate Gone(s: Sys, j: Job) {
    Unplaced(s, j.id) && !InKey(s, j) && !HasReader(s, j)
  }

  /** Some worker runs the version. */
  ghost predicate RunsNow(s: Sys, j: Job) {
    exists i :: 0 <= i < |s.execs| && s.execs[i].phase == Running(j)
  }

  /** A worker that has read the version deletes the key, and from then on runs the version. */
  ghost predicate Begins(s: Sys, step: Step, j: Job) {
    Enabled(s, step) && step.DeleteKey? && Holds(s.execs[step.i], j)
  }

  /** A worker reads the version. */
  ghost predicate Learns(s: Sys, step: Step, j: Job) {
    Enabled(s, step) && step.ReadKey? && s.execs[step.i].raw.Key() == j.Key() && InKey(s, j)
  }

  // ----- Steps -----

  /** Where an entry of the ledger after a step comes from. */
  ghost predicate ComesFrom(s: Sys, step: Step, e: Exec)
    requires Enabled(s, step)
  {
    || e in s.execs
    || (step.FetchJob? && e.phase.Fetched? && e.raw in At(s.store.jobs, AtList(Queue(e.from))))
    || (Rewrites(step) && step.i < |s.execs| && e == Apply(s, step).execs[step.i])
  }

  predicate Rewrites(step: Step) {
    step.Start? || step.ReadKey? || step.DeleteKey? || step.Forget?
  }

  lemma ExecOrigin(s: Sys, step: Step, e: Exec)
    requires Enabled(s, step) && e in Apply(s, step).execs
    ensures ComesFrom(s, step, e)
  {
    var k :| 0 <= k < |Apply(s, step).execs| && Apply(s, step).execs[k] == e;
    if step.FetchJob? {
      if e !in s.execs {
        FetchOrigin(s, step, e);
      }
    } else if Rewrites(step) {
      assert k != step.i ==> s.execs[k] == e;
    }
  }

  lemma FetchOrigin(s: Sys, step: Step, e: Exec)
    requires Enabled(s, step) && step.FetchJob? && e in Apply(s, step).execs && e !in s.execs
    ensures e.phase.Fetched? && e.raw in At(s.store.jobs, AtList(Queue(e.from)))
  {
    var n := step.order[FirstEligible(s.store, step.order)];
    assert e == Exec(step.pool, n, Last(s.store.jobs.List(Queue(n))), Fetched, true);
  }

  lemma StepVersionedKeys(s: Sys, step: Step, j: Job, k: UniqueKey)
    requires Versioned(s, j) && Enabled(s, step) && k in Apply(s, step).store.keys
    requires Names(Apply(s, step).store.keys[k], j.id)
    ensures k == j.Key() && Apply(s, step).store.keys[k] == Updated(j)
  {
    KeysAfter(s, step, k);
  }

  lemma StepVersionOf(s: Sys, step: Step, j: Job, e: Exec)
    requires Versioned(s, j) && Enabled(s, step) && ComesFrom(s, step, e)
    ensures VersionOf(e, j)
  {
    if e !in s.execs && Rewrites(step) {
      assert VersionOf(s.execs[step.i], j);
    }
  }

  lemma StepVersioned(s: Sys, step: Step, j: Job)
    requires Versioned(s, j)
    ensures Versioned(Next(s, step), j)
  {
    if Enabled(s, step) {
      var s' := Apply(s, step);
      forall k | k in s'.store.keys && Names(s'.store.keys[k], j.id)
        ensures k == j.Key() && s'.store.keys[k] == Updated(j)
      {
        StepVersionedKeys(s, step, j, k);
      }
      forall i | 0 <= i < |s'.execs| ensures VersionOf(s'.execs[i], j) {
        ExecOrigin(s, step, s'.execs[i]);
        StepVersionOf(s, step, j, s'.execs[i]);
      }
      assert j.id in s'.issued;
    }
  }

  /** The key holds the version until somebody touches the key. */
  lemma StepInKey(s: Sys, step: Step, j: Job)
    requires Versioned(s, j)
    ensures InKey(Next(s, step), j) <==> InKey(s, j) && !Touches(s, step, j.Key())
  {
    if Touches(s, step, j.Key()) {
    } else {
      UntouchedKey(s, step, j.Key());
    }
  }

  /** Whatever arrives somewhere was taken from somewhere, was just issued, or was run. */
  lemma ArrivalId(s: Sys, step: Step, id: Id)
    requires Enabled(s, step) && id.Hex? && id in s.issued
    requires step.Ack? ==> s.execs[step.i].phase.job.id != id
    requires MoveOf(s, step).src.Spot? ==> MoveOf(s, step).src.job.id != id
    ensures MoveOf(s, step).dst.Spot? ==> MoveOf(s, step).dst.job.id != id
  {
  }

  lemma StaysAbsent(s: Sys, step: Step, id: Id)
    requires Disciplined(s) && Enabled(s, step) && !Present(Where(s.store.jobs), id) && id.Hex? && id in s.issued
    requires step.Ack? ==> s.execs[step.i].phase.job.id != id
    ensures !Present(Where(Apply(s, step).store.jobs), id)
  {
    var f, g, m := Where(s.store.jobs), Where(Apply(s, step).store.jobs), MoveOf(s, step);
    StepShifts(s, step);
    ArrivalId(s, step, id);
    forall a, x | x in g(a) ensures x.id != id {
      Origin(f, g, m, a, x);
    }
  }

  lemma StepWorks(s: Sys, step: Step, j: Job, e: Exec)
    requires Versioned(s, j) && Unplaced(s, j.id) && Enabled(s, step) && !Begins(s, step, j) && ComesFrom(s, step, e)
    ensures !Works(e, j.id)
  {
    if e in s.execs {
      var k :| 0 <= k < |s.execs| && s.execs[k] == e;
      assert !Works(s.execs[k], j.id);
    } else if step.FetchJob? {
      assert e.raw in Where(s.store.jobs)(AtList(Queue(e.from)));
    } else {
      assert !Works(s.execs[step.i], j.id) && VersionOf(s.execs[step.i], j);
    }
  }

  /** A version that is not placed stays so until a worker that has read it begins. */
  lemma StepUnplaced(s: Sys, step: Step, j: Job)
    requires Disciplined(s) && Versioned(s, j) && Unplaced(s, j.id)
    ensures Unplaced(Next(s, step), j.id) <==> !Begins(s, step, j)
    ensures RunsNow(Next(s, step), j) <==> Begins(s, step, j)
  {
    if Begins(s, step, j) {
      assert Apply(s, step).execs[step.i].phase == Running(j);
    } else if Enabled(s, step) {
      var s' := Apply(s, step);
      assert step.Ack? ==> !Works(s.execs[step.i], j.id);
      StaysAbsent(s, step, j.id);
      forall i | 0 <= i < |s'.execs| ensures !Works(s'.execs[i], j.id) {
        ExecOrigin(s, step, s'.execs[i]);
        StepWorks(s, step, j, s'.execs[i]);
      }
    }
  }

  /** Only a GET while the key holds the version makes a worker know it. */
  lemma StepReader(s: Sys, step: Step, j: Job)
    requires Versioned(s, j) && HasReader(Next(s, step), j)
    ensures HasReader(s, j) || Learns(s, step, j)
  {
    if Enabled(s, step) {
      var i :| 0 <= i < |Apply(s, step).execs| && Holds(Apply(s, step).execs[i], j);
      var e := Apply(s, step).execs[i];
      ExecOrigin(s, step, e);
      if e in s.execs {
        var k :| 0 <= k < |s.execs| && s.execs[k] == e;
        assert Holds(s.execs[k], j);
      } else {
        assert step.Forget? ==> Holds(s.execs[step.i], j);
      }
    }
  }

  /** Somebody's touch leaves the workers that have read the version, unless one of them begins. */
  lemma TouchKeepsReader(s: Sys, step: Step, j: Job)
    requires Touches(s, step, j.Key()) && HasReader(s, j) && !Begins(s, step, j)
    ensures HasReader(Next(s, step), j)
  {
    var i :| 0 <= i < |s.execs| && Holds(s.execs[i], j);
    assert Holds(Apply(s, step).execs[i], j);
  }

  // ----- Runs -----

  lemma QuietBefore(s: Sys, run: seq<Step>, n: nat, k: UniqueKey)
    requires n <= |run| && Quiet(s, run, k)
    ensures Quiet(s, run[..n], k)
  {
    forall m | 0 <= m < n ensures !Touches(After(s, run[..n][..m]), run[..n][m], k) {
      assert run[..n][..m] == run[..m];
      assert !Touches(After(s, run[..m]), run[m], k);
    }
  }

  lemma QuietOneMore(s: Sys, run: seq<Step>, k: UniqueKey)
    requires run != [] && Quiet(s, run[..|run| - 1], k) && !Touches(After(s, run[..|run| - 1]), run[|run| - 1], k)
    ensures Quiet(s, run, k)
  {
    var prefix := run[..|run| - 1];
    forall m | 0 <= m < |run| ensures !Touches(After(s, run[..m]), run[m], k) {
      if m < |prefix| {
        assert prefix[..m] == run[..m] && prefix[m] == run[m];
        assert !Touches(After(s, prefix[..m]), prefix[m], k);
      }
    }
  }

  lemma QuietSnoc(s: Sys, run: seq<Step>, k: UniqueKey)
    requires run != []
    ensures Quiet(s, run, k) <==> Quiet(s, run[..|run| - 1], k) && !Touches(After(s, run[..|run| - 1]), run[|run| - 1], k)
  {
    if Quiet(s, run, k) {
      QuietBefore(s, run, |run| - 1, k);
    } else if !Touches(After(s, run[..|run| - 1]), run[|run| - 1], k) && Quiet(s, run[..|run| - 1], k) {
      QuietOneMore(s, run, k);
    }
  }

  lemma {:induction false} RunVersioned(s: Sys, run: seq<Step>, j: Job)
    requires Disciplined(s) && Versioned(s, j)
    ensures Disciplined(After(s, run)) && Versioned(After(s, run), j)
  {
    if run != [] {
      var prefix, last := run[..|run| - 1], run[|run| - 1];
      RunVersioned(s, prefix, j);
      StepDisciplined(After(s, prefix), last);
      StepVersioned(After(s, prefix), last, j);
    }
  }

  lemma {:induction false} RunInKey(s: Sys, run: seq<Step>, j: Job)
    requires Disciplined(s) && Versioned(s, j) && InKey(s, j)
    ensures InKey(After(s, run), j) <==> Quiet(s, run, j.Key())
  {
    if run != [] {
      var prefix, last := run[..|run| - 1], run[|run| - 1];
      RunInKey(s, prefix, j);
      RunVersioned(s, prefix, j);
      StepInKey(After(s, prefix), last, j);
      QuietSnoc(s, run, j.Key());
    }
  }

  /** At some time during the run a worker runs the version. */
  ghost predicate Ran(s: Sys, run: seq<Step>, j: Job) {
    exists m :: 0 <= m <= |run| && RunsNow(After(s, run[..m]), j)
  }

  ghost predicate Begun(s: Sys, run: seq<Step>, j: Job) {
    exists m :: 0 <= m < |run| && Begins(After(s, run[..m]), run[m], j)
  }

  lemma BegunExtends(s: Sys, run: seq<Step>, j: Job)
    requires run != [] && !Begun(s, run, j)
    ensures !Begun(s, run[..|run| - 1], j) && !Begins(After(s, run[..|run| - 1]), run[|run| - 1], j)
  {
    var prefix := run[..|run| - 1];
    forall m | 0 <= m < |prefix| ensures !Begins(After(s, prefix[..m]), prefix[m], j) {
      assert prefix[..m] == run[..m] && prefix[m] == run[m];
      assert !Begins(After(s, run[..m]), run[m], j);
    }
  }

  lemma {:induction false} RunUnplaced(s: Sys, run: seq<Step>, j: Job)
    requires Disciplined(s) && Versioned(s, j) && Unplaced(s, j.id) && !Begun(s, run, j)
    ensures Unplaced(After(s, run), j.id)
  {
    if run != [] {
      BegunExtends(s, run, j);
      RunUnplaced(s, run[..|run| - 1], j);
      RunVersioned(s, run[..|run| - 1], j);
      StepUnplaced(After(s, run[..|run| - 1]), run[|run| - 1], j);
    }
  }

  lemma UnplacedNotRun(s: Sys, j: Job)
    requires Unplaced(s, j.id)
    ensures !RunsNow(s, j)
  {
    forall i | 0 <= i < |s.execs| ensures s.execs[i].phase != Running(j) {
      assert !Works(s.execs[i], j.id);
    }
  }

  lemma BeginsRuns(s: Sys, run: seq<Step>, m: nat, j: Job)
    requires m < |run| && Begins(After(s, run[..m]), run[m], j)
    ensures RunsNow(After(s, run[..m + 1]), j)
  {
    assert run[..m + 1] == run[..m] + [run[m]];
    AfterSnoc(s, run[..m], run[m]);
    assert After(s, run[..m + 1]).execs[run[m].i].phase == Running(j);
  }

  /** An unplaced version comes to run only through a worker that has read it. */
  lemma RanIsBegun(s: Sys, run: seq<Step>, j: Job)
    requires Disciplined(s) && Versioned(s, j) && Unplaced(s, j.id)
    ensures Ran(s, run, j) <==> Begun(s, run, j)
  {
    if Begun(s, run, j) {
      var m :| 0 <= m < |run| && Begins(After(s, run[..m]), run[m], j);
      BeginsRuns(s, run, m, j);
    } else {
      forall m | 0 <= m <= |run| ensures !RunsNow(After(s, run[..m]), j) {
        NotBegunBefore(s, run, m, j);
        RunUnplaced(s, run[..m], j);
        UnplacedNotRun(After(s, run[..m]), j);
      }
    }
  }

  lemma NotBegunBefore(s: Sys, run: seq<Step>, n: nat, j: Job)
    requires n <= |run| && !Begun(s, run, j)
    ensures !Begun(s, run[..n], j)
  {
    forall m | 0 <= m < n ensures !Begins(After(s, run[..n][..m]), run[..n][m], j) {
      assert run[..n][..m] == run[..m] && run[..n][m] == run[m];
      assert !Begins(After(s, run[..m]), run[m], j);
    }
  }

  // ----- Workers that have read the version -----

  /** A worker that can still act has read the version. */
  ghost predicate HasLiveReader(s: Sys, j: Job) {
    exists i :: 0 <= i < |s.execs| && s.LiveAt(i) && Holds(s.execs[i], j)
  }

  /** A worker that stopped acting does not come back while its job is in progress. */
  lemma StaysIdle(s: Sys, step: Step, i: nat)
    requires Disciplined(s) && Enabled(s, step) && i < |s.execs| && !s.Live(s.execs[i])
    ensures !Apply(s, step).Live(s.execs[i])
  {
    AckOnList(s, i);
  }

  lemma StepNoLiveReader(s: Sys, step: Step, j: Job)
    requires Disciplined(s) && Versioned(s, j) && !InKey(s, j) && !HasLiveReader(s, j)
    ensures !HasLiveReader(Next(s, step), j) && !Begins(s, step, j)
  {
    assert Enabled(s, step) && step.DeleteKey? ==> s.LiveAt(step.i);
    if Enabled(s, step) {
      var s' := Apply(s, step);
      forall i | 0 <= i < |s'.execs| && s'.LiveAt(i) ensures !Holds(s'.execs[i], j) {
        ExecOrigin(s, step, s'.execs[i]);
        LiveOrigin(s, step, j, s'.execs[i]);
      }
    }
  }

  lemma LiveOrigin(s: Sys, step: Step, j: Job, e: Exec)
    requires Disciplined(s) && Versioned(s, j) && !InKey(s, j) && !HasLiveReader(s, j)
    requires Enabled(s, step) && ComesFrom(s, step, e) && Apply(s, step).Live(e)
    ensures !Holds(e, j)
  {
    if e in s.execs {
      var k :| 0 <= k < |s.execs| && s.execs[k] == e;
      if !s.Live(e) {
        StaysIdle(s, step, k);
      }
      assert s.LiveAt(k) ==> !Holds(s.execs[k], j);
    }
  }

  lemma {:induction false} NeverRuns(s: Sys, run: seq<Step>, j: Job)
    requires Disciplined(s) && Versioned(s, j) && Unplaced(s, j.id) && !InKey(s, j) && !HasLiveReader(s, j)
    ensures var s' := After(s, run);
            && Disciplined(s') && Versioned(s', j) && Unplaced(s', j.id) && !InKey(s', j) && !HasLiveReader(s', j)
            && !Ran(s, run, j)
  {
    if run == [] {
      UnplacedNotRun(s, j);
    } else {
      var prefix, last := run[..|run| - 1], run[|run| - 1];
      var s1 := After(s, prefix);
      NeverRuns(s, prefix, j);
      StepDisciplined(s1, last);
      StepVersioned(s1, last, j);
      StepNoLiveReader(s1, last, j);
      StepUnplaced(s1, last, j);
      StepInKey(s1, last, j);
      UnplacedNotRun(After(s, run), j);
      NotRanSnoc(s, run, j);
    }
  }

  lemma NotRanSnoc(s: Sys, run: seq<Step>, j: Job)
    requires run != [] && !Ran(s, run[..|run| - 1], j) && !RunsNow(After(s, run), j)
    ensures !Ran(s, run, j)
  {
    forall m | 0 <= m <= |run| ensures !RunsNow(After(s, run[..m]), j) {
      if m == |run| {
        assert run[..m] == run;
      } else {
        assert run[..|run| - 1][..m] == run[..m];
      }
    }
  }

  // ----- What becomes of an update -----

  /** An enqueue with a key map: the new version of the job goes under the key. */
  ghost predicate Update(s: Sys, step: Step) {
    Enabled(s, step) && step.EnqueueUniqueJob? && step.update
  }

  /** The key was set: the new version is written under it and placed nowhere. */
  ghost predicate Duplicate(s: Sys, step: Step) {
    Update(s, step) && step.job.Key() in s.store.keys
  }

  lemma NotYetSeen(s: Sys, id: Id)
    requires Disciplined(s) && id.Hex? && id !in s.issued
    ensures Unplaced(s, id)
    ensures forall k :: k in s.store.keys ==> !Names(s.store.keys[k], id)
    ensures forall i :: 0 <= i < |s.execs| && s.execs[i].phase.KeyRead? ==> !Names(s.execs[i].phase.payload, id)
  {
    UnissuedAbsent(s, id);
    forall i | 0 <= i < |s.execs|
      ensures !Works(s.execs[i], id) && (s.execs[i].phase.KeyRead? ==> !Names(s.execs[i].phase.payload, id))
    {
      assert GoodExec(s.issued, s.execs[i]);
    }
    forall k | k in s.store.keys ensures !Names(s.store.keys[k], id) {
      assert GoodPayload(s.issued, k.name, s.store.keys[k]);
    }
  }

  lemma UpdateWritten(s: Sys, write: Step)
    requires Disciplined(s) && Update(s, write)
    ensures var s' := Next(s, write);
            Disciplined(s') && Versioned(s', write.job) && InKey(s', write.job) && !HasReader(s', write.job)
    ensures Duplicate(s, write) ==> Unplaced(Next(s, write), write.job.id)
  {
    NotYetSeen(s, write.job.id);
    StepDisciplined(s, write);
    var s' := Apply(s, write);
    forall k | k in s'.store.keys && Names(s'.store.keys[k], write.job.id)
      ensures k == write.job.Key() && s'.store.keys[k] == Updated(write.job)
    {
      KeysAfter(s, write, k);
    }
    assert s'.execs == s.execs;
  }

  /** In any run, an update under its key is what a worker gets that reads the key before
      somebody touches it, and what that worker then starts to run, whatever happens to the key between
      its GET and its DEL. */
  lemma LatestWins(before: seq<Step>, write: Step, rest: seq<Step>, i: nat, mid: seq<Step>, i': nat)
    requires Update(After(INIT, before), write) && Quiet(Next(After(INIT, before), write), rest, write.job.Key())
    requires var s := After(Next(After(INIT, before), write), rest);
             var s' := After(Next(s, ReadKey(i)), mid);
             && Enabled(s, ReadKey(i)) && s.execs[i].raw.Key() == write.job.Key()
             && s'.LiveAt(i') && s'.execs[i'] == Next(s, ReadKey(i)).execs[i]
    ensures var s := After(Next(After(INIT, before), write), rest);
            var s' := After(Next(s, ReadKey(i)), mid);
            Next(s', DeleteKey(i')).execs[i'].phase == Running(write.job)
  {
    var s0 := Next(After(INIT, before), write);
    RunDisciplined(before);
    UpdateWritten(After(INIT, before), write);
    RunInKey(s0, rest, write.job);
  }

  /** No continuation makes any worker start to run the version. */
  ghost predicate Lost(s: Sys, j: Job) {
    forall more: seq<Step> :: !Ran(s, more, j)
  }

  lemma LiveReaderRuns(s: Sys, j: Job)
    requires HasLiveReader(s, j)
    ensures !Lost(s, j)
  {
    var i :| 0 <= i < |s.execs| && s.LiveAt(i) && Holds(s.execs[i], j);
    assert [DeleteKey(i)][..0] == [];
    BeginsRuns(s, [DeleteKey(i)], 0, j);
    assert Ran(s, [DeleteKey(i)], j);
  }

  lemma NoLiveReaderLost(s: Sys, j: Job)
    requires Disciplined(s) && Versioned(s, j) && Unplaced(s, j.id) && !InKey(s, j) && !HasLiveReader(s, j)
    ensures Lost(s, j)
  {
    forall more: seq<Step> ensures !Ran(s, more, j) {
      NeverRuns(s, more, j);
    }
  }

  /** An update that was skipped as a duplicate starts to run exactly when a worker that has read
      it deletes the key. Until then: while nobody touches the key it waits there; afterwards it
      can still start if and only if some worker that is still acting has read it, and no trace of
      it is left if and only if no worker has. */
  lemma UpdateFate(before: seq<Step>, write: Step, run: seq<Step>)
    requires Duplicate(After(INIT, before), write)
    ensures var s0 := Next(After(INIT, before), write);
            Ran(s0, run, write.job) <==> Begun(s0, run, write.job)
    ensures var s0 := Next(After(INIT, before), write);
            var s := After(s0, run);
            !Ran(s0, run, write.job) ==>
              && (InKey(s, write.job) <==> Quiet(s0, run, write.job.Key()))
              && (Gone(s, write.job) <==> !Quiet(s0, run, write.job.Key()) && !HasReader(s, write.job))
              && (!Quiet(s0, run, write.job.Key()) ==> (Lost(s, write.job) <==> !HasLiveReader(s, write.job)))
  {
    var s0, j := Next(After(INIT, before), write), write.job;
    RunDisciplined(before);
    UpdateWritten(After(INIT, before), write);
    RanIsBegun(s0, run, j);
    RunInKey(s0, run, j);
    if !Ran(s0, run, j) {
      RunUnplaced(s0, run, j);
      RunVersioned(s0, run, j);
      if HasLiveReader(After(s0, run), j) {
        LiveReaderRuns(After(s0, run), j);
      } else if !Quiet(s0, run, j.Key()) {
        NoLiveReaderLost(After(s0, run), j);
      }
    }
  }

  /** Step m is a GET of the key, and nobody has touched the key before it. */
  ghost predicate GetsUpdate(s0: Sys, run: seq<Step>, m: nat, j: Job)
    requires m < |run| && run[m].ReadKey?
  {
    var s := After(s0, run[..m]);
    Enabled(s, run[m]) && s.execs[run[m].i].raw.Key() == j.Key() && Quiet(s0, run[..m], j.Key())
  }

  /** Some step of the run is such a GET. */
  ghost predicate SomeGets(s0: Sys, run: seq<Step>, j: Job) {
    exists m :: 0 <= m < |run| && run[m].ReadKey? && GetsUpdate(s0, run, m, j)
  }

  lemma SomeGetsExtends(s0: Sys, run: seq<Step>, j: Job)
    requires run != [] && SomeGets(s0, run[..|run| - 1], j)
    ensures SomeGets(s0, run, j)
  {
    var prefix := run[..|run| - 1];
    var m :| 0 <= m < |prefix| && prefix[m].ReadKey? && GetsUpdate(s0, prefix, m, j);
    assert prefix[..m] == run[..m] && prefix[m] == run[m];
    assert GetsUpdate(s0, run, m, j);
  }

  lemma {:induction false} ReaderGot(s0: Sys, run: seq<Step>, j: Job)
    requires Disciplined(s0) && Versioned(s0, j) && InKey(s0, j) && !HasReader(s0, j) && HasReader(After(s0, run), j)
    ensures SomeGets(s0, run, j)
  {
    if run != [] {
      var prefix, n := run[..|run| - 1], |run| - 1;
      RunVersioned(s0, prefix, j);
      StepReader(After(s0, prefix), run[n], j);
      if HasReader(After(s0, prefix), j) {
        ReaderGot(s0, prefix, j);
        SomeGetsExtends(s0, run, j);
      } else {
        RunInKey(s0, prefix, j);
        assert GetsUpdate(s0, run, n, j);
      }
    }
  }

  /** A worker has read the update only if its GET came before anybody touched the key. */
  lemma ReadInTime(before: seq<Step>, write: Step, run: seq<Step>)
    requires Update(After(INIT, before), write) && HasReader(After(Next(After(INIT, before), write), run), write.job)
    ensures SomeGets(Next(After(INIT, before), write), run, write.job)
  {
    RunDisciplined(before);
    UpdateWritten(After(INIT, before), write);
    ReaderGot(Next(After(INIT, before), write), run, write.job);
  }

  /** The next one to touch the key decides: if that is a worker that has read the update, the
      update starts to run; if no worker has read it, it is gone for good. */
  lemma NextTouchDecides(before: seq<Step>, write: Step, rest: seq<Step>, touch: Step)
    requires Duplicate(After(INIT, before), write)
    requires Quiet(Next(After(INIT, before), write), rest, write.job.Key())
    requires Touches(After(Next(After(INIT, before), write), rest), touch, write.job.Key())
    ensures var s := After(Next(After(INIT, before), write), rest);
            && (RunsNow(Next(s, touch), write.job) <==> Begins(s, touch, write.job))
            && (Gone(Next(s, touch), write.job) <==> !HasReader(s, write.job))
            && (!HasReader(s, write.job) ==> Lost(Next(s, touch), write.job))
  {
    var s0, j := Next(After(INIT, before), write), write.job;
    var s := After(s0, rest);
    RunDisciplined(before);
    UpdateWritten(After(INIT, before), write);
    RunVersioned(s0, rest, j);
    QuietNotBegun(s0, rest, j);
    RunUnplaced(s0, rest, j);
    StepUnplaced(s, touch, j);
    StepInKey(s, touch, j);
    StepDisciplined(s, touch);
    StepVersioned(s, touch, j);
    if HasReader(s, j) {
      if !Begins(s, touch, j) {
        TouchKeepsReader(s, touch, j);
      }
    } else {
      TouchAddsNoReader(s, touch, j);
      NoLiveReaderLost(Next(s, touch), j);
    }
  }

  lemma TouchAddsNoReader(s: Sys, touch: Step, j: Job)
    requires Versioned(s, j) && !HasReader(s, j) && Touches(s, touch, j.Key())
    ensures !HasReader(Next(s, touch), j) && !Begins(s, touch, j)
  {
    if HasReader(Next(s, touch), j) {
      StepReader(s, touch, j);
    }
  }

  lemma QuietNotBegun(s: Sys, run: seq<Step>, j: Job)
    requires Disciplined(s) && Versioned(s, j) && Quiet(s, run, j.Key())
    ensures !Begun(s, run, j)
  {
    forall m | 0 <= m < |run| ensures !Begins(After(s, run[..m]), run[m], j) {
      RunVersioned(s, run[..m], j);
      var s' := After(s, run[..m]);
      assert !Touches(s', run[m], j.Key());
      if Enabled(s', run[m]) && run[m].DeleteKey? {
        assert VersionOf(s'.execs[run[m].i], j);
      }
    }
  }

  // ----- An update that found the key free -----

  predicate Keyed(x: Job, j: Job) {
    x.id == j.id ==> x.unique && x.Key() == j.Key()
  }

  /** The job is somewhere, and no worker that fetched it is past the deletion of its key. */
  ghost predicate InPlace(s: Sys, j: Job) {
    && Present(Where(s.store.jobs), j.id)
    && (forall a, x :: x in At(s.store.jobs, a) ==> Keyed(x, j))
    && (forall i :: 0 <= i < |s.execs| ==> Before(s.execs[i], j))
  }

  predicate Before(e: Exec, j: Job) {
    && Keyed(e.raw, j)
    && (e.phase.Running? ==> e.raw.id != j.id && e.phase.job.id != j.id)
  }

  /** A client deletes the job. */
  predicate Deletes(step: Step, id: Id) {
    step.Delete? && step.job.id == id
  }

  lemma MoveKeepsId(s: Sys, step: Step, j: Job)
    requires Enabled(s, step) && InPlace(s, j) && !Deletes(step, j.id) && j.id.Hex? && j.id in s.issued
    requires MoveOf(s, step).src.Spot? && MoveOf(s, step).src.job.id == j.id && MoveOf(s, step).src.job in At(s.store.jobs, MoveOf(s, step).src.place)
    ensures var dst := MoveOf(s, step).dst;
            dst.Spot? && dst.job.id == j.id && dst.job.unique && dst.job.Key() == j.Key()
  {
    assert Keyed(MoveOf(s, step).src.job, j);
  }

  lemma ArrivalKeepsId(s: Sys, step: Step, j: Job)
    requires Enabled(s, step) && InPlace(s, j) && j.id.Hex? && j.id in s.issued
    requires MoveOf(s, step).dst.Spot? && MoveOf(s, step).dst.job.id == j.id
    ensures MoveOf(s, step).src.Spot? && MoveOf(s, step).src.job.id == j.id
  {
  }

  lemma StaysInPlace(s: Sys, step: Step, j: Job)
    requires Disciplined(s) && Enabled(s, step) && InPlace(s, j) && !Deletes(step, j.id) && j.id.Hex? && j.id in s.issued
    ensures Present(Where(Apply(s, step).store.jobs), j.id)
    ensures forall a, x :: x in At(Apply(s, step).store.jobs, a) ==> Keyed(x, j)
  {
    var f, g, m := Where(s.store.jobs), Where(Apply(s, step).store.jobs), MoveOf(s, step);
    StepShifts(s, step);
    if m.src.Spot? && m.src.job.id == j.id {
      assert m.src.job in f(m.src.place);
      MoveKeepsId(s, step, j);
    } else if m.dst.Spot? && m.dst.job.id == j.id {
      ArrivalKeepsId(s, step, j);
    }
    PresentShift(f, g, m, j.id);
    forall a, x | x in At(Apply(s, step).store.jobs, a) ensures Keyed(x, j) {
      assert x in g(a);
      Origin(f, g, m, a, x);
      assert x in f(a) ==> x in At(s.store.jobs, a);
    }
  }

  lemma StepBefore(s: Sys, step: Step, j: Job, e: Exec)
    requires Versioned(s, j) && InKey(s, j) && InPlace(s, j) && Enabled(s, step) && ComesFrom(s, step, e)
    requires !Touches(s, step, j.Key())
    ensures Before(e, j)
  {
    if e in s.execs {
      var k :| 0 <= k < |s.execs| && s.execs[k] == e;
      assert Before(s.execs[k], j);
    } else if !step.FetchJob? {
      assert Before(s.execs[step.i], j) && VersionOf(s.execs[step.i], j);
    }
  }

  lemma StepInPlace(s: Sys, step: Step, j: Job)
    requires Disciplined(s) && Versioned(s, j) && InKey(s, j) && InPlace(s, j)
    requires !Touches(s, step, j.Key()) && !Deletes(step, j.id)
    ensures InPlace(Next(s, step), j)
  {
    if Enabled(s, step) {
      var s' := Apply(s, step);
      StaysInPlace(s, step, j);
      forall i | 0 <= i < |s'.execs| ensures Before(s'.execs[i], j) {
        ExecOrigin(s, step, s'.execs[i]);
        StepBefore(s, step, j, s'.execs[i]);
      }
    }
  }

  lemma {:induction false} RunInPlace(s: Sys, run: seq<Step>, j: Job)
    requires Disciplined(s) && Versioned(s, j) && InKey(s, j) && InPlace(s, j)
    requires Quiet(s, run, j.Key()) && forall m :: 0 <= m < |run| ==> !Deletes(run[m], j.id)
    ensures InPlace(After(s, run), j)
  {
    if run != [] {
      var prefix, last := run[..|run| - 1], run[|run| - 1];
      QuietSnoc(s, run, j.Key());
      RunInPlace(s, prefix, j);
      RunVersioned(s, prefix, j);
      RunInKey(s, prefix, j);
      StepInPlace(After(s, prefix), last, j);
    }
  }

  lemma FreeKeyPlaces(s: Sys, write: Step)
    requires Disciplined(s) && Update(s, write) && !Duplicate(s, write)
    ensures InPlace(Next(s, write), write.job)
  {
    var j, f, g, m := write.job, Where(s.store.jobs), Where(Apply(s, write).store.jobs), MoveOf(s, write);
    NotYetSeen(s, j.id);
    StepShifts(s, write);
    Arrived(f, g, m);
    forall a, x | x in At(Apply(s, write).store.jobs, a) ensures Keyed(x, j) {
      assert x in g(a);
      Origin(f, g, m, a, x);
    }
    forall i | 0 <= i < |s.execs| ensures Before(s.execs[i], j) {
      assert !Works(s.execs[i], j.id);
    }
  }

  /** As long as nobody touches the key, an update is on a list or in a sorted set if and only if
      it found the key free: the one is still to be fetched or held by a worker that has not
      deleted its key, the other is nowhere but under the key. */
  lemma PlacedExactly(before: seq<Step>, write: Step, rest: seq<Step>)
    requires Update(After(INIT, before), write)
    requires Quiet(Next(After(INIT, before), write), rest, write.job.Key())
    requires forall m :: 0 <= m < |rest| ==> !Deletes(rest[m], write.job.id)
    ensures Present(Where(After(Next(After(INIT, before), write), rest).store.jobs), write.job.id)
            <==> !Duplicate(After(INIT, before), write)
  {
    var s, j := After(INIT, before), write.job;
    RunDisciplined(before);
    UpdateWritten(s, write);
    if Duplicate(s, write) {
      QuietNotBegun(Next(s, write), rest, j);
      RunUnplaced(Next(s, write), rest, j);
    } else {
      FreeKeyPlaces(s, write);
      RunInPlace(Next(s, write), rest, j);
    }
  }
}
