/** The uniqueness bound is exact, and each way to exceed one copy exceeds it by itself: a retry, a
    requeue from the dead set, the reaping of a running job, the expiry of the key, and a client's
    deletion of another job's key each allow one more copy, as often as they happen. */
module Reentries {
  import opened JobStore
  import opened Protocol
  import opened Conservation
  import opened Uniqueness

  datatype Kind = FromRetry | FromDead | FromCrash | ByExpiry | ByClient

  predicate IsKind(step: Step, kind: Kind) {
    match kind
    case FromRetry => step.Requeue?
    case FromDead => step.RetryDead?
    case FromCrash => step.ReenqueueJob?
    case ByExpiry => step.Expire?
    case ByClient => step.FinishDelete?
  }

  /** The extra copies of the key that the run allows are all of one kind. */
  ghost predicate OnlyKind(run: seq<Step>, k: UniqueKey, kind: Kind) {
    forall m :: 0 <= m < |run| && Extra(After(INIT, run[..m]), run[m], k) > 0 ==> IsKind(run[m], kind)
  }

  // ----- States between rounds -----

  predicate IsCopy(x: Job, k: UniqueKey) {
    x.unique && x.uniqueKey == Some(k) && x.name == k.name && x.fails >= 0
  }

  predicate AllCopies(q: seq<Job>, k: UniqueKey) {
    forall m :: 0 <= m < |q| ==> IsCopy(q[m], k)
  }

  /** A key beside k, one for each number. */
  function Beside(k: UniqueKey, m: nat): UniqueKey {
    UniqueKey(k.name, k.content + 1 + m)
  }

  /** From number i on, identifiers, pools and keys beside k are unused. */
  ghost predicate Unused(s: Sys, k: UniqueKey, i: nat) {
    forall m: nat :: m >= i ==>
      Hex(m) !in s.issued && m !in s.dead && Beside(k, m) !in s.store.keys && s.store.jobs.List(InProgress(k.name, m)) == []
  }

  /** Nothing in the sorted sets and no client between its two commands. */
  predicate Calm(s: Sys) {
    && s.store.jobs.Zset(Retry) == map[] && s.store.jobs.Zset(Dead) == map[] && s.store.jobs.Zset(Scheduled) == map[]
    && s.pending == [] && s.store.settings == map[]
  }

  /** n copies of the key wait in the queue, the key may be set, these workers are busy. */
  ghost predicate Ready(s: Sys, k: UniqueKey, n: nat, execs: seq<Exec>, isSet: bool, i: nat) {
    && Calm(s) && Unused(s, k, i) && s.execs == execs
    && |s.store.jobs.List(Queue(k.name))| == n && AllCopies(s.store.jobs.List(Queue(k.name)), k)
    && (if isSet then k in s.store.keys && s.store.keys[k] == One else k !in s.store.keys)
  }

  lemma {:induction false} CopiesWeigh(q: seq<Job>, k: UniqueKey)
    requires AllCopies(q, k)
    ensures BagWeigh(multiset(q), HasKey(k)) == |q|
  {
    if q != [] {
      var q', x := q[..|q| - 1], q[|q| - 1];
      CopiesWeigh(q', k);
      assert q == q' + [x];
      BagWeighAdd(multiset(q'), x, HasKey(k));
    }
  }

  lemma ReadyCopies(s: Sys, k: UniqueKey, n: nat, i: nat)
    requires Ready(s, k, n, [], true, i)
    ensures Copies(s, k) == n
  {
    var f := Where(s.store.jobs);
    CopiesWeigh(s.store.jobs.List(Queue(k.name)), k);
    assert f(AtZset(Scheduled)) == multiset{} && f(AtList(Queue(k.name))) == multiset(s.store.jobs.List(Queue(k.name)));
  }

  // ----- Runs with their extras -----

  ghost predicate Reach(run: seq<Step>, s: Sys, k: UniqueKey, kind: Kind, extras: nat) {
    After(INIT, run) == s && Extras(run, k) == extras && OnlyKind(run, k, kind)
  }

  lemma ReachStep(run: seq<Step>, s: Sys, step: Step, k: UniqueKey, kind: Kind, extras: nat)
    requires Reach(run, s, k, kind, extras) && (Extra(s, step, k) > 0 ==> IsKind(step, kind))
    ensures Reach(run + [step], Next(s, step), k, kind, extras + Extra(s, step, k))
  {
    var run' := run + [step];
    AfterSnoc(INIT, run, step);
    assert run'[..|run'| - 1] == run;
    forall m | 0 <= m < |run'| && Extra(After(INIT, run'[..m]), run'[m], k) > 0 ensures IsKind(run'[m], kind) {
      if m < |run| {
        assert run'[..m] == run[..m] && run'[m] == run[m];
      }
    }
  }

  lemma ReachTwo(run: seq<Step>, s: Sys, a: Step, b: Step, k: UniqueKey, kind: Kind, extras: nat)
    requires Reach(run, s, k, kind, extras) && (Extra(s, a, k) > 0 ==> IsKind(a, kind))
    requires Extra(Next(s, a), b, k) > 0 ==> IsKind(b, kind)
    ensures Reach(run + [a] + [b], Next(Next(s, a), b), k, kind, extras + Extra(s, a, k) + Extra(Next(s, a), b, k))
  {
    ReachStep(run, s, a, k, kind, extras);
    ReachStep(run + [a], Next(s, a), b, k, kind, extras + Extra(s, a, k));
  }

  // ----- Steps of a round -----

  function Copy(k: UniqueKey, i: nat): Job {
    Job(k.name, Hex(i), 0, 0, true, Some(k), 0, NoError, 0)
  }

  function Again(k: UniqueKey, i: nat): Step {
    EnqueueUniqueJob(Copy(k, i), None, false)
  }

  lemma AgainReady(s: Sys, k: UniqueKey, n: nat, execs: seq<Exec>, i: nat)
    requires Ready(s, k, n, execs, false, i)
    ensures Ready(Next(s, Again(k, i)), k, n + 1, execs, true, i + 1) && Extra(s, Again(k, i), k) == 0
    ensures forall n, p :: Next(s, Again(k, i)).store.jobs.List(InProgress(n, p)) == s.store.jobs.List(InProgress(n, p))
    ensures Next(s, Again(k, i)).store.locks == s.store.locks && Next(s, Again(k, i)).dead == s.dead
  {
    var s' := Apply(s, Again(k, i));
    assert s'.store.jobs.List(Queue(k.name)) == [Copy(k, i)] + s.store.jobs.List(Queue(k.name));
  }

  lemma ExpireReady(s: Sys, k: UniqueKey, n: nat, i: nat)
    requires Ready(s, k, n, [], true, i)
    ensures Ready(Next(s, Expire(k)), k, n, [], false, i) && Extra(s, Expire(k), k) == 1
  {
  }

  /** A worker of pool p, which still has its lock entry, holds one copy. */
  ghost predicate Busy(s: Sys, k: UniqueKey, n: nat, x: Job, phase: Phase, isSet: bool, p: Pool, i: nat) {
    && Ready(s, k, n, [Exec(p, k.name, x, phase, true)], isSet, i) && IsCopy(x, k) && p < i
    && p !in s.dead && s.store.jobs.List(InProgress(k.name, p)) == [x] && p in s.store.Lock(k.name).info
  }

  lemma FetchBusy(s: Sys, k: UniqueKey, n: nat, i: nat) returns (x: Job)
    requires Ready(s, k, n + 1, [], true, i)
    ensures Busy(Next(s, FetchJob(i, [k.name])), k, n, x, Fetched, true, i, i + 1)
    ensures Extra(s, FetchJob(i, [k.name]), k) == 0
  {
    var q := s.store.jobs.List(Queue(k.name));
    x := Last(q);
    assert FirstEligible(s.store, [k.name]) == 0;
    var s' := Apply(s, FetchJob(i, [k.name]));
    assert s'.store.jobs.List(Queue(k.name)) == q[..n];
  }

  lemma ReadBusy(s: Sys, k: UniqueKey, n: nat, x: Job, p: Pool, i: nat)
    requires Busy(s, k, n, x, Fetched, true, p, i)
    ensures Busy(Next(s, ReadKey(0)), k, n, x, KeyRead(One), true, p, i) && Extra(s, ReadKey(0), k) == 0
  {
  }

  lemma DeleteBusy(s: Sys, k: UniqueKey, n: nat, x: Job, p: Pool, i: nat)
    requires Busy(s, k, n, x, KeyRead(One), true, p, i)
    ensures Busy(Next(s, DeleteKey(0)), k, n, x, Running(x), false, p, i) && Extra(s, DeleteKey(0), k) == 0
  {
  }

  lemma AgainBusy(s: Sys, k: UniqueKey, n: nat, x: Job, p: Pool, i: nat)
    requires Busy(s, k, n, x, Running(x), false, p, i)
    ensures Busy(Next(s, Again(k, i)), k, n + 1, x, Running(x), true, p, i + 1) && Extra(s, Again(k, i), k) == 0
  {
    AgainReady(s, k, n, s.execs, i);
  }

  lemma Taken(run: seq<Step>, s: Sys, k: UniqueKey, n: nat, i: nat, kind: Kind, extras: nat)
    returns (run': seq<Step>, s': Sys, x: Job)
    requires Ready(s, k, n + 1, [], true, i) && Reach(run, s, k, kind, extras)
    ensures Busy(s', k, n, x, KeyRead(One), true, i, i + 1) && Reach(run', s', k, kind, extras)
  {
    var a, b := FetchJob(i, [k.name]), ReadKey(0);
    x := FetchBusy(s, k, n, i);
    ReadBusy(Next(s, a), k, n, x, i, i + 1);
    ReachTwo(run, s, a, b, k, kind, extras);
    run', s' := run + [a] + [b], Next(Next(s, a), b);
  }

  lemma Freed(run: seq<Step>, s: Sys, k: UniqueKey, n: nat, x: Job, p: Pool, i: nat, kind: Kind, extras: nat)
    returns (run': seq<Step>, s': Sys)
    requires Busy(s, k, n, x, KeyRead(One), true, p, i) && Reach(run, s, k, kind, extras)
    ensures Busy(s', k, n + 1, x, Running(x), true, p, i + 1) && Reach(run', s', k, kind, extras)
  {
    var a, b := DeleteKey(0), Again(k, i);
    DeleteBusy(s, k, n, x, p, i);
    AgainBusy(Next(s, a), k, n, x, p, i);
    ReachTwo(run, s, a, b, k, kind, extras);
    run', s' := run + [a] + [b], Next(Next(s, a), b);
  }

  /** A worker takes one copy past the deletion of its key, and another copy is enqueued. */
  lemma Replaced(run: seq<Step>, s: Sys, k: UniqueKey, n: nat, i: nat, kind: Kind, extras: nat)
    returns (run': seq<Step>, s': Sys, x: Job)
    requires Ready(s, k, n + 1, [], true, i) && Reach(run, s, k, kind, extras)
    ensures Busy(s', k, n + 1, x, Running(x), true, i, i + 2) && Reach(run', s', k, kind, extras)
  {
    run', s', x := Taken(run, s, k, n, i, kind, extras);
    run', s' := Freed(run', s', k, n, x, i, i + 1, kind, extras);
  }

  // ----- Re-entries -----

  /** The held copy failed and sits in one sorted set. */
  ghost predicate Failed(s: Sys, k: UniqueKey, n: nat, w: ZsetName, x: Job, i: nat) {
    && s.store.jobs.Zset(w) == map[x := 0] && IsCopy(x, k) && (w == Retry || w == Dead)
    && Ready(WithJobs(s, s.store.jobs.WithZset(w, map[])), k, n, [], true, i)
  }

  function RetryAck(x: Job): Step {
    Ack(0, Errored(NoError), Some(JobOptions(if x.fails < 0 then 0 else x.fails + 2, false)), 0, 0)
  }

  const DEAD_ACK := Ack(0, Errored(NoError), None, 0, 0)

  lemma AckSettles(s: Sys, k: UniqueKey, n: nat, x: Job, p: Pool, i: nat, ack: Step, w: ZsetName)
    requires Busy(s, k, n, x, Running(x), true, p, i)
    requires (ack == RetryAck(x) && w == Retry) || (ack == DEAD_ACK && w == Dead)
    ensures Enabled(s, ack) && Apply(s, ack).execs == [] && SameOtherwise(s, Apply(s, ack))
    ensures Apply(s, ack).store.jobs == s.store.jobs.Lrem(InProgress(k.name, p), x).Zadd(w, x.Failed(NoError, 0), 0)
  {
  }

  /** Apart from jobs, locks and workers. */
  predicate SameOtherwise(s: Sys, s': Sys) {
    s'.dead == s.dead && s'.issued == s.issued && s'.pending == s.pending
    && s'.store.keys == s.store.keys && s'.store.settings == s.store.settings
  }

  lemma SettledLists(r: Jobs, n: Name, p: Pool, x: Job, x': Job, w: ZsetName)
    requires r.List(InProgress(n, p)) == [x] && r.Zset(w) == map[]
    ensures var r' := r.Lrem(InProgress(n, p), x).Zadd(w, x', 0);
            && r'.Zset(w) == map[x' := 0] && (forall v :: v != w ==> r'.Zset(v) == r.Zset(v))
            && r'.List(Queue(n)) == r.List(Queue(n)) && r'.List(InProgress(n, p)) == []
            && forall q :: q != p ==> r'.List(InProgress(n, q)) == r.List(InProgress(n, q))
  {
  }

  lemma SettledFailed(s: Sys, s': Sys, k: UniqueKey, n: nat, x: Job, p: Pool, i: nat, w: ZsetName, x': Job)
    requires Busy(s, k, n, x, Running(x), true, p, i) && s'.execs == [] && SameOtherwise(s, s')
    requires s'.store.jobs == s.store.jobs.Lrem(InProgress(k.name, p), x).Zadd(w, x', 0)
    requires IsCopy(x', k) && (w == Retry || w == Dead)
    ensures Failed(s', k, n, w, x', i)
  {
    SettledLists(s.store.jobs, k.name, p, x, x', w);
  }

  lemma AckFails(s: Sys, k: UniqueKey, n: nat, x: Job, p: Pool, i: nat, ack: Step, w: ZsetName)
    requires Busy(s, k, n, x, Running(x), true, p, i)
    requires (ack == RetryAck(x) && w == Retry) || (ack == DEAD_ACK && w == Dead)
    ensures Failed(Next(s, ack), k, n, w, x.Failed(NoError, 0), i) && Extra(s, ack, k) == 0
  {
    AckSettles(s, k, n, x, p, i, ack, w);
    SettledFailed(s, Apply(s, ack), k, n, x, p, i, w, x.Failed(NoError, 0));
  }

  lemma RetryReenters(s: Sys, k: UniqueKey, n: nat, x: Job, i: nat)
    requires Failed(s, k, n, Retry, x, i)
    ensures var step := Requeue(Retry, x, {k.name}, 0);
            Ready(Next(s, step), k, n + 1, [], true, i) && Extra(s, step, k) == 1
  {
    var s' := Apply(s, Requeue(Retry, x, {k.name}, 0));
    assert s'.store.jobs.List(Queue(k.name)) == [x.Requeued(0)] + s.store.jobs.List(Queue(k.name));
  }

  lemma DeadReenters(s: Sys, k: UniqueKey, n: nat, x: Job, i: nat)
    requires Failed(s, k, n, Dead, x, i)
    ensures var step := RetryDead(x, {k.name}, 0);
            Ready(Next(s, step), k, n + 1, [], true, i) && Extra(s, step, k) == 1
  {
    var s' := Apply(s, RetryDead(x, {k.name}, 0));
    assert s'.store.jobs.List(Queue(k.name)) == [x.Revived(0)] + s.store.jobs.List(Queue(k.name));
  }

  lemma CrashReenters(s: Sys, k: UniqueKey, n: nat, x: Job, p: Pool, i: nat)
    requires Busy(s, k, n, x, Running(x), true, p, i)
    ensures var s1, step := Next(s, Crash(p)), ReenqueueJob(p, [k.name], 0);
            Ready(Next(s1, step), k, n + 1, [], true, i) && Extra(s, Crash(p), k) == 0 && Extra(s1, step, k) == 1
  {
    var s1, step := Next(s, Crash(p)), ReenqueueJob(p, [k.name], 0);
    assert FirstHeld(s1.store.jobs, [k.name], p) == 0;
    var s' := Apply(s1, step);
    assert s'.store.jobs.List(Queue(k.name)) == [x] + s.store.jobs.List(Queue(k.name));
    assert s'.execs == [];
  }

  // ----- Removals of the key -----

  /** A job under another key whose arguments are the content of k. */
  function Other(k: UniqueKey, i: nat): Job {
    Job(k.name, Hex(i), 0, k.content, true, Some(Beside(k, i)), 0, NoError, 0)
  }

  /** It is scheduled, deleted by a client, and k is about to be deleted in its place. */
  ghost predicate AboutToFree(s: Sys, k: UniqueKey, n: nat, i: nat) {
    s.pending == [PendingDel(k, false)] && Ready(s.(pending := []), k, n, [], true, i)
  }

  lemma OtherDeleted(s: Sys, k: UniqueKey, n: nat, i: nat)
    requires Ready(s, k, n, [], true, i)
    ensures var a, b := EnqueueUniqueJob(Other(k, i), Some(0), false), Delete(Scheduled, Other(k, i), true);
            AboutToFree(Next(Next(s, a), b), k, n, i + 1) && Extra(s, a, k) == 0 && Extra(Next(s, a), b, k) == 0
  {
    var j := Other(k, i);
    var a, b := EnqueueUniqueJob(j, Some(0), false), Delete(Scheduled, j, true);
    assert j.Key() == Beside(k, i) && j.ArgsKey() == k;
    var s1 := Apply(s, a);
    assert s1.store.jobs.Zset(Scheduled) == map[j := 0] && s1.store.jobs.lists == s.store.jobs.lists;
    var s2 := Apply(s1, b);
    assert s2.store.jobs.Zset(Scheduled) == map[] && s2.store.jobs.lists == s.store.jobs.lists;
    assert s2.pending == [PendingDel(k, false)];
  }

  lemma ClientFrees(s: Sys, k: UniqueKey, n: nat, i: nat)
    requires AboutToFree(s, k, n, i)
    ensures Ready(Next(s, FinishDelete(0)), k, n, [], false, i) && Extra(s, FinishDelete(0), k) == 1
  {
    assert Apply(s, FinishDelete(0)).pending == [];
  }

  // ----- One round of each kind -----

  lemma ExpiryRound(run: seq<Step>, s: Sys, k: UniqueKey, n: nat, i: nat, extras: nat)
    returns (run': seq<Step>, s': Sys, i': nat)
    requires Ready(s, k, n + 1, [], true, i) && Reach(run, s, k, ByExpiry, extras)
    ensures Ready(s', k, n + 2, [], true, i') && Reach(run', s', k, ByExpiry, extras + 1)
  {
    var a, b := Expire(k), Again(k, i);
    ExpireReady(s, k, n + 1, i);
    AgainReady(Next(s, a), k, n + 1, [], i);
    ReachTwo(run, s, a, b, k, ByExpiry, extras);
    run', s', i' := run + [a] + [b], Next(Next(s, a), b), i + 1;
  }

  lemma ClientRound(run: seq<Step>, s: Sys, k: UniqueKey, n: nat, i: nat, extras: nat)
    returns (run': seq<Step>, s': Sys, i': nat)
    requires Ready(s, k, n + 1, [], true, i) && Reach(run, s, k, ByClient, extras)
    ensures Ready(s', k, n + 2, [], true, i') && Reach(run', s', k, ByClient, extras + 1)
  {
    run', s' := ClientPrepares(run, s, k, n + 1, i, extras);
    var c, d := FinishDelete(0), Again(k, i + 1);
    ClientFrees(s', k, n + 1, i + 1);
    AgainReady(Next(s', c), k, n + 1, [], i + 1);
    ReachTwo(run', s', c, d, k, ByClient, extras);
    run', s', i' := run' + [c] + [d], Next(Next(s', c), d), i + 2;
  }

  lemma ClientPrepares(run: seq<Step>, s: Sys, k: UniqueKey, n: nat, i: nat, extras: nat)
    returns (run': seq<Step>, s': Sys)
    requires Ready(s, k, n, [], true, i) && Reach(run, s, k, ByClient, extras)
    ensures AboutToFree(s', k, n, i + 1) && Reach(run', s', k, ByClient, extras)
  {
    var a, b := EnqueueUniqueJob(Other(k, i), Some(0), false), Delete(Scheduled, Other(k, i), true);
    OtherDeleted(s, k, n, i);
    ReachTwo(run, s, a, b, k, ByClient, extras);
    run', s' := run + [a] + [b], Next(Next(s, a), b);
  }

  /** The last two steps of a round in which a copy comes back. */
  lemma Reenters(run: seq<Step>, s: Sys, k: UniqueKey, n: nat, x: Job, p: Pool, i: nat, kind: Kind, extras: nat)
    returns (run': seq<Step>, s': Sys)
    requires Busy(s, k, n, x, Running(x), true, p, i) && Reach(run, s, k, kind, extras)
    requires kind.FromRetry? || kind.FromDead? || kind.FromCrash?
    ensures Ready(s', k, n + 1, [], true, i) && Reach(run', s', k, kind, extras + 1)
  {
    var a, b, x' := Crash(p), ReenqueueJob(p, [k.name], 0), x.Failed(NoError, 0);
    match kind {
      case FromRetry =>
        a, b := RetryAck(x), Requeue(Retry, x', {k.name}, 0);
        AckFails(s, k, n, x, p, i, a, Retry);
        RetryReenters(Next(s, a), k, n, x', i);
      case FromDead =>
        a, b := DEAD_ACK, RetryDead(x', {k.name}, 0);
        AckFails(s, k, n, x, p, i, a, Dead);
        DeadReenters(Next(s, a), k, n, x', i);
      case FromCrash =>
        CrashReenters(s, k, n, x, p, i);
    }
    ReachTwo(run, s, a, b, k, kind, extras);
    run', s' := run + [a] + [b], Next(Next(s, a), b);
  }

  lemma Round(run: seq<Step>, s: Sys, k: UniqueKey, n: nat, i: nat, kind: Kind, extras: nat)
    returns (run': seq<Step>, s': Sys, i': nat)
    requires Ready(s, k, n + 1, [], true, i) && Reach(run, s, k, kind, extras)
    ensures Ready(s', k, n + 2, [], true, i') && Reach(run', s', k, kind, extras + 1)
  {
    match kind {
      case ByExpiry => run', s', i' := ExpiryRound(run, s, k, n, i, extras);
      case ByClient => run', s', i' := ClientRound(run, s, k, n, i, extras);
      case _ =>
        var x;
        run', s', x := Replaced(run, s, k, n, i, kind, extras);
        run', s' := Reenters(run', s', k, n + 1, x, i, i + 2, kind, extras);
        i' := i + 2;
    }
  }

  lemma StartReady(k: UniqueKey)
    ensures Ready(INIT, k, 0, [], false, 0)
  {
  }

  lemma FirstRound(k: UniqueKey, kind: Kind)
    ensures Ready(Next(INIT, Again(k, 0)), k, 1, [], true, 1) && Reach([] + [Again(k, 0)], Next(INIT, Again(k, 0)), k, kind, 0)
  {
    StartReady(k);
    AgainReady(INIT, k, 0, [], 0);
    ReachStep([], INIT, Again(k, 0), k, kind, 0);
  }

  /** A run with e extras of the kind, and e + 1 copies in the queue. */
  lemma {:induction false} Rounds(k: UniqueKey, kind: Kind, e: nat) returns (run: seq<Step>, s: Sys, i: nat)
    ensures Ready(s, k, e + 1, [], true, i) && Reach(run, s, k, kind, e)
  {
    if e == 0 {
      FirstRound(k, kind);
      run, s, i := [] + [Again(k, 0)], Next(INIT, Again(k, 0)), 1;
    } else {
      run, s, i := Rounds(k, kind, e - 1);
      run, s, i := Round(run, s, k, e - 1, i, kind, e - 1);
    }
  }

  // ----- The bound -----

  /** With at most e extras, all of one kind, there are never more than c copies. */
  ghost predicate EnoughOf(kind: Kind, e: nat, c: nat) {
    forall run: seq<Step>, k: UniqueKey ::
      Extras(run, k) <= e && OnlyKind(run, k, kind) ==> Copies(After(INIT, run), k) <= c
  }

  /** With at most e re-entries and foreign removals there are never more than c copies. */
  ghost predicate EnoughFor(e: nat, c: nat) {
    forall run: seq<Step>, k: UniqueKey :: Extras(run, k) <= e ==> Copies(After(INIT, run), k) <= c
  }

  lemma RoundsCopies(k: UniqueKey, kind: Kind, e: nat) returns (run: seq<Step>)
    ensures Extras(run, k) == e && OnlyKind(run, k, kind) && Copies(After(INIT, run), k) == e + 1
  {
    var s, i;
    run, s, i := Rounds(k, kind, e);
    ReadyCopies(s, k, e + 1, i);
  }

  /** Whatever the kind, one more copy per re-entry or removal is what can be promised, no less. */
  lemma ExactPerKind(kind: Kind, e: nat, c: nat)
    ensures EnoughOf(kind, e, c) <==> c >= e + 1
  {
    if c >= e + 1 {
      forall run: seq<Step>, k: UniqueKey | Extras(run, k) <= e ensures Copies(After(INIT, run), k) <= c {
        UniqueBound(run, k);
      }
    } else {
      var run := RoundsCopies(UniqueKey(0, 0), kind, e);
    }
  }

  /** The bound over all kinds is exact. In particular "only one at once" can be promised exactly
      when there is no re-entry and no foreign removal. */
  lemma ExactBound(e: nat, c: nat)
    ensures EnoughFor(e, c) <==> c >= e + 1
  {
    if c >= e + 1 {
      forall run: seq<Step>, k: UniqueKey | Extras(run, k) <= e ensures Copies(After(INIT, run), k) <= c {
        UniqueBound(run, k);
      }
    } else {
      var run := RoundsCopies(UniqueKey(0, 0), ByExpiry, e);
    }
  }
}
