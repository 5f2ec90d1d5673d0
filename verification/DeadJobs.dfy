/** The client's operations on the dead set: retrying one or all dead jobs, and deleting a
    scheduled job together with its uniqueness key. */
module DeadJobs {
  import opened Tally
  import opened JobStore
  import opened RedisServer
  import opened Requeuer
  import opened Protocol

  // ----- One round -----

  lemma ReviveLists(jobs: Jobs, j: Job, known: set<Name>, now: int, k: ListKey)
    ensures Revive(jobs, j, known, now).List(k) ==
            if k == Queue(j.name) && j.name in known then [j.Revived(now)] + jobs.List(k) else jobs.List(k)
  {
  }

  lemma ReviveDead(jobs: Jobs, j: Job, known: set<Name>, now: int)
    ensures Revive(jobs, j, known, now).Zset(Dead) ==
            if j.name in known then jobs.Zset(Dead) - {j} else (jobs.Zset(Dead) - {j})[j.Unknown(now) := now + 5]
  {
  }

  // ----- A batch -----

  /** The jobs of a batch that go back to the queue of n, failures forgotten. */
  function Returning(batch: seq<Job>, known: set<Name>, n: Name, now: int): seq<Job> {
    if batch == [] then [] else
      var j := batch[|batch| - 1];
      Returning(batch[..|batch| - 1], known, n, now) + (if j.name == n && n in known then [j.Revived(now)] else [])
  }

  lemma {:induction false} ReviveAllQueue(jobs: Jobs, batch: seq<Job>, known: set<Name>, now: int, n: Name)
    ensures PopOrder(ReviveAll(jobs, batch, known, now).List(Queue(n))) ==
            PopOrder(jobs.List(Queue(n))) + Returning(batch, known, n, now)
  {
    if batch != [] {
      var prefix, j := batch[..|batch| - 1], batch[|batch| - 1];
      ReviveAllQueue(jobs, prefix, known, now, n);
      var mid := ReviveAll(jobs, prefix, known, now);
      ReviveLists(mid, j, known, now, Queue(n));
      PopOrderPush(j.Revived(now), mid.List(Queue(n)));
    }
  }

  /** The record of a dead job that was retried: in its queue with the time of the retry and no
      trace of failure, or still dead, marked as unknown and five seconds on. */
  ghost predicate Retried(jobs: Jobs, j: Job, known: set<Name>, now: int) {
    if j.name in known then
      Job(j.name, j.id, now, j.args, j.unique, j.uniqueKey, 0, NoError, 0) in jobs.List(Queue(j.name))
    else
      var marked := Job(j.name, j.id, j.enqueuedAt, j.args, j.unique, j.uniqueKey, j.fails, UnknownJob, now);
      marked in jobs.Zset(Dead) && jobs.Zset(Dead)[marked] == now + 5
  }

  lemma {:induction false} ReturningMember(batch: seq<Job>, known: set<Name>, j: Job, now: int)
    requires j in batch && j.name in known
    ensures j.Revived(now) in Returning(batch, known, j.name, now)
  {
    var prefix, last := batch[..|batch| - 1], batch[|batch| - 1];
    assert batch == prefix + [last];
    if j in prefix {
      ReturningMember(prefix, known, j, now);
    }
  }

  lemma ReviveAllRetries(jobs: Jobs, batch: seq<Job>, known: set<Name>, now: int)
    requires Distinct(batch)
    ensures forall j :: j in batch ==> Retried(ReviveAll(jobs, batch, known, now), j, known, now)
  {
    var jobs' := ReviveAll(jobs, batch, known, now);
    ReviveAllDead(jobs, batch, known, now);
    forall j | j in batch ensures Retried(jobs', j, known, now) {
      if j.name in known {
        ReviveAllQueue(jobs, batch, known, now, j.name);
        ReturningMember(batch, known, j, now);
        PopOrderMembers(jobs'.List(Queue(j.name)), j.Revived(now));
      } else {
        assert j.Unknown(now) in Marked(batch, known, now);
      }
    }
  }

  predicate Due(z: Zset, j: Job, now: int) {
    j in z && z[j] <= now
  }

  /** The dead set around a batch: what was not in it stays, jobs of unknown name come back
      marked and five seconds on, and that is all. */
  ghost predicate DeadAfter(d: Zset, d': Zset, batch: seq<Job>, known: set<Name>, now: int) {
    && d'.Keys == (d.Keys - Members(batch)) + Marked(batch, known, now)
    && forall j :: j in d' ==> d'[j] == if j in Marked(batch, known, now) then now + 5 else d[j]
  }

  /** A marked job that the batch reaches later comes back just the same. */
  lemma MarkedAgain(batch: seq<Job>, j: Job, known: set<Name>, now: int)
    requires j in Marked(batch, known, now)
    ensures j.name !in known && j.Unknown(now) == j
  {
  }

  lemma DeadAfterSnoc(d: Zset, d': Zset, d'': Zset, prefix: seq<Job>, j: Job, known: set<Name>, now: int)
    requires DeadAfter(d, d', prefix, known, now)
    requires d'' == if j.name in known then d' - {j} else (d' - {j})[j.Unknown(now) := now + 5]
    ensures DeadAfter(d, d'', prefix + [j], known, now)
  {
    MembersSnoc(prefix, j);
    MarkedSnoc(prefix, j, known, now);
    if j in Marked(prefix, known, now) {
      MarkedAgain(prefix, j, known, now);
    }
  }

  lemma {:induction false} ReviveAllDead(jobs: Jobs, batch: seq<Job>, known: set<Name>, now: int)
    requires Distinct(batch)
    ensures DeadAfter(jobs.Zset(Dead), ReviveAll(jobs, batch, known, now).Zset(Dead), batch, known, now)
  {
    if batch != [] {
      var prefix, j := batch[..|batch| - 1], batch[|batch| - 1];
      ReviveAllDead(jobs, prefix, known, now);
      var mid := ReviveAll(jobs, prefix, known, now);
      ReviveDead(mid, j, known, now);
      assert batch == prefix + [j];
      DeadAfterSnoc(jobs.Zset(Dead), mid.Zset(Dead), ReviveAll(jobs, batch, known, now).Zset(Dead), prefix, j, known, now);
    }
  }

  lemma {:induction false} ReviveAllConcat(jobs: Jobs, a: seq<Job>, b: seq<Job>, known: set<Name>, now: int)
    ensures ReviveAll(jobs, a + b, known, now) == ReviveAll(ReviveAll(jobs, a, known, now), b, known, now)
  {
    if b == [] {
      assert a + b == a;
    } else {
      assert (a + b)[..|a + b| - 1] == a + b[..|b| - 1];
      ReviveAllConcat(jobs, a, b[..|b| - 1], known, now);
    }
  }

  // ----- RetryDeadJob -----

  /** RetryDeadJob: false is ErrNotRetried. Every dead job with this score and identifier leaves
      the dead set for its queue when its name is known, and stays there marked otherwise. */
  method RetryDeadJob(redis: Redis, known: set<Name>, now: int, diedAt: int, id: Id) returns (ok: bool, ghost batch: seq<Job>)
    modifies redis`lists, redis`zsets
    ensures Distinct(batch) && forall j :: j in batch <==> Matches(old(redis.Contents().jobs.Zset(Dead)), j, diedAt, id)
    ensures ok <==> exists j :: j in batch && j.name in known
    ensures redis.Contents().jobs == ReviveAll(old(redis.Contents().jobs), batch, known, now)
    ensures DeadAfter(old(redis.Contents().jobs.Zset(Dead)), redis.Contents().jobs.Zset(Dead), batch, known, now)
    ensures forall n :: PopOrder(redis.Contents().jobs.List(Queue(n))) ==
                        PopOrder(old(redis.Contents().jobs.List(Queue(n)))) + Returning(batch, known, n, now)
    ensures forall j :: j in batch ==> Retried(redis.Contents().jobs, j, known, now)
  {
    ghost var jobs0 := redis.Contents().jobs;
    var requeued;
    requeued, batch := redis.RequeueSingleDeadScript(known, now, diedAt, id);
    ReviveAllDead(jobs0, batch, known, now);
    ReviveAllRetries(jobs0, batch, known, now);
    forall n ensures PopOrder(redis.Contents().jobs.List(Queue(n))) ==
                     PopOrder(jobs0.List(Queue(n))) + Returning(batch, known, n, now) {
      ReviveAllQueue(jobs0, batch, known, now, n);
    }
    KnownCounted(batch, known);
    ok := requeued != 0;
  }

  lemma {:induction false} KnownCounted(batch: seq<Job>, known: set<Name>)
    ensures Weigh(batch, IsKnown(known)) != 0 <==> exists j :: j in batch && j.name in known
  {
    if batch != [] {
      KnownCounted(batch[..|batch| - 1], known);
      assert batch == batch[..|batch| - 1] + [batch[|batch| - 1]];
      assert batch[|batch| - 1] in batch;
    }
  }

  // ----- RetryAllDeadJobs -----

  const BATCH: nat := 1000
  const CALLS: nat := 1000

  function DueSet(z: Zset, now: int): set<Job> {
    set j | j in z && z[j] <= now
  }

  function Strangers(z: Zset, known: set<Name>, now: int): set<Job> {
    set j | j in z && z[j] <= now && j.name !in known
  }

  /** A batch takes its jobs out of the due set for good. */
  lemma BatchShrinksDue(d: Zset, d': Zset, batch: seq<Job>, known: set<Name>, now: int)
    requires DeadAfter(d, d', batch, known, now)
    ensures DueSet(d', now) <= DueSet(d, now) - Members(batch)
  {
  }

  lemma {:induction false} DistinctSize(batch: seq<Job>)
    requires Distinct(batch)
    ensures |Members(batch)| == |batch|
  {
    if batch != [] {
      var prefix, j := batch[..|batch| - 1], batch[|batch| - 1];
      DistinctSize(prefix);
      assert batch == prefix + [j];
      MembersSnoc(prefix, j);
      assert j !in prefix;
    }
  }

  lemma SubsetSize<T>(a: set<T>, b: set<T>)
    requires a <= b
    ensures |a| <= |b|
    ensures |a| == |b| ==> a == b
  {
    assert b == a + (b - a);
    if |a| == |b| {
      assert |b - a| == 0;
    }
  }

  /** The jobs moved so far: distinct, all due at the start, ascending, no longer due, and below
      whatever is still due. */
  ghost predicate MovedSoFar(d0: Zset, d: Zset, moved: seq<Job>, now: int) {
    && Ascending(d0, moved, now) && Members(moved) <= DueSet(d0, now)
    && DueSet(d, now) <= DueSet(d0, now) - Members(moved)
    && forall j :: Due(d, j, now) ==> Due(d0, j, now) && d[j] == d0[j] && NoneAbove(d0, moved, d0[j])
  }

  predicate NoneAbove(d0: Zset, moved: seq<Job>, score: int) {
    forall i :: 0 <= i < |moved| ==> moved[i] in d0 && d0[moved[i]] <= score
  }

  lemma MovedMore(d0: Zset, d: Zset, d': Zset, moved: seq<Job>, batch: seq<Job>, known: set<Name>, now: int)
    requires MovedSoFar(d0, d, moved, now) && DeadAfter(d, d', batch, known, now)
    requires IsDueBatch(d, batch, now, BATCH) && Members(batch) <= DueSet(d, now)
    ensures MovedSoFar(d0, d', moved + batch, now)
  {
    BatchShrinksDue(d, d', batch, known, now);
    assert Members(moved + batch) == Members(moved) + Members(batch);
    forall i | 0 <= i < |batch| ensures Due(d, batch[i], now) && batch[i] !in moved {
      assert batch[i] in Members(batch);
    }
    forall j | Due(d', j, now) ensures Due(d0, j, now) && d'[j] == d0[j] && NoneAbove(d0, moved + batch, d0[j]) {
      assert j in DueSet(d', now);
      assert Due(d, j, now) && j !in batch && d'[j] == d[j];
    }
  }

  /** When no two dead records share an identifier, a batch loses none of them: what leaves the
      dead set is what goes back to work. */
  lemma DeadConserved(d: Zset, d': Zset, batch: seq<Job>, known: set<Name>, now: int)
    requires DistinctIds(d) && Distinct(batch) && Members(batch) <= d.Keys && DeadAfter(d, d', batch, known, now)
    ensures |d'| + Weigh(batch, IsKnown(known)) == |d|
  {
    forall i, j | 0 <= i < j < |batch| ensures batch[i].id != batch[j].id {
      assert batch[i] in Members(batch) && batch[j] in Members(batch);
    }
    MarkedSize(batch, known, now);
    DistinctSize(batch);
    MarkedApart(d, batch, known, now);
    UnionSize(d.Keys, Members(batch), Marked(batch, known, now));
  }

  lemma MarkedApart(d: Zset, batch: seq<Job>, known: set<Name>, now: int)
    requires DistinctIds(d) && Members(batch) <= d.Keys
    ensures (d.Keys - Members(batch)) !! Marked(batch, known, now)
  {
    forall k | k in Marked(batch, known, now) ensures k !in d.Keys - Members(batch) {
      var j :| j in batch && k == j.Unknown(now);
      assert j in Members(batch) && j.Unknown(now).id == j.id;
    }
  }

  lemma UnionSize(a: set<Job>, b: set<Job>, c: set<Job>)
    requires b <= a && (a - b) !! c
    ensures |(a - b) + c| == |a| - |b| + |c|
  {
    assert a == b + (a - b);
  }

  predicate DistinctIds(d: Zset) {
    forall j, k :: j in d && k in d && j.id == k.id ==> j == k
  }

  lemma {:induction false} MarkedSize(batch: seq<Job>, known: set<Name>, now: int)
    requires forall i, j :: 0 <= i < j < |batch| ==> batch[i].id != batch[j].id
    ensures |Marked(batch, known, now)| + Weigh(batch, IsKnown(known)) == |batch|
  {
    if batch != [] {
      var prefix, j := batch[..|batch| - 1], batch[|batch| - 1];
      assert batch == prefix + [j];
      MarkedSize(prefix, known, now);
      MarkedSnoc(prefix, j, known, now);
      assert j.Unknown(now) !in Marked(prefix, known, now);
    }
  }

  /** A full batch without a known job needs that many due jobs of unknown names. */
  lemma AllStrangers(d0: Zset, batch: seq<Job>, known: set<Name>, now: int)
    requires Distinct(batch) && Members(batch) <= DueSet(d0, now) && Weigh(batch, IsKnown(known)) == 0
    ensures |batch| <= |Strangers(d0, known, now)|
  {
    KnownCounted(batch, known);
    DistinctSize(batch);
    SubsetSize(Members(batch), Strangers(d0, known, now));
  }

  /** RetryAllDeadJobs. Every call strictly shrinks the set of due dead jobs and loses none:
      each goes to its own queue with its failures forgotten, or stays dead, marked. order is
      the order in which Redis lists the due jobs. All of them are handled exactly when there
      are at most BATCH * CALLS and every full batch of the order with jobs behind it has a
      known name; in particular when fewer than BATCH have unknown names, and not when a known
      job stands behind BATCH older ones of unknown names. */
  method RetryAllDeadJobs(redis: Redis, known: set<Name>, now: int) returns (ghost moved: seq<Job>, ghost order: seq<Job>)
    modifies redis`lists, redis`zsets
    ensures Distinct(moved) && Members(moved) <= DueSet(old(redis.Contents().jobs.Zset(Dead)), now)
    ensures redis.Contents().jobs == ReviveAll(old(redis.Contents().jobs), moved, known, now)
    ensures DeadAfter(old(redis.Contents().jobs.Zset(Dead)), redis.Contents().jobs.Zset(Dead), moved, known, now)
    ensures forall n :: PopOrder(redis.Contents().jobs.List(Queue(n))) ==
                        PopOrder(old(redis.Contents().jobs.List(Queue(n)))) + Returning(moved, known, n, now)
    ensures forall j :: j in moved ==> Retried(redis.Contents().jobs, j, known, now)
    ensures |DueSet(old(redis.Contents().jobs.Zset(Dead)), now)| <= 1_000_000
            && |Strangers(old(redis.Contents().jobs.Zset(Dead)), known, now)| < 1000 ==>
              DueSet(redis.Contents().jobs.Zset(Dead), now) == {}
    ensures forall j :: Stuck(old(redis.Contents().jobs.Zset(Dead)), known, now, j) ==>
              Due(redis.Contents().jobs.Zset(Dead), j, now)
    ensures NoMerge(old(redis.Contents().jobs.Zset(Dead)), known, now) ==>
              && IsListing(old(redis.Contents().jobs.Zset(Dead)), order, now) && moved <= order
              && (DueSet(redis.Contents().jobs.Zset(Dead), now) == {} <==> Exhausts(order, known))
  {
    ghost var jobs0 := redis.Contents().jobs;
    ghost var i, more;
    moved, i, more := RetryBatches(redis, known, now);
    Finish(jobs0, redis.Contents().jobs, moved, known, now);
    ReviveAllRetries(jobs0, moved, known, now);
    order := Listing(jobs0.Zset(Dead), redis.Contents().jobs.Zset(Dead), moved, i, more, known, now);
    StuckStays(jobs0.Zset(Dead), redis.Contents().jobs.Zset(Dead), moved, i == 0 || !more, known, now);
  }

  /** The loop of RetryAllDeadJobs. */
  method RetryBatches(redis: Redis, known: set<Name>, now: int) returns (ghost moved: seq<Job>, ghost calls: nat, ghost more: bool)
    modifies redis`lists, redis`zsets
    ensures Standing(old(redis.Contents().jobs), redis.Contents().jobs, moved, calls, more, known, now)
    ensures calls <= CALLS && (calls == CALLS || !more)
    ensures Leaves(old(redis.Contents().jobs.Zset(Dead)), moved, calls == 0 || !more, known, now)
  {
    ghost var jobs0 := redis.Contents().jobs;
    var i, again := 0, true;
    moved := [];
    while i < CALLS && again
      invariant 0 <= i <= CALLS
      invariant Standing(jobs0, redis.Contents().jobs, moved, i, again, known, now)
      invariant Leaves(jobs0.Zset(Dead), moved, i == 0 || !again, known, now)
    {
      again, moved := RetryBatch(redis, known, now, jobs0, moved, i);
      i := i + 1;
    }
    calls, more := i, again;
  }

  /** One call of the script. */
  method RetryBatch(redis: Redis, known: set<Name>, now: int, ghost jobs0: Jobs, ghost before: seq<Job>, ghost i: nat)
    returns (again: bool, ghost moved: seq<Job>)
    requires Standing(jobs0, redis.Contents().jobs, before, i, true, known, now)
    requires Leaves(jobs0.Zset(Dead), before, i == 0, known, now)
    modifies redis`lists, redis`zsets
    ensures Standing(jobs0, redis.Contents().jobs, moved, i + 1, again, known, now)
    ensures Leaves(jobs0.Zset(Dead), moved, !again, known, now)
  {
    ghost var mid := redis.Contents().jobs;
    var requeued; ghost var batch;
    requeued, batch := redis.RequeueAllDeadScript(known, now, BATCH);
    Round(jobs0, mid, before, batch, i, known, now);
    RoundLeaves(jobs0, mid, before, batch, i, known, now);
    again, moved := requeued != 0, before + batch;
  }

  /** Where the loop stands after some calls. */
  ghost predicate Standing(jobs0: Jobs, jobs: Jobs, moved: seq<Job>, i: nat, more: bool, known: set<Name>, now: int) {
    && jobs == ReviveAll(jobs0, moved, known, now)
    && MovedSoFar(jobs0.Zset(Dead), jobs.Zset(Dead), moved, now)
    && (|moved| == BATCH * i || DueSet(jobs.Zset(Dead), now) == {})
    && Paced(moved, i, more, known)
    && (!more ==> DueSet(jobs.Zset(Dead), now) == {} || |Strangers(jobs0.Zset(Dead), known, now)| >= BATCH)
  }

  lemma Round(jobs0: Jobs, mid: Jobs, moved: seq<Job>, batch: seq<Job>, i: nat, known: set<Name>, now: int)
    requires Standing(jobs0, mid, moved, i, true, known, now) && IsDueBatch(mid.Zset(Dead), batch, now, BATCH)
    ensures Standing(jobs0, ReviveAll(mid, batch, known, now), moved + batch, i + 1, Weigh(batch, IsKnown(known)) != 0, known, now)
  {
    var d0, d, d' := jobs0.Zset(Dead), mid.Zset(Dead), ReviveAll(mid, batch, known, now).Zset(Dead);
    BatchIsDue(d, batch, now);
    ReviveAllDead(mid, batch, known, now);
    ReviveAllConcat(jobs0, moved, batch, known, now);
    MovedMore(d0, d, d', moved, batch, known, now);
    BatchShrinksDue(d, d', batch, known, now);
    assert batch == [] || |moved| == BATCH * i by {
      if batch != [] {
        assert batch[0] in DueSet(d, now);
      }
    }
    PacedStep(moved, batch, i, known);
    if Weigh(batch, IsKnown(known)) == 0 {
      AllStrangers(d0, batch, known, now);
    }
  }

  // ----- When everything is retried -----

  /** No due job of unknown name turns into another due record when it is marked. */
  ghost predicate NoMerge(d: Zset, known: set<Name>, now: int) {
    forall j, k :: Due(d, j, now) && Due(d, k, now) && j.name !in known && j.Unknown(now) == k ==> j == k
  }

  /** Distinct identifiers are enough for that. */
  lemma DistinctIdsNoMerge(d: Zset, known: set<Name>, now: int)
    requires DistinctIds(d)
    ensures NoMerge(d, known, now)
  {
    forall j, k | Due(d, j, now) && Due(d, k, now) && j.name !in known && j.Unknown(now) == k ensures j == k {
      assert j.id == k.id;
    }
  }

  /** All due jobs by ascending score. */
  ghost predicate IsListing(d: Zset, order: seq<Job>, now: int) {
    Ascending(d, order, now) && Members(order) == DueSet(d, now)
  }

  /** The k-th full batch has a job of known name. */
  predicate ChunkKnown(order: seq<Job>, k: nat, known: set<Name>)
    requires BATCH * (k + 1) <= |order|
  {
    exists j :: j in order[BATCH * k..BATCH * (k + 1)] && j.name in known
  }

  /** The calls reach the end of the order: few enough jobs, and no full batch of unknown names
      with anything behind it. */
  ghost predicate Exhausts(order: seq<Job>, known: set<Name>) {
    |order| <= BATCH * CALLS && forall k: nat :: BATCH * (k + 1) < |order| ==> ChunkKnown(order, k, known)
  }

  /** After i calls: at most i batches moved, all with a known name except the one that stopped
      the loop. */
  ghost predicate Paced(moved: seq<Job>, i: nat, more: bool, known: set<Name>) {
    && |moved| <= BATCH * i
    && (forall k: nat :: BATCH * (k + 1) <= |moved| && (more || k + 1 < i) ==> ChunkKnown(moved, k, known))
    && (!more ==> i > 0 && (|moved| == BATCH * i ==> !ChunkKnown(moved, i - 1, known)))
  }

  lemma ChunkKept(moved: seq<Job>, batch: seq<Job>, k: nat, known: set<Name>)
    requires BATCH * (k + 1) <= |moved|
    ensures ChunkKnown(moved + batch, k, known) <==> ChunkKnown(moved, k, known)
  {
    assert (moved + batch)[BATCH * k..BATCH * (k + 1)] == moved[BATCH * k..BATCH * (k + 1)];
  }

  lemma ChunkAdded(moved: seq<Job>, batch: seq<Job>, i: nat, known: set<Name>)
    requires |moved| == BATCH * i && |batch| == BATCH
    ensures ChunkKnown(moved + batch, i, known) <==> Weigh(batch, IsKnown(known)) != 0
  {
    KnownCounted(batch, known);
    assert (moved + batch)[BATCH * i..BATCH * (i + 1)] == batch;
  }

  lemma PacedStep(moved: seq<Job>, batch: seq<Job>, i: nat, known: set<Name>)
    requires Paced(moved, i, true, known) && |batch| <= BATCH && (|moved| == BATCH * i || batch == [])
    ensures Paced(moved + batch, i + 1, Weigh(batch, IsKnown(known)) != 0, known)
  {
    var more := Weigh(batch, IsKnown(known)) != 0;
    forall k: nat | BATCH * (k + 1) <= |moved + batch| && (more || k < i) ensures ChunkKnown(moved + batch, k, known) {
      if k < i {
        ChunkKept(moved, batch, k, known);
      } else {
        ChunkAdded(moved, batch, i, known);
      }
    }
    if |moved + batch| == BATCH * (i + 1) {
      ChunkAdded(moved, batch, i, known);
    }
  }

  /** Redis lists what was moved first and what is still due after it. */
  lemma Listing(d0: Zset, d: Zset, moved: seq<Job>, i: nat, more: bool, known: set<Name>, now: int)
    returns (order: seq<Job>)
    requires MovedSoFar(d0, d, moved, now) && DeadAfter(d0, d, moved, known, now) && Paced(moved, i, more, known)
    requires i <= CALLS && (i == CALLS || !more) && (|moved| == BATCH * i || DueSet(d, now) == {})
    ensures NoMerge(d0, known, now) ==>
              && IsListing(d0, order, now) && moved <= order
              && (DueSet(d, now) == {} <==> Exhausts(order, known))
  {
    var rest := StillDue(d, now);
    order := moved + rest;
    StopsEarly(moved, rest, i, more, known);
    if NoMerge(d0, known, now) {
      AllListed(d0, d, moved, rest, known, now);
    }
  }

  lemma StillDue(d: Zset, now: int) returns (rest: seq<Job>)
    ensures IsListing(d, rest, now) && (rest == [] <==> DueSet(d, now) == {})
  {
    var due := map j | j in d && d[j] <= now :: d[j];
    rest := Enumerate(due);
    assert due.Keys == DueSet(d, now);
    forall i | 0 <= i < |rest| ensures Due(d, rest[i], now) && rest[i] in DueSet(d, now) {
      assert rest[i] in Members(rest);
    }
    if rest == [] {
      assert Members(rest) == {};
    } else {
      assert rest[0] in DueSet(d, now);
    }
  }

  lemma AllListed(d0: Zset, d: Zset, moved: seq<Job>, rest: seq<Job>, known: set<Name>, now: int)
    requires MovedSoFar(d0, d, moved, now) && DeadAfter(d0, d, moved, known, now) && NoMerge(d0, known, now)
    requires Ascending(d, rest, now) && Members(rest) == DueSet(d, now)
    ensures IsListing(d0, moved + rest, now)
  {
    assert Members(moved + rest) == Members(moved) + Members(rest);
    forall k | Due(d0, k, now) && k !in moved ensures k in DueSet(d, now) {
      assert k !in Marked(moved, known, now);
    }
    forall i | 0 <= i < |rest| ensures Due(d, rest[i], now) && rest[i] !in moved {
      assert rest[i] in Members(rest);
    }
  }

  lemma StopsEarly(moved: seq<Job>, rest: seq<Job>, i: nat, more: bool, known: set<Name>)
    requires Paced(moved, i, more, known) && i <= CALLS && (i == CALLS || !more) && (|moved| == BATCH * i || rest == [])
    ensures rest == [] <==> Exhausts(moved + rest, known)
  {
    if rest == [] {
      assert moved + rest == moved;
    } else if !more {
      ChunkKept(moved, rest, i - 1, known);
    }
  }

  /** Any sorted set can be listed by score. */
  lemma {:induction false} Enumerate(z: Zset) returns (order: seq<Job>)
    ensures Members(order) == z.Keys
    ensures forall i, j :: 0 <= i < j < |order| ==> order[i] != order[j] && z[order[i]] <= z[order[j]]
    decreases |z|
  {
    if z == map[] {
      order := [];
    } else {
      var least := Minimum(z);
      var rest := Enumerate(z - {least});
      order := [least] + rest;
      assert Members(order) == {least} + Members(rest);
      forall j | 0 <= j < |rest| ensures rest[j] in z - {least} {
        assert rest[j] in Members(rest);
      }
    }
  }

  lemma BatchIsDue(d: Zset, batch: seq<Job>, now: int)
    requires IsDueBatch(d, batch, now, BATCH)
    ensures Distinct(batch) && Members(batch) <= DueSet(d, now)
    ensures |batch| == BATCH || DueSet(d, now) - Members(batch) == {}
  {
  }

  lemma Finish(jobs0: Jobs, jobs: Jobs, moved: seq<Job>, known: set<Name>, now: int)
    requires jobs == ReviveAll(jobs0, moved, known, now) && Distinct(moved)
    ensures DeadAfter(jobs0.Zset(Dead), jobs.Zset(Dead), moved, known, now)
    ensures forall n :: PopOrder(jobs.List(Queue(n))) == PopOrder(jobs0.List(Queue(n))) + Returning(moved, known, n, now)
    ensures Members(moved) <= DueSet(jobs0.Zset(Dead), now) && |DueSet(jobs0.Zset(Dead), now)| <= |moved|
            ==> DueSet(jobs.Zset(Dead), now) == {}
  {
    ReviveAllDead(jobs0, moved, known, now);
    BatchShrinksDue(jobs0.Zset(Dead), jobs.Zset(Dead), moved, known, now);
    forall n ensures PopOrder(jobs.List(Queue(n))) == PopOrder(jobs0.List(Queue(n))) + Returning(moved, known, n, now) {
      ReviveAllQueue(jobs0, moved, known, now, n);
    }
    if Members(moved) <= DueSet(jobs0.Zset(Dead), now) && |DueSet(jobs0.Zset(Dead), now)| <= |moved| {
      DistinctSize(moved);
      SubsetSize(Members(moved), DueSet(jobs0.Zset(Dead), now));
    }
  }

  /** A due job with a known name, behind a whole batch of older ones without. */
  predicate Stuck(d: Zset, known: set<Name>, now: int, j: Job) {
    && Due(d, j, now) && j.name in known
    && (forall k :: k in d && d[k] < d[j] ==> k.name !in known)
    && |set k | k in d && d[k] < d[j]| >= BATCH
  }

  /** Stuck jobs are not moved, and where there are any the loop has not begun or has stopped. */
  ghost predicate Leaves(d: Zset, moved: seq<Job>, idle: bool, known: set<Name>, now: int) {
    forall j :: Stuck(d, known, now, j) ==> j !in moved && idle
  }

  lemma RoundLeaves(jobs0: Jobs, mid: Jobs, moved: seq<Job>, batch: seq<Job>, i: nat, known: set<Name>, now: int)
    requires Standing(jobs0, mid, moved, i, true, known, now) && IsDueBatch(mid.Zset(Dead), batch, now, BATCH)
    requires Leaves(jobs0.Zset(Dead), moved, i == 0, known, now)
    ensures Leaves(jobs0.Zset(Dead), moved + batch, Weigh(batch, IsKnown(known)) == 0, known, now)
  {
    forall j | Stuck(jobs0.Zset(Dead), known, now, j)
      ensures j !in moved + batch && Weigh(batch, IsKnown(known)) == 0
    {
      assert moved == [] && mid == jobs0;
      StrangersBlockKnown(jobs0.Zset(Dead), batch, known, now, j);
    }
  }

  lemma StuckStays(d: Zset, d': Zset, moved: seq<Job>, idle: bool, known: set<Name>, now: int)
    requires DeadAfter(d, d', moved, known, now) && Leaves(d, moved, idle, known, now)
    ensures forall j :: Stuck(d, known, now, j) ==> Due(d', j, now)
  {
  }

  /** The documentation says all dead jobs are retried. A known job is left behind when a whole
      batch of older due jobs has unknown names: the first call then requeues nothing, and the
      loop stops. */
  lemma StrangersBlockKnown(d: Zset, batch: seq<Job>, known: set<Name>, now: int, j: Job)
    requires IsDueBatch(d, batch, now, BATCH) && Stuck(d, known, now, j)
    ensures Weigh(batch, IsKnown(known)) == 0 && j !in batch
  {
    var older := set k | k in d && d[k] < d[j];
    forall i | 0 <= i < |batch| ensures d[batch[i]] < d[j] {
      if d[batch[i]] >= d[j] {
        assert older <= Members(batch) - {batch[i]};
        SubsetSize(older, Members(batch) - {batch[i]});
        DistinctSize(batch);
        assert false;
      }
    }
    KnownCounted(batch, known);
  }

  // ----- The scripts as runs of the protocol -----

  ghost function RetryRun(batch: seq<Job>, known: set<Name>, now: int): seq<Step> {
    if batch == [] then [] else
      RetryRun(batch[..|batch| - 1], known, now) + [RetryDead(batch[|batch| - 1], known, now)]
  }

  lemma RetryStep(s: Sys, j: Job, known: set<Name>, now: int)
    requires j in s.store.jobs.Zset(Dead)
    ensures Next(s, RetryDead(j, known, now)) == s.(store := s.store.(jobs := Revive(s.store.jobs, j, known, now)))
  {
  }

  /** A whole batch is the run of one protocol step per job, so whatever holds along every run
      holds for the scripts. */
  lemma {:induction false} BatchIsRun(s: Sys, batch: seq<Job>, known: set<Name>, now: int)
    requires Distinct(batch) && forall j :: j in batch ==> j in s.store.jobs.Zset(Dead)
    ensures After(s, RetryRun(batch, known, now)) ==
            s.(store := s.store.(jobs := ReviveAll(s.store.jobs, batch, known, now)))
  {
    if batch != [] {
      var prefix, j := batch[..|batch| - 1], batch[|batch| - 1];
      assert batch == prefix + [j];
      BatchIsRun(s, prefix, known, now);
      ReviveAllDead(s.store.jobs, prefix, known, now);
      assert j !in prefix;
      AfterSnoc(s, RetryRun(prefix, known, now), RetryDead(j, known, now));
      RetryStep(After(s, RetryRun(prefix, known, now)), j, known, now);
    }
  }

  // ----- DeleteScheduledJob -----

  /** DeleteScheduledJob: false is ErrNotDeleted. All scheduled jobs with this score and
      identifier are removed; then the key built from the last one's name and arguments is
      deleted, if that job is unique. */
  method DeleteScheduledJob(redis: Redis, scheduledFor: int, id: Id) returns (ok: bool, ghost batch: seq<Job>)
    modifies redis`zsets, redis`keys
    ensures Distinct(batch) && forall j :: j in batch <==> Matches(old(redis.Contents().jobs.Zset(Scheduled)), j, scheduledFor, id)
    ensures redis.Contents().jobs.Zset(Scheduled) == old(redis.Contents().jobs.Zset(Scheduled)) - Members(batch)
    ensures forall w :: w != Scheduled ==> redis.Contents().jobs.Zset(w) == old(redis.Contents().jobs.Zset(w))
    ensures ok <==> batch != []
    ensures redis.keys == if batch != [] && Last(batch).unique then old(redis.keys) - {UniqueKey(Last(batch).name, Last(batch).args)}
                          else old(redis.keys)
    ensures batch != [] && Last(batch).unique && Last(batch).Key() in old(redis.keys) ==>
              (Last(batch).Key() !in redis.keys <==> Last(batch).Key() == Last(batch).ArgsKey())
  {
    ghost var jobs0 := redis.Contents().jobs;
    var deleted, last;
    deleted, last, batch := redis.DeleteSingleScript(Scheduled, scheduledFor, id);
    ZremAllEffect(jobs0, Scheduled, batch);
    if last.Some? && last.value.unique {
      redis.keys := redis.keys - {last.value.ArgsKey()};
    }
    ok := deleted > 0;
  }
}
