/** The Redis side: the commands and the Lua scripts, run against mutable keys. Each script is
    proved to have exactly the effect the protocol model gives it. */
module RedisServer {
  import opened Tally
  import opened JobStore

  class Redis {
    var lists: map<ListKey, seq<Job>>
    var zsets: map<ZsetName, Zset>
    var locks: map<Name, Lock>
    var settings: map<Name, Setting>
    var keys: map<UniqueKey, Payload>

    function Contents(): Store
      reads this
    {
      Store(Jobs(lists, zsets), locks, settings, keys)
    }

    constructor ()
      ensures Contents() == EMPTY_STORE
    {
      lists, zsets, locks, settings, keys := map[], map[], map[], map[], map[];
    }

    // ----- Commands -----

    method LPush(k: ListKey, j: Job)
      modifies this`lists
      ensures Contents().jobs == old(Contents().jobs).Push(k, j)
    {
      lists := lists[k := [j] + Contents().jobs.List(k)];
    }

    method RPopLPush(k: ListKey, k': ListKey) returns (res: Option<Job>)
      modifies this`lists
      ensures res.None? <==> old(Contents().jobs.List(k)) == []
      ensures res.None? ==> lists == old(lists)
      ensures res.Some? ==> res.value == Last(old(Contents().jobs.List(k)))
                            && Contents().jobs == old(Contents().jobs).PopPush(k, k')
    {
      var q := Contents().jobs.List(k);
      if q == [] {
        return None;
      }
      lists := lists[k := q[..|q| - 1]];
      LPush(k', Last(q));
      return Some(Last(q));
    }

    method LRem(k: ListKey, j: Job)
      modifies this`lists
      ensures Contents().jobs == old(Contents().jobs).Lrem(k, j)
    {
      lists := lists[k := RemoveFirst(Contents().jobs.List(k), j)];
    }

    method ZAdd(w: ZsetName, j: Job, score: int)
      modifies this`zsets
      ensures Contents().jobs == old(Contents().jobs).Zadd(w, j, score)
    {
      zsets := zsets[w := Contents().jobs.Zset(w)[j := score]];
    }

    method ZRem(w: ZsetName, j: Job)
      modifies this`zsets
      ensures Contents().jobs == old(Contents().jobs).Zrem(w, j)
    {
      zsets := zsets[w := Contents().jobs.Zset(w) - {j}];
    }

    /** ZRANGEBYSCORE -inf now LIMIT 0 limit: the lowest-scored due members, ascending. */
    method DueJobs(w: ZsetName, now: int, limit: nat) returns (batch: seq<Job>)
      ensures IsDueBatch(Contents().jobs.Zset(w), batch, now, limit)
    {
      var z := Contents().jobs.Zset(w);
      var rest := z;
      batch := [];
      while |batch| < limit && exists j :: j in rest && rest[j] <= now
        invariant |batch| <= limit
        invariant forall j :: j in rest <==> j in z && j !in batch
        invariant forall j :: j in rest ==> rest[j] == z[j]
        invariant Ascending(z, batch, now)
        invariant forall i, j :: 0 <= i < |batch| && j in rest ==> z[batch[i]] <= rest[j]
        decreases limit - |batch|
      {
        HasFirstDue(rest, now);
        var j :| IsFirstDue(rest, j, now);
        rest, batch := rest - {j}, batch + [j];
      }
    }

    /** ZRANGEBYSCORE score score: every member with that score, in some order. */
    method JobsAtScore(w: ZsetName, score: int) returns (batch: seq<Job>)
      ensures forall j :: j in batch <==> j in Contents().jobs.Zset(w) && Contents().jobs.Zset(w)[j] == score
      ensures Distinct(batch)
    {
      var z := Contents().jobs.Zset(w);
      var rest := set j | j in z && z[j] == score;
      batch := [];
      while rest != {}
        invariant forall j :: j in batch || j in rest <==> j in z && z[j] == score
        invariant forall j :: j in batch ==> j !in rest
        invariant Distinct(batch)
        decreases rest
      {
        var j :| j in rest;
        rest, batch := rest - {j}, batch + [j];
      }
    }

    // ----- Scripts -----

    /** redisLuaFetchJob: serves the first queue in order that is not empty, paused or at its cap. */
    method FetchScript(order: seq<Name>, p: Pool) returns (res: Option<(Job, Name)>)
      modifies this`lists, this`locks
      ensures Contents() == Fetch(old(Contents()), order, p)
      ensures res.None? <==> forall n :: n in order ==> !old(Contents()).Eligible(n)
      ensures res.Some? ==> res.value.1 in order && old(Contents()).Eligible(res.value.1)
                            && res.value.0 == Last(old(Contents().jobs.List(Queue(res.value.1))))
                            && res.value.1 == order[FirstEligible(old(Contents()), order)]
      ensures res.None? <==> forall n :: n in order ==> old(Contents()).Shut(n)
      ensures res.Some? ==> exists i :: 0 <= i < |order| && order[i] == res.value.1 && FirstOpen(old(Contents()), order, i)
    {
      for i := 0 to |order|
        invariant lists == old(lists) && locks == old(locks)
        invariant forall k :: 0 <= k < i ==> !Contents().Eligible(order[k])
      {
        var n := order[i];
        var r := Contents();
        if r.jobs.List(Queue(n)) != [] && !r.Setting(n).paused && (r.Setting(n).cap == 0 || r.Lock(n).count < r.Setting(n).cap) {
          assert FirstEligible(Contents(), order) == i && FirstOpen(r, order, i);
          locks := locks[n := Contents().Lock(n).Acquired(p)];
          var x := RPopLPush(Queue(n), InProgress(n, p));
          return Some((x.value, n));
        }
      }
      return None;
    }

    /** redisLuaReenqueueJob. */
    method ReenqueueScript(names: seq<Name>, p: Pool) returns (res: Option<(Job, Name)>)
      modifies this`lists, this`locks
      ensures Contents() == Reenqueue(old(Contents()), names, p)
      ensures res.None? <==> FirstHeld(old(Contents().jobs), names, p) == |names|
      ensures res.Some? ==> res.value.1 == names[FirstHeld(old(Contents().jobs), names, p)]
                            && res.value.0 == Last(old(Contents().jobs.List(InProgress(res.value.1, p))))
    {
      for i := 0 to |names|
        invariant lists == old(lists) && locks == old(locks)
        invariant forall k :: 0 <= k < i ==> Contents().jobs.List(InProgress(names[k], p)) == []
      {
        var n := names[i];
        var x := RPopLPush(InProgress(n, p), Queue(n));
        if x.Some? {
          assert FirstHeld(old(Contents().jobs), names, p) == i;
          locks := locks[n := Contents().Lock(n).Released(p)];
          return Some((x.value, n));
        }
      }
      return None;
    }

    /** redisLuaReapStaleLocks. */
    method ReapLocksScript(names: seq<Name>, p: Pool)
      modifies this`locks
      ensures Contents() == old(Contents()).(locks := CleanLocks(old(locks), names, p))
    {
      for i := 0 to |names|
        invariant locks == CleanLocks(old(locks), names[..i], p)
      {
        var n := names[i];
        assert names[..i + 1][..i] == names[..i];
        var l := LockOf(locks, n);
        if p in l.info {
          locks := locks[n := Lock(l.count - l.info[p], l.info - {p})];
          if LockOf(locks, n).count < 0 {
            locks := locks[n := LockOf(locks, n).(count := 0)];
          }
        }
      }
      assert names[..|names|] == names;
    }

    /** redisLuaZremLpushCmd: one due job leaves the sorted set; none when nothing is due. */
    method RequeueScript(w: ZsetName, known: set<Name>, now: int) returns (res: Option<Job>)
      modifies this`lists, this`zsets
      ensures res.None? <==> forall j :: j in old(Contents().jobs.Zset(w)) ==> old(Contents().jobs.Zset(w))[j] > now
      ensures res.None? ==> Contents() == old(Contents())
      ensures res.Some? ==> IsFirstDue(old(Contents().jobs.Zset(w)), res.value, now)
                            && Contents().jobs == Promote(old(Contents().jobs), w, res.value, known, now)
    {
      var batch := DueJobs(w, now, 1);
      if batch == [] {
        return None;
      }
      var j := batch[0];
      ZRem(w, j);
      if j.name in known {
        LPush(Queue(j.name), j.Requeued(now));
      } else {
        ZAdd(Dead, j.Unknown(now), now);
      }
      return Some(j);
    }

    /** The body of the loops in the two dead-job scripts: 1 when the job's queue was found. */
    method ReviveOne(j: Job, known: set<Name>, now: int) returns (found: nat)
      modifies this`lists, this`zsets
      ensures Contents().jobs == Revive(old(Contents().jobs), j, known, now)
      ensures found == IsKnown(known)(j)
    {
      ZRem(Dead, j);
      if j.name in known {
        LPush(Queue(j.name), j.Revived(now));
        found := 1;
      } else {
        ZAdd(Dead, j.Unknown(now), now + 5);
        found := 0;
      }
    }

    /** The loop shared by redisLuaRequeueSingleDeadCmd and redisLuaRequeueAllDeadCmd. */
    method ReviveLoop(batch: seq<Job>, known: set<Name>, now: int) returns (requeued: nat)
      modifies this`lists, this`zsets
      ensures Contents().jobs == ReviveAll(old(Contents().jobs), batch, known, now)
      ensures requeued == Weigh(batch, IsKnown(known))
    {
      requeued := 0;
      for i := 0 to |batch|
        invariant Contents().jobs == ReviveAll(old(Contents().jobs), batch[..i], known, now)
        invariant requeued == Weigh(batch[..i], IsKnown(known))
      {
        assert batch[..i + 1] == batch[..i] + [batch[i]];
        ReviveAllSnoc(old(Contents().jobs), batch[..i], batch[i], known, now);
        var found := ReviveOne(batch[i], known, now);
        requeued := requeued + found;
      }
      assert batch[..|batch|] == batch;
    }

    /** redisLuaRequeueAllDeadCmd. */
    method RequeueAllDeadScript(known: set<Name>, now: int, limit: nat) returns (requeued: nat, ghost batch: seq<Job>)
      modifies this`lists, this`zsets
      ensures IsDueBatch(old(Contents().jobs.Zset(Dead)), batch, now, limit)
      ensures Contents().jobs == ReviveAll(old(Contents().jobs), batch, known, now)
      ensures requeued == Weigh(batch, IsKnown(known))
    {
      var due := DueJobs(Dead, now, limit);
      batch := due;
      requeued := ReviveLoop(due, known, now);
    }

    /** redisLuaRequeueSingleDeadCmd: the dead jobs with this score and identifier. */
    method RequeueSingleDeadScript(known: set<Name>, now: int, diedAt: int, id: Id) returns (requeued: nat, ghost batch: seq<Job>)
      modifies this`lists, this`zsets
      ensures Distinct(batch)
      ensures forall j :: j in batch <==> Matches(old(Contents().jobs.Zset(Dead)), j, diedAt, id)
      ensures Contents().jobs == ReviveAll(old(Contents().jobs), batch, known, now)
      ensures requeued == Weigh(batch, IsKnown(known))
    {
      var jobs := JobsAtScore(Dead, diedAt);
      batch, requeued := [], 0;
      for i := 0 to |jobs|
        invariant Contents().jobs == ReviveAll(old(Contents().jobs), batch, known, now)
        invariant requeued == Weigh(batch, IsKnown(known))
        invariant forall j :: j in batch <==> j in jobs[..i] && j.id == id
        invariant Distinct(batch)
      {
        var j := jobs[i];
        assert j !in jobs[..i];
        if j.id == id {
          ReviveAllSnoc(old(Contents().jobs), batch, j, known, now);
          batch := batch + [j];
          var found := ReviveOne(j, known, now);
          requeued := requeued + found;
        }
      }
    }

    /** redisLuaDeleteSingleCmd: removes the members with this score and identifier; the reply
        is their number and the last one removed. */
    method DeleteSingleScript(w: ZsetName, score: int, id: Id)
      returns (deleted: nat, last: Option<Job>, ghost batch: seq<Job>)
      modifies this`zsets
      ensures Distinct(batch)
      ensures forall j :: j in batch <==> Matches(old(Contents().jobs.Zset(w)), j, score, id)
      ensures Contents().jobs == ZremAll(old(Contents().jobs), w, batch)
      ensures deleted == |batch| && last == if batch == [] then None else Some(Last(batch))
    {
      var jobs := JobsAtScore(w, score);
      batch, deleted, last := [], 0, None;
      for i := 0 to |jobs|
        invariant Contents().jobs == ZremAll(old(Contents().jobs), w, batch)
        invariant deleted == |batch| && last == if batch == [] then None else Some(Last(batch))
        invariant forall j :: j in batch <==> j in jobs[..i] && j.id == id
        invariant Distinct(batch)
      {
        var j := jobs[i];
        assert j !in jobs[..i];
        if j.id == id {
          assert (batch + [j])[..|batch|] == batch;
          batch := batch + [j];
          ZRem(w, j);
          deleted, last := deleted + 1, Some(j);
        }
      }
    }

    /** redisLuaEnqueueUnique and redisLuaEnqueueUniqueIn; true for the reply "ok". */
    method EnqueueUniqueScript(j: Job, at: Option<int>, p: Payload) returns (ok: bool)
      modifies this`lists, this`zsets, this`keys
      ensures Contents() == EnqueueUnique(old(Contents()), j, at, p)
      ensures ok <==> j.Key() !in old(keys)
    {
      ok := j.Key() !in keys;
      keys := keys[j.Key() := p];
      if ok {
        match at
        case None => LPush(Queue(j.name), j);
        case Some(t) => ZAdd(Scheduled, j, t);
      }
    }

    /** The MULTI/EXEC acknowledgement of removeJobFromInProgress. */
    method AcknowledgeTransaction(p: Pool, from: Name, raw: Job, job: Job, fate: Fate)
      modifies this`lists, this`zsets, this`locks
      ensures Contents() == Acknowledge(old(Contents()), p, from, raw, job, fate)
    {
      LRem(InProgress(from, p), raw);
      locks := locks[job.name := Contents().Lock(job.name).Released(p)];
      match fate
      case Terminate =>
      case ToRetry(at) => ZAdd(Retry, job, at);
      case ToDead(at) => ZAdd(Dead, job, at);
    }
  }

  // ----- Range queries -----

  predicate Distinct(batch: seq<Job>) {
    forall i, j :: 0 <= i < j < |batch| ==> batch[i] != batch[j]
  }

  predicate Matches(z: Zset, j: Job, score: int, id: Id) {
    j in z && z[j] == score && j.id == id
  }

  /** Distinct due members in ascending order of score. */
  predicate Ascending(z: Zset, batch: seq<Job>, now: int) {
    && (forall i :: 0 <= i < |batch| ==> batch[i] in z && z[batch[i]] <= now)
    && (forall i, j :: 0 <= i < j < |batch| ==> batch[i] != batch[j] && z[batch[i]] <= z[batch[j]])
  }

  /** What the range query may return: as many of the lowest-scored due members as allowed. */
  predicate IsDueBatch(z: Zset, batch: seq<Job>, now: int, limit: nat) {
    && Ascending(z, batch, now)
    && |batch| <= limit
    && (|batch| < limit ==> forall j :: j in z && z[j] <= now ==> j in batch)
    && (forall i, j :: 0 <= i < |batch| && j in z && j !in batch ==> z[batch[i]] <= z[j])
  }

  lemma {:induction false} Minimum(z: Zset) returns (least: Job)
    requires z != map[]
    ensures least in z && forall k :: k in z ==> z[least] <= z[k]
    decreases |z|
  {
    least :| least in z;
    var rest := z - {least};
    assert forall k :: k in z ==> k == least || k in rest;
    if rest != map[] {
      var j := Minimum(rest);
      if z[j] < z[least] {
        least := j;
      }
    }
  }

  lemma HasFirstDue(z: Zset, now: int)
    requires exists j :: j in z && z[j] <= now
    ensures exists j :: IsFirstDue(z, j, now)
  {
    var least := Minimum(z);
    assert IsFirstDue(z, least, now);
  }

  function ZremAll(jobs: Jobs, w: ZsetName, batch: seq<Job>): Jobs {
    if batch == [] then jobs else ZremAll(jobs, w, batch[..|batch| - 1]).Zrem(w, batch[|batch| - 1])
  }

  lemma {:induction false} ZremAllEffect(jobs: Jobs, w: ZsetName, batch: seq<Job>)
    ensures ZremAll(jobs, w, batch).lists == jobs.lists
    ensures forall w' :: w' != w ==> ZremAll(jobs, w, batch).Zset(w') == jobs.Zset(w')
    ensures ZremAll(jobs, w, batch).Zset(w) == jobs.Zset(w) - Members(batch)
  {
    if batch != [] {
      var prefix, last := batch[..|batch| - 1], batch[|batch| - 1];
      ZremAllEffect(jobs, w, prefix);
      assert batch == prefix + [last];
      assert Members(batch) == Members(prefix) + {last};
      assert jobs.Zset(w) - Members(prefix) - {last} == jobs.Zset(w) - Members(batch);
    }
  }

  function Members(batch: seq<Job>): set<Job> {
    set j | j in batch
  }

  // ----- Dead-job requeue scripts -----

  function ReviveAll(jobs: Jobs, batch: seq<Job>, known: set<Name>, now: int): Jobs {
    if batch == [] then jobs else
      Revive(ReviveAll(jobs, batch[..|batch| - 1], known, now), batch[|batch| - 1], known, now)
  }

  lemma ReviveAllSnoc(jobs: Jobs, batch: seq<Job>, j: Job, known: set<Name>, now: int)
    ensures ReviveAll(jobs, batch + [j], known, now) == Revive(ReviveAll(jobs, batch, known, now), j, known, now)
    ensures Weigh(batch + [j], IsKnown(known)) == Weigh(batch, IsKnown(known)) + IsKnown(known)(j)
  {
    assert (batch + [j])[..|batch + [j]| - 1] == batch;
  }

  function IsKnown(known: set<Name>): Job -> nat {
    (j: Job) => if j.name in known then 1 else 0
  }
}
