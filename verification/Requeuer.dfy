/** The requeuer: draining the retry or scheduled set at one reading of the clock. */
module Requeuer {
  import opened JobStore
  import opened RedisServer

  /** A list in the order its jobs are popped. */
  function PopOrder(q: seq<Job>): seq<Job> {
    if q == [] then [] else PopOrder(q[1..]) + [q[0]]
  }

  lemma PopOrderPush(j: Job, q: seq<Job>)
    ensures PopOrder([j] + q) == PopOrder(q) + [j]
  {
    assert ([j] + q)[1..] == q;
  }

  function PromoteAll(jobs: Jobs, w: ZsetName, moved: seq<Job>, known: set<Name>, now: int): Jobs {
    if moved == [] then jobs else
      Promote(PromoteAll(jobs, w, moved[..|moved| - 1], known, now), w, moved[|moved| - 1], known, now)
  }

  /** The moved jobs that join the queue of n, oldest score first. */
  function Joining(moved: seq<Job>, known: set<Name>, n: Name, now: int): seq<Job> {
    if moved == [] then [] else
      var j := moved[|moved| - 1];
      Joining(moved[..|moved| - 1], known, n, now) + (if j.name == n && n in known then [j.Requeued(now)] else [])
  }

  /** The jobs of unknown name, marked as they arrive in the dead set. */
  function Marked(moved: seq<Job>, known: set<Name>, now: int): set<Job> {
    set j | j in moved && j.name !in known :: j.Unknown(now)
  }

  lemma MarkedSnoc(moved: seq<Job>, j: Job, known: set<Name>, now: int)
    ensures Marked(moved + [j], known, now) == Marked(moved, known, now) + (if j.name !in known then {j.Unknown(now)} else {})
  {
    forall k | k in Marked(moved, known, now) ensures k in Marked(moved + [j], known, now) {
      var x :| x in moved && x.name !in known && k == x.Unknown(now);
      assert x in moved + [j];
    }
    assert j in moved + [j];
  }

  // ----- One move -----

  lemma PromoteLists(jobs: Jobs, w: ZsetName, j: Job, known: set<Name>, now: int, k: ListKey)
    ensures Promote(jobs, w, j, known, now).List(k) ==
            if k == Queue(j.name) && j.name in known then [j.Requeued(now)] + jobs.List(k) else jobs.List(k)
  {
  }

  lemma PromoteZsets(jobs: Jobs, w: ZsetName, j: Job, known: set<Name>, now: int, w': ZsetName)
    requires w != Dead
    ensures Promote(jobs, w, j, known, now).Zset(w') ==
            if w' == w then jobs.Zset(w) - {j}
            else if w' == Dead && j.name !in known then jobs.Zset(Dead)[j.Unknown(now) := now]
            else jobs.Zset(w')
  {
  }

  // ----- All moves -----

  lemma {:induction false} PromoteAllQueue(jobs: Jobs, w: ZsetName, moved: seq<Job>, known: set<Name>, now: int, n: Name)
    ensures PopOrder(PromoteAll(jobs, w, moved, known, now).List(Queue(n))) ==
            PopOrder(jobs.List(Queue(n))) + Joining(moved, known, n, now)
  {
    if moved != [] {
      var prefix, j := moved[..|moved| - 1], moved[|moved| - 1];
      PromoteAllQueue(jobs, w, prefix, known, now, n);
      var mid := PromoteAll(jobs, w, prefix, known, now);
      PromoteLists(mid, w, j, known, now, Queue(n));
      PopOrderPush(j.Requeued(now), mid.List(Queue(n)));
    }
  }

  lemma {:induction false} PromoteAllInProgress(jobs: Jobs, w: ZsetName, moved: seq<Job>, known: set<Name>, now: int, n: Name, p: Pool)
    ensures PromoteAll(jobs, w, moved, known, now).List(InProgress(n, p)) == jobs.List(InProgress(n, p))
  {
    if moved != [] {
      PromoteAllInProgress(jobs, w, moved[..|moved| - 1], known, now, n, p);
    }
  }

  lemma MembersSnoc(moved: seq<Job>, j: Job)
    ensures Members(moved + [j]) == Members(moved) + {j}
  {
  }

  lemma {:induction false} PromoteAllZset(jobs: Jobs, w: ZsetName, moved: seq<Job>, known: set<Name>, now: int, w': ZsetName)
    requires w != Dead && w' != Dead
    ensures PromoteAll(jobs, w, moved, known, now).Zset(w') ==
            if w' == w then jobs.Zset(w) - Members(moved) else jobs.Zset(w')
  {
    if moved == [] {
      assert jobs.Zset(w) - Members(moved) == jobs.Zset(w);
    } else {
      var prefix, j := moved[..|moved| - 1], moved[|moved| - 1];
      PromoteAllZset(jobs, w, prefix, known, now, w');
      PromoteZsets(PromoteAll(jobs, w, prefix, known, now), w, j, known, now, w');
      assert moved == prefix + [j];
      LoseOneMore(jobs.Zset(w), prefix, j);
    }
  }

  lemma LoseOneMore(z: Zset, moved: seq<Job>, j: Job)
    ensures z - Members(moved) - {j} == z - Members(moved + [j])
  {
    MembersSnoc(moved, j);
  }

  /** The dead set after burying some jobs at the current time. */
  ghost predicate BuriedIn(d: Zset, d': Zset, buried: set<Job>, now: int) {
    d'.Keys == d.Keys + buried && forall k :: k in d' ==> d'[k] == if k in buried then now else d[k]
  }

  lemma {:induction false} PromoteAllDead(jobs: Jobs, w: ZsetName, moved: seq<Job>, known: set<Name>, now: int)
    requires w != Dead
    ensures BuriedIn(jobs.Zset(Dead), PromoteAll(jobs, w, moved, known, now).Zset(Dead), Marked(moved, known, now), now)
  {
    if moved != [] {
      var prefix, j := moved[..|moved| - 1], moved[|moved| - 1];
      PromoteAllDead(jobs, w, prefix, known, now);
      PromoteZsets(PromoteAll(jobs, w, prefix, known, now), w, j, known, now, Dead);
      assert moved == prefix + [j];
      MarkedSnoc(prefix, j, known, now);
    }
  }

  /** The record of a job that was moved: in its queue with the time of the move, or in the dead set
      at that time, marked as unknown; everything else it carried is kept. */
  ghost predicate Carried(jobs: Jobs, j: Job, known: set<Name>, now: int) {
    if j.name in known then
      Job(j.name, j.id, now, j.args, j.unique, j.uniqueKey, j.fails, j.lastErr, j.failedAt) in jobs.List(Queue(j.name))
    else
      var marked := Job(j.name, j.id, j.enqueuedAt, j.args, j.unique, j.uniqueKey, j.fails, UnknownJob, now);
      marked in jobs.Zset(Dead) && jobs.Zset(Dead)[marked] == now
  }

  lemma {:induction false} PopOrderMembers(q: seq<Job>, j: Job)
    ensures j in PopOrder(q) <==> j in q
  {
    if q != [] {
      PopOrderMembers(q[1..], j);
      assert q == [q[0]] + q[1..];
    }
  }

  lemma {:induction false} JoiningMember(moved: seq<Job>, known: set<Name>, j: Job, now: int)
    requires j in moved && j.name in known
    ensures j.Requeued(now) in Joining(moved, known, j.name, now)
  {
    var prefix, last := moved[..|moved| - 1], moved[|moved| - 1];
    assert moved == prefix + [last];
    if j in prefix {
      JoiningMember(prefix, known, j, now);
    }
  }

  lemma DrainedCarries(jobs: Jobs, jobs': Jobs, w: ZsetName, moved: seq<Job>, known: set<Name>, now: int)
    requires Drained(jobs, jobs', w, moved, known, now)
    ensures forall j :: j in moved ==> Carried(jobs', j, known, now)
  {
    forall j | j in moved ensures Carried(jobs', j, known, now) {
      if j.name in known {
        JoiningMember(moved, known, j, now);
        PopOrderMembers(jobs'.List(Queue(j.name)), j.Requeued(now));
      } else {
        assert j.Unknown(now) in Marked(moved, known, now);
      }
    }
  }

  /** Every due job of a known name joins its own queue, behind the jobs already there and in
      order of score; every other due job goes to the dead set; nothing else changes. */
  ghost predicate Drained(jobs: Jobs, jobs': Jobs, w: ZsetName, moved: seq<Job>, known: set<Name>, now: int) {
    && (forall n :: PopOrder(jobs'.List(Queue(n))) == PopOrder(jobs.List(Queue(n))) + Joining(moved, known, n, now))
    && (forall n, p :: jobs'.List(InProgress(n, p)) == jobs.List(InProgress(n, p)))
    && BuriedIn(jobs.Zset(Dead), jobs'.Zset(Dead), Marked(moved, known, now), now)
    && (forall w' :: w' != w && w' != Dead ==> jobs'.Zset(w') == jobs.Zset(w'))
  }

  /** The set keeps exactly the members not yet due, at their scores. */
  ghost predicate KeepsFuture(z: Zset, z': Zset, now: int) {
    z' == map j | j in z && z[j] > now :: z[j]
  }

  lemma PromoteAllDrains(jobs: Jobs, w: ZsetName, moved: seq<Job>, known: set<Name>, now: int)
    requires w != Dead
    ensures Drained(jobs, PromoteAll(jobs, w, moved, known, now), w, moved, known, now)
  {
    var jobs' := PromoteAll(jobs, w, moved, known, now);
    forall n ensures PopOrder(jobs'.List(Queue(n))) == PopOrder(jobs.List(Queue(n))) + Joining(moved, known, n, now) {
      PromoteAllQueue(jobs, w, moved, known, now, n);
    }
    forall n, p ensures jobs'.List(InProgress(n, p)) == jobs.List(InProgress(n, p)) {
      PromoteAllInProgress(jobs, w, moved, known, now, n, p);
    }
    PromoteAllDead(jobs, w, moved, known, now);
    forall w' | w' != w && w' != Dead ensures jobs'.Zset(w') == jobs.Zset(w') {
      PromoteAllZset(jobs, w, moved, known, now, w');
    }
  }

  predicate NoneDue(z: Zset, now: int) {
    forall j :: j in z ==> z[j] > now
  }

  /** The lowest-scored due members so far, ascending, with nothing left below them. */
  ghost predicate Lowest(z: Zset, moved: seq<Job>, now: int) {
    Ascending(z, moved, now) && forall i, j :: 0 <= i < |moved| && j in z && j !in moved ==> z[moved[i]] <= z[j]
  }

  lemma LowestSnoc(z: Zset, moved: seq<Job>, j: Job, now: int)
    requires Lowest(z, moved, now) && IsFirstDue(z - Members(moved), j, now)
    ensures Lowest(z, moved + [j], now)
  {
    assert j in z && j !in moved;
    forall k | k in z && k !in moved + [j] ensures z[j] <= z[k] {
      assert k in z - Members(moved);
    }
  }

  /** The drain loop at a fixed time, with no one else adding: it ends, having moved exactly the
      due jobs in order of score. */
  method Drain(redis: Redis, w: ZsetName, known: set<Name>, now: int) returns (ghost moved: seq<Job>)
    requires w != Dead
    modifies redis`lists, redis`zsets
    ensures redis.Contents().jobs == PromoteAll(old(redis.Contents().jobs), w, moved, known, now)
    ensures Ascending(old(redis.Contents().jobs.Zset(w)), moved, now)
    ensures forall j :: j in old(redis.Contents().jobs.Zset(w)) && old(redis.Contents().jobs.Zset(w))[j] <= now ==> j in moved
    ensures KeepsFuture(old(redis.Contents().jobs.Zset(w)), redis.Contents().jobs.Zset(w), now)
    ensures Drained(old(redis.Contents().jobs), redis.Contents().jobs, w, moved, known, now)
    ensures forall j :: j in moved ==> Carried(redis.Contents().jobs, j, known, now)
  {
    ghost var jobs0 := redis.Contents().jobs;
    moved := [];
    var more := true;
    PromoteAllZset(jobs0, w, moved, known, now, w);
    while more
      invariant Draining(jobs0, redis.Contents().jobs, w, moved, known, now)
      invariant !more ==> NoneDue(redis.Contents().jobs.Zset(w), now)
      decreases more, |redis.Contents().jobs.Zset(w)|
    {
      ghost var jobs := redis.Contents().jobs;
      var res := redis.RequeueScript(w, known, now);
      more := res.Some?;
      if more {
        DrainOne(jobs0, jobs, w, moved, res.value, known, now);
        moved := moved + [res.value];
      }
    }
    PromoteAllDrains(jobs0, w, moved, known, now);
    DrainedCarries(jobs0, redis.Contents().jobs, w, moved, known, now);
    RestIsFuture(jobs0.Zset(w), moved, now);
  }

  /** Where the loop stands after some moves. */
  ghost predicate Draining(jobs0: Jobs, jobs: Jobs, w: ZsetName, moved: seq<Job>, known: set<Name>, now: int) {
    && jobs == PromoteAll(jobs0, w, moved, known, now)
    && jobs.Zset(w) == jobs0.Zset(w) - Members(moved)
    && Lowest(jobs0.Zset(w), moved, now)
  }

  lemma DrainOne(jobs0: Jobs, jobs: Jobs, w: ZsetName, moved: seq<Job>, j: Job, known: set<Name>, now: int)
    requires w != Dead && Draining(jobs0, jobs, w, moved, known, now) && IsFirstDue(jobs.Zset(w), j, now)
    ensures Draining(jobs0, Promote(jobs, w, j, known, now), w, moved + [j], known, now)
    ensures |Promote(jobs, w, j, known, now).Zset(w)| < |jobs.Zset(w)|
  {
    LowestSnoc(jobs0.Zset(w), moved, j, now);
    ShrinksBy(jobs0.Zset(w), moved, j);
    assert (moved + [j])[..|moved|] == moved;
    PromoteAllZset(jobs0, w, moved + [j], known, now, w);
  }

  lemma RestIsFuture(z: Zset, moved: seq<Job>, now: int)
    requires Lowest(z, moved, now) && NoneDue(z - Members(moved), now)
    ensures KeepsFuture(z, z - Members(moved), now) && forall j :: j in z && z[j] <= now ==> j in moved
  {
    forall j | j in z && z[j] <= now ensures j in moved {
      assert j !in z - Members(moved);
    }
  }

  lemma ShrinksBy(z: Zset, moved: seq<Job>, j: Job)
    requires j in z - Members(moved)
    ensures |z - Members(moved + [j])| < |z - Members(moved)|
  {
    assert (z - Members(moved + [j])).Keys == (z - Members(moved)).Keys - {j};
  }
}
