/** A worker: choosing a job through the sampler and the fetch script, and processing it. */
module Worker {
  import opened Tally
  import opened JobStore
  import opened RedisServer
  import opened Sampler
  import opened Protocol

  // ----- fetchJob -----

  predicate Registered(items: seq<Item>, n: Name) {
    exists i :: 0 <= i < |items| && items[i].name == n
  }

  lemma SameItemsSameNames(a: seq<Item>, b: seq<Item>, n: Name)
    requires multiset(a) == multiset(b)
    ensures Registered(a, n) <==> Registered(b, n)
  {
    if Registered(a, n) {
      var i :| 0 <= i < |a| && a[i].name == n;
      assert a[i] in multiset(b);
    }
    if Registered(b, n) {
      var i :| 0 <= i < |b| && b[i].name == n;
      assert b[i] in multiset(a);
    }
  }

  /** The queue of item i is open and those of all items before it are shut. */
  predicate ServedFirst(r: Store, items: seq<Item>, i: nat)
    requires i < |items|
  {
    !r.Shut(items[i].name) && forall k :: 0 <= k < i ==> r.Shut(items[k].name)
  }

  predicate AllShut(r: Store, items: seq<Item>) {
    forall i :: 0 <= i < |items| ==> r.Shut(items[i].name)
  }

  /** The queue served by a fetch over the items in order, and the job it hands out. */
  ghost predicate Served(r: Store, r': Store, items: seq<Item>, p: Pool, job: Job, n: Name) {
    && (exists i :: 0 <= i < |items| && items[i].name == n && ServedFirst(r, items, i))
    && r.Eligible(n) && job == Last(r.jobs.List(Queue(n))) && r' == FetchFrom(r, n, p)
  }

  /** fetchJob: resample, then offer the queues to the fetch script in that order. Nothing is
      found exactly when every registered type is empty, paused or at its cap, whatever order
      was drawn; a job found is the oldest of the first queue in the sampled order that is none
      of these. */
  method FetchJob(redis: Redis, sampler: PrioritySampler, p: Pool)
    returns (ok: bool, res: Option<(Job, Name)>, ghost draws: seq<nat>)
    requires sampler.Valid()
    modifies sampler.samples, redis`lists, redis`locks
    ensures sampler.Valid() && Sampler.Outcome(old(sampler.samples[..]), draws, sampler.samples[..], ok)
    ensures ok <==> Zeros(old(sampler.samples[..])) < 2
    ensures ok ==> (res.None? <==> AllShut(old(redis.Contents()), sampler.samples[..]))
    ensures ok ==> (res.None? <==> forall n :: Registered(old(sampler.samples[..]), n) ==> old(redis.Contents()).Shut(n))
    ensures res.Some? ==> Registered(old(sampler.samples[..]), res.value.1)
    ensures res.Some? ==> Served(old(redis.Contents()), redis.Contents(), sampler.samples[..], p, res.value.0, res.value.1)
    ensures res.None? ==> redis.Contents() == old(redis.Contents())
  {
    ghost var items := sampler.samples[..];
    ok, draws := sampler.Resample();
    res := None;
    if ok {
      forall n ensures Registered(sampler.samples[..], n) <==> Registered(items, n) {
        SameItemsSameNames(items, sampler.samples[..], n);
      }
      res := Offer(redis, sampler, p);
    }
  }

  /** One call of the fetch script, with the queues in the order of the samples. */
  method Offer(redis: Redis, sampler: PrioritySampler, p: Pool) returns (res: Option<(Job, Name)>)
    modifies redis`lists, redis`locks
    ensures res.None? <==> AllShut(old(redis.Contents()), sampler.samples[..])
    ensures res.None? <==> forall n :: Registered(sampler.samples[..], n) ==> old(redis.Contents()).Shut(n)
    ensures res.Some? ==> Registered(sampler.samples[..], res.value.1)
    ensures res.Some? ==> Served(old(redis.Contents()), redis.Contents(), sampler.samples[..], p, res.value.0, res.value.1)
    ensures res.None? ==> redis.Contents() == old(redis.Contents())
  {
    ghost var r := redis.Contents();
    var order := NamesInOrder(sampler);
    AllShutNames(r, sampler.samples[..], order);
    res := redis.FetchScript(order, p);
    if res.Some? {
      ghost var i :| 0 <= i < |order| && order[i] == res.value.1 && FirstOpen(r, order, i);
      assert ServedFirst(r, sampler.samples[..], i);
    }
  }

  lemma AllShutNames(r: Store, items: seq<Item>, order: seq<Name>)
    requires |order| == |items| && forall k :: 0 <= k < |order| ==> order[k] == items[k].name
    ensures AllShut(r, items) <==> forall n :: n in order ==> r.Shut(n)
    ensures AllShut(r, items) <==> forall n :: Registered(items, n) ==> r.Shut(n)
  {
    forall i | 0 <= i < |items| ensures order[i] in order && Registered(items, items[i].name) {
    }
  }

  /** The script arguments: the queues in sampled order. */
  method NamesInOrder(sampler: PrioritySampler) returns (order: seq<Name>)
    ensures |order| == sampler.samples.Length && forall k :: 0 <= k < |order| ==> order[k] == sampler.samples[k].name
    ensures forall n :: n in order <==> Registered(sampler.samples[..], n)
  {
    order := [];
    for i := 0 to sampler.samples.Length
      invariant |order| == i && forall k :: 0 <= k < i ==> order[k] == sampler.samples[k].name
    {
      order := order + [sampler.samples[i].name];
    }
    forall n | Registered(sampler.samples[..], n) ensures n in order {
      var i :| 0 <= i < |sampler.samples[..]| && sampler.samples[..][i].name == n;
      assert order[i] == n;
    }
    forall n | n in order ensures Registered(sampler.samples[..], n) {
      var i :| 0 <= i < |order| && order[i] == n;
      assert sampler.samples[..][i].name == n;
    }
  }

  // ----- processJob -----

  /** The steps a worker takes for one fetched job when it is not interrupted. */
  ghost function WorkerRun(s: Sys, i: nat, outcome: Outcome, opts: Option<JobOptions>, now: int, backoff: int): seq<Step>
    requires i < |s.execs|
  {
    var raw := s.execs[i].raw;
    (if !raw.unique then [Start(i)]
     else if raw.Key() in s.store.keys then [ReadKey(i), DeleteKey(i)]
     else [ReadKey(i)])
    + [Ack(i, outcome, opts, now, backoff)]
  }

  const STRAY := Message(0)

  /** getAndDeleteUniqueJob: the replacement, if the key held one. The key is the recorded one,
      else that of name and arguments. */
  method GetAndDeleteUniqueJob(redis: Redis, job: Job) returns (updated: Option<Job>)
    modifies redis`keys
    ensures var key := if job.uniqueKey.Some? then job.uniqueKey.value else UniqueKey(job.name, job.args);
            && redis.keys == old(redis.keys) - {key}
            && updated == if key in old(redis.keys) && old(redis.keys)[key].Updated? then Some(old(redis.keys)[key].job) else None
  {
    if job.Key() !in redis.keys {
      assert redis.keys - {job.Key()} == redis.keys;
      return None;
    }
    var payload := redis.keys[job.Key()];
    redis.keys := redis.keys - {job.Key()};
    updated := if payload.Updated? then Some(payload.job) else None;
  }

  /** The options of the job that ends up running, if its name has a handler. */
  function OptionsFor(types: map<Name, JobOptions>, job: Job): Option<JobOptions> {
    if job.name in types then Some(types[job.name]) else None
  }

  /** A job without handler counts as failed. */
  function ResultOf(opts: Option<JobOptions>, outcome: Outcome): Outcome {
    if opts.None? then Errored(STRAY) else outcome
  }

  /** The start of processJob: the job that will run. */
  method ChooseJob(redis: Redis, raw: Job, ghost s: Sys) returns (job: Job)
    requires s.store == redis.Contents()
    modifies redis`keys
    ensures redis.keys == if raw.unique then old(redis.keys) - {raw.Key()} else old(redis.keys)
    ensures job == Chosen(s, raw)
  {
    job := raw;
    if raw.unique {
      var updated := GetAndDeleteUniqueJob(redis, raw);
      if updated.Some? {
        job := updated.value;
      }
    }
  }

  /** The sorted set gains one entry and no other sorted set changes. */
  ghost predicate Gains(r: Jobs, r': Jobs, w: ZsetName, j: Job, score: int) {
    r'.Zset(w) == r.Zset(w)[j := score] && forall w' :: w' != w ==> r'.Zset(w') == r.Zset(w')
  }

  ghost predicate SameZsets(r: Jobs, r': Jobs) {
    forall w :: r'.Zset(w) == r.Zset(w)
  }

  /** Where the job that ran ends up. A success leaves nothing. A failure is recorded, and the job
      goes to retry after the backoff while it has failures left, else to dead, unless its type
      skips that. A job of a type that is not registered fails and goes to dead. */
  ghost predicate EndsUp(r: Jobs, r': Jobs, types: map<Name, JobOptions>, outcome: Outcome, job: Job, now: int, backoff: int) {
    if job.name !in types then
      Gains(r, r', Dead, job.(fails := job.fails + 1, lastErr := STRAY, failedAt := now), now)
    else match outcome
      case Succeeded => SameZsets(r, r')
      case Errored(err) =>
        var record := job.(fails := job.fails + 1, lastErr := err, failedAt := now);
        if job.fails + 1 < types[job.name].maxFails then Gains(r, r', Retry, record, now + backoff)
        else if types[job.name].skipDead then SameZsets(r, r')
        else Gains(r, r', Dead, record, now)
  }

  /** The fetched record leaves its in-progress list, and no other list changes. */
  ghost predicate TakenOff(r: Jobs, r': Jobs, own: ListKey, raw: Job) {
    && multiset(r'.List(own)) == multiset(r.List(own)) - multiset{raw}
    && forall k :: k != own ==> r'.List(k) == r.List(k)
  }

  /** The lock of the job that ran is released, and no other lock changes. */
  ghost predicate LockReleased(locks: Locks, locks': Locks, p: Pool, n: Name) {
    && LockOf(locks', n).count == LockOf(locks, n).count - 1
    && LockOf(locks', n).info == LockOf(locks, n).info[p := Get0(LockOf(locks, n).info, p) - 1]
    && forall m :: m != n ==> LockOf(locks', m) == LockOf(locks, m)
  }

  lemma LremLists(jobs: Jobs, k: ListKey, x: Job, k': ListKey)
    ensures jobs.Lrem(k, x).List(k') == if k' == k then RemoveFirst(jobs.List(k), x) else jobs.List(k')
    ensures jobs.Lrem(k, x).zsets == jobs.zsets
  {
  }

  lemma SettleLists(jobs: Jobs, job: Job, fate: Fate)
    ensures Settle(jobs, job, fate).lists == jobs.lists
  {
  }

  lemma ZaddZset(jobs: Jobs, w: ZsetName, j: Job, score: int, w': ZsetName)
    ensures jobs.Zadd(w, j, score).Zset(w') == if w' == w then jobs.Zset(w)[j := score] else jobs.Zset(w')
  {
  }

  lemma SettleTakesOff(jobs: Jobs, own: ListKey, raw: Job, job: Job, fate: Fate)
    ensures TakenOff(jobs, Settle(jobs.Lrem(own, raw), job, fate), own, raw)
  {
    var mid := jobs.Lrem(own, raw);
    var jobs' := Settle(mid, job, fate);
    SettleLists(mid, job, fate);
    forall k ensures jobs'.List(k) == if k == own then RemoveFirst(jobs.List(own), raw) else jobs.List(k) {
      LremLists(jobs, own, raw, k);
      assert jobs'.List(k) == mid.List(k);
    }
  }

  /** The sorted sets after an acknowledgement. */
  ghost predicate FateMet(r: Jobs, r': Jobs, job: Job, fate: Fate) {
    match fate
    case Terminate => SameZsets(r, r')
    case ToRetry(at) => Gains(r, r', Retry, job, at)
    case ToDead(at) => Gains(r, r', Dead, job, at)
  }

  lemma SettleMeetsFate(jobs: Jobs, own: ListKey, raw: Job, job: Job, fate: Fate)
    ensures FateMet(jobs, Settle(jobs.Lrem(own, raw), job, fate), job, fate)
  {
    var mid := jobs.Lrem(own, raw);
    LremLists(jobs, own, raw, own);
    forall w ensures mid.Zset(w) == jobs.Zset(w) {
    }
    match fate
    case Terminate =>
    case ToRetry(at) =>
      forall w ensures mid.Zadd(Retry, job, at).Zset(w) == if w == Retry then jobs.Zset(Retry)[job := at] else jobs.Zset(w) {
        ZaddZset(mid, Retry, job, at, w);
      }
    case ToDead(at) =>
      forall w ensures mid.Zadd(Dead, job, at).Zset(w) == if w == Dead then jobs.Zset(Dead)[job := at] else jobs.Zset(w) {
        ZaddZset(mid, Dead, job, at, w);
      }
  }

  /** What the worker decides for the job that ran. */
  function Decide(types: map<Name, JobOptions>, outcome: Outcome, ran: Job, now: int, backoff: int): (Job, Fate) {
    var opts := OptionsFor(types, ran);
    match ResultOf(opts, outcome)
    case Succeeded => (ran, Terminate)
    case Errored(err) => (ran.Failed(err, now), JobFate(opts, ran.Failed(err, now), now, backoff))
  }

  lemma DecidedEnd(r: Jobs, r': Jobs, types: map<Name, JobOptions>, outcome: Outcome, ran: Job, now: int, backoff: int)
    requires var (job, fate) := Decide(types, outcome, ran, now, backoff); FateMet(r, r', job, fate)
    ensures EndsUp(r, r', types, outcome, ran, now, backoff)
  {
  }

  lemma Acknowledged(r: Store, p: Pool, from: Name, raw: Job, types: map<Name, JobOptions>, outcome: Outcome, ran: Job,
                     now: int, backoff: int)
    ensures var (job, fate) := Decide(types, outcome, ran, now, backoff);
            var r' := Acknowledge(r, p, from, raw, job, fate);
            && EndsUp(r.jobs, r'.jobs, types, outcome, ran, now, backoff)
            && TakenOff(r.jobs, r'.jobs, InProgress(from, p), raw)
            && LockReleased(r.locks, r'.locks, p, ran.name)
  {
    var (job, fate) := Decide(types, outcome, ran, now, backoff);
    var r' := Acknowledge(r, p, from, raw, job, fate);
    SettleTakesOff(r.jobs, InProgress(from, p), raw, job, fate);
    SettleMeetsFate(r.jobs, InProgress(from, p), raw, job, fate);
    DecidedEnd(r.jobs, r'.jobs, types, outcome, ran, now, backoff);
    assert job.name == ran.name;
  }

  /** processJob refines the protocol: left alone, the worker changes Redis exactly as its run
      of protocol steps does. Of a unique job the version under its key runs. */
  method ProcessJob(redis: Redis, p: Pool, types: map<Name, JobOptions>, outcome: Outcome, now: int, backoff: int,
                    from: Name, raw: Job, ghost s: Sys, ghost i: nat) returns (ghost ran: Job)
    requires s.store == redis.Contents() && s.LiveAt(i) && s.execs[i] == Exec(p, from, raw, Fetched, true)
    modifies redis`lists, redis`zsets, redis`locks, redis`keys
    ensures var opts := OptionsFor(types, Chosen(s, raw));
            redis.Contents() == After(s, WorkerRun(s, i, ResultOf(opts, outcome), opts, now, backoff)).store
    ensures var key := if raw.uniqueKey.Some? then raw.uniqueKey.value else UniqueKey(raw.name, raw.args);
            && ran == (if raw.unique && key in old(redis.keys) && old(redis.keys)[key].Updated? then old(redis.keys)[key].job else raw)
            && redis.keys == if raw.unique then old(redis.keys) - {key} else old(redis.keys)
    ensures EndsUp(old(redis.Contents().jobs), redis.Contents().jobs, types, outcome, ran, now, backoff)
    ensures TakenOff(old(redis.Contents().jobs), redis.Contents().jobs, InProgress(from, p), raw)
    ensures LockReleased(old(redis.locks), redis.locks, p, ran.name)
  {
    var job := ChooseJob(redis, raw, s);
    ran := job;
    ghost var r := redis.Contents();
    var opts := OptionsFor(types, job);
    var result := ResultOf(opts, outcome);
    var fate := Terminate;
    if result.Errored? {
      job := job.Failed(result.err, now);
      fate := JobFate(opts, job, now, backoff);
    }
    redis.AcknowledgeTransaction(p, from, raw, job, fate);
    Acknowledged(r, p, from, raw, types, outcome, ran, now, backoff);
    WorkerRunStore(s, i, result, opts, now, backoff, redis.Contents());
  }

  /** The job that ends up running. */
  function Chosen(s: Sys, raw: Job): Job {
    if raw.unique && raw.Key() in s.store.keys && s.store.keys[raw.Key()].Updated?
    then s.store.keys[raw.Key()].job else raw
  }

  /** The state in which the worker runs the job. */
  ghost function Prepared(s: Sys, i: nat): Sys
    requires i < |s.execs|
  {
    var raw := s.execs[i].raw;
    if !raw.unique then Next(s, Start(i))
    else if raw.Key() in s.store.keys then Next(Next(s, ReadKey(i)), DeleteKey(i))
    else Next(s, ReadKey(i))
  }

  lemma RunIsPrepared(s: Sys, i: nat, o: Outcome, opts: Option<JobOptions>, now: int, backoff: int)
    requires i < |s.execs|
    ensures After(s, WorkerRun(s, i, o, opts, now, backoff)) == Next(Prepared(s, i), Ack(i, o, opts, now, backoff))
  {
    var raw, ack := s.execs[i].raw, Ack(i, o, opts, now, backoff);
    if !raw.unique {
      AfterTwo(s, Start(i), ack);
    } else if raw.Key() in s.store.keys {
      AfterThree(s, ReadKey(i), DeleteKey(i), ack);
    } else {
      AfterTwo(s, ReadKey(i), ack);
    }
  }

  lemma PreparedRuns(s: Sys, i: nat)
    requires s.LiveAt(i) && s.execs[i].phase.Fetched?
    ensures var s' := Prepared(s, i);
            && s'.execs == s.execs[i := s.execs[i].(phase := Running(Chosen(s, s.execs[i].raw)))] && s'.dead == s.dead
            && s'.store == s.store.(keys := if s.execs[i].raw.unique then s.store.keys - {s.execs[i].raw.Key()} else s.store.keys)
  {
    var raw := s.execs[i].raw;
    if raw.unique && raw.Key() !in s.store.keys {
      assert s.store.keys - {raw.Key()} == s.store.keys;
    }
  }

  lemma WorkerRunStore(s: Sys, i: nat, o: Outcome, opts: Option<JobOptions>, now: int, backoff: int, r: Store)
    requires s.LiveAt(i) && s.execs[i].phase.Fetched?
    requires var e := s.execs[i].(phase := Running(Chosen(s, s.execs[i].raw)));
             var (job, fate) := Finished(e, o, opts, now, backoff);
             r == Acknowledge(s.store.(keys := if e.raw.unique then s.store.keys - {e.raw.Key()} else s.store.keys),
                              e.pool, e.from, e.raw, job, fate)
    ensures After(s, WorkerRun(s, i, o, opts, now, backoff)).store == r
  {
    RunIsPrepared(s, i, o, opts, now, backoff);
    PreparedRuns(s, i);
  }
}
