/** The job record and the Redis data the library keeps, as values, and the effect of every
    Lua script and transaction on them.

    Lists keep Redis's left end at index 0: LPUSH adds at the front, RPOP takes the last
    element. A missing list is the empty list, a missing counter is zero. A sorted set maps a
    member to its score; the byte order that breaks ties between equal scores is left open. */
module JobStore {
  import opened Tally

  datatype Option<+T> = None | Some(value: T)

  /** Text that is only ever compared, never looked into: a number stands for each string. */
  type Text = nat
  type Name = Text
  type Pool = Text

  /** makeIdentifier gives hexadecimal identifiers; makeUniquePeriodicID gives the other kind. */
  datatype Id = Hex(digits: Text) | Periodic(name: Name, spec: Text, epoch: int)

  /** A uniqueness key: the job name and the encoded arguments or key map. */
  datatype UniqueKey = UniqueKey(name: Name, content: Text)

  datatype ErrText = NoError | UnknownJob | Message(text: Text)

  /** One job as serialized. Equal records stand for equal bytes. */
  datatype Job = Job(
    name: Name, id: Id, enqueuedAt: int, args: Text, unique: bool, uniqueKey: Option<UniqueKey>,
    fails: int, lastErr: ErrText, failedAt: int)
  {
    /** The key the worker deletes: the recorded one, or name and arguments for older jobs. */
    function Key(): UniqueKey {
      if uniqueKey.Some? then uniqueKey.value else ArgsKey()
    }

    /** The key the client deletes when a scheduled job is deleted. */
    function ArgsKey(): UniqueKey {
      UniqueKey(name, args)
    }

    function Failed(err: ErrText, now: int): Job {
      this.(fails := fails + 1, lastErr := err, failedAt := now)
    }

    function Requeued(now: int): Job {
      this.(enqueuedAt := now)
    }

    function Revived(now: int): Job {
      this.(enqueuedAt := now, fails := 0, lastErr := NoError, failedAt := 0)
    }

    function Unknown(now: int): Job {
      this.(lastErr := UnknownJob, failedAt := now)
    }
  }

  /** What a uniqueness key holds: "1", or the latest version of the job. */
  datatype Payload = One | Updated(job: Job)

  // ----- Lists and sorted sets -----

  /** The list keys: one queue per job name, one in-progress list per job name and pool. */
  datatype ListKey = Queue(name: Name) | InProgress(lane: Name, pool: Pool)

  datatype ZsetName = Retry | Scheduled | Dead

  type Zset = map<Job, int>

  /** Where the jobs are. */
  datatype Jobs = Jobs(lists: map<ListKey, seq<Job>>, zsets: map<ZsetName, Zset>)
  {
    function List(k: ListKey): seq<Job> {
      if k in lists then lists[k] else []
    }

    function Zset(w: ZsetName): Zset {
      if w in zsets then zsets[w] else map[]
    }

    function WithList(k: ListKey, q: seq<Job>): Jobs {
      this.(lists := lists[k := q])
    }

    function WithZset(w: ZsetName, z: Zset): Jobs {
      this.(zsets := zsets[w := z])
    }

    /** LPUSH. */
    function Push(k: ListKey, j: Job): Jobs {
      WithList(k, [j] + List(k))
    }

    /** LREM with count 1. */
    function Lrem(k: ListKey, j: Job): Jobs {
      WithList(k, RemoveFirst(List(k), j))
    }

    /** RPOPLPUSH. */
    function PopPush(k: ListKey, k': ListKey): Jobs
      requires List(k) != []
    {
      var q := List(k);
      WithList(k, q[..|q| - 1]).Push(k', q[|q| - 1])
    }

    function Zadd(w: ZsetName, j: Job, score: int): Jobs {
      WithZset(w, Zset(w)[j := score])
    }

    function Zrem(w: ZsetName, j: Job): Jobs {
      WithZset(w, Zset(w) - {j})
    }
  }

  /** LREM with count 1: drop the first occurrence, if any. */
  function RemoveFirst(s: seq<Job>, x: Job): (r: seq<Job>)
    ensures multiset(r) == multiset(s) - multiset{x}
  {
    if s == [] then []
    else
      assert s == [s[0]] + s[1..];
      if s[0] == x then s[1..] else [s[0]] + RemoveFirst(s[1..], x)
  }

  function Last(s: seq<Job>): Job
    requires s != []
  {
    s[|s| - 1]
  }

  // ----- Locks and settings -----

  /** The concurrency lock of a job name: the counter and the lock-info hash. */
  datatype Lock = Lock(count: int, info: map<Pool, int>)
  {
    function Acquired(p: Pool): Lock {
      Lock(count + 1, info[p := Get0(info, p) + 1])
    }

    function Released(p: Pool): Lock {
      Lock(count - 1, info[p := Get0(info, p) - 1])
    }

    /** Stale-lock cleaning: subtract and delete the dead pool's entry, then clamp at zero. */
    function Cleaned(p: Pool): Lock {
      if p !in info then this else
        var rest := count - info[p];
        Lock(if rest < 0 then 0 else rest, info - {p})
    }
  }

  type Locks = map<Name, Lock>

  function LockOf(locks: Locks, n: Name): Lock {
    if n in locks then locks[n] else Lock(0, map[])
  }

  /** The paused key and the max-concurrency key; an unset or zero cap means no cap. */
  datatype Setting = Setting(paused: bool, cap: nat)

  datatype Store = Store(
    jobs: Jobs, locks: Locks, settings: map<Name, Setting>, keys: map<UniqueKey, Payload>)
  {
    function Lock(n: Name): Lock {
      LockOf(locks, n)
    }

    function Setting(n: Name): Setting {
      if n in settings then settings[n] else NO_SETTING
    }

    predicate AtCap(n: Name) {
      Setting(n).cap != 0 && Lock(n).count >= Setting(n).cap
    }

    /** haveJobs, not isPaused, canRun. */
    predicate Eligible(n: Name) {
      jobs.List(Queue(n)) != [] && !Setting(n).paused && !AtCap(n)
    }

    /** The queue is empty, paused, or at its cap: a fetch passes it over. */
    predicate Shut(n: Name) {
      || jobs.List(Queue(n)) == []
      || Setting(n).paused
      || (Setting(n).cap != 0 && Lock(n).count >= Setting(n).cap)
    }
  }

  const NO_SETTING := Setting(false, 0)
  const EMPTY_STORE := Store(Jobs(map[], map[]), map[], map[], map[])

  // ----- Scripts -----

  /** Position of the first queue the fetch script would serve, or the length if none. */
  function FirstEligible(r: Store, order: seq<Name>): (i: nat)
    ensures i <= |order|
    ensures forall k :: 0 <= k < i ==> !r.Eligible(order[k])
    ensures i < |order| ==> r.Eligible(order[i])
  {
    if order == [] || r.Eligible(order[0]) then 0 else 1 + FirstEligible(r, order[1..])
  }

  /** Position i has the first queue in order that is not shut. */
  predicate FirstOpen(r: Store, order: seq<Name>, i: nat)
    requires i < |order|
  {
    !r.Shut(order[i]) && forall k :: 0 <= k < i ==> r.Shut(order[k])
  }

  /** Serve one queue: take the lock, then RPOPLPUSH the queue to in-progress. */
  function FetchFrom(r: Store, n: Name, p: Pool): Store
    requires r.jobs.List(Queue(n)) != []
  {
    r.(locks := r.locks[n := r.Lock(n).Acquired(p)], jobs := r.jobs.PopPush(Queue(n), InProgress(n, p)))
  }

  function Fetch(r: Store, order: seq<Name>, p: Pool): Store {
    var i := FirstEligible(r, order);
    if i == |order| then r else FetchFrom(r, order[i], p)
  }

  /** Position of the first job type with something in progress for the pool. */
  function FirstHeld(jobs: Jobs, names: seq<Name>, p: Pool): (i: nat)
    ensures i <= |names|
    ensures forall k :: 0 <= k < i ==> jobs.List(InProgress(names[k], p)) == []
    ensures i < |names| ==> jobs.List(InProgress(names[i], p)) != []
  {
    if names == [] || jobs.List(InProgress(names[0], p)) != [] then 0 else 1 + FirstHeld(jobs, names[1..], p)
  }

  /** Give back one job: RPOPLPUSH in-progress to the queue, then release the lock. */
  function ReenqueueTo(r: Store, n: Name, p: Pool): Store
    requires r.jobs.List(InProgress(n, p)) != []
  {
    r.(jobs := r.jobs.PopPush(InProgress(n, p), Queue(n)), locks := r.locks[n := r.Lock(n).Released(p)])
  }

  function Reenqueue(r: Store, names: seq<Name>, p: Pool): Store {
    var i := FirstHeld(r.jobs, names, p);
    if i == |names| then r else ReenqueueTo(r, names[i], p)
  }

  function CleanLocks(locks: Locks, names: seq<Name>, p: Pool): Locks {
    if names == [] then locks else
      var locks' := CleanLocks(locks, names[..|names| - 1], p);
      var n := names[|names| - 1];
      if p in LockOf(locks', n).info then locks'[n := LockOf(locks', n).Cleaned(p)] else locks'
  }

  /** The member ZRANGEBYSCORE -inf now LIMIT 0 1 may return. */
  predicate IsFirstDue(z: Zset, j: Job, now: int) {
    j in z && z[j] <= now && forall k :: k in z ==> z[j] <= z[k]
  }

  /** The requeuer script once a due member was found. */
  function Promote(jobs: Jobs, w: ZsetName, j: Job, known: set<Name>, now: int): Jobs {
    var jobs' := jobs.Zrem(w, j);
    if j.name in known then jobs'.Push(Queue(j.name), j.Requeued(now)) else jobs'.Zadd(Dead, j.Unknown(now), now)
  }

  /** One round of the dead-job requeue scripts. */
  function Revive(jobs: Jobs, j: Job, known: set<Name>, now: int): Jobs {
    var jobs' := jobs.Zrem(Dead, j);
    if j.name in known then jobs'.Push(Queue(j.name), j.Revived(now)) else jobs'.Zadd(Dead, j.Unknown(now), now + 5)
  }

  /** The two unique-enqueue scripts set the key, and place the job only when it was not set. */
  function PlaceUnique(r: Store, j: Job, at: Option<int>): Jobs {
    if j.Key() in r.keys then r.jobs
    else match at
      case None => r.jobs.Push(Queue(j.name), j)
      case Some(t) => r.jobs.Zadd(Scheduled, j, t)
  }

  function EnqueueUnique(r: Store, j: Job, at: Option<int>, p: Payload): Store {
    r.(jobs := PlaceUnique(r, j, at), keys := r.keys[j.Key() := p])
  }

  datatype Fate = Terminate | ToRetry(at: int) | ToDead(at: int)

  datatype JobOptions = JobOptions(maxFails: nat, skipDead: bool)

  /** jobFate for a job whose failure was just recorded; no options for a stray job. */
  function JobFate(opts: Option<JobOptions>, job: Job, now: int, backoff: int): Fate {
    if opts.Some? && opts.value.maxFails - job.fails > 0 then ToRetry(now + backoff)
    else if opts.Some? && opts.value.skipDead then Terminate
    else ToDead(now)
  }

  function Settle(jobs: Jobs, job: Job, fate: Fate): Jobs {
    match fate
    case Terminate => jobs
    case ToRetry(at) => jobs.Zadd(Retry, job, at)
    case ToDead(at) => jobs.Zadd(Dead, job, at)
  }

  /** The acknowledgement transaction: LREM, release, and the fate's own ZADD. The list is the
      one the job was fetched from; the lock is the one named by the job that ran. */
  function Acknowledge(r: Store, p: Pool, from: Name, raw: Job, job: Job, fate: Fate): Store {
    r.(jobs := Settle(r.jobs.Lrem(InProgress(from, p), raw), job, fate),
       locks := r.locks[job.name := r.Lock(job.name).Released(p)])
  }

  // ----- Places -----

  datatype Place = AtList(list: ListKey) | AtZset(zset: ZsetName)

  /** The jobs at a place, with their multiplicity. */
  function At(jobs: Jobs, a: Place): multiset<Job> {
    match a
    case AtList(k) => multiset(jobs.List(k))
    case AtZset(w) => multiset(jobs.Zset(w).Keys)
  }
}
