/** Every atomic step moves jobs between places in one of a few ways. Describing a step by the
    move it makes lets the invariants about jobs be proved once per kind of move. */
module Movement {
  import opened JobStore
  import opened Protocol

  datatype Spot = Nowhere | Spot(place: Place, job: Job)

  /** A job leaves src and arrives, possibly rewritten, at dst. */
  datatype Move = Move(src: Spot, dst: Spot)

  const STILL := Move(Nowhere, Nowhere)

  function Lose(a: Place, src: Spot, bag: multiset<Job>): multiset<Job> {
    if src.Spot? && src.place == a then bag - multiset{src.job} else bag
  }

  /** Adding to a sorted set a member it already has does not add a second copy. */
  function Gain(a: Place, dst: Spot, bag: multiset<Job>): multiset<Job> {
    if dst.Spot? && dst.place == a && !(a.AtZset? && dst.job in bag) then bag + multiset{dst.job} else bag
  }

  ghost predicate MovedAt(r: Jobs, r': Jobs, m: Move, a: Place) {
    At(r', a) == Gain(a, m.dst, Lose(a, m.src, At(r, a)))
  }

  ghost predicate Moved(r: Jobs, r': Jobs, m: Move) {
    && (m.src.Spot? ==> m.src.job in At(r, m.src.place))
    && forall a :: MovedAt(r, r', m, a)
  }

  // ----- Single commands -----

  lemma OtherList(r: Jobs, k: ListKey, q: seq<Job>, a: Place)
    requires a != AtList(k)
    ensures At(r.WithList(k, q), a) == At(r, a)
  {
  }

  lemma OtherZset(r: Jobs, w: ZsetName, z: Zset, a: Place)
    requires a != AtZset(w)
    ensures At(r.WithZset(w, z), a) == At(r, a)
  {
  }

  lemma ListMoves(r: Jobs, k: ListKey, q: seq<Job>, m: Move)
    requires m.src.Spot? ==> m.src.job in At(r, m.src.place)
    requires MovedAt(r, r.WithList(k, q), m, AtList(k))
    requires (m.src.Spot? ==> m.src.place == AtList(k)) && (m.dst.Spot? ==> m.dst.place == AtList(k))
    ensures Moved(r, r.WithList(k, q), m)
  {
    forall a ensures MovedAt(r, r.WithList(k, q), m, a) {
      if a != AtList(k) {
        OtherList(r, k, q, a);
      }
    }
  }

  lemma ZsetMoves(r: Jobs, w: ZsetName, z: Zset, m: Move)
    requires m.src.Spot? ==> m.src.job in At(r, m.src.place)
    requires MovedAt(r, r.WithZset(w, z), m, AtZset(w))
    requires (m.src.Spot? ==> m.src.place == AtZset(w)) && (m.dst.Spot? ==> m.dst.place == AtZset(w))
    ensures Moved(r, r.WithZset(w, z), m)
  {
    forall a ensures MovedAt(r, r.WithZset(w, z), m, a) {
      if a != AtZset(w) {
        OtherZset(r, w, z, a);
      }
    }
  }

  lemma PushMoves(r: Jobs, k: ListKey, j: Job)
    ensures Moved(r, r.Push(k, j), Move(Nowhere, Spot(AtList(k), j)))
  {
    ListMoves(r, k, [j] + r.List(k), Move(Nowhere, Spot(AtList(k), j)));
  }

  lemma LremAt(r: Jobs, k: ListKey, q: seq<Job>, x: Job)
    requires x in r.List(k) && multiset(q) == multiset(r.List(k)) - multiset{x}
    ensures MovedAt(r, r.WithList(k, q), Move(Spot(AtList(k), x), Nowhere), AtList(k))
  {
  }

  lemma LremMoves(r: Jobs, k: ListKey, x: Job)
    requires x in r.List(k)
    ensures Moved(r, r.Lrem(k, x), Move(Spot(AtList(k), x), Nowhere))
  {
    var q := RemoveFirst(r.List(k), x);
    LremAt(r, k, q, x);
    ListMoves(r, k, q, Move(Spot(AtList(k), x), Nowhere));
  }

  lemma PopPushMoves(r: Jobs, k: ListKey, k': ListKey)
    requires r.List(k) != []
    ensures Moved(r, r.PopPush(k, k'), Move(Spot(AtList(k), Last(r.List(k))), Spot(AtList(k'), Last(r.List(k)))))
  {
    var q := r.List(k);
    var x, r1 := Last(q), r.WithList(k, q[..|q| - 1]);
    assert q == q[..|q| - 1] + [x];
    ListMoves(r, k, q[..|q| - 1], Move(Spot(AtList(k), x), Nowhere));
    PushMoves(r1, k', x);
    Compose(r, r1, r.PopPush(k, k'), Spot(AtList(k), x), Spot(AtList(k'), x));
  }

  lemma KeysGain(a: set<Job>, j: Job)
    ensures multiset(a + {j}) == if j in multiset(a) then multiset(a) else multiset(a) + multiset{j}
  {
    if j in a {
      assert a + {j} == a;
    }
  }

  lemma KeysLose(a: set<Job>, j: Job)
    ensures multiset(a - {j}) == multiset(a) - multiset{j}
  {
  }

  lemma ZaddMoves(r: Jobs, w: ZsetName, j: Job, score: int)
    ensures Moved(r, r.Zadd(w, j, score), Move(Nowhere, Spot(AtZset(w), j)))
  {
    var z := r.Zset(w)[j := score];
    KeysGain(r.Zset(w).Keys, j);
    assert At(r.WithZset(w, z), AtZset(w)) == multiset(r.Zset(w).Keys + {j});
    ZsetMoves(r, w, z, Move(Nowhere, Spot(AtZset(w), j)));
  }

  lemma ZremMoves(r: Jobs, w: ZsetName, j: Job)
    requires j in r.Zset(w)
    ensures Moved(r, r.Zrem(w, j), Move(Spot(AtZset(w), j), Nowhere))
  {
    var z := r.Zset(w) - {j};
    KeysLose(r.Zset(w).Keys, j);
    assert At(r.WithZset(w, z), AtZset(w)) == multiset(r.Zset(w).Keys - {j});
    ZsetMoves(r, w, z, Move(Spot(AtZset(w), j), Nowhere));
  }

  lemma Stays(r: Jobs)
    ensures Moved(r, r, STILL)
  {
  }

  /** A departure followed by an arrival is one move. */
  lemma Compose(r: Jobs, r1: Jobs, r2: Jobs, src: Spot, dst: Spot)
    requires Moved(r, r1, Move(src, Nowhere)) && Moved(r1, r2, Move(Nowhere, dst))
    ensures Moved(r, r2, Move(src, dst))
  {
    forall a ensures MovedAt(r, r2, Move(src, dst), a) {
      assert MovedAt(r, r1, Move(src, Nowhere), a) && MovedAt(r1, r2, Move(Nowhere, dst), a);
    }
  }

  // ----- Scripts -----

  lemma AcknowledgeMoves(r: Jobs, k: ListKey, raw: Job, job: Job, fate: Fate)
    requires raw in r.List(k)
    ensures Moved(r, Settle(r.Lrem(k, raw), job, fate), Move(Spot(AtList(k), raw), FateSpot(job, fate)))
  {
    var src, r1 := Spot(AtList(k), raw), r.Lrem(k, raw);
    LremMoves(r, k, raw);
    match fate
    case Terminate =>
    case ToRetry(at) =>
      ZaddMoves(r1, Retry, job, at);
      Compose(r, r1, r1.Zadd(Retry, job, at), src, FateSpot(job, fate));
    case ToDead(at) =>
      ZaddMoves(r1, Dead, job, at);
      Compose(r, r1, r1.Zadd(Dead, job, at), src, FateSpot(job, fate));
  }

  function FateSpot(job: Job, fate: Fate): Spot {
    match fate
    case Terminate => Nowhere
    case ToRetry(_) => Spot(AtZset(Retry), job)
    case ToDead(_) => Spot(AtZset(Dead), job)
  }

  function PromoteSpot(j: Job, known: set<Name>, now: int): Spot {
    if j.name in known then Spot(AtList(Queue(j.name)), j.Requeued(now)) else Spot(AtZset(Dead), j.Unknown(now))
  }

  lemma PromoteMoves(r: Jobs, w: ZsetName, j: Job, known: set<Name>, now: int)
    requires j in r.Zset(w)
    ensures Moved(r, Promote(r, w, j, known, now), Move(Spot(AtZset(w), j), PromoteSpot(j, known, now)))
  {
    ZremMoves(r, w, j);
    var r1 := r.Zrem(w, j);
    if j.name in known { PushMoves(r1, Queue(j.name), j.Requeued(now)); } else { ZaddMoves(r1, Dead, j.Unknown(now), now); }
    Compose(r, r1, Promote(r, w, j, known, now), Spot(AtZset(w), j), PromoteSpot(j, known, now));
  }

  function ReviveSpot(j: Job, known: set<Name>, now: int): Spot {
    if j.name in known then Spot(AtList(Queue(j.name)), j.Revived(now)) else Spot(AtZset(Dead), j.Unknown(now))
  }

  lemma ReviveMoves(r: Jobs, j: Job, known: set<Name>, now: int)
    requires j in r.Zset(Dead)
    ensures Moved(r, Revive(r, j, known, now), Move(Spot(AtZset(Dead), j), ReviveSpot(j, known, now)))
  {
    ZremMoves(r, Dead, j);
    var r1 := r.Zrem(Dead, j);
    if j.name in known { PushMoves(r1, Queue(j.name), j.Revived(now)); } else { ZaddMoves(r1, Dead, j.Unknown(now), now + 5); }
    Compose(r, r1, Revive(r, j, known, now), Spot(AtZset(Dead), j), ReviveSpot(j, known, now));
  }

  function UniqueSpot(r: Store, j: Job, at: Option<int>): Spot {
    if j.Key() in r.keys then Nowhere
    else Spot(if at.None? then AtList(Queue(j.name)) else AtZset(Scheduled), j)
  }

  lemma EnqueueUniqueMoves(r: Store, j: Job, at: Option<int>)
    ensures Moved(r.jobs, PlaceUnique(r, j, at), Move(Nowhere, UniqueSpot(r, j, at)))
  {
    match at
    case None => PushMoves(r.jobs, Queue(j.name), j);
    case Some(t) => ZaddMoves(r.jobs, Scheduled, j, t);
  }

  // ----- Steps -----

  /** The move made by an enabled step. */
  ghost function MoveOf(s: Sys, step: Step): Move
    requires Enabled(s, step)
  {
    match step
    case Enqueue(j) => Move(Nowhere, Spot(AtList(Queue(j.name)), j))
    case EnqueueAt(j, _) => Move(Nowhere, Spot(AtZset(Scheduled), j))
    case EnqueueUniqueJob(j, at, _) =>
      Move(Nowhere, UniqueSpot(s.store, j, at))
    case EnqueuePeriodic(n, spec, epoch, _) => Move(Nowhere, Spot(AtZset(Scheduled), PeriodicJob(n, spec, epoch)))
    case FetchJob(p, order) =>
      var n := order[FirstEligible(s.store, order)];
      var x := Last(s.store.jobs.List(Queue(n)));
      Move(Spot(AtList(Queue(n)), x), Spot(AtList(InProgress(n, p)), x))
    case Ack(i, outcome, opts, now, backoff) =>
      var e := s.execs[i];
      var (job, fate) := Finished(e, outcome, opts, now, backoff);
      Move(Spot(AtList(InProgress(e.from, e.pool)), e.raw), FateSpot(job, fate))
    case ReenqueueJob(p, names, i) =>
      var n := names[FirstHeld(s.store.jobs, names, p)];
      var x := Last(s.store.jobs.List(InProgress(n, p)));
      Move(Spot(AtList(InProgress(n, p)), x), Spot(AtList(Queue(n)), x))
    case Requeue(w, j, known, now) => Move(Spot(AtZset(w), j), PromoteSpot(j, known, now))
    case RetryDead(j, known, now) => Move(Spot(AtZset(Dead), j), ReviveSpot(j, known, now))
    case Delete(w, j, _) => Move(Spot(AtZset(w), j), Nowhere)
    case _ => STILL
  }

  /** Every in-progress entry of a worker is on its pool's in-progress list. */
  predicate OnList(r: Jobs, e: Exec) {
    e.raw in r.List(InProgress(e.from, e.pool))
  }

  lemma StepMoves(s: Sys, step: Step)
    requires Enabled(s, step)
    requires step.Ack? ==> OnList(s.store.jobs, s.execs[step.i])
    ensures Moved(s.store.jobs, Apply(s, step).store.jobs, MoveOf(s, step))
  {
    var r := s.store.jobs;
    match step
    case Enqueue(j) => PushMoves(r, Queue(j.name), j);
    case EnqueueAt(j, at) => ZaddMoves(r, Scheduled, j, at);
    case EnqueueUniqueJob(j, at, update) => EnqueueUniqueMoves(s.store, j, at);
    case EnqueuePeriodic(n, spec, epoch, _) => ZaddMoves(r, Scheduled, PeriodicJob(n, spec, epoch), epoch);
    case FetchJob(p, order) =>
      var n := order[FirstEligible(s.store, order)];
      PopPushMoves(r, Queue(n), InProgress(n, p));
    case Ack(i, outcome, opts, now, backoff) =>
      var e := s.execs[i];
      var (job, fate) := Finished(e, outcome, opts, now, backoff);
      AcknowledgeMoves(r, InProgress(e.from, e.pool), e.raw, job, fate);
    case ReenqueueJob(p, names, i) =>
      var n := names[FirstHeld(r, names, p)];
      PopPushMoves(r, InProgress(n, p), Queue(n));
    case Requeue(w, j, known, now) => PromoteMoves(r, w, j, known, now);
    case RetryDead(j, known, now) => ReviveMoves(r, j, known, now);
    case Delete(w, j, last) => ZremMoves(r, w, j);
    case _ => Stays(r);
  }
}
