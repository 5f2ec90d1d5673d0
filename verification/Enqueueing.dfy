/** The enqueuer: the single calls and BulkEnqueue over a connection, each proved against the
    effects in Bulk. */
module Enqueueing {
  import opened JobStore
  import opened Pipeline
  import opened Bulk
  import opened Requests

  datatype Result = Enqueued | Skipped | NotEncoded | ReplicationFailed

  /** One entry of a bulk result. */
  datatype BulkResult = BulkResult(id: Id, enqueuedAt: int, skipped: bool, uniqueKey: Option<UniqueKey>)

  datatype BulkOutcome = Results(results: seq<BulkResult>) | BulkNotEncoded | BulkReplicationFailed

  function ResultOf(x: Item, skipped: bool): BulkResult {
    BulkResult(x.job.id, x.job.enqueuedAt, skipped, KeyOf(x.param))
  }

  function ItemOf(p: Param, id: Id, epoch: int): Item {
    Item(p, JobOf(p, id, epoch))
  }

  function ItemsOf(params: seq<BulkParam>, ids: seq<Id>, epoch: int): (xs: seq<Item>)
    requires |ids| == |params|
    ensures |xs| == |params|
  {
    seq(|params|, i requires 0 <= i < |params| => ItemOf(params[i].Asked(), ids[i], epoch))
  }

  // ----- The positions of late items -----

  function LateIndices(scripts: set<Script>, xs: seq<Item>): seq<nat> {
    if xs == [] then [] else
      LateIndices(scripts, xs[..|xs| - 1]) + if Late(scripts, xs[|xs| - 1]) then [|xs| - 1] else []
  }

  lemma {:induction false} LateIndexAt(scripts: set<Script>, xs: seq<Item>, k: nat)
    requires k < |LateIndices(scripts, xs)|
    ensures |LateIndices(scripts, xs)| == |Select(scripts, xs, true)|
    ensures var i := LateIndices(scripts, xs)[k];
            && i < |xs| && Late(scripts, xs[i])
            && Select(scripts, xs, true)[k] == xs[i]
            && Select(scripts, xs[..i], true) == Select(scripts, xs, true)[..k]
  {
    var init := xs[..|xs| - 1];
    LateCount(scripts, init);
    if k < |LateIndices(scripts, init)| {
      LateIndexAt(scripts, init, k);
      var i := LateIndices(scripts, init)[k];
      assert init[..i] == xs[..i];
      assert Select(scripts, xs, true)[..k] == Select(scripts, init, true)[..k];
    } else {
      assert Select(scripts, xs, true)[..k] == Select(scripts, init, true);
    }
  }

  lemma {:induction false} LateCount(scripts: set<Script>, xs: seq<Item>)
    ensures |LateIndices(scripts, xs)| == |Select(scripts, xs, true)|
    ensures forall x :: x in Select(scripts, xs, true) ==> x.param.unique
  {
    if xs != [] {
      LateCount(scripts, xs[..|xs| - 1]);
    }
  }

  lemma {:induction false} LateListed(scripts: set<Script>, xs: seq<Item>, i: nat)
    requires i < |xs|
    ensures i in LateIndices(scripts, xs) <==> Late(scripts, xs[i])
  {
    var last := |xs| - 1;
    if i < last {
      LateListed(scripts, xs[..last], i);
    } else {
      LateBound(scripts, xs[..last]);
    }
  }

  lemma {:induction false} LateBound(scripts: set<Script>, xs: seq<Item>)
    ensures forall k :: 0 <= k < |LateIndices(scripts, xs)| ==> LateIndices(scripts, xs)[k] < |xs|
  {
    if xs != [] {
      LateBound(scripts, xs[..|xs| - 1]);
    }
  }

  // ----- Waiting for replicas -----

  function Waits(minWait: int): seq<Command> {
    if minWait > 0 then [Wait] else []
  }

  /** WAIT, when it is used, reports enough replicas. */
  predicate Acked(minWait: int, acked: Acks, waits: nat) {
    minWait > 0 ==> acked(waits) >= minWait
  }

  function Additions(pending: set<Name>): seq<Command> {
    if pending == {} then [] else [SAdd(pending)]
  }

  /** Item i is skipped when its turn comes. */
  predicate SkipsIn(s: Server, xs: seq<Item>, i: nat)
    requires i < |xs|
  {
    Skips(PlaceAll(s.store, Before(s.scripts, xs, i)), xs[i].param, xs[i].job)
  }

  predicate IsBatch(xs: seq<Item>) {
    forall i :: 0 <= i < |xs| ==> xs[i].job.unique == xs[i].param.unique
  }

  /** For each item, whether it is skipped when its turn comes. */
  function Flags(s: Server, xs: seq<Item>, n: nat): (flags: seq<bool>)
    requires n <= |xs|
    ensures |flags| == n
  {
    if n == 0 then [] else Flags(s, xs, n - 1) + [SkipsIn(s, xs, n - 1)]
  }

  lemma {:induction false} FlagAt(s: Server, xs: seq<Item>, n: nat, i: nat)
    requires i < n <= |xs|
    ensures Flags(s, xs, n)[i] == SkipsIn(s, xs, i)
  {
    if i < n - 1 {
      FlagAt(s, xs, n - 1, i);
    }
  }

  /** The first n results are in, except for late items. */
  predicate Reported(scripts: set<Script>, xs: seq<Item>, flags: seq<bool>, results: seq<BulkResult>, n: nat) {
    && |results| == |xs| == |flags|
    && forall i :: 0 <= i < |xs| ==> results[i] == ResultOf(xs[i], i < n && !Late(scripts, xs[i]) && flags[i])
  }

  /** What a bulk call that could be encoded does to the store and returns. */
  ghost predicate Delivered(s: Server, store: Store, xs: seq<Item>, out: BulkOutcome, minWait: int, acked: Acks) {
    if !Acked(minWait, acked, s.waits) then
      out.BulkReplicationFailed? && store == PlaceAll(s.store, Select(s.scripts, xs, false))
    else
      && store == PlaceAll(s.store, Applied(s.scripts, xs))
      && (out.Results? ==> Complete(xs, Flags(s, xs, |xs|), out.results))
      && (out.Results? <==> LateIndices(s.scripts, xs) == [] || Acked(minWait, acked, s.waits + 1))
  }

  lemma SameWait(minWait: int, acked: Acks, a: nat, b: nat)
    requires minWait > 0 ==> a == b
    ensures Acked(minWait, acked, a) == Acked(minWait, acked, b)
  {
  }

  class Enqueuer {
    const minWait: int
    var cache: map<Name, int>

    constructor (m: int)
      ensures minWait == m && cache == map[]
    {
      minWait, cache := m, map[];
    }

    method SendWait(c: Connection)
      modifies c`outbox
      ensures c.outbox == old(c.outbox) + Waits(minWait)
    {
      if minWait > 0 {
        c.Send(Wait);
      }
    }

    method ReceiveWait(c: Connection) returns (ok: bool)
      requires minWait > 0 ==> c.inbox != [] && c.inbox[0].Replicas?
      modifies c`inbox
      ensures c.inbox == old(c.inbox)[|Waits(minWait)|..]
      ensures ok <==> (minWait > 0 ==> old(c.inbox)[0].count >= minWait)
    {
      ok := true;
      if minWait > 0 {
        var r := c.Receive();
        ok := r.count >= minWait;
      }
    }

    // ----- Single calls -----

    method AddToKnownJobs(c: Connection, x: Item, clock: int)
      requires c.Idle()
      modifies c, this`cache
      ensures c.Idle() && (c.server.known, cache) == KnownAfter(old(c.server.known), old(cache), [x], clock)
      ensures old(Honest(c.server.known, cache)) ==> Honest(c.server.known, cache)
      ensures c.server == old(c.server).(known := c.server.known)
      ensures var n := x.param.name;
              if n in old(cache) && clock < old(cache)[n] then c.server.known == old(c.server.known) && cache == old(cache)
              else c.server.known == old(c.server.known) + {n} && cache == old(cache)[n := clock + 300]
    {
      KnownAfterOne(c.server.known, cache, x, clock);
      var n := x.param.name;
      if NeedsAdd(cache, n, clock) {
        SendAddition(c, n);
        cache := cache[n := clock + REMEMBER];
      }
    }

    /** SADD of one name. */
    method SendAddition(c: Connection, n: Name)
      requires c.Idle()
      modifies c
      ensures c.Idle() && c.server == old(c.server).(known := old(c.server.known) + {n})
    {
      ExecuteOne(c.server, SAdd({n}), c.acked);
      c.Send(SAdd({n}));
      assert c.outbox == [SAdd({n})];
      c.Flush();
      var _ := c.Receive();
    }

    /** Enqueue and EnqueueAt. */
    method EnqueuePlain(c: Connection, p: Param, id: Id, epoch: int, clock: int) returns (res: Result)
      requires c.Idle() && !p.unique
      modifies c, this`cache
      ensures c.Idle() && (old(Honest(c.server.known, cache)) ==> Honest(c.server.known, cache))
      ensures !p.encodes ==> res == NotEncoded && c.server == old(c.server) && cache == old(cache)
      ensures p.encodes ==>
                var s, x := old(c.server), ItemOf(p, id, epoch);
                && c.server.store == PlaceAll(s.store, [x]) && c.server.scripts == s.scripts
                && res == (if Acked(minWait, c.acked, s.waits) then Enqueued else ReplicationFailed)
                && (c.server.known, cache) == if res.Enqueued? then KnownAfter(s.known, old(cache), [x], clock)
                                              else (s.known, old(cache))
      ensures p.encodes ==> PlainAsked(old(c.server.store), c.server.store, p, id, epoch)
    {
      if !p.encodes {
        return NotEncoded;
      }
      var x := ItemOf(p, id, epoch);
      assert [x][..0] == [];
      PlacedAsked(c.server.store, p, id, epoch);
      c.Send(CommandFor(x));
      SendWait(c);
      SingleReplies(c.server, CommandFor(x), minWait, c.acked);
      c.Flush();
      var _ := c.Receive();
      var ok := ReceiveWait(c);
      if !ok {
        return ReplicationFailed;
      }
      AddToKnownJobs(c, x, clock);
      return Enqueued;
    }

    /** The closure of uniqueJobHelper, run: EVALSHA, and EVAL when the script is missing. */
    method EnqueueUnique(c: Connection, p: Param, id: Id, epoch: int, clock: int) returns (res: Result)
      requires c.Idle() && p.unique
      modifies c, this`cache
      ensures c.Idle() && (old(Honest(c.server.known, cache)) ==> Honest(c.server.known, cache))
      ensures !p.encodes ==> res == NotEncoded && c.server == old(c.server) && cache == old(cache)
      ensures p.encodes ==>
                var s, x := old(c.server), ItemOf(p, id, epoch);
                && c.server.store == PlaceAll(s.store, [x]) && c.server.scripts >= s.scripts
                && (c.server.known, cache) == KnownAfter(s.known, old(cache), [x], clock)
                && res == if !Acked(minWait, c.acked, s.waits) then ReplicationFailed
                          else if Skips(s.store, p, x.job) then Skipped else Enqueued
      ensures p.encodes ==> UniqueAsked(old(c.server.store), c.server.store, p, id, epoch)
      ensures res.Skipped? ==> AskedKey(p.name, p.args, p.keyMap) in old(c.server.store.keys)
      ensures res.Enqueued? ==> AskedKey(p.name, p.args, p.keyMap) !in old(c.server.store.keys)
    {
      if !p.encodes {
        return NotEncoded;
      }
      var x := ItemOf(p, id, epoch);
      PlacedAsked(c.server.store, p, id, epoch);
      assert [x][..0] == [];
      AddToKnownJobs(c, x, clock);
      var status := RunScript(c, x);
      SendWait(c);
      c.Flush();
      var ok := ReceiveWait(c);
      if !ok {
        return ReplicationFailed;
      }
      return if status then Enqueued else Skipped;
    }

    /** Script.Do. */
    method RunScript(c: Connection, x: Item) returns (status: bool)
      requires c.Idle() && x.param.unique
      modifies c
      ensures c.Idle() && c.server.store == PlaceAll(old(c.server.store), [x])
      ensures c.server == old(c.server).(store := c.server.store, scripts := c.server.scripts)
      ensures c.server.scripts >= old(c.server.scripts)
      ensures status == !Skips(old(c.server.store), x.param, x.job)
    {
      assert [x][..0] == [];
      c.Send(CommandFor(x));
      c.Flush();
      var r := c.Receive();
      if r.NoScript? {
        c.Send(EvalFor(x));
        c.Flush();
        r := c.Receive();
      }
      status := r.ok;
    }

    // ----- BulkEnqueue -----

    method SendAll(c: Connection, xs: seq<Item>)
      modifies c`outbox
      ensures c.outbox == old(c.outbox) + Commands(xs)
    {
      for i := 0 to |xs|
        invariant c.outbox == old(c.outbox) + Commands(xs[..i])
      {
        CommandsSnoc(xs, i);
        c.Send(CommandFor(xs[i]));
      }
      assert xs[..|xs|] == xs;
    }

    /** sendBulkKnownJobs. */
    method SendKnownJobs(c: Connection, xs: seq<Item>, clock: int) returns (pending: set<Name>)
      modifies c`outbox
      ensures pending == Pending(cache, xs, clock)
      ensures c.outbox == old(c.outbox) + Additions(pending)
    {
      pending := {};
      for i := 0 to |xs|
        invariant pending == Pending(cache, xs[..i], clock)
      {
        assert xs[..i + 1] == xs[..i] + [xs[i]];
        if NeedsBulkAdd(cache, xs[i].param.name, clock) {
          pending := pending + {xs[i].param.name};
        }
      }
      assert xs[..|xs|] == xs;
      if pending != {} {
        c.Send(SAdd(pending));
      }
    }

    /** The replies of the first round, one per item; the items to send again. */
    method ReceiveAll(c: Connection, xs: seq<Item>, blank: seq<BulkResult>, ghost scripts: set<Script>, ghost flags: seq<bool>)
      returns (results: seq<BulkResult>, failed: seq<nat>)
      requires IsBatch(xs) && Reported(scripts, xs, flags, blank, 0) && FirstInbox(scripts, xs, flags, c.inbox)
      modifies c`inbox
      ensures c.inbox == old(c.inbox)[|xs|..]
      ensures failed == LateIndices(scripts, xs) && Reported(scripts, xs, flags, results, |xs|)
    {
      results, failed := blank, [];
      for i := 0 to |xs|
        invariant c.inbox == old(c.inbox)[i..]
        invariant failed == LateIndices(scripts, xs[..i]) && Reported(scripts, xs, flags, results, i)
      {
        assert xs[..i + 1][..i] == xs[..i];
        var r := c.Receive();
        if xs[i].job.unique {
          if r.NoScript? {
            failed := failed + [i];
          } else {
            results := results[i := results[i].(skipped := !r.ok)];
          }
        }
      }
      assert xs[..|xs|] == xs;
    }

    /** All items, the known-jobs addition, the WAIT. */
    method SendFirst(c: Connection, xs: seq<Item>, clock: int) returns (pending: set<Name>)
      requires c.Idle()
      modifies c`outbox
      ensures pending == Pending(cache, xs, clock) && c.outbox == FirstCommands(xs, pending, minWait)
    {
      SendAll(c, xs);
      pending := SendKnownJobs(c, xs, clock);
      SendWait(c);
    }

    method ExchangeFirst(c: Connection, xs: seq<Item>, ghost pending: set<Name>)
      requires c.inbox == [] && c.outbox == FirstCommands(xs, pending, minWait)
      modifies c
      ensures c.outbox == [] && FirstPlaced(old(c.server), c.server, xs, pending, minWait)
      ensures FirstInbox(old(c.server.scripts), xs, Flags(old(c.server), xs, |xs|), c.inbox)
      ensures c.inbox[|xs|..] == Added(pending) + WaitReplies(minWait, c.acked, old(c.server.waits))
    {
      FirstAnswer(c.server, xs, pending, minWait, c.acked);
      c.Flush();
      assert c.inbox == RepliesTo(old(c.server), old(c.outbox), c.acked);
    }

    /** The first round, with its replies. */
    method FirstTry(c: Connection, xs: seq<Item>, blank: seq<BulkResult>, clock: int)
      returns (ok: bool, results: seq<BulkResult>, failed: seq<nat>)
      requires c.Idle() && IsBatch(xs) && |blank| == |xs| && forall i :: 0 <= i < |xs| ==> blank[i] == ResultOf(xs[i], false)
      modifies c, this`cache
      ensures c.Idle() && FirstPlaced(old(c.server), c.server, xs, Pending(old(cache), xs, clock), minWait)
      ensures cache == Remembered(old(cache), Pending(old(cache), xs, clock), clock)
      ensures ok == Acked(minWait, c.acked, old(c.server.waits))
      ensures failed == LateIndices(old(c.server.scripts), xs)
      ensures Reported(old(c.server.scripts), xs, Flags(old(c.server), xs, |xs|), results, |xs|)
    {
      ghost var s := c.server;
      var pending := SendFirst(c, xs, clock);
      ExchangeFirst(c, xs, pending);
      results, failed := ReceiveAll(c, xs, blank, s.scripts, Flags(s, xs, |xs|));
      ok := ReceiveRest(c, pending, clock, s.waits);
    }

    /** The reply to the known-jobs addition, if one was sent, and the reply to WAIT. */
    method ReceiveRest(c: Connection, pending: set<Name>, clock: int, ghost waits: nat) returns (ok: bool)
      requires c.inbox == Added(pending) + WaitReplies(minWait, c.acked, waits)
      modifies c`inbox, this`cache
      ensures c.inbox == [] && cache == Remembered(old(cache), pending, clock)
      ensures ok == Acked(minWait, c.acked, waits)
    {
      if pending != {} {
        var _ := c.Receive();
        cache := Remembered(cache, pending, clock);
      } else {
        assert Remembered(cache, pending, clock) == cache;
      }
      assert c.inbox == WaitReplies(minWait, c.acked, waits);
      ok := ReceiveWait(c);
    }

    method SendAgain(c: Connection, xs: seq<Item>, failed: seq<nat>, ghost scripts: set<Script>)
      requires c.outbox == [] && failed == LateIndices(scripts, xs)
      modifies c`outbox
      ensures c.outbox == Evals(Select(scripts, xs, true))
    {
      ghost var late := Select(scripts, xs, true);
      LateCount(scripts, xs);
      for k := 0 to |failed|
        invariant c.outbox == Evals(late[..k])
      {
        LateIndexAt(scripts, xs, k);
        EvalsSnoc(late, k);
        c.Send(EvalFor(xs[failed[k]]));
      }
      assert late[..|failed|] == late;
    }

    method ReceiveAgain(c: Connection, xs: seq<Item>, failed: seq<nat>, first: seq<BulkResult>,
                        ghost scripts: set<Script>, ghost flags: seq<bool>)
      returns (results: seq<BulkResult>)
      requires failed == LateIndices(scripts, xs) && Reported(scripts, xs, flags, first, |xs|)
      requires AgainInbox(flags, failed, c.inbox)
      modifies c`inbox
      ensures c.inbox == old(c.inbox)[|failed|..] && Complete(xs, flags, results)
    {
      results := first;
      for k := 0 to |failed|
        invariant c.inbox == old(c.inbox)[k..]
        invariant |results| == |xs| && forall i :: 0 <= i < |xs| ==>
          results[i] == ResultOf(xs[i], (!Late(scripts, xs[i]) || i in failed[..k]) && flags[i])
      {
        var r := c.Receive();
        assert r == Status(!flags[failed[k]]);
        results := results[failed[k] := results[failed[k]].(skipped := !r.ok)];
        assert failed[..k + 1] == failed[..k] + [failed[k]];
      }
      assert failed[..|failed|] == failed;
      forall i | 0 <= i < |xs| ensures results[i] == ResultOf(xs[i], flags[i]) {
        LateListed(scripts, xs, i);
      }
    }

    /** The second round trip: the late items and another WAIT. */
    method SecondTry(c: Connection, xs: seq<Item>, failed: seq<nat>, first: seq<BulkResult>, ghost s: Server)
      returns (ok: bool, results: seq<BulkResult>)
      requires c.Idle() && failed == LateIndices(s.scripts, xs)
      requires Reported(s.scripts, xs, Flags(s, xs, |xs|), first, |xs|)
      requires c.server.store == PlaceAll(s.store, Select(s.scripts, xs, false))
      modifies c
      ensures c.Idle() && c.server.store == PlaceAll(s.store, Applied(s.scripts, xs))
      ensures c.server.known == old(c.server.known)
      ensures ok == Acked(minWait, c.acked, old(c.server.waits)) && Complete(xs, Flags(s, xs, |xs|), results)
    {
      SendSecond(c, xs, failed, s);
      results := ReceiveAgain(c, xs, failed, first, s.scripts, Flags(s, xs, |xs|));
      ok := ReceiveWait(c);
    }

    method SendSecond(c: Connection, xs: seq<Item>, failed: seq<nat>, ghost s: Server)
      requires c.Idle() && failed == LateIndices(s.scripts, xs)
      requires c.server.store == PlaceAll(s.store, Select(s.scripts, xs, false))
      modifies c
      ensures c.outbox == [] && c.server.store == PlaceAll(s.store, Applied(s.scripts, xs))
      ensures c.server.known == old(c.server.known)
      ensures AgainInbox(Flags(s, xs, |xs|), failed, c.inbox)
      ensures c.inbox[|failed|..] == WaitReplies(minWait, c.acked, old(c.server.waits))
    {
      ghost var s1 := c.server;
      SendAgain(c, xs, failed, s.scripts);
      SendWait(c);
      AgainExecution(s, s1, xs, minWait, c.acked);
      AgainExchange(s, s1, xs, minWait, c.acked);
      c.Flush();
      assert c.inbox == RepliesTo(s1, AgainCommands(s.scripts, xs, minWait), c.acked);
    }

    /** BulkEnqueue. A parameter that cannot be encoded stops the call before anything is sent.
        Otherwise every item is applied exactly once, those with a loaded script first; result i
        tells whether item i was skipped at its turn; and every reply is read. Only a failed
        WAIT after the first round keeps the late items from being applied. */
    method BulkEnqueue(c: Connection, params: seq<BulkParam>, ids: seq<Id>, epoch: int, clock: int) returns (out: BulkOutcome)
      requires c.Idle() && |ids| == |params|
      modifies c, this`cache
      ensures c.Idle() && (old(Honest(c.server.known, cache)) ==> Honest(c.server.known, cache))
      ensures out.BulkNotEncoded? <==> exists i :: 0 <= i < |params| && !params[i].encodes
      ensures out.BulkNotEncoded? ==> c.server == old(c.server) && cache == old(cache)
      ensures !out.BulkNotEncoded? ==>
                && c.server.known == old(c.server.known) + Pending(old(cache), ItemsOf(params, ids, epoch), clock)
                && cache == Remembered(old(cache), Pending(old(cache), ItemsOf(params, ids, epoch), clock), clock)
                && Delivered(old(c.server), c.server.store, ItemsOf(params, ids, epoch), out, minWait, c.acked)
      ensures !out.BulkNotEncoded? ==> BulkAsked(old(c.server.store), c.server.store, params, ids, epoch, out)
      ensures !out.BulkNotEncoded? ==> Announced(old(c.server.known), c.server.known, old(cache), cache, params, clock)
    {
      var ok, xs, results := Build(params, ids, epoch);
      if !ok {
        return BulkNotEncoded;
      }
      if Honest(c.server.known, cache) {
        BulkHonest(c.server.known, cache, xs, clock);
      }
      ghost var s, before := c.server, cache;
      out := Deliver(c, xs, results, clock);
      DeliveredAsked(s, c.server.store, params, ids, epoch, out, minWait, c.acked);
      PendingAnnounced(s.known, before, params, ids, epoch, clock);
    }

    /** The round trips of BulkEnqueue. */
    method Deliver(c: Connection, xs: seq<Item>, blank: seq<BulkResult>, clock: int) returns (out: BulkOutcome)
      requires c.Idle() && IsBatch(xs) && |blank| == |xs| && forall i :: 0 <= i < |xs| ==> blank[i] == ResultOf(xs[i], false)
      modifies c, this`cache
      ensures c.Idle() && !out.BulkNotEncoded?
      ensures c.server.known == old(c.server.known) + Pending(old(cache), xs, clock)
      ensures cache == Remembered(old(cache), Pending(old(cache), xs, clock), clock)
      ensures Delivered(old(c.server), c.server.store, xs, out, minWait, c.acked)
    {
      ghost var s := c.server;
      var ok, results, failed := FirstTry(c, xs, blank, clock);
      if ok {
        SameWait(minWait, c.acked, c.server.waits, s.waits + 1);
        out := Finish(c, xs, failed, results, s);
      } else {
        out := BulkReplicationFailed;
      }
    }

    /** After a first round whose WAIT succeeded. */
    method Finish(c: Connection, xs: seq<Item>, failed: seq<nat>, first: seq<BulkResult>, ghost s: Server)
      returns (out: BulkOutcome)
      requires c.Idle() && failed == LateIndices(s.scripts, xs)
      requires Reported(s.scripts, xs, Flags(s, xs, |xs|), first, |xs|)
      requires c.server.store == PlaceAll(s.store, Select(s.scripts, xs, false))
      modifies c
      ensures c.Idle() && c.server.store == PlaceAll(s.store, Applied(s.scripts, xs))
      ensures c.server.known == old(c.server.known) && !out.BulkNotEncoded?
      ensures out.Results? <==> failed == [] || Acked(minWait, c.acked, old(c.server.waits))
      ensures out.Results? ==> Complete(xs, Flags(s, xs, |xs|), out.results)
    {
      if failed == [] {
        NoneLateApplied(s, xs);
        NotLateComplete(s.scripts, xs, Flags(s, xs, |xs|), first);
        return Results(first);
      }
      var ok, results := SecondTry(c, xs, failed, first, s);
      if !ok {
        return BulkReplicationFailed;
      }
      return Results(results);
    }

    method Build(params: seq<BulkParam>, ids: seq<Id>, epoch: int) returns (ok: bool, xs: seq<Item>, results: seq<BulkResult>)
      requires |ids| == |params|
      ensures ok <==> forall i :: 0 <= i < |params| ==> params[i].encodes
      ensures ok ==> xs == ItemsOf(params, ids, epoch) && IsBatch(xs) && |results| == |xs|
      ensures ok ==> forall i :: 0 <= i < |xs| ==> results[i] == ResultOf(xs[i], false)
    {
      xs, results := [], [];
      for i := 0 to |params|
        invariant forall k :: 0 <= k < i ==> params[k].encodes
        invariant |xs| == i && |results| == i
        invariant forall k :: 0 <= k < i ==> xs[k] == ItemsOf(params, ids, epoch)[k] && results[k] == ResultOf(xs[k], false)
      {
        if !params[i].encodes {
          return false, [], [];
        }
        xs := xs + [ItemOf(params[i].Asked(), ids[i], epoch)];
        results := results + [ResultOf(xs[i], false)];
      }
      ok := true;
    }
  }

  lemma SingleReplies(s: Server, cmd: Command, minWait: int, acked: Acks)
    ensures ExecuteAll(s, [cmd] + Waits(minWait)) == ExecuteAll(Execute(s, cmd), Waits(minWait))
    ensures RepliesTo(s, [cmd] + Waits(minWait), acked) == [ReplyTo(s, cmd, acked)] + RepliesTo(Execute(s, cmd), Waits(minWait), acked)
    ensures Execute(s, cmd).waits == s.waits || cmd.Wait?
  {
    ExecuteOne(s, cmd, acked);
    ExecuteConcat(s, [cmd], Waits(minWait), acked);
  }

  /** The server after the first round. */
  ghost predicate FirstPlaced(s: Server, s': Server, xs: seq<Item>, pending: set<Name>, minWait: int) {
    && s'.store == PlaceAll(s.store, Select(s.scripts, xs, false))
    && s'.known == s.known + pending
    && (minWait > 0 ==> s'.waits == s.waits + 1)
  }

  lemma FirstAnswer(s: Server, xs: seq<Item>, pending: set<Name>, minWait: int, acked: Acks)
    ensures FirstPlaced(s, ExecuteAll(s, FirstCommands(xs, pending, minWait)), xs, pending, minWait)
    ensures FirstInbox(s.scripts, xs, Flags(s, xs, |xs|), RepliesTo(s, FirstCommands(xs, pending, minWait), acked))
    ensures RepliesTo(s, FirstCommands(xs, pending, minWait), acked)[|xs|..]
            == Added(pending) + WaitReplies(minWait, acked, s.waits)
  {
    FirstExecution(s, xs, pending, minWait, acked);
    FirstExchange(s, xs, pending, minWait, acked);
  }

  function Added(pending: set<Name>): seq<Reply> {
    if pending == {} then [] else [Done]
  }

  function WaitReplies(minWait: int, acked: Acks, waits: nat): seq<Reply> {
    if minWait > 0 then [Replicas(acked(waits))] else []
  }

  function FirstCommands(xs: seq<Item>, pending: set<Name>, minWait: int): seq<Command> {
    Commands(xs) + Additions(pending) + Waits(minWait)
  }

  /** The replies of the first round start with one per item. */
  predicate FirstInbox(scripts: set<Script>, xs: seq<Item>, flags: seq<bool>, inbox: seq<Reply>) {
    && |inbox| >= |xs| == |flags|
    && forall i :: 0 <= i < |xs| ==>
         && (flags[i] ==> xs[i].param.unique)
         && inbox[i] == if Late(scripts, xs[i]) then NoScript else if xs[i].param.unique then Status(!flags[i]) else Done
  }

  lemma FirstExecution(s: Server, xs: seq<Item>, pending: set<Name>, minWait: int, acked: Acks)
    ensures ExecuteAll(s, FirstCommands(xs, pending, minWait)).store == PlaceAll(s.store, Select(s.scripts, xs, false))
    ensures ExecuteAll(s, FirstCommands(xs, pending, minWait)).known == s.known + pending
    ensures ExecuteAll(s, FirstCommands(xs, pending, minWait)).waits == s.waits + |Waits(minWait)|
    ensures RepliesTo(s, FirstCommands(xs, pending, minWait), acked)
            == RepliesTo(s, Commands(xs), acked) + (Added(pending) + WaitReplies(minWait, acked, s.waits))
  {
    var s1, tail := ExecuteAll(s, Commands(xs)), Additions(pending) + Waits(minWait);
    FirstRound(s, xs, acked);
    assert FirstCommands(xs, pending, minWait) == Commands(xs) + tail;
    ExecuteConcat(s, Commands(xs), tail, acked);
    TailExchange(s1, pending, minWait, acked);
  }

  lemma FirstExchange(s: Server, xs: seq<Item>, pending: set<Name>, minWait: int, acked: Acks)
    ensures FirstInbox(s.scripts, xs, Flags(s, xs, |xs|), RepliesTo(s, FirstCommands(xs, pending, minWait), acked))
    ensures RepliesTo(s, FirstCommands(xs, pending, minWait), acked)[|xs|..]
            == Added(pending) + WaitReplies(minWait, acked, s.waits)
  {
    FirstExecution(s, xs, pending, minWait, acked);
    FirstItems(s, xs, acked);
  }

  lemma FirstItems(s: Server, xs: seq<Item>, acked: Acks)
    ensures FirstInbox(s.scripts, xs, Flags(s, xs, |xs|), RepliesTo(s, Commands(xs), acked))
  {
    forall i | 0 <= i < |xs|
      ensures RepliesTo(s, Commands(xs), acked)[i] == FirstReply(s, xs, i) && Flags(s, xs, |xs|)[i] == SkipsIn(s, xs, i)
    {
      FirstReplies(s, xs, acked, i);
      FlagAt(s, xs, |xs|, i);
    }
  }

  lemma WaitExchange(s: Server, minWait: int, acked: Acks)
    ensures ExecuteAll(s, Waits(minWait)) == s.(waits := s.waits + |Waits(minWait)|)
    ensures RepliesTo(s, Waits(minWait), acked) == WaitReplies(minWait, acked, s.waits)
  {
    ExecuteOne(s, Wait, acked);
  }

  lemma AddExchange(s: Server, pending: set<Name>, acked: Acks)
    ensures ExecuteAll(s, Additions(pending)) == s.(known := s.known + pending)
    ensures RepliesTo(s, Additions(pending), acked) == Added(pending)
  {
    if pending == {} {
      assert s.known + pending == s.known;
    } else {
      ExecuteOne(s, SAdd(pending), acked);
    }
  }

  /** What follows the items in the first round. */
  lemma TailExchange(s: Server, pending: set<Name>, minWait: int, acked: Acks)
    ensures ExecuteAll(s, Additions(pending) + Waits(minWait))
            == s.(known := s.known + pending, waits := s.waits + |Waits(minWait)|)
    ensures RepliesTo(s, Additions(pending) + Waits(minWait), acked)
            == Added(pending) + WaitReplies(minWait, acked, s.waits)
  {
    ExecuteConcat(s, Additions(pending), Waits(minWait), acked);
    AddExchange(s, pending, acked);
    WaitExchange(s.(known := s.known + pending), minWait, acked);
  }

  function AgainCommands(scripts: set<Script>, xs: seq<Item>, minWait: int): seq<Command> {
    Evals(Select(scripts, xs, true)) + Waits(minWait)
  }

  /** The replies of the second round start with one per late item. */
  predicate AgainInbox(flags: seq<bool>, failed: seq<nat>, inbox: seq<Reply>) {
    |inbox| >= |failed| && forall k :: 0 <= k < |failed| ==> failed[k] < |flags| && inbox[k] == Status(!flags[failed[k]])
  }

  lemma AgainReplies(s: Server, s1: Server, xs: seq<Item>, acked: Acks, k: nat)
    requires s1.store == PlaceAll(s.store, Select(s.scripts, xs, false)) && k < |LateIndices(s.scripts, xs)|
    ensures |LateIndices(s.scripts, xs)| == |Select(s.scripts, xs, true)|
    ensures LateIndices(s.scripts, xs)[k] < |xs|
    ensures RepliesTo(s1, Evals(Select(s.scripts, xs, true)), acked)[k]
            == Status(!Flags(s, xs, |xs|)[LateIndices(s.scripts, xs)[k]])
  {
    var late := Select(s.scripts, xs, true);
    LateCount(s.scripts, xs);
    LateIndexAt(s.scripts, xs, k);
    SecondReplies(s1, late, acked, k);
    PlaceConcat(s.store, Select(s.scripts, xs, false), late[..k]);
    FlagAt(s, xs, |xs|, LateIndices(s.scripts, xs)[k]);
  }

  lemma AgainExecution(s: Server, s1: Server, xs: seq<Item>, minWait: int, acked: Acks)
    requires s1.store == PlaceAll(s.store, Select(s.scripts, xs, false))
    ensures ExecuteAll(s1, AgainCommands(s.scripts, xs, minWait)).store == PlaceAll(s.store, Applied(s.scripts, xs))
    ensures ExecuteAll(s1, AgainCommands(s.scripts, xs, minWait)).known == s1.known
    ensures RepliesTo(s1, AgainCommands(s.scripts, xs, minWait), acked)
            == RepliesTo(s1, Evals(Select(s.scripts, xs, true)), acked) + WaitReplies(minWait, acked, s1.waits)
  {
    var late := Select(s.scripts, xs, true);
    LateCount(s.scripts, xs);
    SecondRound(s1, late, acked);
    PlaceConcat(s.store, Select(s.scripts, xs, false), late);
    ExecuteConcat(s1, Evals(late), Waits(minWait), acked);
    WaitExchange(ExecuteAll(s1, Evals(late)), minWait, acked);
  }

  lemma AgainExchange(s: Server, s1: Server, xs: seq<Item>, minWait: int, acked: Acks)
    requires s1.store == PlaceAll(s.store, Select(s.scripts, xs, false))
    ensures AgainInbox(Flags(s, xs, |xs|), LateIndices(s.scripts, xs), RepliesTo(s1, AgainCommands(s.scripts, xs, minWait), acked))
    ensures RepliesTo(s1, AgainCommands(s.scripts, xs, minWait), acked)[|LateIndices(s.scripts, xs)|..]
            == WaitReplies(minWait, acked, s1.waits)
  {
    var late, failed := Select(s.scripts, xs, true), LateIndices(s.scripts, xs);
    LateCount(s.scripts, xs);
    AgainExecution(s, s1, xs, minWait, acked);
    forall k | 0 <= k < |failed|
      ensures failed[k] < |xs| && RepliesTo(s1, Evals(late), acked)[k] == Status(!Flags(s, xs, |xs|)[failed[k]])
    {
      AgainReplies(s, s1, xs, acked, k);
    }
  }

  /** Result i reports item i. */
  predicate Complete(xs: seq<Item>, flags: seq<bool>, results: seq<BulkResult>) {
    |results| == |xs| == |flags| && forall i :: 0 <= i < |xs| ==> results[i] == ResultOf(xs[i], flags[i])
  }

  lemma NoneLateApplied(s: Server, xs: seq<Item>)
    requires LateIndices(s.scripts, xs) == []
    ensures PlaceAll(s.store, Applied(s.scripts, xs)) == PlaceAll(s.store, Select(s.scripts, xs, false))
  {
    LateCount(s.scripts, xs);
    assert Applied(s.scripts, xs) == Select(s.scripts, xs, false);
  }

  lemma NotLateComplete(scripts: set<Script>, xs: seq<Item>, flags: seq<bool>, results: seq<BulkResult>)
    requires LateIndices(scripts, xs) == [] && Reported(scripts, xs, flags, results, |xs|)
    ensures Complete(xs, flags, results)
  {
    forall i | 0 <= i < |xs| ensures results[i] == ResultOf(xs[i], flags[i]) {
      LateListed(scripts, xs, i);
    }
  }

  // ----- What a bulk call leaves -----

  /** Another unique parameter has the key of parameter i. */
  predicate KeyShared(params: seq<BulkParam>, i: nat)
    requires i < |params|
  {
    exists h :: 0 <= h < |params| && h != i && params[h].unique && BulkKey(params[h]) == BulkKey(params[i])
  }

  /** Result i tells of parameter i. Unless it was skipped its record is in its queue or scheduled,
      and its key was free before the call. It is skipped only if its key was set before the
      call or by another parameter. */
  ghost predicate ResultAsked(r: Store, r': Store, params: seq<BulkParam>, ids: seq<Id>, epoch: int, res: BulkResult, i: nat)
    requires i < |params| == |ids|
  {
    var p, key := params[i], BulkKey(params[i]);
    && res.id == ids[i] && res.enqueuedAt == epoch && res.uniqueKey == (if p.unique then Some(key) else None)
    && (!res.skipped ==> OnRecord(r'.jobs, p, ids[i], epoch, AllDistinct(ids)) && (p.unique ==> key !in r.keys))
    && (res.skipped ==> p.unique && (key in r.keys || KeyShared(params, i)))
  }

  /** Plain parameters are on record even if replication failed; all others that were not skipped
      when the call succeeds. */
  ghost predicate BulkAsked(r: Store, r': Store, params: seq<BulkParam>, ids: seq<Id>, epoch: int, out: BulkOutcome)
    requires |params| == |ids|
  {
    && (forall i :: 0 <= i < |params| && !params[i].unique ==> OnRecord(r'.jobs, params[i], ids[i], epoch, AllDistinct(ids)))
    && (out.Results? ==> |out.results| == |params|
                         && forall i :: 0 <= i < |params| ==> ResultAsked(r, r', params, ids, epoch, out.results[i], i))
  }

  lemma ItemsApart(params: seq<BulkParam>, ids: seq<Id>, epoch: int)
    requires |ids| == |params|
    ensures AllDistinct(ids) ==> Apart(ItemsOf(params, ids, epoch))
  {
    var xs := ItemsOf(params, ids, epoch);
    forall i, j | 0 <= i < j < |xs| && AllDistinct(ids) ensures xs[i].job != xs[j].job {
      assert xs[i].job.id == ids[i] && xs[j].job.id == ids[j];
    }
  }

  lemma PlainOnRecord(s: Server, r': Store, params: seq<BulkParam>, ids: seq<Id>, epoch: int, out: BulkOutcome,
                      minWait: int, acked: Acks, i: nat)
    requires i < |params| == |ids| && Delivered(s, r', ItemsOf(params, ids, epoch), out, minWait, acked)
    requires !params[i].unique
    ensures OnRecord(r'.jobs, params[i], ids[i], epoch, AllDistinct(ids))
  {
    var xs := ItemsOf(params, ids, epoch);
    ItemsApart(params, ids, epoch);
    if Acked(minWait, acked, s.waits) {
      AllPut(s.store, s.scripts, xs, i);
    } else {
      FirstPut(s.store, s.scripts, xs, i);
    }
    ItemOnRecord(r'.jobs, params[i], ids[i], epoch, xs[i], AllDistinct(ids));
  }

  lemma SkippedAsked(s: Server, params: seq<BulkParam>, ids: seq<Id>, epoch: int, i: nat)
    requires i < |params| == |ids|
    ensures var skipped, key := SkipsIn(s, ItemsOf(params, ids, epoch), i), BulkKey(params[i]);
            && (!skipped && params[i].unique ==> key !in s.store.keys)
            && (skipped ==> params[i].unique && (key in s.store.keys || KeyShared(params, i)))
  {
    var xs, key := ItemsOf(params, ids, epoch), BulkKey(params[i]);
    assert params[i].unique ==> xs[i].job.Key() == key;
    if params[i].unique {
      BulkFlag(s, xs, i);
      forall n, late | 0 <= n <= |xs| && Claimed(s.scripts, xs, n, late, key) && (n <= i || late != Late(s.scripts, xs[i]))
        ensures KeyShared(params, i)
      {
        var h :| 0 <= h < n && Late(s.scripts, xs[h]) == late && Claims(xs[h], key);
        assert h != i && params[h].unique && BulkKey(params[h]) == key;
      }
    }
  }

  lemma ResultAskedAt(s: Server, r': Store, params: seq<BulkParam>, ids: seq<Id>, epoch: int, out: BulkOutcome,
                      minWait: int, acked: Acks, i: nat)
    requires i < |params| == |ids| && Delivered(s, r', ItemsOf(params, ids, epoch), out, minWait, acked)
    requires out.Results?
    ensures |out.results| == |params| && ResultAsked(s.store, r', params, ids, epoch, out.results[i], i)
  {
    var xs := ItemsOf(params, ids, epoch);
    ItemsApart(params, ids, epoch);
    FlagAt(s, xs, |xs|, i);
    SkippedAsked(s, params, ids, epoch, i);
    if !SkipsIn(s, xs, i) {
      AllPut(s.store, s.scripts, xs, i);
      ItemOnRecord(r'.jobs, params[i], ids[i], epoch, xs[i], AllDistinct(ids));
    }
  }

  lemma DeliveredAsked(s: Server, r': Store, params: seq<BulkParam>, ids: seq<Id>, epoch: int, out: BulkOutcome,
                       minWait: int, acked: Acks)
    requires |params| == |ids| && Delivered(s, r', ItemsOf(params, ids, epoch), out, minWait, acked)
    ensures BulkAsked(s.store, r', params, ids, epoch, out)
  {
    forall i | 0 <= i < |params| && !params[i].unique ensures OnRecord(r'.jobs, params[i], ids[i], epoch, AllDistinct(ids)) {
      PlainOnRecord(s, r', params, ids, epoch, out, minWait, acked, i);
    }
    if out.Results? {
      forall i | 0 <= i < |params|
        ensures |out.results| == |params| && ResultAsked(s.store, r', params, ids, epoch, out.results[i], i)
      {
        ResultAskedAt(s, r', params, ids, epoch, out, minWait, acked, i);
      }
    }
  }

  /** A name of the call that was not announced in the last five minutes. */
  predicate Unannounced(cache: map<Name, int>, params: seq<BulkParam>, clock: int, n: Name) {
    (exists i :: 0 <= i < |params| && params[i].name == n) && (n !in cache || cache[n] < clock)
  }

  /** Exactly those names are added to the known jobs, and remembered for five minutes. */
  ghost predicate Announced(known: set<Name>, known': set<Name>, cache: map<Name, int>, cache': map<Name, int>,
                            params: seq<BulkParam>, clock: int) {
    forall n ::
      && (n in known' <==> n in known || Unannounced(cache, params, clock, n))
      && (n in cache' <==> n in cache || Unannounced(cache, params, clock, n))
      && (n in cache' ==> cache'[n] == if Unannounced(cache, params, clock, n) then clock + 300 else cache[n])
  }

  lemma PendingAnnounced(known: set<Name>, cache: map<Name, int>, params: seq<BulkParam>, ids: seq<Id>, epoch: int, clock: int)
    requires |ids| == |params|
    ensures var pending := Pending(cache, ItemsOf(params, ids, epoch), clock);
            Announced(known, known + pending, cache, Remembered(cache, pending, clock), params, clock)
  {
    var xs := ItemsOf(params, ids, epoch);
    forall n ensures n in Pending(cache, xs, clock) <==> Unannounced(cache, params, clock, n) {
      PendingNames(cache, xs, clock, n);
      if Named(xs, n) {
        var i :| 0 <= i < |xs| && xs[i].param.name == n;
        assert params[i].name == n;
      }
      if i :| 0 <= i < |params| && params[i].name == n {
        assert xs[i].param.name == n;
      }
    }
  }

  // ----- Bulk against single -----

  /** With every script loaded, a bulk call leaves the same queues, sets and uniqueness keys and
      reports the same skipped flags as the single calls in order. */
  lemma BulkIsSingles(s: Server, xs: seq<Item>)
    requires forall x :: x in xs ==> !Late(s.scripts, x)
    ensures PlaceAll(s.store, Applied(s.scripts, xs)) == PlaceAll(s.store, xs)
    ensures forall i :: 0 <= i < |xs| ==>
              SkipsIn(s, xs, i) == Skips(PlaceAll(s.store, xs[..i]), xs[i].param, xs[i].job)
  {
    NoneLate(s.scripts, xs);
    assert Applied(s.scripts, xs) == xs;
    forall i | 0 <= i < |xs|
      ensures SkipsIn(s, xs, i) == Skips(PlaceAll(s.store, xs[..i]), xs[i].param, xs[i].job)
    {
      BeforeIsPrefix(s.scripts, xs, i);
    }
  }

  lemma BeforeIsPrefix(scripts: set<Script>, xs: seq<Item>, i: nat)
    requires i < |xs| && forall x :: x in xs ==> !Late(scripts, x)
    ensures Before(scripts, xs, i) == xs[..i]
  {
    forall x | x in xs[..i] ensures !Late(scripts, x) {
      assert x in xs;
    }
    NoneLate(scripts, xs[..i]);
  }

  // ----- With scripts missing -----

  /** The item is unique with this key. */
  predicate Claims(x: Item, k: UniqueKey) {
    x.param.unique && x.job.Key() == k
  }

  /** One of the first n items claims the key and is late, or is not. */
  predicate Claimed(scripts: set<Script>, xs: seq<Item>, n: nat, late: bool, k: UniqueKey)
    requires n <= |xs|
  {
    exists h :: 0 <= h < n && Late(scripts, xs[h]) == late && Claims(xs[h], k)
  }

  lemma ClaimedSnoc(scripts: set<Script>, xs: seq<Item>, n: nat, late: bool, k: UniqueKey)
    requires 0 < n <= |xs|
    ensures Claimed(scripts, xs, n, late, k)
            <==> Claimed(scripts, xs, n - 1, late, k) || (Late(scripts, xs[n - 1]) == late && Claims(xs[n - 1], k))
  {
  }

  lemma PlacedKeys(r: Store, x: Item, k: UniqueKey)
    ensures k in Placed(r, x.param, x.job).keys <==> k in r.keys || Claims(x, k)
  {
  }

  /** The keys set by the late items among the first n, or by the others. */
  lemma {:induction false} SelectedKeys(r: Store, scripts: set<Script>, xs: seq<Item>, n: nat, late: bool, k: UniqueKey)
    requires n <= |xs|
    ensures k in PlaceAll(r, Select(scripts, xs[..n], late)).keys <==> k in r.keys || Claimed(scripts, xs, n, late, k)
  {
    if n > 0 {
      var x, chosen := xs[n - 1], Select(scripts, xs[..n - 1], late);
      SelectedKeys(r, scripts, xs, n - 1, late, k);
      ClaimedSnoc(scripts, xs, n, late, k);
      assert xs[..n][..n - 1] == xs[..n - 1] && xs[..n][n - 1] == x;
      if Late(scripts, x) == late {
        PlaceSnoc(r, chosen, x);
        PlacedKeys(PlaceAll(r, chosen), x, k);
        assert Select(scripts, xs[..n], late) == chosen + [x];
      } else {
        assert Select(scripts, xs[..n], late) == chosen;
      }
    }
  }

  /** The keys set by single calls. */
  lemma {:induction false} SingleKeys(r: Store, scripts: set<Script>, xs: seq<Item>, n: nat, k: UniqueKey)
    requires n <= |xs|
    ensures k in PlaceAll(r, xs[..n]).keys
            <==> k in r.keys || Claimed(scripts, xs, n, true, k) || Claimed(scripts, xs, n, false, k)
  {
    if n > 0 {
      var x := xs[n - 1];
      SingleKeys(r, scripts, xs, n - 1, k);
      ClaimedSnoc(scripts, xs, n, true, k);
      ClaimedSnoc(scripts, xs, n, false, k);
      assert xs[..n] == xs[..n - 1] + [x];
      PlaceSnoc(r, xs[..n - 1], x);
      PlacedKeys(PlaceAll(r, xs[..n - 1]), x, k);
    }
  }

  /** Whether the single call for item i is skipped. */
  predicate SkipsAlone(s: Server, xs: seq<Item>, i: nat)
    requires i < |xs|
  {
    Skips(PlaceAll(s.store, xs[..i]), xs[i].param, xs[i].job)
  }

  /** A late item meets the key of every item on time and of the late ones before it; an item on
      time only that of the ones on time before it. */
  lemma BulkFlag(s: Server, xs: seq<Item>, i: nat)
    requires i < |xs| && xs[i].param.unique
    ensures SkipsIn(s, xs, i) <==>
              var k, late := xs[i].job.Key(), Late(s.scripts, xs[i]);
              || k in s.store.keys
              || Claimed(s.scripts, xs, if late then |xs| else i, false, k)
              || (late && Claimed(s.scripts, xs, i, true, k))
  {
    var k := xs[i].job.Key();
    if Late(s.scripts, xs[i]) {
      assert xs[..|xs|] == xs;
      var r := PlaceAll(s.store, Select(s.scripts, xs, false));
      SelectedKeys(s.store, s.scripts, xs, |xs|, false, k);
      SelectedKeys(r, s.scripts, xs, i, true, k);
      PlaceConcat(s.store, Select(s.scripts, xs, false), Select(s.scripts, xs[..i], true));
    } else {
      SelectedKeys(s.store, s.scripts, xs, i, false, k);
    }
  }

  /** An item on time has the key of an earlier late one, which was free before the call. */
  predicate Overtakes(s: Server, xs: seq<Item>, i: nat, j: nat)
    requires i < j < |xs|
  {
    && Late(s.scripts, xs[i]) && !Late(s.scripts, xs[j]) && Claims(xs[j], xs[i].job.Key())
    && xs[i].job.Key() !in s.store.keys
  }

  /** Whatever is overtaken had lost its key to an item on time before it anyway. */
  ghost predicate NoTurnLost(s: Server, xs: seq<Item>) {
    forall i: nat, j: nat :: i < j < |xs| && Overtakes(s, xs, i, j) ==> Claimed(s.scripts, xs, i, false, xs[i].job.Key())
  }

  ghost predicate FlagsAgree(s: Server, xs: seq<Item>) {
    forall i: nat :: i < |xs| ==> SkipsIn(s, xs, i) == SkipsAlone(s, xs, i)
  }

  lemma FlagAgrees(s: Server, xs: seq<Item>, i: nat)
    requires i < |xs| && NoTurnLost(s, xs)
    ensures SkipsIn(s, xs, i) == SkipsAlone(s, xs, i)
  {
    var k := xs[i].job.Key();
    if xs[i].param.unique && k !in s.store.keys {
      BulkFlag(s, xs, i);
      SingleKeys(s.store, s.scripts, xs, i, k);
      if Late(s.scripts, xs[i]) {
        if Claimed(s.scripts, xs, |xs|, false, k) {
          var h :| 0 <= h < |xs| && !Late(s.scripts, xs[h]) && Claims(xs[h], k);
          assert h > i ==> Overtakes(s, xs, i, h);
        }
      } else if Claimed(s.scripts, xs, i, true, k) {
        var h :| 0 <= h < i && Late(s.scripts, xs[h]) && Claims(xs[h], k);
        assert Overtakes(s, xs, h, i);
      }
    } else if xs[i].param.unique {
      BulkFlag(s, xs, i);
      SingleKeys(s.store, s.scripts, xs, i, k);
    }
  }

  /** The first claim on an overtaken key is late only if the flags disagree. */
  lemma FirstClaim(s: Server, xs: seq<Item>, i: nat, j: nat, n: nat)
    requires FlagsAgree(s, xs) && i < j < |xs| && Overtakes(s, xs, i, j) && n <= i
    requires !Claimed(s.scripts, xs, i, false, xs[i].job.Key())
    ensures !Claimed(s.scripts, xs, n, true, xs[i].job.Key())
  {
    var k := xs[i].job.Key();
    if n > 0 {
      FirstClaim(s, xs, i, j, n - 1);
      ClaimedSnoc(s.scripts, xs, n, true, k);
      if Late(s.scripts, xs[n - 1]) && Claims(xs[n - 1], k) {
        Overtaken(s, xs, n - 1, j);
        assert false;
      }
    }
  }

  /** An overtaken item that is the first to claim its key is skipped in bulk and not alone. */
  lemma Overtaken(s: Server, xs: seq<Item>, i: nat, j: nat)
    requires i < j < |xs| && Overtakes(s, xs, i, j)
    requires !Claimed(s.scripts, xs, i, false, xs[i].job.Key()) && !Claimed(s.scripts, xs, i, true, xs[i].job.Key())
    ensures SkipsIn(s, xs, i) && !SkipsAlone(s, xs, i)
  {
    var k := xs[i].job.Key();
    BulkFlag(s, xs, i);
    SingleKeys(s.store, s.scripts, xs, i, k);
    assert Claimed(s.scripts, xs, |xs|, false, k);
  }

  /** With scripts missing, bulk and single calls report the same skipped flags exactly when no
      item loses its turn: each late item overtaken by one on time with its free key already
      stood behind another on time. */
  lemma SameFlags(s: Server, xs: seq<Item>)
    ensures FlagsAgree(s, xs) <==> NoTurnLost(s, xs)
  {
    if NoTurnLost(s, xs) {
      forall i: nat | i < |xs| ensures SkipsIn(s, xs, i) == SkipsAlone(s, xs, i) {
        FlagAgrees(s, xs, i);
      }
    }
    if FlagsAgree(s, xs) {
      forall i: nat, j: nat | i < j < |xs| && Overtakes(s, xs, i, j)
        ensures Claimed(s.scripts, xs, i, false, xs[i].job.Key())
      {
        if !Claimed(s.scripts, xs, i, false, xs[i].job.Key()) {
          FirstClaim(s, xs, i, j, i);
          Overtaken(s, xs, i, j);
          assert false;
        }
      }
    }
  }

  /** A missing script can change which of two jobs with one key is skipped: the late one. */
  lemma LateLosesTurn(x: Item, y: Item)
    requires x.param.unique && y.param.unique && x.job.Key() == y.job.Key() && x.param.at.Some? && y.param.at.None?
    ensures var s := Server(EMPTY_STORE, {}, {UniqueScript}, 0);
            SkipsIn(s, [x, y], 0) && !SkipsIn(s, [x, y], 1)
  {
    var s, xs := Server(EMPTY_STORE, {}, {UniqueScript}, 0), [x, y];
    assert xs[..1] == [x] && xs[..0] == [] && [x][..0] == [];
    assert Late(s.scripts, x) && !Late(s.scripts, y);
    assert Select(s.scripts, [x], false) == [];
    assert xs[..|xs| - 1] == [x] && xs[|xs| - 1] == y;
    assert Select(s.scripts, xs, false) == [] + [y];
    assert Before(s.scripts, xs, 0) == [y] && [y][..0] == [];
    assert Before(s.scripts, xs, 1) == [];
  }
}
