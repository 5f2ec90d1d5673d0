/** BulkEnqueue against the single calls: one pipelined round trip, and a second one for the
    jobs whose script Redis had forgotten. */
module Bulk {
  import opened JobStore
  import opened Pipeline

  /** A parameter with the job built from it. */
  datatype Item = Item(param: Param, job: Job)

  function CommandFor(x: Item): Command {
    var p, j := x.param, x.job;
    if p.unique then EvalSha(j, p.at, PayloadOf(p, j))
    else if p.at.Some? then ZAdd(j, p.at.value)
    else LPush(p.name, j)
  }

  function Commands(xs: seq<Item>): (cs: seq<Command>)
    ensures |cs| == |xs|
  {
    if xs == [] then [] else Commands(xs[..|xs| - 1]) + [CommandFor(xs[|xs| - 1])]
  }

  /** The command that carries the script text along. */
  function EvalFor(x: Item): Command {
    Eval(x.job, x.param.at, PayloadOf(x.param, x.job))
  }

  function Evals(xs: seq<Item>): (cs: seq<Command>)
    ensures |cs| == |xs|
  {
    if xs == [] then [] else Evals(xs[..|xs| - 1]) + [EvalFor(xs[|xs| - 1])]
  }

  /** Enqueueing one after the other. */
  function PlaceAll(r: Store, xs: seq<Item>): Store {
    if xs == [] then r else Placed(PlaceAll(r, xs[..|xs| - 1]), xs[|xs| - 1].param, xs[|xs| - 1].job)
  }

  /** Redis does not have the item's script. */
  predicate Late(scripts: set<Script>, x: Item) {
    x.param.unique && ScriptFor(x.param.at) !in scripts
  }

  /** The items that are late, or those that are not, in order. */
  function Select(scripts: set<Script>, xs: seq<Item>, late: bool): seq<Item> {
    if xs == [] then [] else
      Select(scripts, xs[..|xs| - 1], late) + if Late(scripts, xs[|xs| - 1]) == late then [xs[|xs| - 1]] else []
  }

  /** The order in which a bulk call applies its items. */
  function Applied(scripts: set<Script>, xs: seq<Item>): seq<Item> {
    Select(scripts, xs, false) + Select(scripts, xs, true)
  }

  /** What a bulk call has applied when it comes to item i. */
  function Before(scripts: set<Script>, xs: seq<Item>, i: nat): seq<Item>
    requires i < |xs|
  {
    if Late(scripts, xs[i]) then Select(scripts, xs, false) + Select(scripts, xs[..i], true)
    else Select(scripts, xs[..i], false)
  }

  /** Every item is applied exactly once. */
  lemma {:induction false} AppliedOnce(scripts: set<Script>, xs: seq<Item>)
    ensures multiset(Applied(scripts, xs)) == multiset(xs)
  {
    if xs != [] {
      AppliedOnce(scripts, xs[..|xs| - 1]);
      assert xs == xs[..|xs| - 1] + [xs[|xs| - 1]];
    }
  }

  lemma {:induction false} SelectPrefix(scripts: set<Script>, xs: seq<Item>, i: nat, late: bool)
    requires i < |xs| && Late(scripts, xs[i]) == late
    ensures Select(scripts, xs[..i], late) + [xs[i]] <= Select(scripts, xs, late)
  {
    var last := |xs| - 1;
    if i < last {
      SelectPrefix(scripts, xs[..last], i, late);
      assert xs[..last][..i] == xs[..i];
    }
  }

  /** Item i is the one applied right after what Before says. */
  lemma BeforeApplied(scripts: set<Script>, xs: seq<Item>, i: nat)
    requires i < |xs|
    ensures Before(scripts, xs, i) + [xs[i]] <= Applied(scripts, xs)
  {
    SelectPrefix(scripts, xs, i, Late(scripts, xs[i]));
  }

  lemma {:induction false} NoneLate(scripts: set<Script>, xs: seq<Item>)
    requires forall x :: x in xs ==> !Late(scripts, x)
    ensures Select(scripts, xs, false) == xs && Select(scripts, xs, true) == []
  {
    if xs != [] {
      NoneLate(scripts, xs[..|xs| - 1]);
    }
  }

  lemma {:induction false} PlaceConcat(r: Store, a: seq<Item>, b: seq<Item>)
    ensures PlaceAll(r, a + b) == PlaceAll(PlaceAll(r, a), b)
  {
    if b == [] {
      assert a + b == a;
    } else {
      assert (a + b)[..|a + b| - 1] == a + b[..|b| - 1];
      PlaceConcat(r, a, b[..|b| - 1]);
    }
  }

  // ----- The two rounds -----

  /** The reply to item i in the first round. */
  function FirstReply(s: Server, xs: seq<Item>, i: nat): Reply
    requires i < |xs|
  {
    if Late(s.scripts, xs[i]) then NoScript
    else if !xs[i].param.unique then Done
    else Status(!Skips(PlaceAll(s.store, Before(s.scripts, xs, i)), xs[i].param, xs[i].job))
  }

  lemma ExecuteItem(s: Server, x: Item, acked: Acks)
    ensures Late(s.scripts, x) ==> Execute(s, CommandFor(x)) == s && ReplyTo(s, CommandFor(x), acked) == NoScript
    ensures !Late(s.scripts, x) ==> Execute(s, CommandFor(x)) == s.(store := Placed(s.store, x.param, x.job))
    ensures !Late(s.scripts, x) ==> ReplyTo(s, CommandFor(x), acked)
                                    == if x.param.unique then Status(!Skips(s.store, x.param, x.job)) else Done
  {
  }

  lemma {:induction false} CommandsAt(xs: seq<Item>, i: nat)
    requires i < |xs|
    ensures Commands(xs)[i] == CommandFor(xs[i]) && Commands(xs)[..i] == Commands(xs[..i])
  {
    var last := |xs| - 1;
    if i < last {
      CommandsAt(xs[..last], i);
      assert xs[..last][..i] == xs[..i];
      assert Commands(xs)[..i] == Commands(xs[..last])[..i];
    } else {
      assert Commands(xs)[..i] == Commands(xs[..last]);
    }
  }

  lemma PlaceSnoc(r: Store, xs: seq<Item>, x: Item)
    ensures PlaceAll(r, xs + [x]) == Placed(PlaceAll(r, xs), x.param, x.job)
  {
    assert (xs + [x])[..|xs + [x]| - 1] == xs;
  }

  /** The first round applies the items that are not late, and touches nothing else. */
  lemma {:induction false} FirstRound(s: Server, xs: seq<Item>, acked: Acks)
    ensures ExecuteAll(s, Commands(xs)) == s.(store := PlaceAll(s.store, Select(s.scripts, xs, false)))
  {
    if xs != [] {
      var init, x := xs[..|xs| - 1], xs[|xs| - 1];
      var s', chosen := ExecuteAll(s, Commands(init)), Select(s.scripts, init, false);
      FirstRound(s, init, acked);
      ExecuteSnoc(s, Commands(init), CommandFor(x), acked);
      ExecuteItem(s', x, acked);
      if Late(s.scripts, x) {
        assert Select(s.scripts, xs, false) == chosen;
      } else {
        PlaceSnoc(s.store, chosen, x);
        assert Select(s.scripts, xs, false) == chosen + [x];
      }
    }
  }

  lemma FirstReplies(s: Server, xs: seq<Item>, acked: Acks, i: nat)
    requires i < |xs|
    ensures RepliesTo(s, Commands(xs), acked)[i] == FirstReply(s, xs, i)
  {
    ReplyAt(s, Commands(xs), acked, i);
    CommandsAt(xs, i);
    FirstRound(s, xs[..i], acked);
    ExecuteItem(ExecuteAll(s, Commands(xs[..i])), xs[i], acked);
  }

  /** The second round applies the late items, whatever scripts Redis has. */
  lemma {:induction false} SecondRound(s: Server, xs: seq<Item>, acked: Acks)
    requires forall x :: x in xs ==> x.param.unique
    ensures var s' := ExecuteAll(s, Evals(xs));
            s'.store == PlaceAll(s.store, xs) && s'.known == s.known && s'.waits == s.waits
  {
    if xs != [] {
      SecondRound(s, xs[..|xs| - 1], acked);
      ExecuteSnoc(s, Evals(xs[..|xs| - 1]), EvalFor(xs[|xs| - 1]), acked);
    }
  }

  lemma {:induction false} EvalsAt(xs: seq<Item>, i: nat)
    requires i < |xs|
    ensures Evals(xs)[i] == EvalFor(xs[i]) && Evals(xs)[..i] == Evals(xs[..i])
  {
    var last := |xs| - 1;
    if i < last {
      EvalsAt(xs[..last], i);
      assert xs[..last][..i] == xs[..i];
      assert Evals(xs)[..i] == Evals(xs[..last])[..i];
    } else {
      assert Evals(xs)[..i] == Evals(xs[..last]);
    }
  }

  lemma CommandsSnoc(xs: seq<Item>, k: nat)
    requires k < |xs|
    ensures Commands(xs[..k + 1]) == Commands(xs[..k]) + [CommandFor(xs[k])]
  {
    assert xs[..k + 1][..k] == xs[..k];
  }

  lemma EvalsSnoc(xs: seq<Item>, k: nat)
    requires k < |xs|
    ensures Evals(xs[..k + 1]) == Evals(xs[..k]) + [EvalFor(xs[k])]
  {
    assert xs[..k + 1][..k] == xs[..k];
  }

  lemma ExecuteEval(s: Server, x: Item, acked: Acks)
    requires x.param.unique
    ensures ReplyTo(s, EvalFor(x), acked) == Status(!Skips(s.store, x.param, x.job))
  {
  }

  lemma SecondReplies(s: Server, xs: seq<Item>, acked: Acks, i: nat)
    requires i < |xs| && forall x :: x in xs ==> x.param.unique
    ensures RepliesTo(s, Evals(xs), acked)[i] == Status(!Skips(PlaceAll(s.store, xs[..i]), xs[i].param, xs[i].job))
  {
    assert forall x :: x in xs[..i] ==> x in xs;
    SecondRound(s, xs[..i], acked);
    EvalsAt(xs, i);
    ExecuteEval(ExecuteAll(s, Evals(xs[..i])), xs[i], acked);
    ReplyAt(s, Evals(xs), acked, i);
  }

  // ----- Known jobs -----

  /** addToKnownJobs: SADD unless this enqueuer did so recently. */
  predicate NeedsAdd(cache: map<Name, int>, n: Name, clock: int) {
    !(n in cache && clock < cache[n])
  }

  /** sendBulkKnownJobs has the other strictness: a name whose time is exactly now is not sent. */
  predicate NeedsBulkAdd(cache: map<Name, int>, n: Name, clock: int) {
    n !in cache || cache[n] < clock
  }

  const REMEMBER := 300

  /** The known set and the enqueuer's memory of it after single calls for these items. */
  function KnownAfter(known: set<Name>, cache: map<Name, int>, xs: seq<Item>, clock: int): (set<Name>, map<Name, int>) {
    if xs == [] then (known, cache) else
      var (k, c) := KnownAfter(known, cache, xs[..|xs| - 1], clock);
      var n := xs[|xs| - 1].param.name;
      if NeedsAdd(c, n, clock) then (k + {n}, c[n := clock + REMEMBER]) else (k, c)
  }

  lemma KnownAfterOne(known: set<Name>, cache: map<Name, int>, x: Item, clock: int)
    ensures var n := x.param.name;
            KnownAfter(known, cache, [x], clock)
            == if NeedsAdd(cache, n, clock) then (known + {n}, cache[n := clock + REMEMBER]) else (known, cache)
  {
    assert [x][..0] == [];
  }

  function Pending(cache: map<Name, int>, xs: seq<Item>, clock: int): set<Name> {
    set x | x in xs && NeedsBulkAdd(cache, x.param.name, clock) :: x.param.name
  }

  predicate Named(xs: seq<Item>, n: Name) {
    exists i :: 0 <= i < |xs| && xs[i].param.name == n
  }

  lemma NamedSnoc(xs: seq<Item>, n: Name)
    requires xs != []
    ensures Named(xs, n) <==> Named(xs[..|xs| - 1], n) || xs[|xs| - 1].param.name == n
  {
    var init := xs[..|xs| - 1];
    if Named(init, n) {
      var i :| 0 <= i < |init| && init[i].param.name == n;
      assert xs[i].param.name == n;
    }
    if Named(xs, n) {
      var i :| 0 <= i < |xs| && xs[i].param.name == n;
      assert i < |init| ==> init[i].param.name == n;
    }
  }

  /** Single calls add exactly the names that were not announced recently. */
  lemma {:induction false} SinglesKnown(known: set<Name>, cache: map<Name, int>, xs: seq<Item>, clock: int, n: Name)
    ensures n in KnownAfter(known, cache, xs, clock).0 <==> n in known || (Named(xs, n) && NeedsAdd(cache, n, clock))
    ensures NeedsAdd(KnownAfter(known, cache, xs, clock).1, n, clock) <==> NeedsAdd(cache, n, clock) && !Named(xs, n)
  {
    if xs == [] {
      assert !Named(xs, n);
    } else {
      SinglesKnown(known, cache, xs[..|xs| - 1], clock, n);
      NamedSnoc(xs, n);
    }
  }

  lemma PendingNames(cache: map<Name, int>, xs: seq<Item>, clock: int, n: Name)
    ensures n in Pending(cache, xs, clock) <==> Named(xs, n) && NeedsBulkAdd(cache, n, clock)
  {
    if Named(xs, n) {
      var i :| 0 <= i < |xs| && xs[i].param.name == n;
      assert xs[i] in xs;
    }
  }

  /** The bulk call leaves the same known set as the single calls exactly when every name whose
      remembered time is this very second is in the set already. */
  lemma SameKnown(known: set<Name>, cache: map<Name, int>, xs: seq<Item>, clock: int)
    ensures known + Pending(cache, xs, clock) == KnownAfter(known, cache, xs, clock).0
            <==> forall n :: Named(xs, n) && n in cache && cache[n] == clock ==> n in known
  {
    forall n
      ensures n in known + Pending(cache, xs, clock) <==> n in known || (Named(xs, n) && NeedsBulkAdd(cache, n, clock))
      ensures n in KnownAfter(known, cache, xs, clock).0 <==> n in known || (Named(xs, n) && NeedsAdd(cache, n, clock))
    {
      PendingNames(cache, xs, clock, n);
      SinglesKnown(known, cache, xs, clock, n);
    }
  }

  /** An enqueuer announces a name before it remembers it, so unless names were lost from Redis
      otherwise, whatever it remembers is known. Single and bulk calls keep this. */
  predicate Honest(known: set<Name>, cache: map<Name, int>) {
    cache.Keys <= known
  }

  lemma {:induction false} SinglesHonest(known: set<Name>, cache: map<Name, int>, xs: seq<Item>, clock: int)
    requires Honest(known, cache)
    ensures Honest(KnownAfter(known, cache, xs, clock).0, KnownAfter(known, cache, xs, clock).1)
  {
    if xs != [] {
      SinglesHonest(known, cache, xs[..|xs| - 1], clock);
    }
  }

  function Remembered(cache: map<Name, int>, pending: set<Name>, clock: int): map<Name, int> {
    cache + map n | n in pending :: clock + REMEMBER
  }

  lemma BulkHonest(known: set<Name>, cache: map<Name, int>, xs: seq<Item>, clock: int)
    requires Honest(known, cache)
    ensures Honest(known + Pending(cache, xs, clock), Remembered(cache, Pending(cache, xs, clock), clock))
  {
  }

  /** So the two kinds of call always leave the same known set. */
  lemma HonestKnown(known: set<Name>, cache: map<Name, int>, xs: seq<Item>, clock: int)
    requires Honest(known, cache)
    ensures known + Pending(cache, xs, clock) == KnownAfter(known, cache, xs, clock).0
  {
    SameKnown(known, cache, xs, clock);
  }

  /** A name lost from Redis is announced again by a single call in the second its memory
      expires, and not by a bulk call. */
  lemma LostName(x: Item, clock: int)
    ensures var cache := map[x.param.name := clock];
            KnownAfter({}, cache, [x], clock).0 == {x.param.name} && Pending(cache, [x], clock) == {}
  {
    assert [x][..0] == [];
  }
}
