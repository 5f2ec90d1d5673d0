/** The weighted sampler that decides in which order a worker tries the queues. The in-place
    algorithm refines successive weighted sampling without replacement: in every round an item
    owns exactly as many of the possible draws as its priority. */
module Sampler {
  import opened Tally
  import opened JobStore

  /** An item: its priority, and the job type whose Redis keys it carries. */
  datatype Item = Item(priority: nat, name: Name)

  const PRIORITY: Item -> nat := (x: Item) => x.priority
  const IS_ZERO: Item -> nat := (x: Item) => if x.priority == 0 then 1 else 0

  function Total(s: seq<Item>): nat {
    Weigh(s, PRIORITY)
  }

  /** Items of priority zero. The pool's options rule them out; the sampler itself does not. */
  function Zeros(s: seq<Item>): nat {
    Weigh(s, IS_ZERO)
  }

  lemma TotalHead(s: seq<Item>, i: nat)
    requires i < |s|
    ensures Total(s[i..]) == s[i].priority + Total(s[i + 1..])
  {
    assert s[i..] == [s[i]] + s[i + 1..];
    WeighPrepend(s[i], s[i + 1..], PRIORITY);
  }

  // ----- The reference: successive weighted sampling -----

  /** The item owning a draw: the one whose interval of suffix sums contains it. */
  function Owner(s: seq<Item>, draw: nat): (i: nat)
    requires draw < Total(s)
    ensures i < |s| && Total(s[i + 1..]) <= draw < Total(s[i..])
  {
    if draw < Total(s[1..]) then
      var i := Owner(s[1..], draw);
      assert s[1..][i..] == s[i + 1..] && s[1..][i + 1..] == s[i + 2..];
      i + 1
    else
      assert s[0..] == s;
      0
  }

  lemma SuffixShrinks(s: seq<Item>, i: nat, k: nat)
    requires i <= k <= |s|
    ensures Total(s[k..]) <= Total(s[i..])
  {
    assert s[i..] == s[i..k] + s[k..];
    WeighConcat(s[i..k], s[k..], PRIORITY);
  }

  /** The intervals do not overlap, so the owner is determined by its interval. */
  lemma OwnerUnique(s: seq<Item>, draw: nat, i: nat)
    requires draw < Total(s) && i < |s| && Total(s[i + 1..]) <= draw < Total(s[i..])
    ensures Owner(s, draw) == i
  {
    var k := Owner(s, draw);
    if k < i {
      SuffixShrinks(s, k + 1, i);
    } else if i < k {
      SuffixShrinks(s, i + 1, k);
    }
  }

  function Interval(lo: nat, hi: nat): (r: set<nat>)
    requires lo <= hi
    ensures forall d :: d in r <==> lo <= d < hi
    ensures |r| == hi - lo
  {
    if lo == hi then {} else Interval(lo, hi - 1) + {hi - 1}
  }

  /** The draws that choose item i. */
  function Draws(s: seq<Item>, i: nat): set<nat> {
    set d | d in Interval(0, Total(s)) && Owner(s, d) == i
  }

  /** Of the Total(s) equally likely draws, item i owns exactly priority many. */
  lemma OwnsItsPriority(s: seq<Item>, i: nat)
    requires i < |s|
    ensures |Draws(s, i)| == s[i].priority
  {
    var lo, hi := Total(s[i + 1..]), Total(s[i..]);
    TotalHead(s, i);
    SuffixShrinks(s, 0, i);
    assert s[0..] == s;
    forall d | lo <= d < hi ensures Owner(s, d) == i {
      OwnerUnique(s, d, i);
    }
    assert Draws(s, i) == Interval(lo, hi);
  }

  /** Items already placed, in order, and those still to place. */
  datatype Round = Round(placed: seq<Item>, rest: seq<Item>)

  /** Place item i next; the first of the rest takes its slot. */
  function PlaceNext(r: Round, i: nat): Round
    requires i < |r.rest|
  {
    Round(r.placed + [r.rest[i]], r.rest[i := r.rest[0]][1..])
  }

  /** Sampling by a sequence of draws, each below the sum of what is left when it is made. */
  ghost predicate ValidDraws(s: seq<Item>, draws: seq<nat>)
    decreases |draws|, 0
  {
    draws == [] ||
    (ValidDraws(s, draws[..|draws| - 1])
     && draws[|draws| - 1] < Total(Sampled(s, draws[..|draws| - 1]).rest))
  }

  ghost function Sampled(s: seq<Item>, draws: seq<nat>): (r: Round)
    requires ValidDraws(s, draws)
    decreases |draws|, 1
  {
    if draws == [] then Round([], s) else
      var r := Sampled(s, draws[..|draws| - 1]);
      PlaceNext(r, Owner(r.rest, draws[|draws| - 1]))
  }

  lemma PlaceWeighs(r: Round, i: nat, f: Item -> nat)
    requires i < |r.rest|
    ensures Weigh(PlaceNext(r, i).rest, f) == Weigh(r.rest, f) - f(r.rest[i])
  {
    var s := r.rest;
    var t := s[i := s[0]];
    WeighUpdate(s, i, s[0], f);
    assert t == [s[0]] + t[1..];
    WeighPrepend(s[0], t[1..], f);
  }

  lemma SliceShape(s: seq<Item>, i: nat)
    requires 0 < i < |s|
    ensures s == [s[0]] + (s[1..i] + ([s[i]] + s[i + 1..]))
    ensures s[i := s[0]][1..] == s[1..i] + ([s[0]] + s[i + 1..])
  {
    var t := s[i := s[0]];
    assert t[1..i] == s[1..i] && t[i + 1..] == s[i + 1..];
    assert t[1..] == t[1..i] + t[i..] && t[i..] == [t[i]] + t[i + 1..];
    assert s == s[..i] + s[i..] && s[..i] == [s[0]] + s[1..i] && s[i..] == [s[i]] + s[i + 1..];
  }

  lemma RestPermutes(s: seq<Item>, i: nat)
    requires i < |s|
    ensures multiset(s) == multiset(s[i := s[0]][1..]) + multiset{s[i]}
  {
    if i == 0 {
      assert s == [s[0]] + s[1..] && s[i := s[0]] == s;
    } else {
      var mid, tail := s[1..i], s[i + 1..];
      SliceShape(s, i);
      SwapPermutes(s[0], mid, s[i], tail);
    }
  }

  lemma PlacePermutes(r: Round, i: nat)
    requires i < |r.rest|
    ensures multiset(PlaceNext(r, i).placed + PlaceNext(r, i).rest) == multiset(r.placed + r.rest)
  {
    RestPermutes(r.rest, i);
    JoinPermutes(r.placed, r.rest[i], PlaceNext(r, i).rest, r.rest);
  }

  lemma SwapPermutes(h: Item, mid: seq<Item>, x: Item, tail: seq<Item>)
    ensures multiset([h] + (mid + ([x] + tail))) == multiset(mid + ([h] + tail)) + multiset{x}
  {
  }

  lemma JoinPermutes(placed: seq<Item>, x: Item, rest: seq<Item>, s: seq<Item>)
    requires multiset(s) == multiset(rest) + multiset{x}
    ensures multiset(placed + [x] + rest) == multiset(placed + s)
  {
  }

  /** What every round keeps: the items as a whole, their sum, and the zeros still to place. */
  ghost predicate Consistent(s: seq<Item>, draws: seq<nat>, r: Round) {
    && ValidDraws(s, draws) && r == Sampled(s, draws)
    && Zeros(r.rest) == Zeros(s)
    && Total(r.placed + r.rest) == Total(s)
    && multiset(r.placed + r.rest) == multiset(s)
  }

  lemma RoundStep(s: seq<Item>, draws: seq<nat>, r: Round, draw: nat)
    requires Consistent(s, draws, r) && draw < Total(r.rest)
    ensures var i := Owner(r.rest, draw);
            && Consistent(s, draws + [draw], PlaceNext(r, i))
            && Total(PlaceNext(r, i).rest) == Total(r.rest) - r.rest[i].priority
  {
    var i := Owner(r.rest, draw);
    var r' := PlaceNext(r, i);
    TotalHead(r.rest, i);
    PlaceWeighs(r, i, PRIORITY);
    PlaceWeighs(r, i, IS_ZERO);
    PlacePermutes(r, i);
    WeighConcat(r.placed, r.rest, PRIORITY);
    WeighConcat(r'.placed, r'.rest, PRIORITY);
    WeighAppend(r.placed, r.rest[i], PRIORITY);
    assert (draws + [draw])[..|draws|] == draws;
  }

  /** Zero sum means nothing but zeros. */
  lemma {:induction false} ZerosBound(s: seq<Item>)
    ensures Zeros(s) <= |s|
    ensures Total(s) == 0 <==> Zeros(s) == |s|
  {
    if s != [] {
      ZerosBound(s[..|s| - 1]);
    }
  }

  /** The result of sampling: a permutation, the one the reference gives for the draws, with at
      most one item left unchosen; or a panic, exactly when two items have priority zero. */
  ghost predicate Outcome(s: seq<Item>, draws: seq<nat>, t: seq<Item>, ok: bool) {
    && multiset(t) == multiset(s)
    && ValidDraws(s, draws) && t == Sampled(s, draws).placed + Sampled(s, draws).rest
    && (ok ==> |Sampled(s, draws).rest| <= 1)
    && (ok <==> Zeros(s) < 2)
  }

  lemma InitiallyConsistent(s: seq<Item>)
    ensures Consistent(s, [], Round([], s))
  {
    assert [] + s == s;
  }

  lemma Conclude(s: seq<Item>, draws: seq<nat>, r: Round)
    requires Consistent(s, draws, r) && (|r.rest| <= 1 || Total(r.rest) == 0)
    ensures Outcome(s, draws, r.placed + r.rest, |r.rest| <= 1) && Total(r.placed + r.rest) == Total(s)
  {
    ZerosBound(r.rest);
  }

  // ----- The algorithm -----

  class PrioritySampler {
    var sum: nat
    var samples: array<Item>

    predicate Valid()
      reads this, samples
    {
      sum == Total(samples[..])
    }

    constructor ()
      ensures Valid() && samples[..] == [] && fresh(samples)
    {
      sum := 0;
      samples := new Item[0];
    }

    method Add(priority: nat, name: Name)
      requires Valid()
      modifies this
      ensures Valid() && fresh(samples)
      ensures samples[..] == old(samples[..]) + [Item(priority, name)]
    {
      var item := Item(priority, name);
      ghost var s := samples[..];
      WeighAppend(s, item, PRIORITY);
      var more := new Item[samples.Length + 1](_ => item);
      forall i | 0 <= i < samples.Length {
        more[i] := samples[i];
      }
      assert more[..] == s + [item];
      samples, sum := more, sum + priority;
    }

    /** The inner loop: walk back from the end to the item that owns the draw. */
    method FindOwner(first: nat, draw: nat) returns (k: nat)
      requires first < samples.Length && draw < Total(samples[first..])
      ensures first <= k < samples.Length && k == first + Owner(samples[first..], draw)
    {
      var i, prevSum := samples.Length - 1, 0;
      assert samples[samples.Length..] == [];
      while i >= first
        invariant first - 1 <= i < samples.Length
        invariant prevSum == Total(samples[i + 1..]) && prevSum <= draw
        decreases i
      {
        TotalHead(samples[..], i);
        assert samples[..][i..] == samples[i..] && samples[..][i + 1..] == samples[i + 1..];
        if draw < samples[i].priority + prevSum {
          var s := samples[first..];
          assert s[i - first..] == samples[i..] && s[i - first + 1..] == samples[i + 1..];
          OwnerUnique(s, draw, i - first);
          return i;
        }
        prevSum := prevSum + samples[i].priority;
        i := i - 1;
      }
      assert false;
    }

    /** sample. ok is false where the random call is given zero and panics; that happens exactly
        when two or more items have priority zero, whatever is drawn. Otherwise the items end
        up as the reference places them, in as many draws as there are choices to make. */
    method Resample() returns (ok: bool, ghost draws: seq<nat>)
      requires Valid()
      modifies samples
      ensures Valid() && Outcome(old(samples[..]), draws, samples[..], ok)
    {
      ghost var s := samples[..];
      InitiallyConsistent(s);
      ViewJoins(0);
      var placed;
      placed, draws := PlaceItems(s);
      ok := samples.Length - placed <= 1;
      ViewJoins(placed);
      Conclude(s, draws, View(placed));
    }

    /** The outer loop; it stops early where the random call would be given zero. */
    method PlaceItems(ghost s: seq<Item>) returns (lastValid: nat, ghost draws: seq<nat>)
      requires sum == Total(View(0).rest) && Consistent(s, [], View(0))
      modifies samples
      ensures lastValid <= samples.Length && Consistent(s, draws, View(lastValid))
      ensures samples.Length - lastValid <= 1 || Total(View(lastValid).rest) == 0
    {
      var remaining, sumRemaining := samples.Length, sum;
      lastValid, draws := 0, [];
      while remaining > 1 && sumRemaining > 0
        invariant remaining == samples.Length - lastValid && lastValid <= samples.Length
        invariant Consistent(s, draws, View(lastValid))
        invariant sumRemaining == Total(View(lastValid).rest)
        decreases remaining
      {
        var priority; ghost var draw;
        ghost var r := View(lastValid);
        priority, draw := ChooseNext(lastValid, sumRemaining);
        RoundStep(s, draws, r, draw);
        draws := draws + [draw];
        sumRemaining := sumRemaining - priority;
        lastValid, remaining := lastValid + 1, remaining - 1;
      }
    }

    /** The array as placed items and the rest. */
    ghost function View(first: nat): Round
      requires first <= samples.Length
      reads this, samples
    {
      Round(samples[..first], samples[first..])
    }

    lemma ViewJoins(first: nat)
      requires first <= samples.Length
      ensures View(first).placed + View(first).rest == samples[..]
      ensures first == 0 ==> View(first) == Round([], samples[..])
    {
    }

    /** One round: draw, find the owner, swap it to the front of what is left. */
    method ChooseNext(first: nat, sumRemaining: nat) returns (priority: nat, ghost draw: nat)
      requires first < samples.Length && sumRemaining == Total(View(first).rest) > 0
      modifies samples
      ensures draw < sumRemaining
      ensures View(first + 1) == PlaceNext(old(View(first)), Owner(old(View(first)).rest, draw))
      ensures priority == old(View(first)).rest[Owner(old(View(first)).rest, draw)].priority
    {
      var rn: nat :| rn < sumRemaining;
      draw := rn;
      var i := FindOwner(first, rn);
      priority := samples[i].priority;
      Swap(first, i);
    }

    method Swap(first: nat, i: nat)
      requires first <= i < samples.Length
      modifies samples
      ensures View(first + 1) == PlaceNext(old(View(first)), i - first)
    {
      ghost var s := samples[..];
      samples[i], samples[first] := samples[first], samples[i];
      assert samples[..] == s[i := s[first]][first := s[i]];
      assert View(first + 1).placed == s[..first] + [s[i]];
      assert View(first + 1).rest == s[first..][i - first := s[first]][1..];
    }
  }
}
