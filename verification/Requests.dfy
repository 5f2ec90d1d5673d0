/** What a caller of the enqueuer asked for, stated on the parameters alone: the record that must
    exist, where it must be, and the uniqueness key it must hold. */
module Requests {
  import opened JobStore
  import opened Pipeline
  import opened Bulk

  /** The uniqueness key a caller asks for: the name with the key map, else the arguments. */
  function AskedKey(name: Name, args: Text, keyMap: Option<Text>): UniqueKey {
    UniqueKey(name, if keyMap.Some? then keyMap.value else args)
  }

  /** The job record for what the caller asked. */
  predicate IsRecord(j: Job, name: Name, args: Text, unique: bool, keyMap: Option<Text>, id: Id, epoch: int) {
    && j.name == name && j.args == args && j.id == id && j.enqueuedAt == epoch
    && j.unique == unique && j.uniqueKey == (if unique then Some(AskedKey(name, args, keyMap)) else None)
    && j.fails == 0 && j.lastErr == NoError && j.failedAt == 0
  }

  /** The record joined its queue at the back, or the scheduled set at its epoch, and nothing else
      moved. */
  ghost predicate Joins(r: Jobs, r': Jobs, j: Job, at: Option<int>) {
    match at
    case None =>
      && r'.List(Queue(j.name)) == [j] + r.List(Queue(j.name)) && r'.zsets == r.zsets
      && forall k :: k != Queue(j.name) ==> r'.List(k) == r.List(k)
    case Some(t) =>
      && r'.lists == r.lists && r'.Zset(Scheduled) == r.Zset(Scheduled)[j := t]
      && forall w :: w != Scheduled ==> r'.Zset(w) == r.Zset(w)
  }

  /** A plain call leaves the record of what was asked. */
  ghost predicate PlainAsked(r: Store, r': Store, p: Param, id: Id, epoch: int) {
    && r'.keys == r.keys
    && exists j :: IsRecord(j, p.name, p.args, false, None, id, epoch) && Joins(r.jobs, r'.jobs, j, p.at)
  }

  /** A unique call sets the key asked for, to the record itself when there is a key map, and
      leaves the record of what was asked if the key was not set. */
  ghost predicate UniqueAsked(r: Store, r': Store, p: Param, id: Id, epoch: int) {
    var key := AskedKey(p.name, p.args, p.keyMap);
    exists j :: && IsRecord(j, p.name, p.args, true, p.keyMap, id, epoch)
                && (if key in r.keys then r'.jobs == r.jobs else Joins(r.jobs, r'.jobs, j, p.at))
                && r'.keys == r.keys[key := if p.keyMap.Some? then Updated(j) else One]
  }

  lemma PushJoins(r: Jobs, j: Job)
    ensures Joins(r, r.Push(Queue(j.name), j), j, None)
  {
  }

  lemma ZaddJoins(r: Jobs, j: Job, t: int)
    ensures Joins(r, r.Zadd(Scheduled, j, t), j, Some(t))
  {
  }

  lemma PlacedAsked(r: Store, p: Param, id: Id, epoch: int)
    ensures var r' := Placed(r, p, JobOf(p, id, epoch));
            if p.unique then UniqueAsked(r, r', p, id, epoch) else PlainAsked(r, r', p, id, epoch)
    ensures p.unique ==> (Skips(r, p, JobOf(p, id, epoch)) <==> AskedKey(p.name, p.args, p.keyMap) in r.keys)
  {
    var j := JobOf(p, id, epoch);
    assert IsRecord(j, p.name, p.args, p.unique, if p.unique then p.keyMap else None, id, epoch);
    match p.at
    case None => PushJoins(r.jobs, j);
    case Some(t) => ZaddJoins(r.jobs, j, t);
  }

  // ----- Items in place -----

  /** The item's record is where it was asked to be. */
  predicate InPlace(jobs: Jobs, x: Item) {
    if x.param.at.None? then x.job in jobs.List(Queue(x.param.name)) else x.job in jobs.Zset(Scheduled)
  }

  /** Its score, if it was scheduled, is the one asked for. */
  predicate Scored(jobs: Jobs, x: Item) {
    x.param.at.Some? ==> x.job in jobs.Zset(Scheduled) && jobs.Zset(Scheduled)[x.job] == x.param.at.value
  }

  /** The record carries the parameter's name. */
  predicate NamedAlike(x: Item) {
    x.job.name == x.param.name
  }

  lemma PlacedPuts(r: Store, x: Item)
    requires NamedAlike(x) && !Skips(r, x.param, x.job)
    ensures InPlace(Placed(r, x.param, x.job).jobs, x) && Scored(Placed(r, x.param, x.job).jobs, x)
  {
  }

  lemma PlacedKeeps(r: Store, y: Item, x: Item)
    requires InPlace(r.jobs, x)
    ensures InPlace(Placed(r, y.param, y.job).jobs, x)
    ensures y.job != x.job && Scored(r.jobs, x) ==> Scored(Placed(r, y.param, y.job).jobs, x)
  {
  }

  predicate Absent(x: Item, ys: seq<Item>) {
    forall k :: 0 <= k < |ys| ==> ys[k].job != x.job
  }

  lemma {:induction false} PlaceAllKeeps(r: Store, ys: seq<Item>, x: Item)
    requires InPlace(r.jobs, x)
    ensures InPlace(PlaceAll(r, ys).jobs, x)
    ensures Absent(x, ys) && Scored(r.jobs, x) ==> Scored(PlaceAll(r, ys).jobs, x)
  {
    if ys != [] {
      var prefix, y := ys[..|ys| - 1], ys[|ys| - 1];
      PlaceAllKeeps(r, prefix, x);
      PlacedKeeps(PlaceAll(r, prefix), y, x);
    }
  }

  /** An item that is not skipped at its turn is in place when all are done. */
  lemma {:induction false} PutInTurn(r: Store, ys: seq<Item>, k: nat)
    requires k < |ys| && NamedAlike(ys[k]) && !Skips(PlaceAll(r, ys[..k]), ys[k].param, ys[k].job)
    ensures InPlace(PlaceAll(r, ys).jobs, ys[k])
    ensures Absent(ys[k], ys[k + 1..]) ==> Scored(PlaceAll(r, ys).jobs, ys[k])
  {
    var x := ys[k];
    var r1 := PlaceAll(r, ys[..k]);
    PlacedPuts(r1, x);
    PlaceSnoc(r, ys[..k], x);
    PlaceConcat(r, ys[..k] + [x], ys[k + 1..]);
    assert ys == ys[..k] + [x] + ys[k + 1..];
    PlaceAllKeeps(Placed(r1, x.param, x.job), ys[k + 1..], x);
  }

  // ----- The items of a bulk call -----

  predicate Apart(xs: seq<Item>) {
    forall i, j :: 0 <= i < j < |xs| ==> xs[i].job != xs[j].job
  }

  lemma {:induction false} SelectFrom(scripts: set<Script>, xs: seq<Item>, late: bool)
    ensures forall y :: y in Select(scripts, xs, late) ==> y in xs && Late(scripts, y) == late
  {
    if xs != [] {
      SelectFrom(scripts, xs[..|xs| - 1], late);
    }
  }

  lemma {:induction false} SelectApart(scripts: set<Script>, xs: seq<Item>, late: bool)
    requires Apart(xs)
    ensures Apart(Select(scripts, xs, late))
  {
    if xs != [] {
      var init := xs[..|xs| - 1];
      SelectApart(scripts, init, late);
      SelectFrom(scripts, init, late);
      forall k | 0 <= k < |Select(scripts, init, late)| ensures Select(scripts, init, late)[k].job != xs[|xs| - 1].job {
        assert Select(scripts, init, late)[k] in init;
      }
    }
  }

  lemma SameItem(xs: seq<Item>, y: Item, z: Item)
    requires Apart(xs) && y in xs && z in xs && y.job == z.job
    ensures y == z
  {
    var i :| 0 <= i < |xs| && xs[i] == y;
    var j :| 0 <= j < |xs| && xs[j] == z;
    assert i == j;
  }

  lemma AppliedApart(scripts: set<Script>, xs: seq<Item>)
    requires Apart(xs)
    ensures Apart(Applied(scripts, xs))
  {
    var first, second := Select(scripts, xs, false), Select(scripts, xs, true);
    SelectApart(scripts, xs, false);
    SelectApart(scripts, xs, true);
    SelectFrom(scripts, xs, false);
    SelectFrom(scripts, xs, true);
    forall i, j | 0 <= i < |first| && 0 <= j < |second| ensures first[i].job != second[j].job {
      assert first[i] in first && second[j] in second;
      if first[i].job == second[j].job {
        SameItem(xs, first[i], second[j]);
      }
    }
  }

  lemma TurnOf(ys: seq<Item>, before: seq<Item>, x: Item)
    requires before + [x] <= ys
    ensures |before| < |ys| && ys[..|before|] == before && ys[|before|] == x
    ensures Apart(ys) ==> Absent(x, ys[|before| + 1..])
  {
  }

  /** After both rounds, what was not skipped at its turn is in place. */
  lemma AllPut(r: Store, scripts: set<Script>, xs: seq<Item>, i: nat)
    requires i < |xs| && NamedAlike(xs[i]) && !Skips(PlaceAll(r, Before(scripts, xs, i)), xs[i].param, xs[i].job)
    ensures InPlace(PlaceAll(r, Applied(scripts, xs)).jobs, xs[i])
    ensures Apart(xs) ==> Scored(PlaceAll(r, Applied(scripts, xs)).jobs, xs[i])
  {
    var ys, before := Applied(scripts, xs), Before(scripts, xs, i);
    BeforeApplied(scripts, xs, i);
    if Apart(xs) {
      AppliedApart(scripts, xs);
    }
    TurnOf(ys, before, xs[i]);
    PutInTurn(r, ys, |before|);
  }

  /** After the first round, so is what was not late. */
  lemma FirstPut(r: Store, scripts: set<Script>, xs: seq<Item>, i: nat)
    requires i < |xs| && NamedAlike(xs[i]) && !Late(scripts, xs[i])
    requires !Skips(PlaceAll(r, Before(scripts, xs, i)), xs[i].param, xs[i].job)
    ensures InPlace(PlaceAll(r, Select(scripts, xs, false)).jobs, xs[i])
    ensures Apart(xs) ==> Scored(PlaceAll(r, Select(scripts, xs, false)).jobs, xs[i])
  {
    var ys, before := Select(scripts, xs, false), Before(scripts, xs, i);
    SelectPrefix(scripts, xs, i, false);
    if Apart(xs) {
      SelectApart(scripts, xs, false);
    }
    TurnOf(ys, before, xs[i]);
    PutInTurn(r, ys, |before|);
  }

  // ----- The parameters of a bulk call -----

  /** The record of a bulk parameter is in its queue, or scheduled: at the epoch asked for, if no
      other record of the call can be the same. */
  ghost predicate OnRecord(jobs: Jobs, p: BulkParam, id: Id, epoch: int, apart: bool) {
    exists j :: && IsRecord(j, p.name, p.args, p.unique, p.keyMap, id, epoch)
                && if p.runAtEpoch == 0 then j in jobs.List(Queue(p.name))
                   else j in jobs.Zset(Scheduled) && (apart ==> jobs.Zset(Scheduled)[j] == p.runAtEpoch)
  }

  predicate AllDistinct(ids: seq<Id>) {
    forall i, j :: 0 <= i < j < |ids| ==> ids[i] != ids[j]
  }

  function BulkKey(p: BulkParam): UniqueKey {
    AskedKey(p.name, p.args, p.keyMap)
  }

  lemma ItemOnRecord(jobs: Jobs, p: BulkParam, id: Id, epoch: int, x: Item, apart: bool)
    requires x == Item(p.Asked(), JobOf(p.Asked(), id, epoch)) && InPlace(jobs, x) && (apart ==> Scored(jobs, x))
    ensures OnRecord(jobs, p, id, epoch, apart)
  {
    assert IsRecord(x.job, p.name, p.args, p.unique, p.keyMap, id, epoch);
  }
}
