/** Counting over sequences and maps: the arithmetic under the lock, capacity and
    uniqueness arguments. */
module Tally {

  /** Total weight of a sequence under a weight function. */
  function Weigh<T>(s: seq<T>, f: T -> nat): nat
  {
    if s == [] then 0 else Weigh(s[..|s| - 1], f) + f(s[|s| - 1])
  }

  lemma {:induction false} WeighConcat<T>(a: seq<T>, b: seq<T>, f: T -> nat)
    ensures Weigh(a + b, f) == Weigh(a, f) + Weigh(b, f)
  {
    if b == [] {
      assert a + b == a;
    } else {
      var b' := b[..|b| - 1];
      assert (a + b)[..|a + b| - 1] == a + b';
      WeighConcat(a, b', f);
    }
  }

  lemma WeighOne<T>(x: T, f: T -> nat)
    ensures Weigh([x], f) == f(x)
  {
    assert [x][..0] == [];
  }

  lemma WeighSplit<T>(s: seq<T>, i: nat, f: T -> nat)
    requires i < |s|
    ensures Weigh(s, f) == Weigh(s[..i], f) + f(s[i]) + Weigh(s[i + 1..], f)
  {
    assert s == s[..i] + ([s[i]] + s[i + 1..]);
    WeighConcat(s[..i], [s[i]] + s[i + 1..], f);
    WeighConcat([s[i]], s[i + 1..], f);
    WeighOne(s[i], f);
  }

  function Without<T>(s: seq<T>, i: nat): (r: seq<T>)
    requires i < |s|
  {
    s[..i] + s[i + 1..]
  }

  lemma WeighWithout<T>(s: seq<T>, i: nat, f: T -> nat)
    requires i < |s|
    ensures Weigh(Without(s, i), f) == Weigh(s, f) - f(s[i])
  {
    WeighSplit(s, i, f);
    WeighConcat(s[..i], s[i + 1..], f);
  }

  lemma WeighUpdate<T>(s: seq<T>, i: nat, x: T, f: T -> nat)
    requires i < |s|
    ensures Weigh(s[i := x], f) == Weigh(s, f) - f(s[i]) + f(x)
  {
    var t := s[i := x];
    WeighSplit(s, i, f);
    WeighSplit(t, i, f);
    assert t[..i] == s[..i] && t[i + 1..] == s[i + 1..];
  }

  lemma WeighAppend<T>(s: seq<T>, x: T, f: T -> nat)
    ensures Weigh(s + [x], f) == Weigh(s, f) + f(x)
  {
    WeighConcat(s, [x], f);
    WeighOne(x, f);
  }

  lemma WeighPrepend<T>(x: T, s: seq<T>, f: T -> nat)
    ensures Weigh([x] + s, f) == Weigh(s, f) + f(x)
  {
    WeighConcat([x], s, f);
    WeighOne(x, f);
  }

  lemma WeighMember<T>(s: seq<T>, i: nat, f: T -> nat)
    requires i < |s|
    ensures f(s[i]) <= Weigh(s, f)
  {
    WeighSplit(s, i, f);
  }

  /** Value stored under a key, zero when the key is absent. */
  function Get0<K>(m: map<K, int>, k: K): int
  {
    if k in m then m[k] else 0
  }

  /** Sum of all values of a map. */
  ghost function Sum<K>(m: map<K, int>): int
  {
    if m == map[] then 0 else
      var k :| k in m;
      m[k] + Sum(m - {k})
  }

  lemma {:induction false} SumRemove<K>(m: map<K, int>, k: K)
    requires k in m
    ensures Sum(m) == m[k] + Sum(m - {k})
    decreases |m|
  {
    var c :| c in m && Sum(m) == m[c] + Sum(m - {c});
    if c != k {
      SumRemove(m - {c}, k);
      SumRemove(m - {k}, c);
      assert (m - {c}) - {k} == (m - {k}) - {c};
    }
  }

  lemma SumUpdate<K>(m: map<K, int>, k: K, v: int)
    ensures Sum(m[k := v]) == Sum(m) - Get0(m, k) + v
  {
    var m' := m[k := v];
    SumRemove(m', k);
    if k in m {
      SumRemove(m, k);
      assert m' - {k} == m - {k};
    } else {
      assert m' - {k} == m;
    }
  }

  lemma {:induction false} SumNonNegative<K>(m: map<K, int>)
    requires forall k :: k in m ==> m[k] >= 0
    ensures Sum(m) >= 0
    decreases |m|
  {
    if m != map[] {
      var k :| k in m;
      SumRemove(m, k);
      SumNonNegative(m - {k});
    }
  }
}
