/** Running one job through its middleware: the re-entrant next closure over a shared counter. */
module Middleware {
  import opened JobStore

  /** How a call ends: with an error or none, or by a panic. */
  datatype Reply = Returned(err: ErrText) | Panicked(text: Text)

  /** A middleware body, as a function of the replies its calls of next gave so far: whether it
      calls next again, and how it ends when it does not. A body may call next while a panic
      unwinds it, and may turn a panic into a return. */
  datatype Body = Body(calls: seq<Reply> -> bool, result: seq<Reply> -> Reply)

  /** A rank for the progress of middleware i after given replies. */
  type Rank = (nat, seq<Reply>) -> ORDINAL

  /** Every body makes finitely many calls of next: each call lowers its rank. */
  ghost predicate Finite(mws: seq<Body>, rank: Rank) {
    forall i: nat, seen: seq<Reply>, r: Reply ::
      i < |mws| && mws[i].calls(seen) ==> rank(i, seen + [r]) < rank(i, seen)
  }

  /** What was started, in order. */
  datatype Event = Started(index: nat) | Handled

  /** The shared counter, the runs of the handler so far, and the events. */
  datatype State = State(current: nat, runs: nat, log: seq<Event>)

  const FRESH := State(0, 0, [])

  function Starts(n: nat): (s: seq<Event>)
    ensures |s| == n
  {
    seq(n, i requires 0 <= i < n => Started(i))
  }

  function Handles(n: nat): (s: seq<Event>)
    ensures |s| == n
  {
    seq(n, _ => Handled)
  }

  /** Each middleware at most once, in registration order; the handler only after all of them. */
  predicate Ordered(n: nat, st: State) {
    && st.current <= n
    && (st.runs > 0 ==> st.current == n)
    && st.log == Starts(st.current) + Handles(st.runs)
  }

  function Enter(st: State): State {
    State(st.current + 1, st.runs, st.log + [Started(st.current)])
  }

  function Handle(st: State): State {
    State(st.current, st.runs + 1, st.log + [Handled])
  }

  lemma EnterOrdered(n: nat, st: State)
    requires Ordered(n, st) && st.current < n
    ensures Ordered(n, Enter(st))
  {
    assert Starts(st.current) + [Started(st.current)] == Starts(st.current + 1);
    assert Handles(st.runs) == [] && Starts(st.current) + [] == Starts(st.current);
  }

  lemma HandleOrdered(n: nat, st: State)
    requires Ordered(n, st) && st.current == n
    ensures Ordered(n, Handle(st))
  {
    assert Handles(st.runs) + [Handled] == Handles(st.runs + 1);
    assert Starts(st.current) + Handles(st.runs) + [Handled] == Starts(st.current) + (Handles(st.runs) + [Handled]);
  }

  /** One call of next. handler gives the outcome of each successive run of the handler. */
  function Next(mws: seq<Body>, handler: nat -> Reply, st: State, ghost rank: Rank): (out: (Reply, State))
    requires Ordered(|mws|, st) && Finite(mws, rank)
    ensures Ordered(|mws|, out.1) && st.current <= out.1.current && st.log < out.1.log
    decreases |mws| - st.current, 0
  {
    if st.current < |mws| then
      EnterOrdered(|mws|, st);
      Resume(mws, handler, st.current, [], Enter(st), rank)
    else
      HandleOrdered(|mws|, st);
      (handler(st.runs), Handle(st))
  }

  /** The rest of a body, after the replies it has seen. */
  function Resume(mws: seq<Body>, handler: nat -> Reply, i: nat, seen: seq<Reply>, st: State, ghost rank: Rank)
    : (out: (Reply, State))
    requires i < |mws| && Ordered(|mws|, st) && Finite(mws, rank)
    ensures Ordered(|mws|, out.1) && st.current <= out.1.current && st.log <= out.1.log
    decreases |mws| - st.current, 1, rank(i, seen)
  {
    if mws[i].calls(seen) then
      var (reply, st') := Next(mws, handler, st, rank);
      Resume(mws, handler, i, seen + [reply], st', rank)
    else
      (mws[i].result(seen), st)
  }

  /** runJob's variables, changed by next as it goes. */
  class Runner {
    const middleware: seq<Body>
    const handler: nat -> Reply
    var state: State

    constructor (mws: seq<Body>, h: nat -> Reply)
      ensures middleware == mws && handler == h && state == FRESH
    {
      middleware, handler, state := mws, h, FRESH;
    }

    /** The next closure. */
    method CallNext(ghost rank: Rank) returns (r: Reply)
      requires Ordered(|middleware|, state) && Finite(middleware, rank)
      modifies this
      ensures (r, state) == Next(middleware, handler, old(state), rank)
      decreases |middleware| - state.current, 0
    {
      if state.current < |middleware| {
        EnterOrdered(|middleware|, state);
        var i := state.current;
        state := Enter(state);
        r := RunBody(i, [], rank);
      } else {
        r := handler(state.runs);
        state := Handle(state);
      }
    }

    /** A middleware running, with next at its disposal. */
    method RunBody(i: nat, seen: seq<Reply>, ghost rank: Rank) returns (r: Reply)
      requires i < |middleware| && Ordered(|middleware|, state) && Finite(middleware, rank)
      modifies this
      ensures (r, state) == Resume(middleware, handler, i, seen, old(state), rank)
      decreases |middleware| - state.current, 1, rank(i, seen)
    {
      if middleware[i].calls(seen) {
        var reply := CallNext(rank);
        r := RunBody(i, seen + [reply], rank);
      } else {
        r := middleware[i].result(seen);
      }
    }

    /** runJob: a panic that reaches it becomes the error it returns. */
    method RunJob(ghost rank: Rank) returns (err: ErrText)
      requires state == FRESH && Finite(middleware, rank)
      modifies this
      ensures Ordered(|middleware|, state) && state.log != []
      ensures match Next(middleware, handler, FRESH, rank).0
              case Returned(e) => err == e
              case Panicked(text) => err == Message(text)
    {
      assert Starts(0) + Handles(0) == [];
      var r := CallNext(rank);
      match r
      case Returned(e) => err := e;
      case Panicked(text) => err := Message(text);
    }
  }

  /** The k-th call of next starts the k-th middleware, and the handler once they are used up. */
  lemma CallStarts(mws: seq<Body>, handler: nat -> Reply, rank: Rank, k: nat)
    requires Finite(mws, rank)
    ensures Ordered(|mws|, FRESH)
    ensures k < |Next(mws, handler, FRESH, rank).1.log| ==>
              Next(mws, handler, FRESH, rank).1.log[k] == if k < |mws| then Started(k) else Handled
  {
    assert Starts(0) + Handles(0) == [];
    var st := Next(mws, handler, FRESH, rank).1;
    assert Ordered(|mws|, st);
  }

  // ----- The handler's replies -----

  /** The replies of consecutive runs of the handler. */
  function Replies(handler: nat -> Reply, first: nat, k: nat): (s: seq<Reply>)
    ensures |s| == k
  {
    seq(k, i requires 0 <= i < k => handler(first + i))
  }

  lemma ReplyFirst(handler: nat -> Reply, seen: seq<Reply>, first: nat, k: nat)
    ensures seen + [handler(first)] + Replies(handler, first + 1, k) == seen + Replies(handler, first, k + 1)
  {
  }

  /** Once all middleware are started, every call a body makes runs the handler: the body sees the
      handler's replies one by one, until it has had enough, and ends as they make it. */
  lemma {:induction false} SeesReplies(mws: seq<Body>, handler: nat -> Reply, i: nat, seen: seq<Reply>, st: State, rank: Rank)
    returns (k: nat)
    requires i < |mws| && Ordered(|mws|, st) && st.current == |mws| && Finite(mws, rank)
    ensures Resume(mws, handler, i, seen, st, rank).0 == mws[i].result(seen + Replies(handler, st.runs, k))
    ensures Resume(mws, handler, i, seen, st, rank).1.runs == st.runs + k
    ensures !mws[i].calls(seen + Replies(handler, st.runs, k))
    ensures forall m: nat :: m < k ==> mws[i].calls(seen + Replies(handler, st.runs, m))
    decreases rank(i, seen)
  {
    if mws[i].calls(seen) {
      var reply := handler(st.runs);
      HandleOrdered(|mws|, st);
      assert Next(mws, handler, st, rank) == (reply, Handle(st));
      var rest := SeesReplies(mws, handler, i, seen + [reply], Handle(st), rank);
      k := rest + 1;
      ReplyFirst(handler, seen, st.runs, rest);
      assert seen + Replies(handler, st.runs, 0) == seen;
      forall m: nat | m < k ensures mws[i].calls(seen + Replies(handler, st.runs, m)) {
        if m > 0 {
          ReplyFirst(handler, seen, st.runs, m - 1);
          assert mws[i].calls(seen + [reply] + Replies(handler, st.runs + 1, m - 1));
        }
      }
    } else {
      k := 0;
      assert seen + Replies(handler, st.runs, 0) == seen;
    }
  }

  // ----- Passing through -----

  /** The body calls next once and returns what it got. */
  ghost predicate PassesThrough(b: Body) {
    b.calls([]) && forall r: Reply :: !b.calls([r]) && b.result([r]) == r
  }

  /** Through well-behaved middleware the handler runs exactly once, after all of them, and its
      reply is the job's. */
  lemma {:induction false} ChainPasses(mws: seq<Body>, handler: nat -> Reply, st: State, rank: Rank)
    requires Ordered(|mws|, st) && st.runs == 0 && Finite(mws, rank)
    requires forall i :: st.current <= i < |mws| ==> PassesThrough(mws[i])
    ensures Next(mws, handler, st, rank).0 == handler(0)
    ensures Next(mws, handler, st, rank).1.current == |mws| && Next(mws, handler, st, rank).1.runs == 1
    decreases |mws| - st.current
  {
    if st.current < |mws| {
      var i, st' := st.current, Enter(st);
      EnterOrdered(|mws|, st);
      ChainPasses(mws, handler, st', rank);
      var (reply, st'') := Next(mws, handler, st', rank);
      assert PassesThrough(mws[i]) && [] + [reply] == [reply];
      assert Resume(mws, handler, i, [reply], st'', rank) == (reply, st'');
    }
  }
}
