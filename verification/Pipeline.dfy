/** Enqueueing as the Redis connection sees it: parameters, commands, replies and pipelining. */
module Pipeline {
  import opened JobStore
  import opened Protocol

  // ----- Parameters -----

  /** What is asked of an enqueuer: the job, when to run it if not at once, and for a unique job
      the key map that may replace the arguments as the content of its key. encodes: arguments
      and key map can be serialized. */
  datatype Param = Param(name: Name, args: Text, at: Option<int>, unique: bool, keyMap: Option<Text>, encodes: bool)

  /** A bulk parameter cannot ask for epoch zero: there it means at once. */
  datatype BulkParam = BulkParam(
    name: Name, args: Text, runAtEpoch: int, unique: bool, keyMap: Option<Text>, encodes: bool)
  {
    function Asked(): Param {
      Param(name, args, if runAtEpoch == 0 then None else Some(runAtEpoch), unique, keyMap, encodes)
    }
  }

  function KeyOf(p: Param): Option<UniqueKey> {
    if p.unique then Some(UniqueKey(p.name, if p.keyMap.Some? then p.keyMap.value else p.args)) else None
  }

  function JobOf(p: Param, id: Id, epoch: int): Job {
    Job(p.name, id, epoch, p.args, p.unique, KeyOf(p), 0, NoError, 0)
  }

  /** What the uniqueness key will hold: the job itself when it is keyed on a key map. */
  function PayloadOf(p: Param, j: Job): Payload {
    if p.keyMap.Some? then Updated(j) else One
  }

  /** The effect of one enqueueing, and whether it is skipped. */
  function Placed(r: Store, p: Param, j: Job): Store {
    if p.unique then EnqueueUnique(r, j, p.at, PayloadOf(p, j))
    else r.(jobs := if p.at.Some? then r.jobs.Zadd(Scheduled, j, p.at.value) else r.jobs.Push(Queue(p.name), j))
  }

  predicate Skips(r: Store, p: Param, j: Job) {
    p.unique && j.Key() in r.keys
  }

  /** The protocol step of one enqueueing. */
  function StepOf(p: Param, j: Job): Step {
    if p.unique then EnqueueUniqueJob(j, p.at, p.keyMap.Some?)
    else if p.at.Some? then EnqueueAt(j, p.at.value)
    else Protocol.Enqueue(j)
  }

  lemma PlacedIsStep(s: Sys, p: Param, id: Id, epoch: int)
    requires id.Hex? && id !in s.issued
    ensures var j := JobOf(p, id, epoch);
            Enabled(s, StepOf(p, j)) && Next(s, StepOf(p, j)).store == Placed(s.store, p, j)
  {
  }

  // ----- The server as seen through a connection -----

  datatype Script = UniqueScript | UniqueInScript

  function ScriptFor(at: Option<int>): Script {
    if at.None? then UniqueScript else UniqueInScript
  }

  datatype Command =
    | LPush(name: Name, job: Job)
    | ZAdd(job: Job, score: int)
    | EvalSha(job: Job, at: Option<int>, payload: Payload)
    | Eval(job: Job, at: Option<int>, payload: Payload)
    | SAdd(names: set<Name>)
    | Wait

  datatype Reply = Done | Status(ok: bool) | NoScript | Replicas(count: int)

  /** scripts: those in the script cache. waits: the WAIT commands answered so far. */
  datatype Server = Server(store: Store, known: set<Name>, scripts: set<Script>, waits: nat)

  /** acked gives the number of replicas that each WAIT will report. */
  type Acks = nat -> int

  function Execute(s: Server, c: Command): Server {
    match c
    case LPush(n, j) => s.(store := s.store.(jobs := s.store.jobs.Push(Queue(n), j)))
    case ZAdd(j, at) => s.(store := s.store.(jobs := s.store.jobs.Zadd(Scheduled, j, at)))
    case EvalSha(j, at, p) =>
      if ScriptFor(at) in s.scripts then s.(store := EnqueueUnique(s.store, j, at, p)) else s
    case Eval(j, at, p) =>
      s.(store := EnqueueUnique(s.store, j, at, p), scripts := s.scripts + {ScriptFor(at)})
    case SAdd(ns) => s.(known := s.known + ns)
    case Wait => s.(waits := s.waits + 1)
  }

  function ReplyTo(s: Server, c: Command, acked: Acks): Reply {
    match c
    case EvalSha(j, at, _) => if ScriptFor(at) in s.scripts then Status(j.Key() !in s.store.keys) else NoScript
    case Eval(j, _, _) => Status(j.Key() !in s.store.keys)
    case Wait => Replicas(acked(s.waits))
    case _ => Done
  }

  function ExecuteAll(s: Server, cs: seq<Command>): Server {
    if cs == [] then s else Execute(ExecuteAll(s, cs[..|cs| - 1]), cs[|cs| - 1])
  }

  function RepliesTo(s: Server, cs: seq<Command>, acked: Acks): (rs: seq<Reply>)
    ensures |rs| == |cs|
  {
    if cs == [] then [] else
      RepliesTo(s, cs[..|cs| - 1], acked) + [ReplyTo(ExecuteAll(s, cs[..|cs| - 1]), cs[|cs| - 1], acked)]
  }

  lemma {:induction false} ExecuteConcat(s: Server, a: seq<Command>, b: seq<Command>, acked: Acks)
    ensures ExecuteAll(s, a + b) == ExecuteAll(ExecuteAll(s, a), b)
    ensures RepliesTo(s, a + b, acked) == RepliesTo(s, a, acked) + RepliesTo(ExecuteAll(s, a), b, acked)
  {
    if b == [] {
      assert a + b == a;
    } else {
      assert (a + b)[..|a + b| - 1] == a + b[..|b| - 1];
      ExecuteConcat(s, a, b[..|b| - 1], acked);
    }
  }

  lemma ExecuteSnoc(s: Server, a: seq<Command>, c: Command, acked: Acks)
    ensures ExecuteAll(s, a + [c]) == Execute(ExecuteAll(s, a), c)
    ensures RepliesTo(s, a + [c], acked) == RepliesTo(s, a, acked) + [ReplyTo(ExecuteAll(s, a), c, acked)]
  {
    assert (a + [c])[..|a + [c]| - 1] == a;
  }

  lemma ExecuteOne(s: Server, c: Command, acked: Acks)
    ensures ExecuteAll(s, [c]) == Execute(s, c) && RepliesTo(s, [c], acked) == [ReplyTo(s, c, acked)]
  {
    assert [] + [c] == [c];
    ExecuteSnoc(s, [], c, acked);
  }

  /** Each command is answered in the state its predecessors left. */
  lemma {:induction false} ReplyAt(s: Server, cs: seq<Command>, acked: Acks, i: nat)
    requires i < |cs|
    ensures RepliesTo(s, cs, acked)[i] == ReplyTo(ExecuteAll(s, cs[..i]), cs[i], acked)
  {
    var init, c := cs[..|cs| - 1], cs[|cs| - 1];
    assert cs == init + [c];
    ExecuteSnoc(s, init, c, acked);
    if i == |init| {
      assert cs[..i] == init;
    } else {
      assert cs[..i] == init[..i] && cs[i] == init[i];
      ReplyAt(s, init, acked, i);
    }
  }

  lemma ExecuteNext(s: Server, cs: seq<Command>, i: nat, read: seq<Reply>, acked: Acks)
    requires i < |cs|
    ensures ExecuteAll(s, cs[..i + 1]) == Execute(ExecuteAll(s, cs[..i]), cs[i])
    ensures read + RepliesTo(s, cs[..i + 1], acked)
            == read + RepliesTo(s, cs[..i], acked) + [ReplyTo(ExecuteAll(s, cs[..i]), cs[i], acked)]
  {
    assert cs[..i + 1] == cs[..i] + [cs[i]];
    ExecuteSnoc(s, cs[..i], cs[i], acked);
  }

  /** A connection: commands are buffered by Send, executed in order by Flush, and each leaves
      one reply for Receive. */
  class Connection {
    var server: Server
    var outbox: seq<Command>
    var inbox: seq<Reply>
    const acked: Acks

    constructor (s: Server, a: Acks)
      ensures server == s && acked == a && Idle()
    {
      server, acked, outbox, inbox := s, a, [], [];
    }

    /** Nothing sent is unanswered, nothing answered is unread. */
    predicate Idle()
      reads this
    {
      outbox == [] && inbox == []
    }

    method Send(c: Command)
      modifies this`outbox
      ensures outbox == old(outbox) + [c]
    {
      outbox := outbox + [c];
    }

    method Flush()
      modifies this
      ensures outbox == []
      ensures server == ExecuteAll(old(server), old(outbox))
      ensures inbox == old(inbox) + RepliesTo(old(server), old(outbox), acked)
    {
      var i := 0;
      while i < |outbox|
        invariant i <= |outbox| && outbox == old(outbox)
        invariant server == ExecuteAll(old(server), old(outbox)[..i])
        invariant inbox == old(inbox) + RepliesTo(old(server), old(outbox)[..i], acked)
      {
        ExecuteNext(old(server), outbox, i, old(inbox), acked);
        inbox := inbox + [ReplyTo(server, outbox[i], acked)];
        server := Execute(server, outbox[i]);
        i := i + 1;
      }
      assert outbox[..|outbox|] == outbox;
      outbox := [];
    }

    /** The oldest unread reply: there must be one. */
    method Receive() returns (r: Reply)
      requires inbox != []
      modifies this`inbox
      ensures r == old(inbox)[0] && inbox == old(inbox)[1..]
    {
      r, inbox := inbox[0], inbox[1..];
    }
  }
}
