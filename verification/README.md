# A verified model of the job queue

The library keeps its whole state in Redis: one work queue per job name, one in-progress list per
job name and worker pool, a lock counter and a lock-info hash per job name, the retry, scheduled and
dead sorted sets, uniqueness keys, and the known-jobs set. Enqueuers, workers, reapers, requeuers,
periodic enqueuers and clients change that state through Lua scripts, transactions and single
commands. This project models those steps and proves what every interleaving of them keeps.

## How it is built

- `JobStore` holds the data and the effect of every script as functions on values. `RedisServer`
  has the same data as mutable fields; its methods are the scripts, loops included, each proved to
  have exactly that effect.
- `Protocol` is the state machine: a run is any sequence of steps, and a step whose guard fails
  changes nothing, so a statement about `After(INIT, run)` for every `run` is a statement about
  every reachable state. `Movement` describes each step by the one job it moves and where to.
- `Discipline`, `Locks`, `Capacity`, `Conservation`, `Fifo`, `Retries`, `Uniqueness`, `Reentries`,
  `Updates`, `Completion`, `UpdateRuns` and `Scheduling` prove invariants of all runs.
- `Worker`, `Reaper`, `Requeuer`, `DeadJobs`, `Sampler`, `Periodic`, `Enqueueing` and `Middleware`
  are the Go loops and objects as methods with loop invariants, proved against the effects above.
  `Refinement` shows the requeuer's and the reaper's loops and bulk calls to be runs of the protocol.
  `Pipeline` and `Bulk` describe the pipelined connection; `Requests` states what a caller of the
  enqueuer asked for, on the parameters alone; `Clock` the time arithmetic; `Tally`
  counting in sequences and maps.

## Main results

1. Locks: in every reachable state a lock is the sum of its lock-info hash, each entry is the
   length of its pool's in-progress list or missing, and the clamp below zero never fires.
2. Cap: under an unchanged non-zero cap, live workers of all pools together never hold more jobs
   of a name than the cap, whatever crashes, reaps, stops and restarts happen.
3. Conservation: a job that is neither unique nor periodic is in exactly one place, once, with its
   name and arguments, until a success, an exhausted SkipDead job or a client delete ends it, and
   those end it always.
4. Uniqueness: copies of a key that wait, are fetched, or are owed a key deletion number at most
   one more than the re-entries and foreign key removals so far. That bound is exact, also when all
   of them are of one kind: retries, dead-queue requeues, reaps, expiries or deletions by clients.
5. Retries: between dead-queue requeues a job completes at most MaxFails runs, every record shows
   how many, and a job killed by its handler shows MaxFails.
6. Drift: from any state at all, lock minus sum of lock-info only ever stays or rises towards zero,
   except exactly where a clamp meets entries that sum to less than zero.
7. Recovery: reaping and stopping empty the pool's in-progress lists, put the jobs at the back of
   their own queues in their original order, and leave each lock equal to the sum of the other
   pools' entries.
8. Sampling: the in-place shuffle is successive weighted sampling without replacement.
9. Periodic jobs: no instant is missed as long as ticks are at most 237 seconds apart, and that
   bound is exact; an instance is handed over at most once as long as no pass adds it after a
   requeuer's clock reached its epoch, which holds for all runs exactly when readings never go back.
10. Bulk: BulkEnqueue equals the single calls in order when the scripts are loaded; otherwise each
    parameter is still applied exactly once, every reply is read, and the skipped flags are those
    of the single calls exactly when no late item loses its turn.
11. Delays: a delayed job leaves the scheduled set no earlier than requested.
12. Dead jobs: retrying all of them reaches the end of the listed order exactly when there are at
    most a million and no full batch of unknown names has anything behind it.
13. Order: the k-th job to leave a work queue is the k-th that entered it, whoever fills it. One
    leaves exactly when a fetch comes to the queue first of those that are not empty, paused or at
    their cap; while a job type is paused, nothing does.
14. Updates: a new version of a waiting unique job starts to run exactly when a worker that has read
    it under its key deletes the key. Once anybody touched the key, a run of the version can still be
    completed, that is acknowledged, if and only if a worker that is still acting has read it or runs
    it; otherwise it is lost for good, also by a crash after the key was deleted. While nobody touches
    the key and a job with it waits in its queue, the version can still be completed. A new version
    that found the key free is placed as a job of its own.
15. Middleware: the k-th call of `next` starts the k-th middleware, then the handler, and the
    recursion ends when every body makes finitely many calls; a body sees the handler's replies one
    by one.
16. Fetching: a worker serves the first open queue in the order its sampler drew.
17. Records: what a caller asks an enqueuer for, singly or in bulk, is the record that is queued or
    scheduled, under the key asked for; what processing, requeueing and retrying write is stated on
    the record itself.

## Assumptions

- Reaping applies to pools whose workers take no further step: crashed, or stopped. A list whose
  lock-info entry was already cleaned by the branch of `reap` without heartbeat is not requeued
  later; `Capacity.ReenqueueNeedsEntry` shows why.
- A stopped pool that is started again, with the same identifier, has nothing in progress: that is
  what Stop leaves (`Reaper.Stop`).
- Names and pool identifiers contain no colon or comma, so that different keys stay different;
  random identifiers are fresh.
- The worker's GET and DEL of a uniqueness key are two steps, and so is a client's deletion of a
  scheduled job followed by the DEL of its key.
- Text that is only compared is modelled as numbers, serialized jobs as records. Integers are
  unbounded except the 64-bit duration in `Clock`. The order of members with equal scores is open.
- For the at-most-once result on periodic jobs a pass is one step with respect to requeuers: it reads
  its clock once and adds its instances later, and a requeuer that acts in between can make an
  instance fire twice under one shared clock too. `Scheduling.Timely` is that assumption.
- No two dead records share an identifier, where `DeadJobs.DeadConserved` counts them and where the
  exact condition of `DeadJobs.RetryAllDeadJobs` needs that marking one does not yield another.
- A cron schedule is any function to a strictly later instant that skips none.
- A middleware uses `next` only while it runs.

## Where code and documentation differ

The model follows the code.

- The repository's README (line 360) says the reaper requeues whatever a pool that stopped beating
  left in progress. Without a heartbeat hash the reaper cleans the locks and leaves the jobs
  (`Refinement.LeftInProgress`, `Reaper.ReapPool`); `Reaper.ReapLeavesNothing` has the exact condition.
- The repository's README (line 253) says only one job with given name and arguments exists at once.
  Retries, reaps of running jobs, dead-queue requeues, expiry of the key and a client's deletion of
  another job's key each allow one more (`Reentries.ExactPerKind`). The comment at enqueue.go:143
  says so of retries and expiry.
- The repository's README (line 262) says that enqueueing with the key of a waiting job updates its
  arguments. An update between the worker's GET and DEL is lost (`UpdateRuns.UpdateLost`), and so is
  one whose key is overwritten by a plain duplicate or expires before a worker reads it
  (`UpdateRuns.UpdateWiped`), and one whose worker crashes before it acknowledges: recovery gives back
  the old version (`UpdateRuns.CrashUndoes`). `Completion.UpdateCompletes` has the exact condition.
- RetryAllDeadJobs is documented to requeue all dead jobs. A batch of a thousand jobs with unknown
  names stops it early (`DeadJobs.StrangersBlockKnown`); `DeadJobs.RetryAllDeadJobs` has the exact
  condition.
- A periodic instance is meant to be enqueued once. A clock that is behind, or a pass so slow that a
  requeuer acts between its reading and its ZADD, makes it fire twice (`Scheduling.SkewFiresTwice`);
  `Scheduling.SafeSkews` has the exact bound.
- Deleting a scheduled unique job frees its key only when the key was built from the arguments
  (`Uniqueness.DeleteFreesKey`); otherwise a job with that key is then skipped although none waits
  (`Uniqueness.KeyOutlivesJob`).
- The periodic enqueuer compares a number of minutes with seconds, so it skips a pass within two
  seconds of another, not two minutes (`Periodic.SKIP`).
- Bulk and single calls treat a known-jobs entry that expires this second differently
  (`Bulk.SameKnown`). Their own operations never make that visible (`Bulk.HonestKnown`); it takes
  names lost from Redis otherwise, such as by a flush (`Bulk.LostName`).
- With a script missing a bulk call may skip another of two jobs with one key than the single calls
  would (`Enqueueing.LateLosesTurn`); `Enqueueing.SameFlags` has the exact condition.
- A delay beyond 64 bits of nanoseconds wraps around (`Clock.NeverEarly`).

## Model

| member | source | states |
|---|---|---|
| `RedisServer.Redis.FetchScript` | redis.go:107-154 | serves the first queue in order that is not empty, not paused and below its cap, taking the lock; nil exactly when every queue is empty, paused or at its cap |
| `RedisServer.Redis.ReenqueueScript` | redis.go:166-187 | gives back the oldest in-progress job of the first non-empty list and releases its lock; nil exactly when all lists are empty |
| `RedisServer.Redis.ReapLocksScript` | redis.go:199-219 | subtracts and deletes the dead pool's entry in every named lock, then clamps at zero |
| `RedisServer.Redis.RequeueScript` | redis.go:226-246 | moves a lowest-scored due job to its queue or, with unknown name, to dead; nil exactly when nothing is due |
| `RedisServer.Redis.DeleteSingleScript` | redis.go:254-269 | removes exactly the members with that score and identifier; count and last one returned |
| `RedisServer.Redis.RequeueSingleDeadScript` | redis.go:278-309 | revives exactly the dead jobs with that score and identifier and counts those with known names |
| `RedisServer.Redis.RequeueAllDeadScript` | redis.go:317-346 | revives the lowest-scored due batch and counts those with known names |
| `RedisServer.Redis.EnqueueUniqueScript` | redis.go:352-375 | places the job only if the key was not set, sets the key in any case, replies whether it placed |
| `RedisServer.Redis.AcknowledgeTransaction` | worker.go:268-309 | LREM, lock release and the fate's ZADD in one step |
| `RedisServer.Redis.DueJobs` | redis.go:319 | the due members with the lowest scores, ascending, up to the limit |
| `Locks.CleanLocksAt` | redis.go:204-217 | cleaning changes each named lock once, however often it is named, and no other |
| `Locks.CleanCounts` | redis.go:204-217 | on a consistent lock cleaning is exact and the clamp does not fire |
| `Movement.StepMoves` | redis.go:107-375 | every step takes at most one job from one place and puts at most one elsewhere, as `MoveOf` says, and leaves every other place alone |
| `Discipline.StepDisciplined` | worker.go:192-280 | every step keeps name discipline, issued identifiers and the ledger of in-progress entries |
| `Discipline.RunDisciplined` | worker.go:268-280 | in every reachable state a list of a job name holds only jobs of that name, so the lock released is the lock acquired |
| `Locks.StepBalanced` | redis.go:107-219 | every step keeps counter, hash and list lengths in agreement |
| `Locks.RunBalanced` | redis.go:107-219 | that agreement holds in every reachable state |
| `Capacity.LockInvariant` | redis.go:107-219 | lock is the sum of lock-info; each entry is between zero and the in-progress length, equal to it unless orphaned or while the pool lives; the clamp never fires |
| `Capacity.RunHasEntry` | dead_pool_reaper.go:86-108 | only cleaning without requeueing leaves jobs in progress without a lock entry |
| `Capacity.LiveWithinLock` | worker.go:144-190 | live workers hold at most as many jobs of a name as its lock counts |
| `Capacity.CapHolds` | redis.go:121-152 | the global cap on jobs held by live workers holds along every run that does not reconfigure it |
| `Capacity.CleanSettles` | redis.go:204-217 | cleaning keeps drift or raises it towards zero, if and only if the clamp does not meet remaining entries that sum to less than zero |
| `Capacity.NonNegativeSettles` | redis.go:209-215 | where no remaining entry is negative, cleaning never overshoots |
| `Capacity.StepDrift` | redis.go:167-217 | from any state each step but stale-lock cleaning preserves drift; a step keeps it or raises it towards zero if and only if it is not such an overshooting clean |
| `Capacity.RunDrift` | redis.go:107-219 | over any run from any state without overshooting, drift never turns positive and never moves away from zero |
| `Capacity.ReenqueueNeedsEntry` | redis.go:166-187 | re-enqueueing keeps the pool's count from going negative exactly when its entry exists |
| `Conservation.RunOnce` | redis.go:150 | in every reachable state an ordinary identifier occurs at most once over all places |
| `Conservation.NoJobLost` | enqueue.go:76-138 | from its enqueueing on a job is in exactly one place once with its work intact, until one of the named ends |
| `Conservation.EndsExactly` | worker.go:192-322 | a step makes a present job disappear if and only if it is a success, an exhausted SkipDead run or a delete of that job |
| `Fifo.StepQueue` | redis.go:138-154 | every step adds to a queue only at its back and takes only from its front |
| `Fifo.FirstInFirstOut` | redis.go:107-375 | over any interleaving, what ever entered a queue is what left it, in that order, followed by what it holds |
| `Fifo.NoOvertaking` | redis.go:107-375 | the k-th job to leave a queue is the k-th that entered it |
| `Fifo.LeavesExactly` | redis.go:113-152 | a step takes a job out of a queue if and only if it is a fetch by a pool that is not dead and comes to that queue first of those not empty, paused or at their cap |
| `Fifo.PausedQueue` | redis.go:117-148 | along any run that does not lift the pause, nothing leaves the queue of a paused job type and new jobs wait behind what it held |
| `Retries.BoundedRetries` | worker.go:311-322 | at most MaxFails completed runs since the last dead-queue requeue; retry entries have 1 <= fails < MaxFails; every record counts its runs |
| `Retries.KilledExhausted` | worker.go:311-322 | in any run, a job sent to dead by a known handler shows MaxFails failures and has completed that many runs |
| `Retries.CompletionFits` | worker.go:215-220 | a failed run leaves a record whose fails is one more and whose place agrees with MaxFails |
| `Uniqueness.UniqueBound` | worker.go:223-266 | copies of a key are at most one if it is set, plus re-entries and foreign key removals so far, in every reachable state |
| `Uniqueness.AtMostOneCopy` | enqueue.go:140-148 | at most one copy when nothing re-enters and nobody else removes the key |
| `Reentries.ExactBound` | redis.go:352-375 | with at most e re-entries and foreign removals, c copies are enough for every run and key if and only if c is at least e + 1 |
| `Reentries.ExactPerKind` | enqueue.go:140-148 | the same holds when the re-entries and removals are all retries, all dead-queue requeues, all reaps of running jobs, all expiries or all deletions by clients |
| `Reentries.Rounds` | worker.go:223-309 | for each kind and every e, a run with exactly e of that kind that leaves e + 1 copies in the queue |
| `Completion.UpdateCompletes` | worker.go:192-280 | in any run, an update skipped as a duplicate whose key was touched and of which no run was acknowledged can still have one acknowledged if and only if a worker that is still acting has read it or runs it |
| `Completion.WaitingCompletes` | redis.go:138-154 | while nobody touched the key and a job with it is in its queue, some continuation completes a run of the update |
| `Updates.UpdateFate` | worker.go:223-266 | in any run, an update skipped as a duplicate starts to run if and only if a worker that has read it deletes the key; until then it is under the key if and only if nobody touched the key, and after a touch it can still start if and only if an acting worker has read it, and has left no trace if and only if none has |
| `Updates.NextTouchDecides` | worker.go:240-250 | of the next step to touch its key: the update starts to run if and only if that is the DEL of a worker that has read it; it is nowhere, for good, if and only if no worker has |
| `Updates.ReadInTime` | worker.go:240-244 | a worker has read the update only by a GET before anybody touched the key |
| `Updates.LatestWins` | worker.go:240-265 | a worker that reads the key before anybody touches it starts to run the update at its DEL, whatever happens to the key in between |
| `Updates.PlacedExactly` | redis.go:352-375 | while nobody touches the key, an update is on a list or in a sorted set if and only if it found the key free |
| `UpdateRuns.UpdateLost` | worker.go:240-246 | a run in which an update is accepted between a worker's GET and DEL and then neither runs nor stays anywhere |
| `UpdateRuns.UpdateWiped` | redis.go:355-358 | runs in which a plain duplicate, or expiry, loses an accepted update before any worker reads it |
| `UpdateRuns.ExpiryTooLate` | worker.go:240-246 | a run in which the key expires after a worker read the update, which still starts to run |
| `UpdateRuns.CrashUndoes` | redis.go:181 | a run in which the worker that runs the update crashes and recovery gives back the old version, so that the update is never completed |
| `Uniqueness.KeyOutlivesJob` | client.go:488-523 | a run that leaves such a key set with no job scheduled, so that enqueueing again is skipped |
| `Uniqueness.DeleteFreesKey` | client.go:488-523 | deleting a scheduled unique job frees its key if and only if the key is the one built from its arguments |
| `Worker.FetchJob` | worker.go:144-190 | the sampler is left as successive weighted sampling places it; nothing is found exactly when every registered type is empty, paused or at its cap, whatever order was drawn; otherwise the oldest job of the first queue in the sampled order that is none of these |
| `Worker.NamesInOrder` | worker.go:147-154 | the script is offered the registered types in the sampled order |
| `Worker.GetAndDeleteUniqueJob` | worker.go:223-266 | the recorded key, else that of name and arguments, is gone afterwards and the replacement is what it held, if it held one |
| `Worker.ProcessJob` | worker.go:192-221 | an uninterrupted worker changes Redis exactly as its protocol steps do; the version under the key runs; a success leaves nothing, a failure is recorded and goes to retry after the backoff while failures are left, else to dead unless skipped, a job of an unregistered type to dead; the fetched record and one lock are released |
| `Worker.Acknowledged` | worker.go:204-322 | the same of the acknowledgement, for every outcome, registered type and number of failures |
| `Worker.WorkerRunStore` | worker.go:192-280 | the run of protocol steps of one worker amounts to key deletion and acknowledgement of the chosen job |
| `Reaper.RequeueInProgressJobs` | dead_pool_reaper.go:132-159 | terminates; the lists are empty, their jobs are at the back of their own queues in original order, one release per job, nothing else changes |
| `Reaper.RecoverPool` | dead_pool_reaper.go:113-159 | requeueing then cleaning leaves no entry of the pool and each lock the sum of the others |
| `Reaper.Cluster.FindDeadPools` | dead_pool_reaper.go:161-202 | exactly the pools without heartbeat, or with one at least ten seconds old that names job types, with those types, or none without heartbeat |
| `Reaper.ReapPool` | dead_pool_reaper.go:86-108 | with heartbeat the pool is recovered; without one only the reaper's own lock names are cleaned and the jobs stay |
| `Reaper.Reap` | dead_pool_reaper.go:73-111 | each dead pool is handled exactly once; one that beat less than ten seconds ago keeps its jobs, lock entries, membership and heartbeat; one with an older heartbeat that names its types has nothing left of these; one without heartbeat keeps its jobs in progress |
| `Reaper.ReapOutcome` | dead_pool_reaper.go:73-202 | what a reap means for a pool follows from its heartbeat alone, in these three cases |
| `Reaper.ReapLeavesNothing` | dead_pool_reaper.go:86-108 | after reaping, the dead pool has nothing in progress if and only if the job types found for it include all it held |
| `Reaper.Stop` | worker_pool.go:223-257 | after Stop the pool's lists are empty, its jobs back in their queues, its entries gone, its heartbeat removed |
| `Refinement.RequeueIsRun` | dead_pool_reaper.go:146-158 | the requeue loop is a run of re-enqueue steps, each of a ledger entry |
| `Refinement.RecoverIsRun` | worker_pool.go:237-251 | recovering a stopped pool is such a run followed by lock cleaning |
| `Refinement.LeftInProgress` | dead_pool_reaper.go:96-107 | a run in which reaping without heartbeat leaves a job in progress and its lock released |
| `Refinement.BulkIsRun` | enqueue.go:208-315 | with distinct fresh identifiers a bulk call is a run of enqueue steps, one per item it applies |
| `Refinement.PlaceAllIsRun` | enqueue.go:76-203 | enqueueing items one after the other is the run of their enqueue steps |
| `Refinement.ReapAllIsRun` | dead_pool_reaper.go:73-111 | a whole reap is a run of re-enqueue and lock-cleaning steps of the pools found dead |
| `Requeuer.PromoteAllQueue` | redis.go:226-246 | requeued jobs join each queue behind its old contents, in the order moved |
| `Requeuer.PromoteAllDead` | redis.go:240-243 | exactly the moved jobs with unknown names are buried, at the current time |
| `Requeuer.Drain` | requeuer.go:75-110 | terminates; exactly the due jobs are moved, the set keeps exactly the entries of the future; queues gain the known ones by ascending score with the time of the move, dead the unknown ones marked at that time, nothing else changes |
| `Requeuer.DrainedCarries` | redis.go:233-243 | the record of every moved job, field by field: requeued with the time of the move, or marked as unknown |
| `Refinement.DrainIsRun` | requeuer.go:75-110 | draining is a run of protocol steps, one per job moved |
| `DeadJobs.RetryDeadJob` | client.go:386-426 | exactly the matching jobs are requeued with the current time and no failures, error or failure time, or marked and kept; success means one was requeued |
| `DeadJobs.ReviveAllRetries` | redis.go:289-305 | the record of every retried job, field by field |
| `DeadJobs.RetryAllDeadJobs` | client.go:429-472 | no job is lost; each retried job is in its own queue with the current time and no failures, error or failure time; none stays due if and only if at most a million are due and every full batch of the listed order with jobs behind it has a known name; in particular with fewer than a thousand unknown names, and not for a job behind a thousand older ones of unknown names |
| `DeadJobs.BatchShrinksDue` | redis.go:317-346 | each call takes its batch out of the due jobs for good |
| `DeadJobs.DeadConserved` | redis.go:317-346 | with distinct identifiers a batch loses no dead record: what leaves the dead set is what goes back to work |
| `DeadJobs.DistinctIdsNoMerge` | redis.go:339-343 | with distinct identifiers, marking a due job of unknown name never yields another due record |
| `DeadJobs.StrangersBlockKnown` | client.go:457-469 | a thousand older jobs with unknown names make the call retry nothing |
| `DeadJobs.BatchIsRun` | redis.go:317-346 | a batch script is a run of one protocol step per job |
| `DeadJobs.DeleteScheduledJob` | client.go:488-561 | exactly the matching jobs are removed, and the arguments key of the last one deleted if it is unique |
| `Sampler.OwnerUnique` | priority_sampler.go:62-74 | a draw lies in the suffix-sum interval of exactly one item |
| `Sampler.OwnsItsPriority` | priority_sampler.go:46-81 | an item owns exactly as many draws as its priority |
| `Sampler.PrioritySampler.FindOwner` | priority_sampler.go:62-74 | the backwards walk finds the item that owns the draw |
| `Sampler.PrioritySampler.Resample` | priority_sampler.go:46-81 | the array is a permutation, placed as successive weighted sampling without replacement places it, every draw from a positive range; it completes if and only if fewer than two priorities are zero |
| `Sampler.PrioritySampler.Add` | priority_sampler.go:24-36 | the item is appended and the sum stays the total of priorities |
| `Clock.NeverEarly` | time.go:22-31 | a delayed score is due no earlier than the requested instant and less than a second after it, if and only if the delay fits a 64-bit duration |
| `Scheduling.ScheduledOrigin` | redis.go:226-246 | a scheduled entry was there before with its score, or was just enqueued with it |
| `Scheduling.NeverRunsEarly` | enqueue.go:104-203 | in any run, when a requeuer takes a job from EnqueueIn or EnqueueUniqueIn, its clock reads no earlier than the requested instant |
| `Scheduling.RunOneEntry` | periodic_enqueuer.go:87-110 | there is one scheduled entry per name, spec and epoch, scored with the epoch |
| `Scheduling.PeriodicOnce` | periodic_enqueuer.go:79-116 | as long as no pass adds the instance after a requeuer read a clock at or past its epoch, it exists at most once and is handed over at most once, not before its epoch |
| `Scheduling.SkewFiresTwice` | periodic_enqueuer.go:79-82 | a reading that goes back by one second lets an instance be handed over twice |
| `Scheduling.SafeSkews` | periodic_enqueuer.go:79-116 | readings that go back by at most d are safe for every run and instance if and only if d is not positive |
| `Periodic.PeriodicEnqueuer.EnqueueInstances` | periodic_enqueuer.go:88-110 | adds exactly the instants of one job within the horizon, each at its own score |
| `Periodic.PeriodicEnqueuer.Enqueue` | periodic_enqueuer.go:79-116 | adds exactly the planned instances of all jobs, sets the last-pass key, changes nothing else, and is a run of protocol steps |
| `Periodic.PeriodicEnqueuer.Loop` | periodic_enqueuer.go:50-77 | after any ticks the set has gained exactly what the passes planned |
| `Periodic.LastRecent` | periodic_enqueuer.go:118-131 | at every tick the last pass is at most two seconds old |
| `Periodic.NoFiringMissed` | periodic_enqueuer.go:50-131 | every instant after the first tick was inside the horizon of a pass made strictly before it |
| `Periodic.EveryInstantPlanned` | periodic_enqueuer.go:50-131 | every instant of every periodic job after the first tick is scheduled by one of the passes or by the last one before them |
| `Periodic.SafeGaps` | periodic_enqueuer.go:12-15 | a spacing of ticks misses nothing if and only if it is at most 237 seconds, which the 149 of the timer satisfy |
| `Pipeline.PlacedIsStep` | enqueue.go:76-203 | each single call is the protocol's enqueue step |
| `Requests.PlacedAsked` | enqueue.go:76-203 | each single call leaves exactly the record of what was asked, where it was asked, under the key asked for |
| `Requests.AllPut` | enqueue.go:208-315 | an item that is not skipped at its turn is in place after both rounds, at its own score if identifiers differ |
| `Requests.FirstPut` | enqueue.go:224-251 | so is one that was not late, after the first round |
| `Pipeline.Connection.Flush` | enqueue.go:249-251 | buffered commands run in order and each leaves one reply |
| `Pipeline.ReplyAt` | enqueue.go:254-272 | each command is answered in the state its predecessors left |
| `Bulk.FirstRound` | enqueue.go:224-251 | the first round applies exactly the items whose script is loaded, in order |
| `Bulk.FirstReplies` | enqueue.go:254-272 | reply i of the first round tells of item i: no script, skipped or placed |
| `Bulk.SecondRound` | enqueue.go:288-301 | the second round applies the remaining items, in order |
| `Bulk.AppliedOnce` | enqueue.go:208-315 | over both rounds every item is applied exactly once |
| `Bulk.BeforeApplied` | enqueue.go:208-315 | what counts for the flag of item i is what was applied before it |
| `Bulk.SinglesKnown` | enqueue.go:341-365 | single calls add exactly the names this enqueuer had not announced recently |
| `Bulk.SameKnown` | enqueue.go:367-407 | bulk and single calls leave the same known set if and only if every name whose memory expires this second is in it already |
| `Bulk.SinglesHonest` | enqueue.go:341-365 | single calls keep every remembered name known |
| `Bulk.BulkHonest` | enqueue.go:395-406 | a bulk call keeps every remembered name known |
| `Bulk.HonestKnown` | enqueue.go:341-407 | hence bulk and single calls always leave the same known set |
| `Bulk.LostName` | enqueue.go:349-373 | a name lost from Redis is announced again by a single call but not by a bulk call in the second its memory expires |
| `Enqueueing.Enqueuer.AddToKnownJobs` | enqueue.go:341-365 | adds the name unless its remembered time lies ahead, and then remembers it for 300 seconds |
| `Enqueueing.Enqueuer.EnqueuePlain` | enqueue.go:76-138 | the record with the name, arguments, identifier and time asked for is at the back of its queue, or scheduled at the epoch asked for, zero included, and nothing else moves; its name is announced unless WAIT failed; all replies read |
| `Enqueueing.Enqueuer.EnqueueUnique` | enqueue.go:411-485 | the key asked for is set, to the record when there is a key map; the record asked for is placed once if the key was free, in its queue or scheduled at its epoch, zero included, with the script loaded or not; the result tells skipped, enqueued or replication failed |
| `Enqueueing.Enqueuer.SendKnownJobs` | enqueue.go:367-393 | one SADD with exactly the names missing or expired in the enqueuer's memory |
| `Enqueueing.Enqueuer.ReceiveAll` | enqueue.go:253-272 | reads one reply per item, flags skipped items and lists exactly those without script |
| `Enqueueing.Enqueuer.ReceiveAgain` | enqueue.go:303-309 | every result then reports its own item |
| `Enqueueing.Enqueuer.BulkEnqueue` | enqueue.go:208-315 | unencodable parameters stop it before anything is sent; otherwise every item is applied exactly once, every parameter not skipped is on record with the fields, epoch and key asked for, result i reports parameter i, every reply is read; only a failed first WAIT leaves late items out |
| `Enqueueing.DeliveredAsked` | enqueue.go:208-339 | plain parameters are on record also when replication failed; an unskipped result means a record and a key that was free; a skipped one, a key set before or shared with another parameter |
| `Enqueueing.PendingAnnounced` | enqueue.go:367-407 | exactly the names whose remembered time is missing or past are added, and remembered for 300 seconds |
| `Enqueueing.BulkIsSingles` | enqueue.go:208-315 | with all scripts loaded the store and the skipped flags are those of the single calls in order |
| `Enqueueing.SameFlags` | enqueue.go:253-309 | whatever scripts are missing, the skipped flags are those of the single calls if and only if every late item overtaken by one on time with its free key stands behind another on time with it |
| `Enqueueing.BulkFlag` | enqueue.go:253-309 | a late item meets the keys of all items on time and of the late ones before it, an item on time only those on time before it |
| `Enqueueing.LateLosesTurn` | enqueue.go:253-309 | with a script missing, of two jobs with one key the late one is skipped though it came first |
| `Middleware.Next` | run.go:16-39 | one call of next starts one thing; middleware at most once and in order, the handler only after all; it terminates |
| `Middleware.Runner.CallNext` | run.go:15-39 | the closure over the shared counter computes `Next` |
| `Middleware.Runner.RunJob` | run.go:10-54 | the error is what the chain returned, or the panic that reached the top |
| `Middleware.CallStarts` | run.go:16-39 | the k-th call of next starts the k-th middleware, and the handler once they are used up |
| `Middleware.SeesReplies` | run.go:16-39 | once all middleware are started, a body sees the replies of successive runs of the handler until it has had enough, and ends as they make it |
| `Middleware.ChainPasses` | run.go:16-39 | through middleware that pass the call on, the handler runs exactly once and its reply is the job's |

## Left out

- Network errors, the connection pool, Sentinel failover and when replicas acknowledge: only the reply of WAIT is modelled, as a given number.
- JSON and cjson encoding: a job is a record; a parameter either can be encoded or cannot.
- Cron parsing, random numbers and identifier generation: arbitrary functions, draws and fresh identifiers.
- Goroutines, tickers and channels: they appear as the scheduling of steps.
- Building key strings, option defaults and validation, writing concurrency controls: easy members. The cap reaches the model through the step `Configure`.
- Heartbeat contents, observers, logging, client listings, the web interface, commands and benchmarks: reporting.
- DeleteAllDeadJobs, DeleteDeadJob and DeleteRetryJob: the step `Delete` covers their effect job by job.
- The backoff formula: any number of seconds.
- The mocked clock that tests install in time.go.
- The sampler's unsigned sum does not wrap around in the model.
- A worker that goes on acknowledging after its pool was reaped, and a pool started again after a Stop that could not requeue its jobs.
- The time to live of a uniqueness key: the step `Expire` may happen at any time.
- Scheduling.PeriodicOnce: a pass and a requeuer interleave by single steps; that a pass is quick enough is assumed, not modelled.
- Enqueueing.SameFlags: compares the skipped flags; with scripts missing the order of jobs within a queue may also differ from that of the single calls.
- Retries.BoundedRetries: for jobs that are not unique, because a unique job's record may be replaced when it is fetched.
- Enqueueing.BulkIsSingles: compares calls made within one second, since a bulk call reads the clock once.
