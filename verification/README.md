# tarsk, verified

A Dafny model of tarsk, a task-queue supervisor: Rust code claims jobs from a broker, feeds them to
Python children over a socket, retires children at a memory ceiling, and settles every job. The
modules follow the system's parts.

- **Supervision.** `Supervision` is one child as its supervisor sees it: the loop that serves it, the
  settle channel and its consumer, draining and reaping, under arbitrary frames. `ChildRuns` proves
  what holds over its runs. `ServeLoop` is the same machine in the form
  the program has it: the fill loop, the frame and timer arms, flush, drain and reap, as methods of a
  class that keep its fields a run of that machine. `ChildFrames` is what a well-behaved child sends and
  how it is read. `Batch` puts any number of children over one in-memory broker; `BatchRetries` counts
  how often each job runs and when it has expired, `BatchCaps` how many of a capped task run at once, and
  `BatchRates` how many of a rate-limited one are dispatched over time. `Credit` is the Ready protocol with
  a well-behaved child, `Ceiling` the memory arithmetic on top of it, `CeilingCredit` the two together,
  `ThreadPool` the child's pool, `Backoff` the wait between attempts and `RetryDelays` that wait in the
  machine's retries.
- **Brokers.** `MemoryQueue` is the in-memory broker; `Postgres` the tables and their statements, and
  `PostgresRuns` many workers over them; `Redis` the backoff and buffer arithmetic with one worker's
  claim path, `RedisRuns` many supervisors over one stream and `RedisSweeps` what their sweeps get to
  see. `AtLeastOnce` is what the three have in common, and each of them refines it; `BatchOnce` shows that
  a batch run is such a use of the in-memory one.
- **Coordination.** `Buckets` is rate limiting, in process and in Redis; `Coordination` the in-process
  buckets, slots and ticks.
- **Chains.** `Chains` is a chain as data, from the client's rows to the supervisor's hops;
  `ChainCrash` the same on a durable queue, under crashes and leases that lapse while the work goes on.
- **Cron.** `Calendar` is the civil-date arithmetic against a calendar walked day by day in the
  proleptic Gregorian calendar (section 3.2.1 of ISO 8601:2004); `CronFields` the five-field parser
  against what a field denotes and against the day rule of crontab (IEEE Std 1003.1-2017, XCU, crontab,
  INPUT FILES).
- **Framing.** `Framing` is the length-prefixed stream, `Wire` a child's coroutines sharing one writer.

How to read the machines: an event that does not apply leaves the state alone, so every sequence of
events is a run, and a theorem over all sequences is a theorem over all interleavings. Each command to a
broker, each frame, each broker call of a settlement is one step. Machines are over-approximations where
that is harmless (a child may be told to leave at any idle moment, a broker may have nothing at any
time), so what holds of their runs holds of the program's.

Conventions. Times are milliseconds, or seconds as reals where the source uses floating point; a
process's integers are unbounded except where the code's own width shows (32-bit cron steps, 64-bit
RSS sums and hashes, `as u32` truncation of frame fields, the 32-bit frame length). A bit set is the set
of its bits. Byte strings that are msgpack are modelled by what they decode to. `record` is one step
(the source takes two loads there); arithmetic wraps as it does in a release build.

Where the code does other than its documentation says, or than a reader might expect, the model follows
the code:

- `cron.rs` steps with a 32-bit `+=`; a step within the range's low end of 2^32 walks down instead of
  leaving the range (`CronFields.PartMeansWhatItSays` says exactly when a part means what it says).
- A stepped asterisk leaves a day field unrestricted, so `*/2` in one day field restricts nothing
  (`CronFields.DayRuleIsCrontabs` gives the exact condition for agreeing with crontab).
- `take_token` reads its clock before the lock and again under it, so a window is granted up to burst +
  rate * (T + the waits for the lock of all its callers but the first and the last); it keeps to burst +
  rate * T at every rate and depth if and only if none of those waited (`Buckets.BurstPlusRateIff`).
- The backoff's cap is said to keep it inside what a broker can express; on Redis a backoff is waited out
  if and only if it fits the timeout and grace (`Backoff.RedisWaitsTheBackoffOutIff`).
- A refused push of a chain step is counted and the step acked all the same
  (`ChainCrash.ARefusedPushDropsTheChain`).
- An Ack, Nack or Progress frame too short to index panics the child's task while it is served, and
  drops what was in flight (`ChildRuns.PanicsIffItReadsShort`, `ChildRuns.PanicDropsWhatIsInFlight`).
- A retry delay of 2^32 milliseconds or more wraps, to as little as none
  (`ChildFrames.WhatIsSentIsRead`).
- A replay list in which no id parses replays the whole queue (`Postgres.AListIsKeptToIff`).
- A fresh child may be allowed no first task once a task's cost is known
  (`Ceiling.FirstTaskIffItFits`).
- A Redis sweep can take an entry out of another worker's buffer when the reply that brought it there was
  slow; with neither timeout nor grace any reply is (`RedisRuns.SlowerItMayNotBe`).
- A Redis ack goes by the entry alone, so a former holder's late one settles an entry that another worker
  still has in its buffer and will run (`RedisRuns.ALateSettlementLeavesItBuffered`).
- A Redis supervisor that has learned of no timeout sweeps nothing, and 64 earlier entries that the server
  lists, inside longer leases of their own, hide an overdue one (`RedisSweeps.WithoutATimeoutNothingIsSwept`,
  `RedisSweeps.OnThePageIff`).
- An async handler's progress is a coroutine of its own, and one that has not run when the task answers goes
  out after the answer (`Wire.ProgressLastIfItHadNot`).

## Model

| member | source | states |
|---|---|---|
| ChildRuns.StepConserves | crates/tarsk-core/src/lib.rs:1249-1830 | any event, any frame: what is held before and taken on is held after or answered for |
| ChildRuns.EveryDeliveryIsAnsweredOnce | crates/tarsk-core/src/lib.rs:1218-1830 | over every run with arbitrary frames, death, hard kill and drain deadline, no delivery is answered for more often than it was claimed, and exactly as often once the child is gone |
| ChildRuns.EveryCallIsTheRightOne | crates/tarsk-core/src/lib.rs:425-605 | over every run a success is acked with its chain's next step queued before, a failure is retried exactly while attempts remain and it was not rejected, after the delay asked for or else its backoff, and buried otherwise |
| RetryDelays.RetriesWaitTheirBackoff | crates/tarsk-core/src/lib.rs:565-605 | over every run a failure that asked for no delay is retried after the registered backoff for its attempt and id, in the top half of its window, and at once only if its task has none |
| ChildRuns.OfferedIsDispatchedOrFree | crates/tarsk-core/src/lib.rs:1543-1544 | the free slots are the Readys accepted less the jobs dispatched: one dispatch to a Ready |
| ChildRuns.AnswersReachTheBrokerInOrder | crates/tarsk-core/src/lib.rs:1218-1247 | what reached the broker is the front of what was sent to be settled, across the serve-to-drain handover, and its accepted answers are the child's in the child's order |
| ChildRuns.DoneCountsDispatchedTasksOnce | crates/tarsk-core/src/lib.rs:1557-1591 | done tasks and tasks in flight together never exceed the dispatched ones, and while served are exactly those; duplicates and forgeries count for nothing |
| ChildRuns.PanicsIffItReadsShort | crates/tarsk-core/src/lib.rs:1521-1674 | a run panics if and only if at some point the loop, serving or draining, looks inside a frame too short to index; draining never looks inside a Progress |
| ChildRuns.AShortAckDropsTheJob | crates/tarsk-core/src/lib.rs:1553-1556 | such a run there is for any job: dispatched, it is in flight when an Ack without a result panics the task |
| ChildRuns.PanicDropsWhatIsInFlight | crates/tarsk-core/src/lib.rs:1579-1596 | after a panic what was in flight is never answered for, whatever happens next |
| ChildRuns.ItCanAlwaysFinish | crates/tarsk-core/src/lib.rs:1652-1724 | from every state but a panic there is a way to the end, with nothing held |
| ServeLoop.ChildLoop.AdvanceChain | crates/tarsk-core/src/lib.rs:425-438 | the first call for a success is the machine's: its chain's next step is counted, to be pushed before the ack |
| ServeLoop.ChildLoop.FailJob | crates/tarsk-core/src/lib.rs:565-605 | a failure is retried while attempts remain and it was not rejected, and is dead-lettered otherwise, as the machine's step |
| ServeLoop.ChildLoop.WaitForRoom | crates/tarsk-core/src/lib.rs:1213-1217 | a full settle channel makes the loop wait, with nothing lost and nothing new held, until there is room |
| ServeLoop.ChildLoop.Handle | crates/tarsk-core/src/lib.rs:1351-1503 | a claimed job is refused, handed back with its wait, or dispatched, and then nothing of it stays in hand |
| ServeLoop.ChildLoop.FillSlots | crates/tarsk-core/src/lib.rs:1317-1507 | fills what is offered and allowed, never past the budget, whatever the broker hands out as long as the child does not hold it at that moment; finds the run done only with nothing in flight, then or at the start |
| ServeLoop.ChildLoop.NoteAnswer | crates/tarsk-core/src/lib.rs:1553-1591 | an answer moves its job from in flight to the channel and counts it, once; one for a job not in flight changes nothing |
| ServeLoop.ChildLoop.OnReady | crates/tarsk-core/src/lib.rs:1522-1552 | a reached trigger retires the child before anything is dispatched; otherwise the slot is offered and filled |
| ServeLoop.ChildLoop.OnFrame | crates/tarsk-core/src/lib.rs:1518-1604 | every frame is one run of machine steps; the end of the stream is a death |
| ServeLoop.ChildLoop.OnTick | crates/tarsk-core/src/lib.rs:1606-1645 | the timer's fill never comes out as the run being done, so ignoring that answer loses nothing; over the hard ceiling a child with work is killed and an idle one recycled |
| ServeLoop.ChildLoop.Flush | crates/tarsk-core/src/lib.rs:1241-1247 | the consumer is awaited: the channel is empty and nothing half settled before the child is drained or reaped |
| ServeLoop.ChildLoop.Drain | crates/tarsk-core/src/lib.rs:1652-1687 | answers are settled on the spot until the frames end, the deadline comes, or a frame too short to index |
| ServeLoop.ChildLoop.Reap | crates/tarsk-core/src/lib.rs:1689-1724 | every job still held is failed, and then the child is gone |
| ServeLoop.ChildLoop.Live | crates/tarsk-core/src/lib.rs:1726-1830 | a whole life: if it ends without a panic, the calls made answer for each delivery exactly as often as it was claimed, and each is the one the policy calls for |
| Batch.EveryJobIsInOnePlace | crates/tarsk-core/src/lib.rs:373-519 | any number of children in any interleaving: a job is in exactly one of the queue, a child's hands, the way to the results, and the results; the total is the jobs plus the chain steps about to be pushed |
| Batch.DoneMeansNothingIsOutstanding | crates/tarsk-core/src/lib.rs:373-385 | the run is done if and only if every job has its outcome and no chain step is between being counted and being pushed |
| Batch.DoneHoldsNothing | crates/tarsk-core/src/lib.rs:607-652 | once done, nothing waits and no child holds anything |
| Batch.FillNoWorker | crates/tarsk-core/src/lib.rs:2106-2122 | every id below the total without an outcome gets NoWorker, the others keep theirs, and that ends the run |
| Batch.FillingLeavesOneOutcomeEach | crates/tarsk-core/src/lib.rs:2106-2122 | filled up, the results are exactly the ids below the total, each once |
| BatchRetries.AtMostRetriesPlusOne | crates/tarsk-core/src/lib.rs:565-605 | with crashes and kills in any interleaving no job is dispatched more than retries + 1 times |
| BatchRetries.ExactlyRetriesPlusOne | crates/tarsk-core/src/lib.rs:565-605 | a job dead-lettered for failing, never rejected, limited, capped, expired or cancelled, was dispatched exactly retries + 1 times |
| BatchRetries.StaleIsNeverDispatched | crates/tarsk-core/src/lib.rs:1351-1384 | once past its expiry and not already cleared a job is never dispatched again, because requeueing keeps its ready time |
| BatchRetries.ExpiryRunsFromSubmission | crates/tarsk-core/src/lib.rs:1351-1384 | a submitted job the broker still has is past its expiry exactly when more than its own or its task's expiry has gone by since it was submitted, at a time above zero |
| BatchRetries.ExpiredIsNeverDispatched | crates/tarsk-core/src/lib.rs:1351-1384 | from then on it is never dispatched, unless a child already had it cleared, however it is retried or handed back |
| BatchRetries.ExpiredIsRefused | crates/tarsk-core/src/lib.rs:1361-1384 | a child that has such a job in hand may neither clear nor hand it back; refusing it answers it |
| BatchRetries.AJobExpires | crates/tarsk-core/src/broker.rs:839-846 | such a moment comes for any job with an expiry: left waiting past it, it is claimed and in hand, uncleared |
| Ceiling.FiresAtALimit | crates/tarsk-core/src/lib.rs:1119-1172 | taking the worst of three ratios retires a child exactly when one of its limits is reached |
| Ceiling.CheckKeepsHonest | crates/tarsk-core/src/lib.rs:349-355 | what a reading teaches of a task's cost never exceeds what a task can add |
| Ceiling.NeverFarOverTheCeiling | crates/tarsk-core/src/lib.rs:1281-1339 | over its whole life and drain a child of S slots stays below max_rss + S * G if a task adds at most G, and the learned cost at most G |
| Ceiling.TheBoundIsReached | crates/tarsk-core/src/lib.rs:1088-1099 | no smaller bound holds: for any S and G some run gets to within a byte of it |
| Ceiling.FillingCommitsWithinTheCeiling | crates/tarsk-core/src/lib.rs:1080-1099 | when a Ready hands out work, all the child's tasks at the learned cost fit under the ceiling on top of its RSS |
| Ceiling.AColdStartHoldsFour | crates/tarsk-core/src/lib.rs:1070-1094 | until a task has finished anywhere a child under a ceiling is handed at most four at once |
| Ceiling.ShutOutIsRetired | crates/tarsk-core/src/lib.rs:1043-1099 | a zero budget means the next check at that RSS fires for a child that has finished a task; for a fresh one exactly at a limit |
| Ceiling.NextTickRetiresIt | crates/tarsk-core/src/lib.rs:1606-1645 | so a shut-out child that has finished a task is retired by the next tick, whatever others have taught since |
| Ceiling.FirstTaskIffItFits | crates/tarsk-core/src/lib.rs:1051-1099 | a fresh child is given a first task if and only if nothing is known, or the cost is nothing, or one fits |
| ChildFrames.WhatIsSentIsRead | tarsk/_child.py:207-279 | however a task ends, the supervisor reads from the child's frame just the job and the outcome meant; a retry delay if and only if it fits 32 bits of milliseconds |
| ChildFrames.TheOthersAreKnown | crates/tarsk-core/src/lib.rs:1521-1604 | the child's Ready and Progress frames are read as what they are |
| Credit.CreditsAreConserved | tarsk/_child.py:333-373 | until retirement the credits unsent, in transit, held, dispatched, running and answered always come to the slots, so at most that many tasks run |
| Credit.AReadyIsForASpareSlot | crates/tarsk-core/src/lib.rs:1522-1543 | when a Ready is read, offers and work in flight leave at least one slot spare |
| CeilingCredit.EveryReadyFindsASlot | crates/tarsk-core/src/lib.rs:1522-1552 | over every run of child and supervisor together, the Readys acted on as they come, each finds a slot that is neither offered nor taken, the child's tasks being the jobs in flight |
| CeilingCredit.TheCeilingHolds | crates/tarsk-core/src/lib.rs:1522-1552 | so with a well-behaved child the ceiling's bound rests on nothing but what a task can add |
| Credit.DrainedHoldsNothing | crates/tarsk-core/src/lib.rs:1652-1687 | after a Drain with no deadline hit nothing is in flight when the child's stream ends |
| Credit.FinishedHoldsNothing | crates/tarsk-core/src/lib.rs:1547-1550 | a finished child has nothing on its way to it, running, or unread |
| Credit.QuietMeansEverySlotIsFree | tarsk/_child.py:335-347 | when nothing is in transit or at work the supervisor holds every credit: no slot is ever lost |
| ThreadPool.AnAskAlwaysFinds | tarsk/_child.py:306-331 | a sync layer or handler that asks for a thread always finds one, for any number and order of middlewares |
| ThreadPool.ThePoolIsJustLargeEnough | tarsk/_child.py:311-328 | that holds if and only if the pool has slots * (1 + blocking layers) threads |
| ThreadPool.APoolOfSlotsLocksUp | tarsk/_child.py:311-320 | sized to the slots alone, every slot can take a thread for its outermost layer and then none can go on |
| Backoff.HashOf | crates/tarsk-core/src/lib.rs:733-739 | the loop computes the FNV-1a hash of the id |
| Backoff.BackoffFor | crates/tarsk-core/src/lib.rs:726-742 | the delay is the specified place in the window, fixed by the id, and nothing for a task that asked for none |
| Backoff.DelayIsInTheTopHalf | crates/tarsk-core/src/lib.rs:726-742 | a backoff is at least half its window and less than all of it, and nothing only where nothing is asked for |
| Backoff.LaterAttemptsWaitLonger | crates/tarsk-core/src/lib.rs:720-742 | up to the seventh attempt a later one waits longer than an earlier one did, whatever the ids |
| Backoff.RedisWaitsTheBackoffOutIff | crates/tarsk-core/src/lib.rs:720-731 | Redis waits a backoff out if and only if its whole milliseconds fit the timeout and the grace: always from a deadline of 64 seconds, and below 32 never from the seventh attempt on |
| MemoryQueue.FirstDue | crates/tarsk-core/src/broker.rs:848-856 | a claim takes the longest-queued ticket that is due |
| MemoryQueue.MemoryBroker.ClaimJob | crates/tarsk-core/src/broker.rs:848-871 | a claim removes that ticket and counts an attempt, changing no other job |
| MemoryQueue.APutBackJobWaitsItsDelay | crates/tarsk-core/src/broker.rs:848-904 | a job put back is not handed out before its delay is over, and after it, with nothing else due, it is, keeping its ready time |
| AtLeastOnce.FinishedWasHandedOut | crates/tarsk-core/src/broker.rs:10-11 | of any broker whose steps move a job on by a stage at most: a job that is finished was handed out before |
| AtLeastOnce.NeverForgotten | crates/tarsk-core/src/broker.rs:10-11 | and one that was pushed is there, and once finished stays finished |
| AtLeastOnce.MemoryIsAtLeastOnce | crates/tarsk-core/src/broker.rs:839-904 | the in-memory broker's runs are such, whatever is pushed, claimed and put back, if only claimed jobs are settled |
| BatchOnce.BatchCallsAreInTurn | crates/tarsk-core/src/lib.rs:425-605 | every batch run is such a use: with any children in any interleaving, the calls made on the broker settle claimed jobs only |
| AtLeastOnce.PostgresIsAtLeastOnce | crates/tarsk-core/src/broker.rs:2677-2854 | so are those of the tables, under any interleaving of workers and operators, if receipts are ones that were handed out |
| AtLeastOnce.RedisIsAtLeastOnce | crates/tarsk-core/src/broker.rs:1624-2072 | so are those of the stream, under any interleaving, with crashes and late settlements; handed out there means granted to a supervisor |
| AtLeastOnce.ARowIsClaimedAgain | crates/tarsk-core/src/broker.rs:2677-2703 | from any state of any run a row that is not finished can come to be claimed again, on a receipt that takes effect |
| Postgres.PgTables.ClaimRow | crates/tarsk-core/src/broker.rs:2677-2703 | a claim takes the first claimable unlocked row by queue priority and then age, leases it and counts, and reports when it became runnable |
| Postgres.PgTables.DeadLetter | crates/tarsk-core/src/broker.rs:3196-3234 | the current row moves to the dead letters, and with a cap its queue is then trimmed of its oldest |
| Postgres.PgTables.Trim | crates/tarsk-core/src/broker.rs:3219-3232 | what is dropped is the oldest of the letter's queue, down to the cap |
| Postgres.PgTables.ReplayDead | crates/tarsk-core/src/broker.rs:3164-3181 | the selected letters, each once, move to the live rows in one step |
| Postgres.PgTables.PurgeDead | crates/tarsk-core/src/broker.rs:3183-3194 | exactly the selected letters go |
| Postgres.HiddenUntilThen | crates/tarsk-core/src/broker.rs:2838-2854 | a requeued row can be claimed again exactly from after its delay, a claimed one from after its timeout and grace |
| Postgres.ReplayMovesEachOnce | crates/tarsk-core/src/broker.rs:3164-3181 | each listed letter leaves the dead and comes back once under a fresh id with no attempt, live rows unchanged |
| Postgres.AListIsKeptToIff | crates/tarsk-core/src/broker.rs:3167-3173 | a list is kept to if and only if some id in it parses or the queue has no dead letters |
| Postgres.AMistypedIdSelectsAll | crates/tarsk-core/src/broker.rs:3167-3173 | one mistyped id selects the whole queue |
| PostgresRuns.AttemptIsTheFence | crates/tarsk-core/src/broker.rs:2694-2698 | over any run of many workers attempt equals run_lease |
| PostgresRuns.AtMostOneReceiptTakesEffect | crates/tarsk-core/src/broker.rs:2823-2854 | of all receipts ever issued for a row at most the last can still take effect |
| PostgresRuns.ALateSettlementChangesNothing | crates/tarsk-core/src/broker.rs:2823-2854 | a receipt that no longer takes effect never will: its ack, requeue or burial changes no row at any later time |
| PostgresRuns.LeasesOverlapOnlyByConsent | crates/tarsk-core/src/broker.rs:2677-2703 | successive leases on a row overlap only if the holder gave the row back |
| PostgresRuns.BurialNeverConflicts | crates/tarsk-core/src/broker.rs:3206-3218 | a dead letter never finds its id taken, so a burial never drops the job |
| PostgresRuns.EveryJobHasOneFate | crates/tarsk-core/src/broker.rs:3164-3234 | every id is in exactly one of live, dead, acked, trimmed, purged and replayed; none is reused |
| PostgresRuns.PushedIsLiveAckedOrDead | crates/tarsk-core/src/broker.rs:3196-3234 | with no cap and no operator every pushed job is live, acked or dead |
| PostgresRuns.EachQueueKeepsToTheCap | crates/tarsk-core/src/broker.rs:3196-3234 | over every run with a cap each queue has at most that many dead letters besides those whose burial's own trim is still to come, whatever comes between the two statements |
| PostgresRuns.ReplayedOnceUnderAFreshId | crates/tarsk-core/src/broker.rs:3164-3181 | in any run a selected letter comes back exactly once under a fresh id, attempt 0, without chain, metadata or expiry |
| Redis.BackoffIsTheDelayCapped | crates/tarsk-core/src/broker.rs:2035-2072 | with the grace recorded a requeued entry is first overdue exactly min(delay, timeout + grace) later |
| Redis.UnrecordedGraceIsAdded | crates/tarsk-core/src/broker.rs:2047-2048 | before the sweep has recorded its grace the entry waits the grace on top |
| Redis.FloorHidesNothingOverdueIff | crates/tarsk-core/src/broker.rs:2516-2554 | the pending-list floor hides no overdue entry if and only if the shortest timeout seen is at most a millisecond above the entry's |
| Redis.RequeuedIsSweptOnTime | crates/tarsk-core/src/broker.rs:2516-2554 | a worker that knows the timeout lists and finds a requeued entry overdue at that same moment |
| Redis.RedisWorker.PopInTime | crates/tarsk-core/src/broker.rs:1928-1948 | the first buffered entry with time left goes out, those before it are dropped, and each drop halves the batch |
| Redis.RedisWorker.TakeBatch | crates/tarsk-core/src/broker.rs:1949-2004 | of a read one entry goes out and the rest are kept in order; the batch doubles to its cap; the shortest timeout is learned |
| Redis.RedisWorker.ClaimNext | crates/tarsk-core/src/broker.rs:1928-2004 | owned entries go out before any read, and nothing goes out that has outwaited its time |
| RedisRuns.NoEntryIsLost | crates/tarsk-core/src/broker.rs:1624-1637 | over any interleaving, settlements and requeues by former holders included, an unsettled job is in exactly one of the delayed set, the undelivered stream and the pending list |
| RedisRuns.BufferedIsStillOurs | crates/tarsk-core/src/broker.rs:1928-1948 | an entry handed out of the buffer in time is still owned by this supervisor, by this claim, if no settlement or requeue was late and its reply took less than the least grace and, for a job with a timeout, a millisecond |
| RedisRuns.SlowerItMayNotBe | crates/tarsk-core/src/broker.rs:2551-2565 | that bound is exact: for any timeouts and graces and any slower reply a run exists in which the entry is in the buffer, in time, and another's |
| RedisRuns.ALateSettlementLeavesItBuffered | crates/tarsk-core/src/broker.rs:2010-2030 | and for any of them a run in which a former holder settles the entry late and it is still in the buffer, in time |
| RedisSweeps.OnThePageIff | crates/tarsk-core/src/broker.rs:2527-2538 | over every run a sweep is told of an entry if and only if it is pending and idle for the floor and fewer than 64 earlier ones are |
| RedisSweeps.AnEntryIsHandedOutAgain | crates/tarsk-core/src/broker.rs:2516-2590 | from any state of any run, with any number of others pending before it, an unsettled entry, delayed, undelivered or pending with a supervisor that may be dead, can come to be handed out on a fresh claim by a supervisor that learns of any timeout |
| RedisSweeps.WithoutATimeoutNothingIsSwept | crates/tarsk-core/src/broker.rs:2516-2525 | one that has learned of none finds no entry overdue |
| Buckets.CreditIsTimeAndWaits | crates/tarsk-core/src/broker.rs:764-771 | callers take the lock in turn, each having read the clock before it and reading it again under it; what they are credited with is exactly the window's length and, over again, the waits of its inner callers |
| Buckets.AtMostBurstPlusRateAndWaits | crates/tarsk-core/src/broker.rs:764-778 | so at most burst + rate * (T + inner waits) tokens are granted in any window |
| Buckets.TheBoundIsAttained | crates/tarsk-core/src/broker.rs:764-778 | no smaller bound holds: for any calls over a time above zero there are a rate and a depth at which a fresh bucket grants all of it |
| Buckets.BurstPlusRateIff | crates/tarsk-core/src/broker.rs:764-778 | calls on a fresh bucket keep to burst + rate * T at every rate and depth if and only if no inner caller waited for the lock |
| Buckets.AtMostBurstPlusRate | crates/tarsk-core/src/broker.rs:764-778 | with one reading a call at most burst + rate * T tokens are granted in any window |
| Buckets.WaitIsExact | crates/tarsk-core/src/broker.rs:772-777 | waiting the named time with no competitor is granted if and only if burst is at least one, and a millisecond less is refused |
| Buckets.ExpiryChangesNoAnswer | crates/tarsk-core/src/broker.rs:2282-2313 | the key's expiry never changes any later answer compared with a bucket that never expires |
| Buckets.RedisGrantsAlike | crates/tarsk-core/src/broker.rs:2282-2313 | the script grants exactly when the in-process bucket would |
| Coordination.LocalCoordination.TakeToken | crates/tarsk-core/src/broker.rs:764-778 | the wait and the new bucket are the specified ones, other tasks untouched |
| Coordination.LocalCoordination.AcquireSlot | crates/tarsk-core/src/broker.rs:780-793 | lapsed holders are pruned and a slot taken if there is room |
| Coordination.LocalCoordination.ReleaseSlot | crates/tarsk-core/src/broker.rs:795-799 | only the key's own slot is given back |
| Coordination.LocalCoordination.ClaimTick | crates/tarsk-core/src/broker.rs:801-806 | a minute is won by the first caller and no later one |
| BatchRates.AtMostBurstPlusRateAndWaits | crates/tarsk-core/src/lib.rs:1385-1428 | with any number of children in any interleaving, fill loops waiting for the lock with the clock already read among them, the jobs of a rate-limited task cleared for dispatch over any stretch of a run number at most burst + rate * (T + inner waits) |
| BatchRates.AtMostBurstPlusRate | crates/tarsk-core/src/lib.rs:1385-1428 | and at most burst + rate * T if no fill loop waits between its readings |
| BatchRates.DispatchesAreWithinTheRate | crates/tarsk-core/src/lib.rs:1385-1428 | those dispatched over it number at most that and the ones already cleared when it began, one to a child at most |
| BatchRates.TheClearedOnesAdd | crates/tarsk-core/src/lib.rs:1385-1428 | and these do add: for any rate and two jobs there is a run that dispatches both in no time at a burst of one |
| BatchCaps.AtMostTheCapIsInProgress | crates/tarsk-core/src/lib.rs:1429-1482 | with any number of children in any interleaving, a capped task's jobs that are dispatched or about to be, on leases that have not lapsed, number at most its cap |
| BatchCaps.NoSlotIsLeftBehind | crates/tarsk-core/src/lib.rs:447-457 | every way out gives the slot back: one is held only for a job whose settling has not begun |
| Chains.EachHopShortensTheTail | crates/tarsk-core/src/lib.rs:465-519 | whatever the bytes, a hop leaves a tail one step shorter and inherits neither metadata nor expiry |
| Chains.RowMakesItsJob | tarsk/__init__.py:617-627 | a client's row becomes that step's job, with the result spliced in exactly when it asked |
| Chains.ChainIsALeftFold | crates/tarsk-core/src/lib.rs:465-519 | a sent chain queues exactly the left fold's jobs in order and nothing after a failed step; its last answer is the fold's under the id the client holds |
| ChainCrash.NoStepIsAckedEarly | crates/tarsk-core/src/lib.rs:425-438 | through any crashes and redeliveries, workers on lapsed leases going on beside the new ones: every entry is live, acked or buried, each pushed one is the next step of an earlier entry, and of an entry that has a next step the acks, done or about to be, number at most its pushes and refusals |
| ChainCrash.DryQueueMeansFinished | crates/tarsk-core/src/lib.rs:431-438 | a chain whose queue is dry with nothing buried ended at its last step or at one whose push was refused, and at its last if none was |
| ChainCrash.ARefusedPushDropsTheChain | crates/tarsk-core/src/lib.rs:514-518 | a refused push drops the rest of any chain |
| Calendar.CivilIsTheCalendar | crates/tarsk-core/src/cron.rs:98-122 | for every timestamp the date and weekday are those reached by walking day by day, and the clock reads the time since midnight |
| Calendar.CivilStep | crates/tarsk-core/src/cron.rs:98-122 | the civil date of the next day is the next date of the Gregorian calendar |
| Calendar.YearOfEraIsTheYear | crates/tarsk-core/src/cron.rs:106-106 | the constant-division formula finds the year whose days contain the day |
| CronFields.Mark | crates/tarsk-core/src/cron.rs:62-66 | the inner loop sets exactly the bits its 32-bit steps visit |
| CronFields.ParseField | crates/tarsk-core/src/cron.rs:28-72 | a field is accepted exactly when every part is readable, its bits are the parts', and the first unreadable part decides the error |
| CronFields.Parse | crates/tarsk-core/src/cron.rs:74-96 | an expression is accepted exactly when it has five readable fields |
| CronFields.PartMeansWhatItSays | crates/tarsk-core/src/cron.rs:62-66 | a part's bits are what it is written to admit if and only if its first step does not wrap |
| CronFields.FieldMeaning | crates/tarsk-core/src/cron.rs:28-72 | a bit is set exactly when some list part admits its value, when no step wraps |
| CronFields.FieldIsInhabited | crates/tarsk-core/src/cron.rs:68-70 | a parsed field always matches something in its range and nothing past it, so narrowing its bits loses none |
| CronFields.PlainAsteriskIsWhole | crates/tarsk-core/src/cron.rs:43-45 | a field with a plain asterisk is unrestricted and holds its whole range |
| CronFields.DayRuleIsCrontabs | crates/tarsk-core/src/cron.rs:139-144 | the day rule is crontab's for every day if and only if an unrestricted day field has all its bits |
| CronFields.MatchesIsByTheMinute | crates/tarsk-core/src/cron.rs:124-146 | matching is constant within a minute and reads the walked calendar's date |
| Framing.FrameComesBackIff | crates/tarsk-core/src/lib.rs:38-64 | a written frame reads back with the rest of the stream if and only if it is within MAX_FRAME |
| Framing.WrittenIsRead | tarsk/_proto.py:26-48 | reading the concatenation of written frames gives exactly those frames and then the end |
| Framing.ACutGivesTheWholeFrames | tarsk/_proto.py:31-43 | a stream cut anywhere reads as the whole frames before the cut, and then the end or an error |
| Framing.Channel.ReadOne | crates/tarsk-core/src/lib.rs:38-55 | a read takes one whole frame off the front, or says why it cannot |
| Framing.Channel.Drain | crates/tarsk-core/src/lib.rs:973-982 | the reader's loop returns every frame of the stream, and why it stopped |
| Wire.NoFrameIsTorn | tarsk/_child.py:28-46 | however senders interleave, the stream reads as whole frames and at most the beginning of one more |
| Wire.FirstComeFirstOut | tarsk/_child.py:36-42 | frames go out in the order their senders came for the lock, and so each coroutine's in the order it sent them, none twice |
| Wire.AllOutWhenNotWaiting | tarsk/_child.py:40-46 | a coroutine, or a thread that waits for one, that is not waiting has all its frames on the stream |
| Wire.ProgressFirstIfItRan | tarsk/_child.py:222-237 | an async handler's progress goes out before its task's answer if its coroutine has run by then |
| Wire.ProgressLastIfItHadNot | tarsk/_child.py:222-237 | and after it if it has not, which nothing prevents |

## Left out

- Sockets, named pipes, spawning, signals and process exits: RSS is read exactly and a child's death is an event.
- The AMQP driver, whose behaviour lives in the server, and the Postgres `take_token` and `acquire_slot` statements, whose atomicity depends on the isolation level.
- The Redis slots, revocation, deduplication and dead-letter scripts; the stream's several queues are one stream here, so the order of probing queues is not modelled, and neither is how many entries one read returns.
- The result store, progress records and revocation sets with their expiries: reading and writing maps of deadlines.
- Warming spares (`should_warm`) and the spawn cap: a replacement child is one more child at any moment.
- Producers, the registry, middleware hooks and deadlines inside a child (`_both_deadlines`), the console, metrics and the command line.
- Broker errors other than a refused chain push: a settlement that the broker refuses is counted by the source and not repeated, which the machines do not show.
- `fail` and shutdown, which end a run from outside its results.
- BatchRetries.AtMostRetriesPlusOne: is about the in-memory broker; on the durable ones a lapsed lease redelivers a job that is still running.
- BatchCaps.AtMostTheCapIsInProgress: takes slot keys as distinct and the in-memory broker, where a job is in one place at a time; on the others two deliveries of one job can share a key, and then one can give back the other's slot.
- RedisRuns.BufferedIsStillOurs: takes delayed ids as distinct and settlements by present holders only; Redis does not fence off a late settlement, which only `NoEntryIsLost` allows for.
- AtLeastOnce.MemoryIsAtLeastOnce: has no redelivery, since a job of the in-memory broker is lost with its process.
- RedisSweeps.AnEntryIsHandedOutAgain: has one stream, where the source asks for 64 entries of each queue's.
- BatchRates.AtMostBurstPlusRateAndWaits: a job's expiry is looked at when its token is asked for; in the source it is before the wait for the lock, so a job may go stale during that wait and still be cleared.
- Texts whose first character is U+0100 to U+07FF: their first byte is a msgpack marker that takes its length from the text, and that reading is taken to fail.
- Credit.CreditsAreConserved: takes a child that neither crashes nor abandons a task on a sync timeout; the arbitrary child is ChildRuns' subject.
- Batch.FillNoWorker: runs after every child task has ended; the source may still have detached drains recording, and the first outcome to arrive is kept.
