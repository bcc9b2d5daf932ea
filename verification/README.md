# Verified protocols of the Python service runtime

This project models the asyncio protocols of a service runtime and proves what they keep over every run:
offsets, assignments and lanes of a Kafka source, sessions of a gRPC streaming sink, requests of a gRPC
source, the task pools and the quiescence wait of a Temporal Workflow, SubStream invocations, and `@every`
schedules.  Beside them stand the pure cores: Workflow identities, timestamps, word splitting, the
validation of a service's links, and the merge of configuration values.

`dafny verify dfyconfig.toml` checks all of it.

## How the protocols are modelled

Everything runs on one event loop, so the code between two suspension points is one atomic step.  Each
protocol module has a `State`, the `Event`s that can happen, `Enabled` (when an event can happen) and
`Apply` (the next state).  `Runs.dfy` gives runs of events; a theorem about `StateOf(run)` holds for every
interleaving, every cancellation and every failing external call.  What handlers see of a run is its
`History`; where a property is about callbacks, a small reference automaton accepts exactly the good
histories, one lemma shows that every run follows it, and others show what that means.  Beside what may
never happen, each protocol says what its steps must do, mostly as an if-and-only-if over the events of the
run: which marks take effect, which messages start, which results reach their callbacks.  Fields that only
record history for the proofs are named as such in their modules.

Beside each protocol stands a class with the source's fields.  Its methods are the pieces of code between
suspension points, with the source's branches and loops, and each is proved to perform the protocol's
step on `View()`, the abstract state.

| file | what it models |
|---|---|
| `KafkaOffsets.dfy` | marks, flusher, manual commits, checkpoint revocation and assignment |
| `KafkaLanes.dfy` | partition queues, lanes, pause and resume, the concurrency limit |
| `KafkaSource.dfy` | both together: admission by the assignment, epochs of handler calls, revocations that cancel lanes |
| `GrpcSink.dfy` | streaming sink sessions, one per stream ID at a time |
| `GrpcSource.dfy` | request admission, result callbacks, cancellation, shielded finalization |
| `WorkflowPool.dfy`, `Quiescence.dfy` | Workflow task pools; tracked tasks, the sticky failure and the waits |
| `SubStream.dfy` | one SubStream invocation: deliveries, close, drain |
| `CronInterval.dfy` | the coalescing interval trigger and the endpoint's slot accounting |
| `Words.dfy`, `Names.dfy` | the two word splitters; slugs, percent-encoding, Workflow IDs |
| `Timestamps.dfy`, `Text.dfy` | RFC 3339 timestamps, trigger identities; decimal numerals |
| `Startup.dfy` | configuration indexes, link validation, pool creation, caller construction |
| `DeepMerge.dfy` | the recursive merge |
| `Runs.dfy`, `KafkaTypes.dfy` | runs of events; topic partitions |

## Assumptions

- The Kafka client awaits one rebalance callback before it starts the next.  No cancellation lands inside
  the lock acquisition of `_release_concurrency`.
- The read/write lock is a standard one that prefers writers: a reader enters when no writer holds it or
  waits, a writer when it is free.  No cancellation lands while its read side is being released.  `RotatingMap` is a map whose `set` raises on a key that is present.
- The task that creates a sink session is not cancelled while it creates it.  Reporting hooks do not raise.
- The gRPC finalization task, the SubStream close and callback tasks, and the pool executors are not
  cancelled from outside.
- An asyncio priority queue hands out its least entry.  An event's `wait` may resume at any time after a set.
- APScheduler collects due times while the next one is not after now, reports the last one for a
  coalescing job, and its interval rule gives the previous time plus the interval, or at first the least
  slot not before now.  Times are whole microseconds.
- `%Y` prints a year without leading zeros.  Instants are in UTC, and `\d` matches ASCII digits.
- Python's character classes and its lower-casing are a parameter, `Words.Unicode`.  `Words.Standard` fixes their
  ASCII part, and that lower-casing brings no slash into a word; `Words.Lowers` adds that it brings in no
  underscore, leaves no word empty, and does not lengthen a text made of characters of a lower-cased one.
- The validated links and the graph's configuration are the same: no reload between the two.  Only Input,
  Process and Sink streams have error outputs, and their IDs are not negative.

## What turned out not to hold

- Kafka lanes: a non-empty queue does not always have a live lane.  A revocation that cancels a lane
  before its first step skips the lane's `finally`, so its queue stays and no lane ever serves it again.
  `KafkaLanes.StrandedIffCancelledBeforeStart` gives the exact condition,
  `KafkaSource.RevokeBeforeFirstStepStrands` a run through a whole rebalance, after which the partition is
  assigned again and still not served.
- Kafka commits: they are not always nondecreasing.  A mark below an earlier commit is accepted once
  nothing is pending; `KafkaOffsets.FlushAfterMarkInOrderIff` gives the exact condition,
  `KafkaOffsets.LateMarkBreaksTheOrder` a run that commits 6 and then 2.
- Timestamps: the round trip needs a year from 1000 on; `Timestamps.TimestampRoundTrip` says what happens
  otherwise.
- SubStream: a callback that returned true does not always make the invocation succeed.
  `SubStream.CompleteFailsIffCancelled` gives the exact condition, `SubStream.CancelledAnswerFails` a run.
- Slugs: naming a slug does not always give the slug.  `Names.IdempotentIff` gives the exact condition, which
  every ASCII name meets (`Names.IdentityNameIdempotent`); `Names.DottedCapitalIsNoFixedPoint` and
  `Names.LoneCapitalIsNoFixedPoint` give names that do not.
- `finish` of the Workflow environment: unlike the waits, its normal return can hide a task.  It awaits the
  stop of the storages after its last look at the tracked tasks, and a timer of a storage can still create
  one.  `Quiescence.FinishHidesNothingIff` and `Quiescence.OnlyLateTasksCanHide` give the exact condition,
  `Quiescence.FinishCanHideATask` a run.

## Model

| member | source | states |
|---|---|---|
| KafkaOffsets.MarkIsCovered | src/pyservicelib_gorundebug/datasource/kafka/aiokafkads.py:691-709 | In every interleaving of marks, flushes with failing commits and rebalances: a mark accepted or an offset restored in an assignment that has not been revoked is still pending at a value at least as large, or a successful flush of that assignment committed at least as much |
| KafkaOffsets.PendingIsSourced | src/pyservicelib_gorundebug/datasource/kafka/aiokafkads.py:512-520 | Whatever is pending, and so whatever a flush can commit, is an accepted mark or a restored checkpoint offset; for a live partition, one of its current assignment |
| KafkaOffsets.CommitsInOrder | src/pyservicelib_gorundebug/datasource/kafka/aiokafkads.py:699-709 | Flush commits of a partition and assignment never decrease in any run without a late mark, a mark below an earlier commit that finds nothing pending |
| KafkaOffsets.OrderedMarksCommitInOrder | src/pyservicelib_gorundebug/datasource/kafka/aiokafkads.py:691-709 | If marks and restored offsets are nondecreasing within an assignment, so are its flush commits |
| KafkaOffsets.ValuesBound | src/pyservicelib_gorundebug/datasource/kafka/aiokafkads.py:691-709 | Nondecreasing marks exclude late marks, and every commit sent stays at or below the latest marked value |
| KafkaOffsets.FlushAfterMarkInOrderIff | src/pyservicelib_gorundebug/datasource/kafka/aiokafkads.py:691-697 | The exact boundary: flushing right after a mark keeps the commits in order if and only if the mark was not late |
| KafkaOffsets.LateMarkBreaksTheOrder | src/pyservicelib_gorundebug/datasource/kafka/aiokafkads.py:691-709 | A concrete run: in one assignment record 5 is marked and committed before record 1, and the flushes commit 6 and then 2 |
| KafkaOffsets.AcceptedEpoch | src/pyservicelib_gorundebug/datasource/kafka/aiokafkads.py:463-477 | An accepted mark's epoch is never ahead of the partition's epoch, and strictly behind it while the partition is being revoked |
| KafkaOffsets.FenceHolds | src/pyservicelib_gorundebug/datasource/kafka/aiokafkads.py:463-477 | After a revocation the partition's epoch stays beyond every epoch captured before it, over any number of later revoke and assign cycles |
| KafkaOffsets.RevokedRequestsAreFenced | src/pyservicelib_gorundebug/datasource/kafka/aiokafkads.py:843-861 | Any mark or commit that takes effect after the revocation returned belongs to a request that captured a newer epoch |
| KafkaOffsets.RevokedOffsetsAreGone | src/pyservicelib_gorundebug/datasource/kafka/aiokafkads.py:474-477 | After the revocation callback, what is pending for the partition was marked or restored in a newer epoch |
| KafkaOffsets.CheckpointErrorClosesAdmission | src/pyservicelib_gorundebug/datasource/kafka/aiokafkads.py:521-531 | A checkpoint error leaves the assigned set empty, no partition live and no request current, for ever |
| KafkaOffsets.AdmittedAtRestoredOffset | src/pyservicelib_gorundebug/datasource/kafka/aiokafkads.py:509-520 | With checkpoints, a live partition's position was restored by the assignment of its current epoch |
| KafkaOffsets.InvHolds | src/pyservicelib_gorundebug/datasource/kafka/aiokafkads.py:463-531 | The state invariant holds over every run, and epochs never go back |
| KafkaOffsets.MarkTakesEffectIff | src/pyservicelib_gorundebug/datasource/kafka/aiokafkads.py:843-855 | A begun request's mark always takes effect without checkpoints; with them, if and only if the partition is assigned, no restoration failed, and it was neither revoked nor assigned since the request began; it then raises what is pending to the next offset, and otherwise changes nothing |
| KafkaOffsets.CommitTakesLockIff | src/pyservicelib_gorundebug/datasource/kafka/aiokafkads.py:857-861 | The same decides whether a manual commit goes to the broker under the lock or is refused |
| KafkaOffsets.PlainSourceActs | src/pyservicelib_gorundebug/datasource/kafka/aiokafkads.py:846-861 | In a source without checkpoints every mark is pending afterwards and every commit goes to the broker |
| KafkaOffsets.AdmissionFollowsEvents | src/pyservicelib_gorundebug/datasource/kafka/aiokafkads.py:463-531 | Epoch, assignment, failure and the rebalance under way are what the rebalance events make of them; the epoch counts revocations and assignments |
| KafkaOffsets.LiveIff | src/pyservicelib_gorundebug/datasource/kafka/aiokafkads.py:711-716 | Records are admitted always without checkpoints, and with them exactly while the partition is assigned and no restoration failed |
| KafkaOffsets.FlushSendsAllPending | src/pyservicelib_gorundebug/datasource/kafka/aiokafkads.py:699-706 | A flush carries everything that was pending when it began |
| KafkaOffsets.FlushAnswer | src/pyservicelib_gorundebug/datasource/kafka/aiokafkads.py:699-709 | After an accepted flush exactly what was marked beyond it stays pending, after a refused one everything; the lock is free |
| KafkaOffsets.CommitAnswer | src/pyservicelib_gorundebug/datasource/kafka/aiokafkads.py:857-861 | The answer to a manual commit frees the lock and drops nothing |
| KafkaOffsets.DropsIff | src/pyservicelib_gorundebug/datasource/kafka/aiokafkads.py:474-477 | What is pending is dropped if and only if an accepted flush covers it or its partition's revocation returned |
| KafkaOffsets.RefusedIff | src/pyservicelib_gorundebug/datasource/kafka/aiokafkads.py:488-511 | The exact reasons to refuse a restoration: no checkpoint, one out of range, a partition it does not cover, an offset outside the log |
| KafkaOffsets.EndpointConsumer.constructor | src/pyservicelib_gorundebug/datasource/kafka/aiokafkads.py:371-419 | A new consumer is in the initial state |
| KafkaOffsets.EndpointConsumer.CurrentAssignment | src/pyservicelib_gorundebug/datasource/kafka/aiokafkads.py:846-851 | The closures' guard: no error, partition assigned, same epoch |
| KafkaOffsets.EndpointConsumer.BeginRequest | src/pyservicelib_gorundebug/datasource/kafka/aiokafkads.py:843-844 | A request captures its partition's epoch |
| KafkaOffsets.EndpointConsumer.MarkMessage | src/pyservicelib_gorundebug/datasource/kafka/aiokafkads.py:691-697 | Marks the next offset, never lowering a pending one, if the guard holds |
| KafkaOffsets.EndpointConsumer.CommitMessage | src/pyservicelib_gorundebug/datasource/kafka/aiokafkads.py:857-861 | Takes the commit lock for the broker call, or is refused when the guard fails |
| KafkaOffsets.EndpointConsumer.FinishCommit | src/pyservicelib_gorundebug/datasource/kafka/aiokafkads.py:857-861 | Releases the lock whatever the broker answered |
| KafkaOffsets.EndpointConsumer.BeginFlush | src/pyservicelib_gorundebug/datasource/kafka/aiokafkads.py:699-706 | Snapshots the pending offsets under the lock |
| KafkaOffsets.EndpointConsumer.FinishFlush | src/pyservicelib_gorundebug/datasource/kafka/aiokafkads.py:706-709 | On success drops exactly the offsets that the snapshot covers, by a loop over the snapshot |
| KafkaOffsets.EndpointConsumer.BumpEpochs | src/pyservicelib_gorundebug/datasource/kafka/aiokafkads.py:468-469 | The loop raises the epoch of each partition by one and no other |
| KafkaOffsets.EndpointConsumer.BeginRevoke | src/pyservicelib_gorundebug/datasource/kafka/aiokafkads.py:463-474 | Closes admission and raises the epochs before anything is awaited |
| KafkaOffsets.EndpointConsumer.FinishRevoke | src/pyservicelib_gorundebug/datasource/kafka/aiokafkads.py:475-477 | Under the lock, drops what is pending for the revoked partitions |
| KafkaOffsets.EndpointConsumer.BeginAssign | src/pyservicelib_gorundebug/datasource/kafka/aiokafkads.py:479-488 | Closes admission; after an error or without an active owner nothing is restored |
| KafkaOffsets.EndpointConsumer.RestorePositions | src/pyservicelib_gorundebug/datasource/kafka/aiokafkads.py:515-519 | The loop over the selected offsets: seek, raise the epoch, mark; a failing seek stops it and what was sought before stays restored |
| KafkaOffsets.EndpointConsumer.FinishAssign | src/pyservicelib_gorundebug/datasource/kafka/aiokafkads.py:488-531 | Admits all partitions exactly when the checkpoint covers them within the log bounds, the owner is alive and every seek succeeds; otherwise closes admission for good, keeping the seeks already made |
| KafkaOffsets.EndpointConsumer.CloseAdmission | src/pyservicelib_gorundebug/datasource/kafka/aiokafkads.py:521-523 | Records the error and clears the assigned set |
| KafkaOffsets.EndpointConsumer.AdmitSelected | src/pyservicelib_gorundebug/datasource/kafka/aiokafkads.py:512-531 | The locked part of the assignment as one step: confirmed, or failed at a seek |
| KafkaLanes.OneDispatchPerPartition | src/pyservicelib_gorundebug/datasource/kafka/aiokafkads.py:745-758 | For any arrivals, cancellations and limits, at most one lane of a partition is dispatching |
| KafkaLanes.DispatchFollowsArrival | src/pyservicelib_gorundebug/datasource/kafka/aiokafkads.py:711-758 | Records are dispatched in arrival order; taken, then queued records are a subsequence of the arrivals |
| KafkaLanes.NothingDropped | src/pyservicelib_gorundebug/datasource/kafka/aiokafkads.py:711-769 | Unless a lane ends with records queued, by a stop, a failure or a cancellation, taken and queued records are exactly the arrivals |
| KafkaLanes.StrandedIffCancelledBeforeStart | src/pyservicelib_gorundebug/datasource/kafka/aiokafkads.py:728-769 | The exact condition: a non-empty queue without a live lane exists if and only if a lane of that partition was cancelled before its first step |
| KafkaLanes.OwnerLostIff | src/pyservicelib_gorundebug/datasource/kafka/aiokafkads.py:463-474 | A queue keeps its dead lane's table entry if and only if that lane was cancelled before its first step |
| KafkaLanes.StrandedForever | src/pyservicelib_gorundebug/datasource/kafka/aiokafkads.py:711-734 | From then on the partition takes nothing and its queue only grows by the arrivals |
| KafkaLanes.RevokeBeforeFirstStepStrands | src/pyservicelib_gorundebug/datasource/kafka/aiokafkads.py:463-474 | A concrete run: arrive, cancel, arrive again leaves two records that no lane will take |
| KafkaLanes.AdmissionWithinLimit | src/pyservicelib_gorundebug/datasource/kafka/aiokafkads.py:782-796 | The active count is the number of in-flight dispatches, and an admission is within the limit it sampled |
| KafkaLanes.SleepersAreBlocked | src/pyservicelib_gorundebug/datasource/kafka/aiokafkads.py:782-796 | No lost wake-up: a lane waiting for concurrency is still over the limit that it sampled |
| KafkaLanes.QuietSourceIsClean | src/pyservicelib_gorundebug/datasource/kafka/aiokafkads.py:745-769 | When no lane is live and none was lost, the queues, the lane table, the paused set and the active count are empty |
| KafkaLanes.InvHolds | src/pyservicelib_gorundebug/datasource/kafka/aiokafkads.py:711-796 | The tables, counts and wake-ups are consistent over every run |
| KafkaLanes.EveryTakenRecordSettles | src/pyservicelib_gorundebug/datasource/kafka/aiokafkads.py:748-796 | Every record a lane takes is settled in order: its handler starts, or it is given up by a stop, a cancellation of its lane or a raising `concurrency`; at most the newest still waits for its place |
| KafkaLanes.AcquireIff | src/pyservicelib_gorundebug/datasource/kafka/aiokafkads.py:782-791 | A lane's handler starts if and only if the source is not stopped and there is no limit or a place below it; at the limit it waits with its record |
| KafkaLanes.EverySleeperWakes | src/pyservicelib_gorundebug/datasource/kafka/aiokafkads.py:793-796 | A release or a notification makes every sleeping lane look again with its own record |
| KafkaLanes.LaneGoesOnIff | src/pyservicelib_gorundebug/datasource/kafka/aiokafkads.py:748-769 | After a dispatch the lane takes its next record if and only if the dispatch returned, the source is not stopped and a record is queued; else it ends and the partition resumes |
| KafkaLanes.LaneStartsIff | src/pyservicelib_gorundebug/datasource/kafka/aiokafkads.py:745-754 | A lane's first step takes its first record unless the source is stopped |
| KafkaLanes.OutcomeIsReported | src/pyservicelib_gorundebug/datasource/kafka/aiokafkads.py:772-780 | A dispatch ends as its handler did, unless its lane was cancelled outside the handler or `concurrency` raised |
| KafkaLanes.StoppedIff | src/pyservicelib_gorundebug/datasource/kafka/aiokafkads.py:785-786 | The source counts as stopped from the stop on |
| KafkaLanes.PausedIff | src/pyservicelib_gorundebug/datasource/kafka/aiokafkads.py:722-727 | A partition is paused if and only if an arrival filled its queue since its lane was created |
| KafkaLanes.Scheduler.constructor | src/pyservicelib_gorundebug/datasource/kafka/aiokafkads.py:371-419 | A new scheduler is in the initial state |
| KafkaLanes.Scheduler.ProcessRecord | src/pyservicelib_gorundebug/datasource/kafka/aiokafkads.py:711-734 | Queues a record, pauses a full partition, and creates a lane exactly for a new queue |
| KafkaLanes.Scheduler.FinishLane | src/pyservicelib_gorundebug/datasource/kafka/aiokafkads.py:765-769 | The lane's `finally`: its table entries go, the queue is cleared, the partition resumes |
| KafkaLanes.Scheduler.TakeNext | src/pyservicelib_gorundebug/datasource/kafka/aiokafkads.py:748-759 | The top of the lane's loop: next record, or the end |
| KafkaLanes.Scheduler.StartLane | src/pyservicelib_gorundebug/datasource/kafka/aiokafkads.py:745-754 | A lane's first step |
| KafkaLanes.Scheduler.ContinueLane | src/pyservicelib_gorundebug/datasource/kafka/aiokafkads.py:748-759 | A lane's step after a dispatch |
| KafkaLanes.Scheduler.AcquireConcurrency | src/pyservicelib_gorundebug/datasource/kafka/aiokafkads.py:782-791 | Admits below the sampled limit, else waits, or gives up when stopped |
| KafkaLanes.Scheduler.ConcurrencyRaised | src/pyservicelib_gorundebug/datasource/kafka/aiokafkads.py:787-787 | When the handler's `concurrency` raises, the lane's dispatch has failed and no place was taken |
| KafkaLanes.Scheduler.NotifyWaiters | src/pyservicelib_gorundebug/datasource/kafka/aiokafkads.py:793-796 | The loop wakes every waiting lane and changes no other |
| KafkaLanes.Scheduler.ReleaseConcurrency | src/pyservicelib_gorundebug/datasource/kafka/aiokafkads.py:793-796 | Gives the place back and wakes the waiters |
| KafkaLanes.Scheduler.CancelPartition | src/pyservicelib_gorundebug/datasource/kafka/aiokafkads.py:470-474 | A revocation's cancellation, by where the lane stands |
| KafkaSource.RevokedPartitionsAreQuiet | src/pyservicelib_gorundebug/datasource/kafka/aiokafkads.py:463-477 | When a revocation returns, no lane of a revoked partition is dispatching, waiting or about to start |
| KafkaSource.RevocationFencesLanes | src/pyservicelib_gorundebug/datasource/kafka/aiokafkads.py:463-477 | From then on, over any number of later cycles, a lane of the partition lives only in a newer epoch, and every handler call in flight captured a newer epoch |
| KafkaSource.LostLaneIsNeverReplaced | src/pyservicelib_gorundebug/datasource/kafka/aiokafkads.py:711-734 | A partition whose lane was cancelled before its first step is never served again, across all later rebalances |
| KafkaSource.RevokeBeforeFirstStepStrands | src/pyservicelib_gorundebug/datasource/kafka/aiokafkads.py:463-531 | A concrete run: arrive, revoke, assign again leaves the assigned, admitting partition with a record that no lane will take |
| KafkaSource.OffsetsRefine | src/pyservicelib_gorundebug/datasource/kafka/aiokafkads.py:463-531 | Inside the whole source the offsets run their own protocol |
| KafkaSource.LanesRefine | src/pyservicelib_gorundebug/datasource/kafka/aiokafkads.py:711-796 | Inside the whole source the lanes run their own protocol |
| KafkaSource.InvHolds | src/pyservicelib_gorundebug/datasource/kafka/aiokafkads.py:463-796 | A revocation waits for every living lane of its partitions; offsets and lanes are consistent over every run |
| KafkaSource.ArrivalIsQueuedIff | src/pyservicelib_gorundebug/datasource/kafka/aiokafkads.py:711-721 | An arriving record is queued if and only if the source is not stopped and, with checkpoints, its partition is assigned and no restoration failed |
| KafkaSource.HandlerHoldsItsRequest | src/pyservicelib_gorundebug/datasource/kafka/aiokafkads.py:842-844 | A handler call begins a request of its record and holds it, with the epoch of that moment |
| KafkaSource.RevocationReturnsIff | src/pyservicelib_gorundebug/datasource/kafka/aiokafkads.py:466-477 | A revocation can return exactly when no lane of its partitions lives and the commit lock is free; other partitions do not hold it up |
| KafkaSource.RebalanceCallback.constructor | src/pyservicelib_gorundebug/datasource/kafka/aiokafkads.py:70-81 | The callback acts on the consumer's offsets and lanes |
| KafkaSource.RebalanceCallback.BeginRevoke | src/pyservicelib_gorundebug/datasource/kafka/aiokafkads.py:463-474 | The loop over the partitions: raise the epoch, cancel the lane, keep its task to wait for |
| GrpcSink.HistoryFollowsReference | src/pyservicelib_gorundebug/datasink/grpc/grpcds.py:689-865 | In every interleaving of creators, followers, completers and responses, the handler callbacks of each stream ID follow the session automaton |
| GrpcSink.SplitsIntoSessions | src/pyservicelib_gorundebug/datasink/grpc/grpcds.py:689-865 | Whatever the automaton accepts is a sequence of whole sessions and at most one unfinished one |
| GrpcSink.HistoryIsSessions | src/pyservicelib_gorundebug/datasink/grpc/grpcds.py:893-1104 | Per stream ID, client streaming or bidirectional: non-overlapping sessions, each a failed begin, or a begin with a failed open or messages and responses and then exactly one end; no message during or after an end, and the next begin after the previous end |
| GrpcSink.WriterImpliesClosing | src/pyservicelib_gorundebug/datasink/grpc/grpcds.py:823-844 | Whoever waits for or holds the write side has set `closing` first |
| GrpcSink.PassingTheCheckNeverWaits | src/pyservicelib_gorundebug/datasink/grpc/grpcds.py:786-789 | A message that passes the check before the lock finds the read side free |
| GrpcSink.ReservationOutlivesMessages | src/pyservicelib_gorundebug/datasink/grpc/grpcds.py:790-796 | A message that gets the read side of a session that is not closing finds its own cell in the pending map |
| GrpcSink.ReentrantConsumeIsRejected | src/pyservicelib_gorundebug/datasink/grpc/grpcds.py:740-750 | While `end_request` runs, also after a failed open, a consume for the same ID is turned away at once and leaves the state as it was |
| GrpcSink.StepRefines | src/pyservicelib_gorundebug/datasink/grpc/grpcds.py:689-865 | One step of the protocol is matched by the marks of that step in the automaton, for each stream ID |
| GrpcSink.InvHolds | src/pyservicelib_gorundebug/datasink/grpc/grpcds.py:281-309 | The cells, the pending map and the calls are consistent over every run |
| GrpcSink.JoinsIff | src/pyservicelib_gorundebug/datasink/grpc/grpcds.py:774-789 | A call that opened its session, found it ready or was woken by it goes to the lock if and only if the session is open; else it is turned away |
| GrpcSink.MessageStartsIff | src/pyservicelib_gorundebug/datasink/grpc/grpcds.py:789-799 | Under the read side the handler is called if and only if the session is still open |
| GrpcSink.OpenIff | src/pyservicelib_gorundebug/datasink/grpc/grpcds.py:762-823 | A session serves exactly from its RPC's opening until its completer is woken |
| GrpcSink.ConsumeFinds | src/pyservicelib_gorundebug/datasink/grpc/grpcds.py:689-700 | A call that finds no session creates one, and waits for one that is not ready |
| GrpcSink.ReaderLeaves | src/pyservicelib_gorundebug/datasink/grpc/grpcds.py:789-809 | A message that ended or was cancelled gives the read side back and leaves |
| GrpcSink.WaitingCallLeaves | src/pyservicelib_gorundebug/datasink/grpc/grpcds.py:774-789 | A call cancelled before it has the read side just leaves |
| GrpcSink.WriterEntersIff | src/pyservicelib_gorundebug/datasink/grpc/grpcds.py:844-845 | The waiting completer gets the write side exactly when no message holds the read side |
| GrpcSink.CompleterLearns | src/pyservicelib_gorundebug/datasink/grpc/grpcds.py:798-858 | A session's flags follow its events: asked to finish, answered by the server, receive loop over |
| GrpcSink.CompleterWakes | src/pyservicelib_gorundebug/datasink/grpc/grpcds.py:823-843 | The client-streaming completer goes on exactly when asked to finish, and then to the transport; at the end of its context it goes to the lock |
| GrpcSink.CompleterGoesOn | src/pyservicelib_gorundebug/datasink/grpc/grpcds.py:828-844 | A woken completer goes on to the lock, whatever the transport answers |
| GrpcSink.ResponseIff | src/pyservicelib_gorundebug/datasink/grpc/grpcds.py:844-858 | Under the write side the handler gets the response if and only if the call is client-streaming and the server answered |
| GrpcSink.ReceivesIff | src/pyservicelib_gorundebug/datasink/grpc/grpcds.py:1018-1035 | Responses of a bidirectional call are handled one at a time until its receive loop is over, and then its completer goes on |
| GrpcSink.SinkConsumer.constructor | src/pyservicelib_gorundebug/datasink/grpc/grpcds.py:670-681 | A new consumer is in the initial state |
| GrpcSink.SinkConsumer.DropReservation | src/pyservicelib_gorundebug/datasink/grpc/grpcds.py:304-309 | Removes the entry only if it is still this cell's |
| GrpcSink.SinkConsumer.JoinSession | src/pyservicelib_gorundebug/datasink/grpc/grpcds.py:774-789 | The checks before the lock |
| GrpcSink.SinkConsumer.BeginConsume | src/pyservicelib_gorundebug/datasink/grpc/grpcds.py:689-700 | Reserves a free ID, else waits for its session or joins it |
| GrpcSink.SinkConsumer.FollowerWoken | src/pyservicelib_gorundebug/datasink/grpc/grpcds.py:775-789 | A follower resumes when the session is published or failed |
| GrpcSink.SinkConsumer.FinishBegin | src/pyservicelib_gorundebug/datasink/grpc/grpcds.py:709-730 | A failed begin publishes the failure and drops the reservation |
| GrpcSink.SinkConsumer.FinishOpen | src/pyservicelib_gorundebug/datasink/grpc/grpcds.py:732-773 | A failed open publishes the failure before `end_request` runs; else the session is published |
| GrpcSink.SinkConsumer.FinishFailedEnd | src/pyservicelib_gorundebug/datasink/grpc/grpcds.py:746-760 | After the end of a failed open the reservation goes |
| GrpcSink.SinkConsumer.EnterReadSide | src/pyservicelib_gorundebug/datasink/grpc/grpcds.py:789-799 | The checks under the read side, up to the handler |
| GrpcSink.SinkConsumer.FinishMessage | src/pyservicelib_gorundebug/datasink/grpc/grpcds.py:798-809 | A failed message asks for the session's completion |
| GrpcSink.SinkConsumer.CompleterWoken | src/pyservicelib_gorundebug/datasink/grpc/grpcds.py:823-843 | `closing` is set before the transport is completed or the lock is asked for |
| GrpcSink.SinkConsumer.ReceiveLoopEnded | src/pyservicelib_gorundebug/datasink/grpc/grpcds.py:1087-1089 | The bidirectional completer sets `closing` when receiving has ended |
| GrpcSink.SinkConsumer.EnterWriteSide | src/pyservicelib_gorundebug/datasink/grpc/grpcds.py:844-858 | With the write side the session is finished and goes on to its response or its end |
| GrpcSink.SinkConsumer.FinishResponse | src/pyservicelib_gorundebug/datasink/grpc/grpcds.py:1021-1030 | After a response: the end, or the next response, or the end of receiving after an error |
| GrpcSink.SinkConsumer.FinishSession | src/pyservicelib_gorundebug/datasink/grpc/grpcds.py:858-865 | Releases the write side and drops the reservation |
| GrpcSource.HistoryFollowsReference | src/pyservicelib_gorundebug/datasource/grpc/grpcds.py:517-670 | In every interleaving of requests, callbacks and cancellations, each request's callbacks follow the request automaton |
| GrpcSource.EndRequestOnce | src/pyservicelib_gorundebug/datasource/grpc/grpcds.py:635-662 | Under cancellations at any suspension points a request that began ends at most once, exactly once when it has returned, with no result callback running then and no callback or message starting later |
| GrpcSource.ReservedUntilEnded | src/pyservicelib_gorundebug/datasource/grpc/grpcds.py:556-670 | An admitted request's stream ID stays reserved for it until its `end_request` has finished |
| GrpcSource.EndsOnce | src/pyservicelib_gorundebug/datasource/grpc/grpcds.py:517-670 | A history of the automaton has as many ends as its stage says: none before, one after |
| GrpcSource.NothingAfterEnd | src/pyservicelib_gorundebug/datasource/grpc/grpcds.py:407-442 | After the start of an end no callback and no message starts |
| GrpcSource.FinalizationOutlastsCancellation | src/pyservicelib_gorundebug/datasource/grpc/grpcds.py:653-662 | Once a request is being finalized, no cancellations, however many and whatever else happens, make it return before its one end has finished |
| GrpcSource.SourceConsumer.SetResultCallback | src/pyservicelib_gorundebug/datasource/grpc/grpcds.py:165-170 | A callback can be registered at any time after admission |
| GrpcSource.InvHolds | src/pyservicelib_gorundebug/datasource/grpc/grpcds.py:407-670 | Reservations, lock sides and callbacks are consistent over every run |
| GrpcSource.OperationFollowsEvents | src/pyservicelib_gorundebug/datasource/grpc/grpcds.py:585-635 | A request awaits its result exactly when there is one to await, its input has ended and nothing cut it short; it is finalized exactly when it was cut short, or its input ended and there is no result |
| GrpcSource.FinalizedOnlyForCause | src/pyservicelib_gorundebug/datasource/grpc/grpcds.py:585-635 | With a result, finalization begins only after completion, a failed read or message, or a cancellation; after the end of its input alone the request awaits its result |
| GrpcSource.InputEndFinalizes | src/pyservicelib_gorundebug/datasource/grpc/grpcds.py:585-635 | Without a result a request never awaits one, and the end of its input begins its finalization |
| GrpcSource.FinalizationGoesOn | src/pyservicelib_gorundebug/datasource/grpc/grpcds.py:637-670 | The finalization asks for the write side, gets it exactly when no callback holds the read side, gives it back, and then the request returns and its ID is free |
| GrpcSource.ResultReachesLockIff | src/pyservicelib_gorundebug/datasource/grpc/grpcds.py:407-422 | A result goes to the lock if and only if its stream ID belongs to a request still being served |
| GrpcSource.CallbackRunsIff | src/pyservicelib_gorundebug/datasource/grpc/grpcds.py:422-434 | Under the read side the callback runs if and only if the request is still being served and has one registered for the message |
| GrpcSource.CallbacksAreRegistered | src/pyservicelib_gorundebug/datasource/grpc/grpcds.py:165-170 | A request's callbacks are those set and not since removed by their own answer |
| GrpcSource.DeliveryLeaves | src/pyservicelib_gorundebug/datasource/grpc/grpcds.py:422-442 | A delivery whose callback ended, or that is cancelled, leaves the read side |
| GrpcSource.SourceConsumer.constructor | src/pyservicelib_gorundebug/datasource/grpc/grpcds.py:369-396 | A new consumer is in the initial state |
| GrpcSource.SourceConsumer.FinishBegin | src/pyservicelib_gorundebug/datasource/grpc/grpcds.py:541-575 | Reserves a free ID; a taken one is rejected and its request ended |
| GrpcSource.SourceConsumer.FinishMessage | src/pyservicelib_gorundebug/datasource/grpc/grpcds.py:585-606 | Next message, end of input, or the finalization after an error |
| GrpcSource.SourceConsumer.CancelRequest | src/pyservicelib_gorundebug/datasource/grpc/grpcds.py:622-662 | A cancellation by where the RPC task stands |
| GrpcSource.SourceConsumer.BeginFinalization | src/pyservicelib_gorundebug/datasource/grpc/grpcds.py:622-653 | Late results are refused from here on; the finalization task starts |
| GrpcSource.SourceConsumer.EnterWriteSide | src/pyservicelib_gorundebug/datasource/grpc/grpcds.py:638-645 | The finalization gets the write side |
| GrpcSource.SourceConsumer.ReleaseRequest | src/pyservicelib_gorundebug/datasource/grpc/grpcds.py:663-670 | The outer `finally`: callbacks cleared, reservation dropped if there was one |
| GrpcSource.SourceConsumer.ConsumeResult | src/pyservicelib_gorundebug/datasource/grpc/grpcds.py:407-418 | The checks before the lock |
| GrpcSource.SourceConsumer.EnterReadSide | src/pyservicelib_gorundebug/datasource/grpc/grpcds.py:420-434 | The checks under the read side, up to the callback |
| GrpcSource.SourceConsumer.FinishCallback | src/pyservicelib_gorundebug/datasource/grpc/grpcds.py:434-442 | The callback goes when it said so |
| WorkflowPool.PendingIsQueuedPlusRunning | src/pyservicelib_gorundebug/datasource/temporal/workflow_environment.py:144-179 | Over every run `_pending` is the number of queued and running items, and the idle flag is set exactly when it is 0 |
| WorkflowPool.SentinelsEnterAnEmptyClosedQueue | src/pyservicelib_gorundebug/datasource/temporal/workflow_environment.py:134-137 | Sentinels enter only an empty queue with no running item and no further admission, whatever the task priorities |
| WorkflowPool.DispatchIsLeast | src/pyservicelib_gorundebug/datasource/temporal/workflow_environment.py:181-191 | What an executor takes is the least (priority, sequence) queued, in both kinds of pool |
| WorkflowPool.FirstInFirstOutWithinAPriority | src/pyservicelib_gorundebug/datasource/temporal/workflow_environment.py:144-191 | Of two accepted items of one priority the later one starts only after the earlier one |
| WorkflowPool.LifeHolds | src/pyservicelib_gorundebug/datasource/temporal/workflow_environment.py:144-215 | Each item is accepted, started and ended once, in that order, and the pool holds it accordingly |
| WorkflowPool.TakenOnExit | src/pyservicelib_gorundebug/datasource/temporal/workflow_environment.py:181-186 | An executor has taken exactly one sentinel if it has exited, and none otherwise |
| WorkflowPool.DrainedMeansDone | src/pyservicelib_gorundebug/datasource/temporal/workflow_environment.py:127-142 | When the drain is over, every accepted item ran exactly once and every executor took exactly one sentinel |
| WorkflowPool.IdleMeansDone | src/pyservicelib_gorundebug/datasource/temporal/workflow_environment.py:176-179 | With nothing pending every accepted item has ended and no executor holds one |
| WorkflowPool.EndIsKept | src/pyservicelib_gorundebug/datasource/temporal/workflow_environment.py:195-213 | An ended item stays with its executor until that resumes |
| WorkflowPool.PendingMakesProgress | src/pyservicelib_gorundebug/datasource/temporal/workflow_environment.py:181-213 | A pool with pending items always has a next step of its own |
| WorkflowPool.InvHolds | src/pyservicelib_gorundebug/datasource/temporal/workflow_environment.py:71-215 | The queue, the executors and the counts are consistent over every run |
| WorkflowPool.DispatchFollowsAdds | src/pyservicelib_gorundebug/datasource/temporal/workflow_environment.py:144-191 | When an executor takes an item, no waiting item of a priority pool was added with a smaller priority, or earlier with the same one; in an ordinary pool none was added earlier |
| WorkflowPool.ItemsWaitAsAdded | src/pyservicelib_gorundebug/datasource/temporal/workflow_environment.py:157-160 | Every item waits under its own number with the priority that its caller gave, in an ordinary pool with the common one |
| WorkflowPool.AcceptedIff | src/pyservicelib_gorundebug/datasource/temporal/workflow_environment.py:144-156 | An item is accepted exactly from a live caller of a pool that was started and not stopped; such a pool has its executors |
| WorkflowPool.DrainMakesProgress | src/pyservicelib_gorundebug/datasource/temporal/workflow_environment.py:127-142 | A stopped pool that has not drained can always go on |
| WorkflowPool.Pool.constructor | src/pyservicelib_gorundebug/datasource/temporal/workflow_environment.py:75-107 | A new pool is idle, empty and not started; at least one executor |
| WorkflowPool.Pool.StartPool | src/pyservicelib_gorundebug/datasource/temporal/workflow_environment.py:113-125 | Creates the executors once; a stopped pool refuses |
| WorkflowPool.Pool.Enqueue | src/pyservicelib_gorundebug/datasource/temporal/workflow_environment.py:144-169 | Accepts exactly for a live caller of a running pool, with the next sequence number |
| WorkflowPool.Pool.NextSequence | src/pyservicelib_gorundebug/datasource/temporal/workflow_environment.py:171-174 | Sequence numbers are consecutive |
| WorkflowPool.Pool.RequestStop | src/pyservicelib_gorundebug/datasource/temporal/workflow_environment.py:127-132 | Closes admission and starts the drain once |
| WorkflowPool.Pool.EnqueueSentinels | src/pyservicelib_gorundebug/datasource/temporal/workflow_environment.py:134-137 | The loop puts one sentinel for each executor |
| WorkflowPool.Pool.TakeNext | src/pyservicelib_gorundebug/datasource/temporal/workflow_environment.py:181-191 | An executor takes the next entry; a sentinel ends it |
| WorkflowPool.Pool.TaskDone | src/pyservicelib_gorundebug/datasource/temporal/workflow_environment.py:176-179 | One item less pending; idle at zero |
| WorkflowPool.Pool.FinishItem | src/pyservicelib_gorundebug/datasource/temporal/workflow_environment.py:198-213 | An item's error is reported before the item is accounted for |
| Quiescence.NormalReturnHidesNoFailure | src/pyservicelib_gorundebug/datasource/temporal/workflow_environment.py:561-588 | Whenever a wait for quiescence or a wait for completion returns normally: no failure is recorded, no tracked task or pool item is outstanding, and every one that ever ran ended without error |
| Quiescence.FinishHidesNothingIff | src/pyservicelib_gorundebug/datasource/temporal/workflow_environment.py:506-522 | When `finish` returns normally, every pool is drained, no failure is recorded and all that is no longer tracked ended without error; so it hides nothing if and only if no task is tracked at its return, as is always so without storages |
| Quiescence.OnlyLateTasksCanHide | src/pyservicelib_gorundebug/datasource/temporal/workflow_environment.py:514-522 | At a normal return of `finish` nothing is hidden if and only if every task created after it joined the tracked ones has left the tracked set |
| Quiescence.FinishCanHideATask | src/pyservicelib_gorundebug/datasource/temporal/workflow_environment.py:514-522 | A concrete run: a task created while the storage stops is still tracked when `finish` returns normally, and its failure comes later |
| Quiescence.IdleHidesOnlyTracked | src/pyservicelib_gorundebug/datasource/temporal/workflow_environment.py:708-744 | In a state with idle pools and no recorded failure, only a task that is still tracked can fail or have failed |
| Quiescence.FirstFailureWins | src/pyservicelib_gorundebug/datasource/temporal/workflow_environment.py:741-744 | A recorded failure is never replaced |
| Quiescence.FailedItemIsReported | src/pyservicelib_gorundebug/datasource/temporal/workflow_environment.py:198-213 | A pool item that ended with an error is reported, or its executor has yet to resume |
| Quiescence.QuiescentIffNoWork | src/pyservicelib_gorundebug/datasource/temporal/workflow_environment.py:708-719 | The wait's test is exact: it holds if and only if no task, item or what they create can make a step |
| Quiescence.PoolsRefine | src/pyservicelib_gorundebug/datasource/temporal/workflow_environment.py:708-744 | Each pool inside the environment runs its own protocol |
| Quiescence.InvHolds | src/pyservicelib_gorundebug/datasource/temporal/workflow_environment.py:506-626 | Tracked tasks, outcomes and waits are consistent over every run |
| Quiescence.FailureHasSource | src/pyservicelib_gorundebug/datasource/temporal/workflow_environment.py:606-626 | A failure is recorded only when a task or a pool item failed with it; cancellations do not count |
| Quiescence.OutcomeIff | src/pyservicelib_gorundebug/datasource/temporal/workflow_environment.py:613-625 | A task's outcome is how it ended |
| Quiescence.TaskLeaves | src/pyservicelib_gorundebug/datasource/temporal/workflow_environment.py:613-625 | An ended task leaves the tracked ones, and its error becomes the failure if it is the first; a cancelled one leaves without |
| Quiescence.QuiesceIff | src/pyservicelib_gorundebug/datasource/temporal/workflow_environment.py:708-719 | A wait raises a recorded failure, returns at once exactly when nothing is outstanding, and else waits for what is at work now |
| Quiescence.ResultIff | src/pyservicelib_gorundebug/datasource/temporal/workflow_environment.py:576-585 | A wait for completion raises a failure or a failed result, and otherwise awaits quiescence |
| Quiescence.WaitLooks | src/pyservicelib_gorundebug/datasource/temporal/workflow_environment.py:719-739 | A wait goes from its tasks to the pools of its snapshot, one after the other, and then looks again |
| Quiescence.TasksWaitedRecords | src/pyservicelib_gorundebug/datasource/temporal/workflow_environment.py:731-739 | A wait resumes when its tasks have ended and records a failure exactly if one of them failed and none was recorded |
| Quiescence.FinishGoesOn | src/pyservicelib_gorundebug/datasource/temporal/workflow_environment.py:506-522 | `finish` stops each pool, joins the tracked tasks, stops the storages one by one, and raises a failure last |
| Quiescence.RaisesForCause | src/pyservicelib_gorundebug/datasource/temporal/workflow_environment.py:506-588 | A wait or `finish` raises only for a recorded failure, a failed result or a failing storage |
| Quiescence.WorkflowEnvironment.constructor | src/pyservicelib_gorundebug/datasource/temporal/workflow_environment.py:334-356 | A new environment has no tasks and no failure |
| Quiescence.WorkflowEnvironment.RecordFailure | src/pyservicelib_gorundebug/datasource/temporal/workflow_environment.py:741-744 | Keeps the first failure |
| Quiescence.WorkflowEnvironment.AddTask | src/pyservicelib_gorundebug/datasource/temporal/workflow_environment.py:606-612 | A new task is tracked |
| Quiescence.WorkflowEnvironment.CompleteTask | src/pyservicelib_gorundebug/datasource/temporal/workflow_environment.py:613-625 | The done callback: untracks, and reports an error but not a cancellation |
| Quiescence.WorkflowEnvironment.ActivePools | src/pyservicelib_gorundebug/datasource/temporal/workflow_environment.py:712-717 | The loop finds exactly the pools with work |
| Quiescence.WorkflowEnvironment.WaitRound | src/pyservicelib_gorundebug/datasource/temporal/workflow_environment.py:708-719 | One round: raise the failure, return when quiet, or wait on a snapshot |
| Quiescence.WorkflowEnvironment.TasksDone | src/pyservicelib_gorundebug/datasource/temporal/workflow_environment.py:731-739 | The loop over finished tasks records their failures, in any order |
| Quiescence.WorkflowEnvironment.JoinTasks | src/pyservicelib_gorundebug/datasource/temporal/workflow_environment.py:514-517 | Joins the tracked tasks until there is none, then stops the storages |
| Quiescence.WorkflowEnvironment.StopStorages | src/pyservicelib_gorundebug/datasource/temporal/workflow_environment.py:516-522 | Stops the next storage; after the last one raises the failure or returns |
| Quiescence.WorkflowEnvironment.StorageDone | src/pyservicelib_gorundebug/datasource/temporal/workflow_environment.py:516-522 | A storage has stopped, or its stop raised |
| Quiescence.WorkflowEnvironment.ResultArrived | src/pyservicelib_gorundebug/datasource/temporal/workflow_environment.py:576-585 | A failure or a failed result is raised, otherwise quiescence is awaited |
| SubStream.CallbacksAreSerialized | src/pyservicelib_gorundebug/operators/substream.py:49-83 | At most one collector callback at a time; none starts after one that returned true, after an error or after the return; none is active then; a normal return means exactly one callback returned true, the last |
| SubStream.HistoryFollowsReference | src/pyservicelib_gorundebug/operators/substream.py:49-83 | In every interleaving of deliveries, cancellations and the close, callbacks, recorded errors and the return follow the call automaton |
| SubStream.ReferenceMeans | src/pyservicelib_gorundebug/operators/substream.py:156-187 | What the automaton accepts has the shape above |
| SubStream.DeliveryFailsIff | src/pyservicelib_gorundebug/operators/substream.py:61-77 | A resuming delivery fails the invocation if and only if its callback raised or it was cancelled, and ends it if and only if it fails or the answer was true |
| SubStream.CompleteFailsIffCancelled | src/pyservicelib_gorundebug/operators/substream.py:61-77 | The exact condition: an answer true fails the invocation if and only if its delivery was cancelled before it resumed |
| SubStream.CancelledAnswerFails | src/pyservicelib_gorundebug/operators/substream.py:16-23 | A concrete run: deliver, start, cancel, answer true, resume ends in a recorded cancellation |
| SubStream.CallbackOutlastsCancellation | src/pyservicelib_gorundebug/operators/substream.py:61-65 | Whatever happens, a started callback stays the one inside the lock until it has ended |
| SubStream.LateDeliveriesAreDropped | src/pyservicelib_gorundebug/operators/substream.py:49-57 | After the return a delivery ends without a callback |
| SubStream.InvHolds | src/pyservicelib_gorundebug/operators/substream.py:26-83 | The call's fields are consistent over every run |
| SubStream.CallbackStartsIff | src/pyservicelib_gorundebug/operators/substream.py:49-98 | A delivery goes to the lock and starts its callback if and only if the invocation is not over and its request has not expired |
| SubStream.OverIff | src/pyservicelib_gorundebug/operators/substream.py:49-83 | The invocation is over exactly once a delivery ended it or the close has run |
| SubStream.DeliveryResumesWith | src/pyservicelib_gorundebug/operators/substream.py:60-66 | A delivery resumes with its callback's answer and with whether it was cancelled since it started |
| SubStream.ReturnsNormallyIff | src/pyservicelib_gorundebug/operators/substream.py:156-187 | `consume` returns normally if and only if its wait succeeded on an invocation without an error and it was not cancelled since |
| SubStream.ConsumeGoesOn | src/pyservicelib_gorundebug/operators/substream.py:156-187 | The steps of `consume`: body, wait, close, return; an ended invocation can be waited for, and the close waits for the lock only |
| SubStream.CancelledWaiterLeaves | src/pyservicelib_gorundebug/operators/substream.py:49-51 | A delivery cancelled before it has the lock is gone |
| SubStream.DrainTask | src/pyservicelib_gorundebug/operators/substream.py:16-23 | The drain ends exactly when the task is done, over any number of cancellations |
| SubStream.SubStreamCall.constructor | src/pyservicelib_gorundebug/operators/substream.py:27-37 | A new call is open |
| SubStream.SubStreamCall.BeginDelivery | src/pyservicelib_gorundebug/operators/substream.py:49-60 | The checks under the lock, then the callback |
| SubStream.SubStreamCall.FinishDelivery | src/pyservicelib_gorundebug/operators/substream.py:61-77 | A true answer closes the call; an error or a cancellation closes and fails it |
| SubStream.SubStreamCall.RunClose | src/pyservicelib_gorundebug/operators/substream.py:79-81 | The close task closes admission when it first runs |
| SubStream.SubStreamCall.FinishClose | src/pyservicelib_gorundebug/operators/substream.py:81-83 | Under the lock the collector is dropped |
| SubStream.SubStreamCall.FinishWait | src/pyservicelib_gorundebug/operators/substream.py:181-187 | An error of the call is raised after the wait |
| CronInterval.CoalescingRefinesFullEnumeration | src/pyservicelib_gorundebug/datasource/cron/apscheduler.py:142-156 | For every start, interval, due slot and now: the coalescing due times are the first and the last of the slot-by-slot enumeration and nothing else, and what follows is the least slot after now |
| CronInterval.FullEnumeration | src/pyservicelib_gorundebug/datasource/cron/apscheduler.py:142-156 | Slot by slot the due times are exactly the slots from the due one to the latest not after now |
| CronInterval.CoalescedNext | src/pyservicelib_gorundebug/datasource/cron/apscheduler.py:150-156 | The rule's floor division hits the latest due slot, or the slot after the previous one |
| CronInterval.FirstFire | src/pyservicelib_gorundebug/datasource/cron/apscheduler.py:150-156 | The first run time is the least slot not before now |
| CronInterval.RunTimes | src/pyservicelib_gorundebug/datasource/cron/apscheduler.py:150-156 | The scheduler's loop collects these due times |
| CronInterval.SlotsAreConserved | src/pyservicelib_gorundebug/datasource/cron/apscheduler.py:240-253 | Over any run with on-grid latest times: the expected slot is on the grid and after every reported one, and the positive counts sum exactly to the slots passed |
| CronInterval.ExpectsFirstUnreported | src/pyservicelib_gorundebug/datasource/cron/apscheduler.py:246-249 | The count of an event is the number of slots it reports for the first time |
| CronInterval.ExpectedAfterReported | src/pyservicelib_gorundebug/datasource/cron/apscheduler.py:246-249 | The expected slot lies after the latest slot of every earlier event |
| CronInterval.AdmittedIffNewSlots | src/pyservicelib_gorundebug/datasource/cron/apscheduler.py:252-260 | An accepted event is admitted exactly when it reports one new slot under Skip, at least one under FireOnce |
| CronInterval.AdmissionsAreConserved | src/pyservicelib_gorundebug/datasource/cron/apscheduler.py:258-280 | While the endpoint accepts, every admission has fired, in order, or still waits |
| CronInterval.JobCallTakesOne | src/pyservicelib_gorundebug/datasource/cron/apscheduler.py:267-284 | A job call of an accepting endpoint within its deadline takes the oldest waiting outcome and fires it if there is one to fire; any other does nothing |
| CronInterval.EveryAdmissionFires | src/pyservicelib_gorundebug/datasource/cron/apscheduler.py:267-284 | After as many job calls as outcomes wait, exactly the admitted times have fired, in order |
| CronInterval.DrainForgets | src/pyservicelib_gorundebug/datasource/cron/apscheduler.py:230-238 | The drain forgets what waits once admission has stopped, and fires nothing |
| CronInterval.FiredTimesIncrease | src/pyservicelib_gorundebug/datasource/cron/apscheduler.py:266-280 | Fired times are a first part of the admitted ones and strictly increase |
| CronInterval.AdmittedIncrease | src/pyservicelib_gorundebug/datasource/cron/apscheduler.py:246-260 | Admitted times strictly increase |
| CronInterval.CronEndpoint.constructor | src/pyservicelib_gorundebug/datasource/cron/apscheduler.py:183-203 | A new endpoint expects the trigger's first slot |
| CronInterval.CronEndpoint.OnSubmission | src/pyservicelib_gorundebug/datasource/cron/apscheduler.py:240-261 | The listener's count, advance and admission outcome |
| CronInterval.CronEndpoint.ScheduledFire | src/pyservicelib_gorundebug/datasource/cron/apscheduler.py:266-284 | One outcome is taken per job call; a skipped one fires nothing |
| Names.EndpointIdsAreInjective | src/pyservicelib_gorundebug/datasource/temporal/workflow.py:95-102 | Equal endpoint Workflow IDs mean equal connector slugs, endpoint slugs and message IDs, and conversely |
| Names.EndpointIdIsNoScheduleId | src/pyservicelib_gorundebug/datasource/temporal/workflow.py:95-116 | No endpoint Workflow ID is a schedule Workflow ID |
| Names.IdempotentIff | src/pyservicelib_gorundebug/datasource/temporal/workflow.py:70-92 | For every text: naming its slug gives the slug if and only if each word of the slug is lower-case, made of letters and digits, and without a capital that starts a new word |
| Names.FixedWordIff | src/pyservicelib_gorundebug/datasource/temporal/workflow.py:70-92 | Such a word is its own slug, and no other is |
| Names.IdentityNameIdempotent | src/pyservicelib_gorundebug/datasource/temporal/workflow.py:70-92 | Naming the slug of an ASCII name gives the slug |
| Names.DottedCapitalIsNoFixedPoint | src/pyservicelib_gorundebug/datasource/temporal/workflow.py:70-92 | A text outside that condition: the slug of U+0130 has a slug of its own |
| Names.LoneCapitalIsNoFixedPoint | src/pyservicelib_gorundebug/datasource/temporal/workflow.py:70-92 | Another: the slug of a capital followed by a capital without a small form, as U+1D400, splits in two |
| Names.SlugsHaveSlugWords | src/pyservicelib_gorundebug/datasource/temporal/workflow.py:70-92 | The words of an ASCII name's slug are non-empty and of small letters and digits |
| Names.SlugHasNoSlash | src/pyservicelib_gorundebug/datasource/temporal/workflow.py:70-92 | The slug of any text has no slash |
| Names.EncodeRoundTrip | src/pyservicelib_gorundebug/datasource/temporal/workflow.py:65-66 | Percent-decoding the encoded bytes gives the bytes, and the text has no slash |
| Names.OpaqueComponentInjective | src/pyservicelib_gorundebug/datasource/temporal/workflow.py:65-66 | Two message IDs have the same encoding exactly when they are equal |
| Names.Utf8Injective | src/pyservicelib_gorundebug/datasource/temporal/workflow.py:65-66 | Two texts have the same UTF-8 bytes only if they are equal |
| Names.SlugSpellsWords | src/pyservicelib_gorundebug/datasource/temporal/workflow.py:70-92 | A slug spells its lower-cased words with one underscore between each two |
| Names.SeparatorSplits | src/pyservicelib_gorundebug/datasource/temporal/workflow.py:70-80 | Spaces, underscores, hyphens, slashes and dots separate words and belong to none |
| Names.EncodeSpells | src/pyservicelib_gorundebug/datasource/temporal/workflow.py:65-66 | ASCII letters, digits and the four safe marks stand for themselves, any other byte for its two hexadecimal digits |
| Names.EndpointIdComponents | src/pyservicelib_gorundebug/datasource/temporal/workflow.py:95-102 | An endpoint Workflow ID has exactly the four components, in order, between its slashes |
| Names.ScheduleIdComponents | src/pyservicelib_gorundebug/datasource/temporal/workflow.py:111-116 | A schedule Workflow ID has exactly the three components |
| Words.SplittersAgreeIff | src/pyservicelib_gorundebug/runtime/config/app_to_yaml.py:16-42 | For every text in any script: the two splitters give the same words exactly if each character is a separator of keys, or a letter or digit that separates no slug words |
| Words.SharedAscii | src/pyservicelib_gorundebug/runtime/config/app_to_yaml.py:16-42 | On ASCII these characters are the letters, digits, spaces, tabs, newlines, underscores and hyphens |
| Words.AsciiOnlyIsStandard | src/pyservicelib_gorundebug/datasource/temporal/workflow.py:70-92 | What the slug and word lemmas fix of the character classes can be met: ASCII by itself meets it |
| Words.KeyWordsRunToCuts | src/pyservicelib_gorundebug/runtime/config/app_to_yaml.py:16-42 | Every word of a key starts at no separator and runs to the next cut |
| Words.SlugWordsConserve | src/pyservicelib_gorundebug/datasource/temporal/workflow.py:70-91 | A slug's words concatenate to the letters and digits of the input, in any script |
| Words.KeyWordsConserve | src/pyservicelib_gorundebug/runtime/config/app_to_yaml.py:16-42 | A key's words concatenate to the input without its separators |
| Words.KeyWordsAreSlices | src/pyservicelib_gorundebug/runtime/config/app_to_yaml.py:16-42 | The words collected character by character are the slices of the text between its cuts |
| Words.SplitForSlug | src/pyservicelib_gorundebug/datasource/temporal/workflow.py:70-91 | The loop of the first splitter computes its words |
| Words.SplitForKey | src/pyservicelib_gorundebug/runtime/config/app_to_yaml.py:16-42 | The loop of the second splitter computes its words |
| Timestamps.TimestampRoundTrip | src/pyservicelib_gorundebug/datasource/temporal/workflow.py:273-281 | Parsing any ID that ends in a hyphen and a printed instant gives the instant in nanoseconds exactly for years from 1000 on; for earlier years the fallback |
| Timestamps.MatchPlace | src/pyservicelib_gorundebug/datasource/temporal/workflow.py:60-62 | The suffix pattern matches such an ID in one place only, and only with a four-digit year |
| Timestamps.FractionRoundTrip | src/pyservicelib_gorundebug/runtime/schedule.py:46-51 | Stripped and re-padded fractions read back exactly |
| Timestamps.Rfc3339NanoInjective | src/pyservicelib_gorundebug/runtime/schedule.py:46-51 | Printed timestamps determine the instant, in every year |
| Timestamps.TriggerIdentityInjective | src/pyservicelib_gorundebug/runtime/schedule.py:54-66 | Two triggers have the same text before hashing exactly when endpoint, schedule ID and instant are the same, whatever the schedule ID contains |
| Timestamps.EpochNanosInjective | src/pyservicelib_gorundebug/datasource/temporal/workflow.py:276-280 | Distinct instants have distinct nanoseconds |
| Timestamps.NanosCountFromEpoch | src/pyservicelib_gorundebug/datasource/temporal/workflow.py:276-280 | The nanoseconds are 0 at the first instant of 1970 and grow by 1000 with each microsecond of clock and calendar |
| Timestamps.DaysCountFromEpoch | src/pyservicelib_gorundebug/datasource/temporal/workflow.py:276-280 | A day is 86400 seconds over the end of any month and year, with Gregorian leap days |
| Timestamps.IdentityLines | src/pyservicelib_gorundebug/runtime/schedule.py:60-64 | A trigger's identity has exactly the four lines, unless the schedule ID has lines of its own |
| Startup.ValidationIsSound | src/pyservicelib_gorundebug/runtime/serviceapp.py:263-331 | After a successful startup every link of this service, error outputs included, gets a caller with the validated semantics and with the pool, pool name and priority it needs |
| Startup.LinkedConnectionsAreExplicit | src/pyservicelib_gorundebug/runtime/common.py:351-365 | After a successful startup a connection of this service with a link uses the link's own semantics and asynchrony flag; inherited ones do not start |
| Startup.ConnectionGetsCallerIff | src/pyservicelib_gorundebug/runtime/common.py:342-430 | After a successful startup a connection that touches the service gets a caller if and only if it has a link or the service's default semantics need no pool |
| Startup.ErrorReferenceIffOutput | src/pyservicelib_gorundebug/runtime/config/config.py:559-566 | A negative stream ID resolves to its owner exactly when the owner has an error output |
| Startup.LinkIsFound | src/pyservicelib_gorundebug/runtime/config/config.py:574-576 | The link index returns the configuration's link for its two ends |
| Startup.LinkPassesIff | src/pyservicelib_gorundebug/runtime/serviceapp.py:263-319 | A link passes exactly when its streams exist and the end that lies in the service has usable semantics: a function or parallel call, or a configured pool with, for a priority pool, a priority |
| Startup.NeedIsOfOwnEnd | src/pyservicelib_gorundebug/runtime/serviceapp.py:263-331 | What a passing link needs is what its own end says, and a pool only where its semantics name one |
| Startup.InitRuntimeConfig | src/pyservicelib_gorundebug/runtime/config/config.py:479-543 | The indexes are built exactly when nothing is duplicated and every module entry converts, and hold exactly the configuration |
| Startup.IndexStreams | src/pyservicelib_gorundebug/runtime/config/config.py:482-488 | The loop over streams fails exactly on a duplicate name or ID |
| Startup.IndexServices | src/pyservicelib_gorundebug/runtime/config/config.py:490-496 | The loop over services fails exactly on a duplicate name or ID |
| Startup.IndexNamed | src/pyservicelib_gorundebug/runtime/config/config.py:498-513 | The loops over endpoints and data connectors fail exactly on a duplicate name or ID |
| Startup.IndexModules | src/pyservicelib_gorundebug/runtime/config/config.py:515-526 | The loop over modules fails exactly on a duplicate name or an entry that does not convert |
| Startup.IndexNames | src/pyservicelib_gorundebug/runtime/config/config.py:528-536 | The loops over pools and types fail exactly on a duplicate name |
| Startup.IndexLinks | src/pyservicelib_gorundebug/runtime/config/config.py:538-542 | The loop over links fails exactly on duplicate ends |
| Startup.CheckOne | src/pyservicelib_gorundebug/runtime/serviceapp.py:263-319 | The body of the validation loop: every branch and error of one link's check |
| Startup.ServiceApp.constructor | src/pyservicelib_gorundebug/runtime/serviceapp.py:170-176 | A new service has no pools |
| Startup.ServiceApp.ServiceInit | src/pyservicelib_gorundebug/runtime/serviceapp.py:263-331 | Startup succeeds exactly when every link passes, and then has created exactly the pools that some link needs |
| Startup.Startup | src/pyservicelib_gorundebug/runtime/serviceapp.py:224-331 | Indexes and validation together establish what graph construction relies on |
| DeepMerge.PathLawHolds | src/pyservicelib_gorundebug/runtime/serviceapp.py:131-138 | At every depth: two dictionaries merge, the override wins where it speaks and the two are not both dictionaries, the base survives where the override is silent |
| DeepMerge.LawCoversEveryPath | src/pyservicelib_gorundebug/runtime/serviceapp.py:131-138 | Every path falls under one of the law's cases |
| DeepMerge.OverrideTwice | src/pyservicelib_gorundebug/runtime/serviceapp.py:131-138 | Applying the same override twice is applying it once |
| DeepMerge.MergedWithItself | src/pyservicelib_gorundebug/runtime/serviceapp.py:131-138 | A dictionary merged with itself is itself |
| DeepMerge.Merge | src/pyservicelib_gorundebug/runtime/serviceapp.py:131-138 | The loop over the override's keys computes the recursive merge |

## Left out

- Cells, requests, lanes and executors are datatype values in sequences and maps keyed by identity, not heap
  objects: aliasing between two references to the same cell is expressed by its index.
- Order of lock waiters: any waiter that can enter may be the next; fairness of the locks is not modelled.
- Termination and progress of the protocols (that a handler, the broker or a peer answers at all).
- Storages beyond the await of their `stop`: what their timers do is a task that something outside the graph creates.
- Transports and libraries: aiokafka, grpc.aio, Temporal SDK, APScheduler internals, the ordinary pools.
- The gRPC sink's sender, its transport completion and `_close_send`: they do not touch session ownership.
- The gRPC source's senders and `eof` handling beyond its order; `eof` is a history field without a field in
  the source.
- Kafka source startup and shutdown draining, consumer fetch loops, topic creation, result callbacks.
- `wait_substream_result` beyond its outcome: a normal return means that the completion was set.
- `TemporalWorkflowEnvironment.finish` on an environment that was not started, and its second call, return at
  once and promise nothing.
- The cron endpoint's set of active runs: of its drain only that it comes after admission has stopped, and that it
  forgets what still waits.
- Crontab schedules, wall-clock reads, deadlines as floating-point seconds.
- SHA-256 of the trigger identity.
- Statistics, tracing, metrics, logging and the registration done by `make_caller`: they do not change the decision.
- Link validation in the Workflow environment, whose pools follow other rules.
- Map, Filter, FlatMap, Merge, Input, Sink and Link operators, HTTP and local sources, generated API models.
- Key order of merged dictionaries; only contents are modelled.
