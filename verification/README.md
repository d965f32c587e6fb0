# Protocol and algorithm proofs for gitdot

This Dafny project models the parts of gitdot and of its bundled S2 client whose correctness depends on many steps
working together, and proves what they promise. `dafny verify dfyconfig.toml` checks everything.

**The append pipeline** (`Records`, `Batching`, `Producer*`). Records are grouped into batches under a count limit, a
byte limit and a linger timer. The producer's task is a `select!` loop over a command queue, a stashed submission, the
batcher's buffers, an in-flight submit and claimable tickets. Every branch and every linger firing is one step of a
state machine; the session and the log, with other writers, are its environment. The same branches are also written as
methods of a class that updates the task's variables, each proved to do what the protocol's step does. Theorems: a
ticket that resolves with an acknowledgement names the position of its own record, in every interleaving; every
submission is in one place and resolved once; a `close` that reports success means that every ticket handed out before
it was acknowledged; once `close` was called the task gets on until it closes its session; the byte permits add up;
greedy batching needs the fewest batches.

**The append session** (`Session*`), which the producer relies on. Submissions are pipelined over one connection after
another; what was sent and not acknowledged is sent again, while an abandoned connection may still be served. Theorems:
none of the task's assertions ever fails; acknowledgements are true and in the order of submission; with
`NoSideEffects`, or with an expected sequence number, no submission gets into the log twice; a successful `close` found
everything acknowledged; every step brings a session closer to its end, and the one state in which closing it hangs is
characterised.

**Both together** (`Pipeline*`). The producer and its session run as one system. Every run of it is a run of the
producer's protocol and a run of the session's, so nothing that the producer's theorems say of their environment is
left as an assumption. Theorems from ticket to log: acknowledged records stand in the order of their tickets; with
duplicates excluded no record is in the log twice, and a successful `close` has put each record there exactly once.

**CI configuration** (`Sets`, `TaskGraph`, `DagCheck`, `CiConfig`, `Validate`). The ten checks, the three-colour depth-first
search among them, accept exactly the well-formed configurations; a cycle is reported if and only if there is one,
whatever order the hash map has; a valid configuration is schedulable.

**The HTTP client pool** (`ClientPool*`). Each atomic access is a step of its own, so permit drops, checkouts and the
reaper interleave freely. Theorems: counters are exact and limited, a client in use is never removed, an idle client is
always reapable, the exact condition under which a client is removed within the timeout of its last use, and the pool
never holds more clients than its peak load accounts for. A class takes the steps of one thread in the methods' own
loops; its object's past is always a run of the protocol.

**Retries and repair** (`Retry`, `AppendOnce`, `Migration*`). The retry loop with its backoff arithmetic, how many
copies of a batch an `append` call may leave in the log, and the concurrent GitHub migration with its clean-up: what is
on disk, in the tables and in the response for every interleaving and every failing step.

**Streams and codecs** (`CgiSplit`, `LimitedReader`, `Pagination`, `Positional`, `Token`). Splitting CGI output that
arrives in chunks, a reader that fails beyond a limit, listing page by page, and access tokens in padded base 62.

## Where the code and its promises differ

- The documentation of `RetryConfig` (s2-sdk/src/types.rs:304-309) gives the base delay as `min(min · 2ⁿ, max)`. The
  power of two saturates at 2³² - 1, so from the 33rd retry on the delay falls short of that unless the maximum was
  reached before. `Retry.DelayIsAsDocumented` gives the exact condition, `Retry.DelayFallsShort` an example.
- A migration is documented to clean up after a failure (gitdot-core/src/service/migration.rs:127-129).
  `mirror_repo` can fail after the clone (gitdot-core/src/client/git.rs:484-535), and that failure returns before the
  clean-up, so the mirror stays: `MigrationSaga.MirrorLeftBehind` gives a run for any repository, and
  `MigrationSaga.MirrorIffRepository` the exact condition, the failing operation itself.
- Output with a blank line ended by LF before one ended by CR LF is split differently by the streamed and by the
  buffered reader, depending on the chunks. `CgiSplit.StreamedIsWhole` gives the exact condition for every chunking,
  `CgiSplit.ChunkIndependentIff` the outputs that no chunking spoils, `CgiSplit.ReadsMatterIff` those for which reads
  of at most 4096 bytes decide, `CgiSplit.AmbiguousExample` six bytes of that kind.
- An `append` that reports a failed condition may have left its batch in the log all the same, when the answer to an
  earlier attempt was lost (`AppendOnce.FailureMayHideACopy`). `AppendOnce.RefusalMeansAbsentIff` gives the exact calls
  for which the report can be trusted: those that make one attempt, expect a number the log has passed already, or
  carry neither a number nor a fencing token.
- After racing drops a client's timestamp may be older than its last use, so that the reaper removes a client that was
  in use a moment ago: `ClientPoolIdle.RecentlyUsedMayBeRemoved` is such a run. The reaper goes by the timestamp of one
  drop (`ClientPoolIdle.ReaperGoesByADrop`), and that drop ended the last use if and only if no grant cleared the
  timestamp between its decrement and its write (`ClientPoolIdle.RemovedAfterLastUseIff`). The client was used within
  the timeout if and only if such a grant came and a permit was given back after it, within the timeout
  (`ClientPoolIdle.RemovedTooEarlyIff`).
- `close` of an append session promises to wait until everything submitted is appended
  (s2-sdk/src/session/append.rs:235). When the last acknowledgement arrives while the session is sending again after a
  reconnection, the check that ends the loop is not reached, since it comes after a `select!` in which nothing is left
  to wait for (s2-sdk/src/session/append.rs:491-587). `close` then waits although everything is acknowledged, until
  the server ends the stream, failures exhaust the retries or another submission arrives.
  `SessionProgress.CloseMayHang` is such a run; `SessionProgress.CloseHangsIff` and `SessionProgress.SpentIff` say that
  this is the only way to hang.

## Model

| member | source | states |
|---|---|---|
| Records.ValidIffBatchable | s2-sdk/src/types.rs:1266-1276 | an accepted record makes a batch of its own, a refused one fits no batch at all |
| Records.AppendRecordBatch.Push | s2-sdk/src/types.rs:1387-1390 | the cached size stays the sum over the records |
| Records.TryFromIter | s2-sdk/src/types.rs:1393-1427 | a batch is built exactly from the sequences the service takes: not empty and within both limits, with all records in order |
| Batching.BatchingConfig.WithMaxBatchBytes | s2-sdk/src/batching.rs:56-72 | limits outside the service's range are refused, others replace that limit and nothing else |
| Batching.BatchingConfig.WithMaxBatchRecords | s2-sdk/src/batching.rs:79-96 | the same for the record count |
| Batching.Batcher.OfferKeepsOrder | s2-sdk/src/batching.rs:236-246 | a record offered to a partial batch is held behind it, in the batch or as overflow, and the batch stays within the limits |
| Batching.AppendRecordBatches | s2-sdk/src/batching.rs:198-265 | for every linger schedule the batches are the input, or the records before the first oversized one with its error, cut into non-empty batches within the limits; greedy if the linger never fires |
| Batching.FillBatch | s2-sdk/src/batching.rs:227-257 | the inner loop takes the next records in order and stops full, at an overflow, at the end or at a linger |
| Batching.GreedyIsOptimal | s2-sdk/src/batching.rs:185-265 | no partition of the records within the limits has fewer batches than a greedy one |
| Batching.GreedyIsUnique | s2-sdk/src/batching.rs:185-265 | there is one greedy partition of the records |
| Batching.AppendInputs.PollNext | s2-sdk/src/batching.rs:140-157 | an input carries the expected number of its batch, which then grows by the batch's length |
| Batching.AppendInputs.Collect | s2-sdk/src/batching.rs:140-157 | drawing all inputs stamps every batch |
| Batching.StampedAtOffset | s2-sdk/src/batching.rs:127-157 | the k-th input expects the initial number plus the lengths of all batches before it |
| Batching.SoleWriterNeverMismatches | s2-sdk/src/batching.rs:127-157 | a sole writer's inputs are all accepted if and only if the initial number is the tail |
| ProducerConservation.StepConserves | s2-sdk/src/producer.rs:245-349 | every step keeps each submission in exactly one place and all byte permits accounted for |
| ProducerConservation.RunConserves | s2-sdk/src/producer.rs:245-356 | the same in every state of every run |
| ProducerConservation.ResolvedAtMostOnce | s2-sdk/src/producer.rs:435-476 | no ticket is resolved twice |
| ProducerAcks.DispatchIsTruthful | s2-sdk/src/producer.rs:435-452 | answers made from a batch's position name each record's own position |
| ProducerAcks.DrainInRange | s2-sdk/src/producer.rs:309-319 | `drain(..batch_len)` is in range and drains just the batch's acknowledgements |
| ProducerAcks.StepAligned | s2-sdk/src/producer.rs:245-339 | every step keeps the pending acknowledgements in line with in-flight batch, partial batch, overflow and record channel |
| ProducerAcks.RunTruthful | s2-sdk/src/producer.rs:245-356 | in every run an acknowledged ticket carries the log position of its own record, and nothing panics |
| ProducerAcks.EndedResolvesAll | s2-sdk/src/producer.rs:351-356 | once the task has ended every ticket has been resolved, once |
| ProducerAcks.TerminalErrorReachesAll | s2-sdk/src/producer.rs:454-476 | after a terminal error every ticket outstanding resolves to that error, dropped senders included |
| ProducerAcks.CloseWaitsForAll | s2-sdk/src/producer.rs:341-348 | the close exit leaves no record anywhere, and every ticket from before the close was answered by the session |
| ProducerAcks.CloseOkMeansAllAcked | s2-sdk/src/producer.rs:209-216 | if `close` reports success, every ticket handed out before it resolved to the position of its own record |
| ProducerPermits.UnackedBytesAreBounded | s2-sdk/src/producer.rs:172-206 | free permits plus the metered bytes of all unacknowledged records are the configured limit, which no record exceeds |
| ProducerPermits.PermitsReturn | s2-sdk/src/producer.rs:424-433 | all permits are free again once the task has ended |
| ProducerTask.Task.constructor | s2-sdk/src/producer.rs:225-243 | the task starts in the protocol's initial state |
| ProducerTask.Task.Dispatch | s2-sdk/src/producer.rs:435-452 | the loop answers the acknowledgements in order and gives their permits back |
| ProducerTask.Task.OnRecordPermit | s2-sdk/src/producer.rs:247-258 | the first branch is the protocol's step |
| ProducerTask.Task.OnCommand | s2-sdk/src/producer.rs:260-281 | the command branch is the protocol's step |
| ProducerTask.Task.OnSendersGone | s2-sdk/src/producer.rs:274-279 | losing all senders fails what is pending and ends the task |
| ProducerTask.Task.OnInput | s2-sdk/src/producer.rs:283-288 | an input starts a submit and its length is remembered |
| ProducerTask.Task.OnSubmitDone | s2-sdk/src/producer.rs:304-333 | a finished submit moves its acknowledgements to a ticket, or ends everything with its error |
| ProducerTask.Task.OnBatchAck | s2-sdk/src/producer.rs:336-338 | tickets complete in any order |
| ProducerTask.Task.Propagate | s2-sdk/src/producer.rs:454-476 | the terminal error is set once and reaches pending, stashed and close |
| ProducerTask.Task.OnSessionClosed | s2-sdk/src/producer.rs:351-355 | the caller of `close` is told how closing the session went, and the task ends |
| ProducerTask.Task.Step | s2-sdk/src/producer.rs:245-349 | each branch of the loop, in place, is a step of the protocol |
| ProducerTask.Task.Run | s2-sdk/src/producer.rs:245-356 | the loop's whole course is a run of the protocol, so its theorems hold of it |
| SessionAcks.AckIsExpected | s2-sdk/src/session/append.rs:690-721 | the next acknowledgement is for the oldest submission in flight, covers it exactly and lies further down the log |
| SessionAcks.NeverPanics | s2-sdk/src/session/append.rs:482-594 | no assertion of the session, the loops' or `process_ack`'s, ever fails |
| SessionAcks.SoundStep | s2-sdk/src/session/append.rs:482-760 | every step keeps the submissions in flight in line with what the connection still owes |
| SessionConservation.RunConserves | s2-sdk/src/session/append.rs:432-470 | a submission is queued, stashed, in flight or resolved, and once |
| SessionOrder.AcksAreTrue | s2-sdk/src/session/append.rs:690-741 | an acknowledgement names the place where the submission's own records are |
| SessionOrder.AcksKeepOrder | s2-sdk/src/session/append.rs:149-152 | acknowledged submissions are in the log in the order of submission |
| SessionOrder.EndedResolvesAll | s2-sdk/src/session/append.rs:447-470 | a session that has ended, also because its task was aborted, has resolved every submission once |
| SessionClose.CloseOkMeansAllAcked | s2-sdk/src/session/append.rs:235-244 | if closing the session succeeds, every submission made before it was acknowledged, truthfully |
| SessionOnce.StashedWasNotSent | s2-sdk/src/session/append.rs:512-528 | a submission waiting to be sent was never sent before |
| SessionOnce.AtMostOneCopy | s2-sdk/src/session/append.rs:769-780 | with `NoSideEffects`, or an expected number, all records of a submission in the log belong to one copy |
| SessionOnce.EveryRecordHasASource | s2-sdk/src/session/append.rs:512-533 | every record the session wrote belongs to a submission that it sent |
| SessionProgress.EveryStepCounts | s2-sdk/src/session/append.rs:414-660 | whatever fails, every step of the task or the server brings the session closer to its end: retries are exhausted unless more is acknowledged |
| SessionProgress.StuckIff | s2-sdk/src/session/append.rs:501-660 | a live session cannot get on if and only if it has nothing to do, unless the server refuses what it was sent |
| SessionProgress.CloseHangsIff | s2-sdk/src/session/append.rs:491-587 | a session being closed hangs if and only if it streams with nothing left to send or receive |
| SessionProgress.SpentIff | s2-sdk/src/session/append.rs:608-660 | it gets there only by its last acknowledgement arriving while it sends again |
| SessionProgress.SpentIsDone | s2-sdk/src/session/append.rs:235-244 | by then everything submitted before the close is acknowledged, and the caller of `close` has no answer |
| SessionProgress.HangingStays | s2-sdk/src/session/append.rs:501-587 | only the end of the stream, a failure, a submission or losing the session's handle ends that |
| SessionProgress.CloseMayHang | s2-sdk/src/session/append.rs:491-587 | for any record, policy and positive number of retries a run that ends there |
| ProducerProgress.EveryStepCounts | s2-sdk/src/producer.rs:245-356 | every step of the task and every answer of the session brings the producer's task closer to its end |
| ProducerProgress.StepsAreBounded | s2-sdk/src/producer.rs:245-356 | without new calls a run makes no more steps than there is work |
| ProducerProgress.NeverStuck | s2-sdk/src/producer.rs:341-348 | once `close` was called some step or answer is possible until the session is closed, or the failed task waits for reservations |
| ProducerProgress.DrainWaitsForReservations | s2-sdk/src/producer.rs:472-475 | a failed task can end if and only if commands are queued or no reservation is held |
| SessionHistory.AllMadeStep | s2-sdk/src/session/append.rs:482-760 | what a session holds, sends and resolves are the submissions that it received |
| PipelineLinks.LogStep | s2-sdk/src/types.rs:1586-1599 | every step of the session is growth of the log to the producer |
| PipelineLinks.AnswerIsAllowed | s2-sdk/src/producer.rs:304-338 | an acknowledgement by the session names the place of the batch of the ticket that it answers |
| PipelineLinks.CloseIsAllowed | s2-sdk/src/producer.rs:351-355 | when closing the session succeeds no ticket has failed because of the session |
| PipelineLinks.StepIsAllowed | s2-sdk/src/producer.rs:283-356 | whatever the session does, the producer's environment may do |
| PipelineLinks.LinkedStep | s2-sdk/src/producer.rs:283-356 | every step keeps tickets linked to submissions, and errors to a session that ended by itself |
| PipelineLinks.RunRefines | s2-sdk/src/producer.rs:218-356 | every run of producer and session together is a run of each protocol by itself |
| PipelineOnce.InSequenceStep | s2-sdk/src/producer.rs:245-339 | every step keeps the records, from the queue to the submissions, in the order of their tickets |
| PipelineOnce.TicketsKeepOrder | s2-sdk/src/producer.rs:435-452 | acknowledged tickets report positions in the order in which they were handed out |
| PipelineOnce.NoRecordTwice | s2-sdk/src/session/append.rs:769-780 | with `NoSideEffects`, or an expected number, the record of a ticket is in the log once at most, whatever failed |
| PipelineOnce.CloseOkMeansExactlyOnce | s2-sdk/src/producer.rs:209-216 | if `close` reports success then, every record submitted before is in the log exactly once, where its ticket says |
| TaskGraph.FinishOrderIsAcyclic | gitdot-config/src/validate.rs:171-203 | a graph whose nodes finish after all their successors has no cycle |
| TaskGraph.StuckSetHasCycle | gitdot-config/src/validate.rs:143-158 | if every node of a non-empty set is preceded in it there is a cycle |
| TaskGraph.TopologicalOrderExists | gitdot-config/src/validate.rs:143-158 | an acyclic graph can be put in order |
| DagCheck.Search.Position | gitdot-config/src/validate.rs:185 | the first position of a node on the path is found, so the `unwrap` cannot fail |
| DagCheck.Search.Enter | gitdot-config/src/validate.rs:178-179 | the path stays a simple walk of the gray nodes; one node less is white |
| DagCheck.Search.Leave | gitdot-config/src/validate.rs:201-202 | the node is black, the path is as before, the finish order is kept |
| DagCheck.Search.ReportCycle | gitdot-config/src/validate.rs:184-192 | what is reported is a cycle of the graph |
| DagCheck.Search.Dfs | gitdot-config/src/validate.rs:171-203 | the recursion ends, restores the path and leaves the node black |
| DagCheck.Search.Run | gitdot-config/src/validate.rs:205-212 | for every order of the nodes: no error if and only if the graph has no cycle, and every error is one |
| DagCheck.CycleFromPath | gitdot-config/src/validate.rs:184-192 | the path from the neighbour on, closed by it, is a cycle |
| CiConfig.FindBuild | gitdot-config/src/ci.rs:18-23 | the first build with the trigger, or the error that there is none |
| CiConfig.BuildIsUnique | gitdot-config/src/ci.rs:18-23 | in a valid configuration each build is found by its trigger, and only it |
| CiConfig.TasksOfBuild | gitdot-config/src/ci.rs:25-30 | in a valid configuration exactly one task is returned for each name of the build |
| CiConfig.SameCycles | gitdot-config/src/validate.rs:143-158 | the graph built from the tasks has the cycles of `waits_for` |
| CiConfig.ScheduleExists | gitdot-config/src/validate.rs:6-25 | a valid configuration's tasks can be ordered so that each comes after all it waits for |
| CiConfig.SomeTaskCanStart | gitdot-config/src/validate.rs:6-25 | while tasks remain, one of them waits for completed tasks only |
| Validate.CheckDuplicateTaskNames | gitdot-config/src/validate.rs:68-77 | errors exactly for the repeated names |
| Validate.CheckDuplicateBuildTriggers | gitdot-config/src/validate.rs:79-89 | errors exactly for the repeated triggers |
| Validate.CheckDuplicateTaskRefsInBuild | gitdot-config/src/validate.rs:110-123 | errors exactly for the tasks a build lists twice |
| Validate.CheckEmptyBuildTaskLists | gitdot-config/src/validate.rs:91-99 | errors exactly for the builds without tasks |
| Validate.CheckEmptyCommands | gitdot-config/src/validate.rs:101-108 | errors exactly for the blank commands |
| Validate.CheckNoOrphanedTasks | gitdot-config/src/validate.rs:53-66 | errors exactly for the tasks no build lists |
| Validate.CheckTaskReferences | gitdot-config/src/validate.rs:38-51 | errors exactly for the references to undefined tasks |
| Validate.CheckWaitsForUnknownTasks | gitdot-config/src/validate.rs:125-141 | errors exactly for the dependencies on undefined tasks |
| Validate.BuildGraph | gitdot-config/src/validate.rs:144-158 | the adjacency map has exactly the defined tasks and their dependencies |
| Validate.CheckDag | gitdot-config/src/validate.rs:143-213 | no error if and only if `waits_for` has no cycle among the defined tasks |
| Validate.ValidateCiConfig | gitdot-config/src/validate.rs:6-25 | Ok if and only if the configuration is well formed; every error names something wrong |
| ClientPool.CountersStep | s2-sdk/src/client.rs:641-676 | every step keeps each counter equal to the permits held or being granted, and within the limit |
| ClientPool.IdleMarkedStep | s2-sdk/src/client.rs:641-648 | every step keeps idle clients marked unless a drop is about to mark them |
| ClientPoolReaping.CountersOverRuns | s2-sdk/src/client.rs:665-676 | in every run a counter is the number of permits, at most 90 |
| ClientPoolReaping.LivePermitKeepsClient | s2-sdk/src/client.rs:710-739 | in every run a client with a live permit, even one being granted, is in the pool |
| ClientPoolReaping.OnlyExpiredClientsLeave | s2-sdk/src/client.rs:678-739 | a client leaves the pool only without permits and when its timestamp is older than the timeout |
| ClientPoolReaping.IdleClientIsReaped | s2-sdk/src/client.rs:678-739 | an idle client has a timestamp, and the reaper's visit removes it exactly if the timeout has passed |
| ClientPoolReaping.PeakWasReached | s2-sdk/src/client.rs:665-676 | the recorded peak is the number of requests active in some state of the run |
| ClientPoolReaping.PoolSizeIsBounded | s2-sdk/src/client.rs:710-739 | 90 times all clients but one never exceeds the most requests ever active at once |
| ClientPoolIdle.ReaperGoesByADrop | s2-sdk/src/client.rs:641-686 | a removed client carries the timestamp of a drop that gave back its last permit, and no step has touched it since |
| ClientPoolIdle.UnusedUpToTheDrop | s2-sdk/src/client.rs:641-686 | up to that drop the client was not used within the timeout |
| ClientPoolIdle.RemovedAfterLastUseIff | s2-sdk/src/client.rs:641-686 | the client was used again if and only if a grant cleared its timestamp between that drop's decrement and write |
| ClientPoolIdle.RemovedTooEarlyIff | s2-sdk/src/client.rs:641-686 | it was used within the timeout if and only if such a grant came and a permit was given back after it, within the timeout |
| ClientPoolIdle.RemovedWasUnused | s2-sdk/src/client.rs:641-686 | a removed client was not used for the whole timeout unless that drop was overtaken |
| ClientPoolIdle.RecentlyUsedMayBeRemoved | s2-sdk/src/client.rs:641-686 | a run with a stalled drop whose client is removed although it was in use a moment ago |
| ClientPoolObject.HostPool.RequestPermit | s2-sdk/src/client.rs:665-676 | a permit is granted exactly if the counter is below the limit, and clears the timestamp |
| ClientPoolObject.HostPool.CheckoutShared | s2-sdk/src/client.rs:711-718 | under the read lock the first client with room gets the request |
| ClientPoolObject.HostPool.CheckoutExclusive | s2-sdk/src/client.rs:719-731 | under the write lock the same, and a client is added only if none has room |
| ClientPoolObject.HostPool.DropPermit | s2-sdk/src/client.rs:641-648 | the counter falls by one; the last permit leaves a timestamp |
| ClientPoolObject.HostPool.ReapIdleClients | s2-sdk/src/client.rs:734-739 | exactly the idle clients whose timeout has passed are removed, the others keep their order |
| Retry.DelayIsAsDocumented | s2-sdk/src/retry.rs:86-89 | the base delay is the documented one if and only if the saturated power of two does not matter |
| Retry.DelayFallsShort | s2-sdk/src/types.rs:304-309 | an input where it does matter |
| Retry.BaseDelayMonotonic | s2-sdk/src/retry.rs:86-89 | base delays never decrease and never exceed the maximum |
| Retry.RetryBackoff.Next | s2-sdk/src/retry.rs:82-96 | the delay is between the base delay and twice it; nothing is left after the configured retries |
| Retry.Send | s2-sdk/src/api.rs:700-776 | at most the configured attempts, one without retries; all but the last met a retryable error; the last one's result is returned; every wait is at least the backoff and the server's demand |
| AppendOnce.CopiesAreBounded | s2-sdk/src/ops.rs:167-179 | in every run all of the call's records in the log lie in whole copies of the batch, and there is one with `NoSideEffects` or an expected number, else at most one an attempt |
| AppendOnce.BoundIsReached | s2-sdk/src/types.rs:284-299 | without an expected number some run leaves as many copies as the policy allows attempts |
| AppendOnce.OkIsDurable | s2-sdk/src/api.rs:182-213 | an acknowledged batch stands at the acknowledged position, which is the expected one |
| AppendOnce.FirstRefusalIsFinal | s2-sdk/src/api.rs:200-206 | a failed condition on the only attempt made so far means that the batch is not in the log |
| AppendOnce.FailureMayHideACopy | s2-sdk/src/api.rs:750-776 | for every other call a run in which the failed condition is reported although the batch is in the log |
| AppendOnce.RefusalMeansAbsentIff | s2-sdk/src/api.rs:700-776 | a reported failed condition proves that nothing was written, in every run, if and only if only one attempt is made, the expected number is behind the tail, or there is no condition |
| Migration.RepoNameOfPath | gitdot-core/src/service/migration.rs:222-225 | the name of `owner/name` is `name` |
| MigrationSaga.OnlyTheMakerRemoves | gitdot-core/src/service/migration.rs:248-250 | only the task that made a mirror removes it; repository rows are never removed |
| MigrationSaga.TasksStep | gitdot-core/src/service/migration.rs:574-631 | every step keeps disk, table and rows what the tasks' stages say |
| MigrationSaga.MirrorIffRepository | gitdot-core/src/service/migration.rs:211-253 | the row is there exactly if the task succeeded; the mirror is there without it if and only if configuring failed after the clone, or the removal failed |
| MigrationSaga.MirrorLeftBehind | gitdot-core/src/client/git.rs:502-508 | for any repository a run that ends with the mirror on disk and no row |
| MigrationSaga.OthersAreKept | gitdot-core/src/service/migration.rs:227-241 | mirrors and rows from before are never touched |
| MigrationSaga.RowsAreFinal | gitdot-core/src/service/migration.rs:599-629 | a row ends Completed or Failed exactly if its last write worked, and as its task ended |
| MigrationSaga.ResponseIsTheSuccesses | gitdot-core/src/service/migration.rs:635-657 | the response is the successes in request order; the migration is Completed if and only if every task succeeded |
| MigrationSaga.CompletedIffAllRows | gitdot-core/src/service/migration.rs:635-657 | if nothing panics and the status writes work, all rows are final, and the migration is Completed if and only if all rows are |
| MigrationSaga.SuccessesAreDistinct | gitdot-core/src/service/migration.rs:227-241 | no two tasks succeed with one repository name |
| MigrationSaga.EveryStepCounts | gitdot-core/src/service/migration.rs:574-657 | whatever fails, every step of the migration brings it closer to its reply |
| MigrationSaga.NeverStuck | gitdot-core/src/service/migration.rs:635-657 | until the reply some step is possible |
| MigrationService.Service.MirrorRepo | gitdot-core/src/client/git.rs:460-538 | an existing target is refused, a failed clone leaves nothing, a failed configuration leaves the clone |
| MigrationService.Service.SetupMirroredRepository | gitdot-core/src/service/migration.rs:255-313 | the row is created if all hooks and the insertion work, else nothing changes |
| MigrationService.Service.MigrateSingleRepository | gitdot-core/src/service/migration.rs:211-253 | all or nothing on disk and in the table; a mirror is left exactly if the clone works and then configuring fails, or set-up and removal both do |
| MigrationService.JoinAll | gitdot-core/src/service/migration.rs:635-643 | the loop collects the successes in order and notes whether there was anything else |
| CgiSplit.FirstMatch | gitdot-core/src/client/git_http.rs:109-123 | the first place where the pattern stands, if there is one |
| CgiSplit.FindHeaderSeparator | gitdot-core/src/client/git_http.rs:109-123 | the two loops find the first CR LF CR LF, else the first LF LF |
| CgiSplit.ReadUntilCgiSeparator | gitdot-core/src/client/git_http.rs:127-148 | reading stops at the first chunk that completes a separator, and loses no byte |
| CgiSplit.ParseCgiResponse | gitdot-core/src/client/git_http.rs:150-157 | the whole output is cut at its separator |
| CgiSplit.ServiceRpc | gitdot-core/src/client/git_http.rs:256-301 | leftover and remaining reads, without empty chunks, are the streamed split's body |
| CgiSplit.StreamedSplitConserves | gitdot-core/src/client/git_http.rs:256-301 | header, separator and body are the output byte for byte |
| CgiSplit.StreamedIsWhole | gitdot-core/src/client/git_http.rs:109-165 | for every chunking, the exact condition under which the streamed split is that of the whole output |
| CgiSplit.ChunkIndependentIff | gitdot-core/src/client/git_http.rs:109-165 | no chunking matters if and only if no LF LF precedes the first CR LF CR LF |
| CgiSplit.ReadsMatterIff | gitdot-core/src/client/git_http.rs:127-148 | two ways of reading at most 4096 bytes at a time split output differently if and only if one read can complete both kinds of blank line, the one ended by LF first |
| CgiSplit.AmbiguousIsSplitTwice | gitdot-core/src/client/git_http.rs:109-165 | output that is ambiguous would be split differently if it arrived at once and byte by byte |
| CgiSplit.AmbiguousExample | gitdot-core/src/client/git_http.rs:109-165 | six bytes for which that is so |
| LimitedReader.LimitedReader.PollRead | gitdot-server/src/util/limited_reader.rs:55-93 | below the limit the caller's buffer grows by the next bytes only; at the limit the poll fails exactly if there is another byte |
| LimitedReader.LimitedReader.Probe | gitdot-server/src/util/limited_reader.rs:63-79 | one byte in a buffer of its own tells a clean end from an overrun |
| LimitedReader.Drain | gitdot-server/src/util/limited_reader.rs:37-93 | for all chunks, delays and buffer sizes: a prefix of at most `limit` bytes, a clean end exactly if the data has no more |
| Pagination.ListStreams | s2-server/src/backend/streams.rs:55-73 | a page is the first matches after the cursor, and says whether there are more |
| Pagination.ListedAfter | s2-sdk/src/ops.rs:115-124 | listing after the last name of a page gives the rest of the list |
| Pagination.ListingIsComplete | s2-server/src/backend/streams.rs:30-74 | the one-shot listing has every matching stream, in order |
| Pagination.VisibleIsFiltered | s2-sdk/src/ops.rs:116-121 | dropping deleted streams keeps all others, in order |
| Pagination.ListAllStreams | s2-sdk/src/ops.rs:102-129 | the walk ends and yields the one-shot listing; only a beginning of it if a request fails or an empty page promised more |
| Positional.ValueOfDigits | gitdot-core/src/client/token.rs:120-123 | fixed-width digits denote the value they were made from |
| Positional.DigitsOfValue | gitdot-core/src/client/token.rs:120-123 | and the digits of a value are the digits it was read from |
| Token.PaddedIsDigits | gitdot-core/src/client/token.rs:120-123 | padding with zeros writes all digits of the value |
| Token.WidthsSuffice | gitdot-core/src/client/token.rs:23-25 | 22 digits hold 128 bits and 6 digits hold 32 bits |
| Token.ParseInvertsGenerate | gitdot-core/src/client/token.rs:165-218 | exactly the generated tokens parse, each to the bytes it was made from |
| Token.OtherChecksumIsRefused | gitdot-core/src/client/token.rs:185-218 | with any other checksum the same body is refused |
| Token.ValidateTokenFormat | gitdot-core/src/client/token.rs:185-218 | accepts exactly the strings that generation can make |

## Left out

- ProducerAcks.CloseOkMeansAllAcked: says nothing of a `close` that reports an error, or whose sender was dropped.
- Session permits: `reserve` and its semaphores are modelled for the producer only; a session's submissions arrive
  already permitted.
- Sequence numbers are unbounded, except that `match_seq_num` wraps at 2⁶⁴ where the client adds to it.
- SessionProgress.CloseHangsIff: acknowledgement deadlines are failures that may come at any moment, also where the code
  has no timer armed; what a hanging `close` of the session means for a producer that waits for it is not stated.
- ProducerProgress.NeverStuck: that a possible step is taken, and that the session answers, is up to the scheduler and
  to `SessionProgress`.
- Time: the linger timer, acknowledgement deadlines and sleeps are steps that may come at any moment.
- Retry.RetryBackoff.Next: the jitter is any value from zero to the base delay, where the code draws a floating-point
  number and converts it.
- State as values: the producer, the pool, the session, the appends and the migration are state machines over values,
  so that runs can be quantified over; the classes for producer, pool and migration update fields in place, but
  aliasing between the two ends of a channel is not modelled.
- ClientPoolReaping.OnlyExpiredClientsLeave: the age stated is the timestamp's; when that is the time since the last
  use is `ClientPoolIdle.RemovedAfterLastUseIff`.
- ClientPoolObject.HostPool.RequestPermit: states a call that no other thread's step interrupts; every interleaving is
  the subject of `ClientPool`, `ClientPoolReaping` and `ClientPoolIdle`.
- ClientPoolObject.HostPool.CheckoutShared: states a scan that no permit drop interrupts, as above.
- ClientPoolObject.HostPool.CheckoutExclusive: states a scan that no permit drop interrupts, as above.
- ClientPoolObject.HostPool.DropPermit: states a drop that no other thread's step interrupts, as above.
- ClientPoolObject.HostPool.ReapIdleClients: states a pass that no permit drop interrupts, as above.
- The client pool: memory ordering is sequentially consistent, and the map of hosts above the pools is not modelled.
- MigrationSaga.MirrorIffRepository: a task that panics keeps what it has made, and nothing is said about its mirror or
  row beyond that; the steps before the tasks are spawned, and other people removing repositories meanwhile, are not
  modelled.
- MigrationService.Service.MigrateSingleRepository: states one task alone; every interleaving of tasks is the subject of
  `MigrationSaga`.
- CgiSplit.ParseCgiResponse: the header section is found, but its lines and the status code are not parsed.
- CgiSplit.ServiceRpc: header lines and the status code are not parsed; errors and timeouts while the body is streamed
  are not modelled.
- Validate.ValidateCiConfig: errors are values that name the check and the culprit, not texts; parsing the TOML is not
  part of this model.
- Token.ValidateTokenFormat: CRC32 is any function to 32 bits, and tokens are ASCII, since the code slices at byte
  offsets.
- LimitedReader.LimitedReader.PollRead: the part of the caller's buffer that is not filled is initialised memory.
- Build-level scheduling: nothing checks that `waits_for` stays inside one build, so schedulability is stated for the
  whole task list.
- Network, TLS, compression, git itself, databases, JWT, HMAC and JSON are foreign calls. Consumers, routers, DTOs,
  authorization and the web client would add only easy members.
