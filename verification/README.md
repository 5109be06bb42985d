# LiteCode judge: verified model

A Dafny model of the parts of LiteCode whose correctness depends on interleavings, on state kept
across calls, or on formats that must be read back: the asynchronous judge pipeline and the
sequential cores around it. `dafny verify dfyconfig.toml` checks everything.

**The judge pipeline.** N workers and any number of clients share a bounded FIFO queue; a
submission row changes only through guarded compare-and-set updates; each task gets a throw-away
container; results go out over a one-shot channel. `Pipeline.dfy` is one transition system whose
steps are single lock regions, atomic operations, SQL statements and Docker calls. A statement may
succeed, fail, or take effect and lose its answer, and so may the creation of a container; the other
Docker calls, removals among them, succeed or fail. `PipelineInvariants.dfy` has
one small preservation lemma per invariant and component, `PipelineTheorems.dfy` the statements over
whole runs. Container use is judged by a monitor written on its own (`Containers.dfy`), which the
sample runner is held to as well. `RunTask.dfy` has `run_one_task` and its helpers as imperative
methods over a class, proved to do what a lone worker's path through the transition system does.
`Scheduler.dfy` has `start`, `enqueue`, `worker_loop` and `shutdown` in the same way. `WarmPool.dfy`,
`Samples.dfy` and `Revisions.dfy` are transition systems of the same kind, with the imperative calls
(`WarmPoolCalls.dfy`; `run`; `record`) proved to be paths through them. `JointRun.dfy` runs the
pipeline and its pool together and accounts for every container of both, `Watchers.dfy` the pipeline
and the result channel together and says who is told; `PassWitnesses.dfy` has runs that end otherwise
than the comments say.

**Around it.** `LogFrames.dfy` and `ResultParser.dfy` take container output to a verdict, and
`JudgedRow.dfy` follows a report from judge.sh's last line to the submission's row;
`TokenStore.dfy` and `TokenRotation.dfy` are the refresh-token blacklist beside an uncapped reference
and the rotation on top of it; `Checkin.dfy` ties cached streak counters to the set of recorded days,
and `CheckinNight.dfy` interleaves the statements of any number of check-ins;
`LogRotation.dfy` and `JsonLine.dfy` are the logger's file chain and its line printer with a scanner
written for it; `Notifier.dfy` is the result channel beside a handle-keyed reference; `Tags.dfy`
resolves names under a collation; `AuditFilter.dfy` compiles a filter to SQL text and reads that text
back with a tokenizer and condition reader of its own.

Where the code is narrower than its comments, the model follows the code:

- `finish_se` writes `se` but neither publishes nor looks at whether the row flipped: there are runs
  in which a submission ends so and no continuation ever tells its subscribers
  (`SystemErrorNeverPublished`; `PublishedExactlyVerdicts` and `SilentForever` say which ones).
- The parser accepts any status string and `mark_finished` throws on a non-verdict, leaving the row
  `running` (`NonVerdictLeftRunning`). So does a claim that takes effect and loses its answer, which
  the code's comment takes to leave the row `pending` (`LostClaimLeftRunning`).
  `PassDecidesExactly` gives the exact condition over all outcomes.
- `enqueue` tests only `running_`, which is true from before the first thread is spawned until the
  join is over. A task can be accepted and never popped: after the last worker's exit
  (`AcceptedTaskCanBeStranded`), when not even one thread can be spawned
  (`AcceptedTaskCanBeStrandedAtStart`), and after a restart, since `shutting_down_` is never lowered:
  the new workers never wait (`RestartedNeverWaits`) and are soon gone (`RestartStrandsTasks`).
  `DrainedAtShutdown` says, over any number of starts and stops, what is left behind.
- `try_remove` swallows a failed removal and is never called again, and nobody knows a container whose
  creation took effect and whose reply was lost (`LostContainerStays`). A container survives exactly
  when its reply was lost or its one removal failed (`SurvivesIff`, `ContainersRemovedOnce`).
- A watcher that subscribes after the publication is never told, even if it had read an unfinished
  row (`WatcherMisses`, `LateWatcherMissed`; exactly who is told: `ToldExactly`).
- `unsubscribe` drops the newest callback whatever the handle (`UnsubscribeDropsAnother`;
  `UnsubscribeHonestIff` says when that is the right one), and a callback can run after its
  `wait_for` timed out and unsubscribed, which a comment rules out (`CallbackAfterReturn`; exactly
  when: `FiresAfterUnsubscribeIff`).
- A failing refill returns to its condition variable only when at most one container is missing
  (`FailedPassYieldsIff`); from a reachable state it can go round for ever (`RefillCanSpin`).
- A rotated refresh token can be rotated again in the last fraction of a second before `exp`
  (`RotatedTwice`; `ReplayFate` for every moment), and two racing rotations of one token both succeed
  exactly when both ask before either revokes (`BothRotateIff`; a run: `BothRotate`). Logout reports
  `revoked` even when less than one second was left and nothing is listed (`LogoutListsNothing`), and
  a ceiling below the remaining seconds lets the token become usable again (`CappedLogoutLapses`; `LogoutFate`,
  `LogoutCoversIff`).
- `get_stats` reports a streak that may have lapsed (`LapsedStreakReported`,
  `ReportedStreakAliveIff`). A failed counter update after a stored record can leave the counters too
  small (`LostUpdateCorrupts`) or too large (`LostUpdateOverReports`); `LostUpdateForgivenIff` says when
  one more check-in puts them right, and `CurrentRightIff`, `RecoversIff` and `WrongStreakRecoversIff`
  when later ones do.
- Every statement of a check-in asks for the date anew and no transaction holds them together. Without
  a midnight between an insert and its update the counters stay truthful however the check-ins
  interleave (`UndividedStaysTruthful`); across one, two workers can leave them wrong
  (`MidnightCorrupts`; exactly when: `AcrossMidnightIff`).
- A forced revision number can leave a gap (`ForcedNumberLeavesGap`; over whole runs
  `GapFreeThroughoutIff`).
- The tag resolver fails on a class stored under another spelling (`OtherSpellingFails`), and on a
  batch with two spellings of a new class (`TwoSpellingsFail`), for which a comment promises one row.
  `ResolvedIff` gives the exact condition on the table and the batch before the call.

## Model

| member | source | states |
|---|---|---|
| `Submissions.SubmissionRepo.Create` | src/db/submission_repo.h:396-437 | returns exactly for language `c` or `cpp`, 1 to 15 MiB of code and positive user and problem, and throws otherwise; answers 0 and stores nothing for an unknown user or problem; otherwise stores a pending row with the given time and no result; terminal rows are kept |
| `Submissions.SubmissionRepo.MarkRunning` | src/db/submission_repo.h:592-604 | wins exactly on a pending row, which is then no longer claimable; nothing else changes |
| `Submissions.SubmissionRepo.MarkFinished` | src/db/submission_repo.h:627-681 | throws exactly on a status outside the nine, leaving the table alone; otherwise flips exactly a pending or running row, column by column, keeping its creation time, with an empty message stored as NULL; terminal rows are kept and `finished_at` matches terminality |
| `Submissions.SubmissionRepo.RequeueStuckRunning` | src/db/submission_repo.h:692-711 | throws below one second; otherwise puts back exactly the running rows older than that, changes nothing else and counts them |
| `Containers.AcceptedMeansOneRemoval` | src/judge/judge_scheduler.h:1088-1104 | a call log the monitor accepts has exactly one removal attempt per container that is gone or was left behind and none per other |
| `Containers.AcceptedMeansNothingAfterRemoval` | src/judge/judge_scheduler.h:841-895 | in an accepted log nothing is done to a container after the attempt to remove it |
| `Containers.AcceptedMeansBrought` | src/judge/judge_scheduler.h:823-837 | the containers Docker ever had are those the log created, handed over or lost; the lost ones are those whose create lost its reply, the gone ones those removed and the ones left behind those whose removal failed |
| `PipelineInvariants.QueueStep` | src/judge/judge_scheduler.h:532-545 | every step keeps accepted = popped + waiting and the queue bound |
| `PipelineInvariants.LifeStep` | src/judge/judge_scheduler.h:432-519 | every step keeps: nothing is accepted before the start, in the first life workers exit only after shutdown began, after a restart `shutting_down_` stays raised, and once down all have exited |
| `PipelineInvariants.GaugeStep` | src/judge/judge_scheduler.h:627-657 | every step keeps `running_count_` equal to the number of workers inside the task body |
| `PipelineInvariants.RowsStep` | src/db/submission_repo.h:592-711 | every step keeps the accounts of claims, flips and sweeps per row, and all terminal rows |
| `PipelineInvariants.BoxStep` | src/judge/judge_scheduler.h:732-895 | every step keeps the monitor content and every container that stands in exactly one worker's hands |
| `PipelineInvariants.AnnounceStep` | src/judge/judge_scheduler.h:899-999 | every step keeps announcements tied one to one to verdict writes seen to flip a row |
| `PipelineInvariants.SettledStep` | src/judge/judge_scheduler.h:899-1034 | every step keeps the rows behind answered writes terminal |
| `PipelineInvariants.NoneLeftBecause` | src/judge/judge_scheduler.h:432-630 | no worker is left only because the last one exits on an empty queue, or a thread cannot be spawned when none of those spawned is left, or the scheduler was stopped before it was started |
| `PipelineTheorems.StepKeepsInv` | src/judge/judge_scheduler.h:502-1034 | all pipeline invariants survive every enabled step, and terminal rows do not change |
| `PipelineTheorems.RunKeepsInv` | src/judge/judge_scheduler.h:502-1034 | the same over whole runs |
| `PipelineTheorems.TerminalForever` | src/db/submission_repo.h:633-681 | a row terminal at any point of any run is identical at every later point |
| `PipelineTheorems.RowLifecycle` | src/db/submission_repo.h:592-711 | in every run a row is made terminal at most once, exactly once iff it is terminal, `finished_at` is set iff terminal, and claims are at most sweeps + 1 |
| `PipelineTheorems.ClaimedOnceWithoutSweeps` | src/judge/judge_scheduler.h:693-706 | without requeue sweeps `mark_running` succeeds at most once per id |
| `PipelineTheorems.AnnouncedAtMostOnce` | src/judge/judge_scheduler.h:899-999 | each submission is published and checked in at most once; the published row says what the stored row says from then on, times and memory that are not positive left out; accepted ones are checked in first |
| `PipelineTheorems.AnnouncedAsAccepted` | src/judge/judge_scheduler.h:930-990 | in every reachable state each published row carries the submission, user, problem, language and code of one accepted task, and each check-in the user, problem and submission of one |
| `PipelineTheorems.PublishedExactlyVerdicts` | src/judge/judge_scheduler.h:899-1034 | in every reachable state a verdict's answered write flipped a submission's row, then exactly once, iff the submission has been published or a worker is announcing it |
| `PipelineTheorems.SilentForever` | src/judge/judge_scheduler.h:899-1034 | a terminal submission that nobody has published and no worker is announcing, whatever the workers do with others, is published in no continuation |
| `PipelineTheorems.QueueIsFifo` | src/judge/judge_scheduler.h:532-658 | in every run accepted = popped followed by waiting, the queue respects a positive bound, and the gauge is the number of workers in the task body, at most `max_concurrent` |
| `PipelineTheorems.DrainedAtShutdown` | src/judge/judge_scheduler.h:432-519 | over any number of starts and stops: whenever no worker is left there is a step from which that is so and nothing is popped after it; at a last exit the tasks popped are exactly those accepted up to it; at a thread that cannot be spawned all that wait are left, in the first life every task accepted; at a stop before the start none is accepted |
| `PipelineTheorems.NothingPoppedAfterLastExit` | src/judge/judge_scheduler.h:615-630 | once no worker is left no run without another start pops anything or brings a worker back |
| `PipelineTheorems.AcceptedTaskCanBeStranded` | src/judge/judge_scheduler.h:532-545 | a run in which a task is accepted during shutdown and never popped |
| `PipelineTheorems.AcceptedTaskCanBeStrandedAtStart` | src/judge/judge_scheduler.h:473-487 | for every configuration, a run in which a task is accepted before the first thread, the thread cannot be spawned, and the task is never popped |
| `PipelineTheorems.RestartedNeverWaits` | src/judge/judge_scheduler.h:502-519 | in every run, after a restart a worker at the queue pops or exits, it never waits |
| `PipelineTheorems.RestartStrandsTasks` | src/judge/judge_scheduler.h:432-519 | a run in which a restarted scheduler accepts a task that no continuation without another start pops |
| `PipelineTheorems.ContainersRemovedOnce` | src/judge/judge_scheduler.h:732-895 | in every interleaving each container has at most one removal attempt and is never started after it; once no worker holds it it has had exactly one, or none if the reply to its create was lost, and Docker still has it iff that reply was lost or that attempt failed |
| `PipelineTheorems.SettledRowsAreTerminal` | src/judge/judge_scheduler.h:899-1034 | a worker leaving after an answered write of an existing row leaves it terminal |
| `RunTask.SoloIsARun` | src/judge/judge_scheduler.h:662-1014 | an undisturbed pass is a run of that worker's steps alone in the transition system |
| `RunTask.SoloKeepsInv` | src/judge/judge_scheduler.h:662-1014 | so every pipeline invariant holds after a pass |
| `RunTask.SoloEffect` | src/judge/judge_scheduler.h:662-1034 | the path of a lone worker and the closed description of a pass agree on rows, calls, publications and check-ins, for every pattern of outcomes |
| `RunTask.PassDecidesExactly` | src/judge/judge_scheduler.h:693-914 | for every pattern of outcomes: the row is terminal afterwards iff it was or this pass decides it; it is running iff it is not decided and was running or was taken by this pass, a claim with a lost answer included; other rows are untouched |
| `RunTask.PassLeavesRow` | src/judge/judge_scheduler.h:662-1034 | for every pattern of outcomes, what each column of the row holds after the pass: unchanged, running, `se` without times, or the reported result |
| `RunTask.PassCallsMean` | src/judge/judge_scheduler.h:766-890 | a pass that wins and stages starts its container; the logs are read iff it exited in time, it is killed iff it started and did not, and it gets exactly one removal attempt; no other pass touches it |
| `RunTask.PooledOnlyDiscarded` | src/judge/judge_scheduler.h:736-762 | a pooled container is handed over, gets exactly one removal attempt and is never started |
| `RunTask.PassCleansUp` | src/judge/judge_scheduler.h:708-1014 | a pass cleans up once, exactly when it wins and stages its files, and then releases exactly the pooled container it managed to discard |
| `RunTask.JudgeScheduler.Persist` | src/judge/judge_scheduler.h:899-914 | the write as the worker sees it: a throw or a lost answer counts as no flip |
| `RunTask.JudgeScheduler.FinishSe` | src/judge/judge_scheduler.h:1021-1034 | writes `se` without times on a pending or running row, column by column, and publishes nothing |
| `RunTask.JudgeScheduler.Supervise` | src/judge/judge_scheduler.h:841-890 | start, wait, then logs or kill, and one removal attempt on every path |
| `RunTask.JudgeScheduler.CleanupAndRelease` | src/judge/judge_scheduler.h:1071-1086 | the pool is told of the lease iff there is one |
| `RunTask.JudgeScheduler.DiscardPooled` | src/judge/judge_scheduler.h:736-762 | a pooled container gets one removal attempt, and counts as a lease only if that worked |
| `RunTask.JudgeScheduler.RunBox` | src/judge/judge_scheduler.h:766-890 | the task's own container: its calls, and whether there is a result to read |
| `RunTask.JudgeScheduler.Conclude` | src/judge/judge_scheduler.h:896-999 | check-in and publication happen iff this write flipped the row; the published row has the task's submission, user, problem, language and code and the result's status, positive times and message; the check-in is for the task's user and problem, iff the status is `ac` |
| `RunTask.JudgeScheduler.JudgeClaimed` | src/judge/judge_scheduler.h:708-1014 | everything after a won claim; the failed task file skips the cleanup |
| `RunTask.JudgeScheduler.RunOneTask` | src/judge/judge_scheduler.h:662-1034 | the whole pass does to rows, container calls, publications, check-ins and releases what the path of a lone worker does; it publishes exactly when every call gets through, the claim and the write are answered on a pending row and the status is one of the nine; field by field what it publishes and whom it checks in |
| `PassWitnesses.SystemErrorNeverPublished` | src/judge/judge_scheduler.h:1021-1034 | a run in which a submission ends `se` and is published in no continuation |
| `PassWitnesses.NonVerdictLeftRunning` | src/judge/judge_scheduler.h:896-914 | a run in which every call succeeds, the status is no verdict and the row stays running |
| `PassWitnesses.LostClaimLeftRunning` | src/judge/judge_scheduler.h:693-706 | a run in which the claim takes effect, its answer is lost and the row stays running |
| `PassWitnesses.LostContainerStays` | src/judge/judge_scheduler.h:823-837 | a run in which a create takes effect, its reply is lost, and no continuation attempts to remove the container |
| `Scheduler.SoloStaysAside` | src/judge/judge_scheduler.h:632-656 | a pass leaves the queue, the flags, the gauge and every other worker as they were |
| `Scheduler.JudgeQueue.Start` | src/judge/judge_scheduler.h:432-497 | a running scheduler is left alone; otherwise, the first time as after a shutdown: refuses unusable settings before anything changes; exactly `max_concurrent` waiting workers and `running_` if all can be spawned, the queue as it was; else those that were spawned are joined and the scheduler is down |
| `Scheduler.JudgeQueue.Enqueue` | src/judge/judge_scheduler.h:532-545 | accepts iff `running_` and the bound leaves room, at the back of the queue |
| `Scheduler.JudgeQueue.JudgeNext` | src/judge/judge_scheduler.h:615-657 | one turn of the loop pops the oldest task and comes back to waiting with the gauge restored |
| `Scheduler.JudgeQueue.FinishTask` | src/judge/judge_scheduler.h:632-657 | a worker at any point of a task finishes it and is back at the queue, nothing else changed |
| `Scheduler.JudgeQueue.WorkerLoop` | src/judge/judge_scheduler.h:615-658 | with nobody else about: a busy worker finishes its task, the whole queue is popped in order whatever each task's calls do, and then the worker exits iff shutdown has begun |
| `Scheduler.JudgeQueue.Shutdown` | src/judge/judge_scheduler.h:502-519 | whatever the workers are doing: all exit, the gauge is 0 and `running_` ends false; in the first life popped = accepted and nothing waits |
| `WarmPool.RunKeepsInv` | src/judge/warm_pool.h:172-377 | every run of one owner, one refill thread and any acquirers keeps the pool's seven invariants |
| `WarmPool.IdleBounded` | src/judge/warm_pool.h:450-481 | idle size never exceeds the target |
| `WarmPool.LeavesOnce` | src/judge/warm_pool.h:323-377 | ids leave in the order they entered, each once, to an acquirer or the drain; taken and one-off ids are never in the pool again |
| `WarmPool.AcquiresServed` | src/judge/warm_pool.h:323-360 | in every run the containers given out, pooled or one-off, and the calls still under way are at most the calls that found the pool running |
| `WarmPool.ShutdownAccountsForAll` | src/judge/warm_pool.h:269-315 | after shutdown idle is empty and every container made for the pool, one in flight included, was taken once or had one removal attempt |
| `WarmPool.EmptyForever` | src/judge/warm_pool.h:269-377 | from the drain on the pool stays empty whatever acquirers and releases do |
| `WarmPool.FailedPassYieldsIff` | src/judge/warm_pool.h:464-534 | a refill pass that fails throughout goes back to the condition variable iff at most one container is missing, and is otherwise where it began |
| `WarmPool.RefillCanSpin` | src/judge/warm_pool.h:464-534 | a reachable running pool in which any number of failing passes ends where it began |
| `WarmPoolCalls.Pool.Start` | src/judge/warm_pool.h:172-263 | refuses a negative target, a target without a client, and a target of which nothing could be created; otherwise the idle list is exactly the creations that worked, in order |
| `WarmPoolCalls.Pool.Acquire` | src/judge/warm_pool.h:323-360 | the oldest idle id, else the one-off, else nothing; a running pool loses exactly that id |
| `WarmPoolCalls.Pool.RefillOnce` | src/judge/warm_pool.h:487-534 | the first attempt that works is pushed and the rest are not made; otherwise nothing changes and the thread waits iff at most one is missing |
| `WarmPoolCalls.Pool.FillGap` | src/judge/warm_pool.h:464-480 | with Docker working the loop ends waiting with exactly the target number of idle containers |
| `WarmPoolCalls.Pool.JoinRefill` | src/judge/warm_pool.h:276-286 | from any point of the refill thread: it ends, and a container it was creating or holding still arrives in the pool |
| `WarmPoolCalls.Pool.Shutdown` | src/judge/warm_pool.h:269-315 | from any point of the refill thread: every idle container, and one whose creation was under way, gets one removal attempt, oldest first, the failed ones are what is left of them, and the pool is stopped and empty |
| `JointRun.HandedIsNew` | src/judge/judge_scheduler.h:736-752 | a container the pool hands out is never one the scheduler already knows, so the scheduler's assumption of fresh ids holds |
| `JointRun.StepKeepsInv` | src/judge/warm_pool.h:323-360 | every joint step keeps both systems' invariants and that they share exactly the containers given away |
| `JointRun.NeverRemovedTwice` | src/judge/warm_pool.h:288-310 | in every joint run no container's removal is attempted twice, by workers or by a worker and the pool's shutdown |
| `JointRun.SurvivesIff` | src/judge/judge_scheduler.h:736-895 | once the pool is stopped and no worker holds it, a container ever created by either side has had exactly one removal attempt, or none if its create lost its reply, and Docker still has it iff that reply was lost or that attempt failed |
| `LogFrames.ReadFrame` | src/judge/docker_client.h:370-393 | one turn of the loop: the payload of the big-endian size iff its stream is wanted, the rest of the body for a cut frame, and the next position |
| `LogFrames.StripDockerLogFrames` | src/judge/docker_client.h:356-395 | the loop computes the recursive reading of the frame format on every byte string; a body shorter than a header or not starting with a stream number comes back as it is |
| `LogFrames.StripRecoversPayloads` | src/judge/docker_client.h:356-395 | stripping encoded frames gives back exactly the wanted payloads |
| `LogFrames.StdoutOnly` | src/judge/docker_client.h:356-395 | however stdout is cut into frames and mixed with stderr, stripping yields exactly the stdout bytes |
| `LogFrames.StripDistributes` | src/judge/docker_client.h:356-395 | stripping distributes over concatenated whole-frame streams |
| `LogFrames.StripTruncated` | src/judge/docker_client.h:356-395 | for every truncation of at least 8 bytes: the complete frames' payloads, then the raw cut frame iff 8 of its bytes are there |
| `ResultParser.SplitLines` | src/judge/judge_scheduler.h:1205-1216 | the split into lines, carriage returns dropped, equals its recursive definition |
| `ResultParser.LooksLikeObject` | src/judge/judge_scheduler.h:1220-1224 | a line is a candidate iff an opening brace follows only blanks |
| `ResultParser.ParseJudgeResult` | src/judge/judge_scheduler.h:1182-1299 | the result is that of the last candidate line that parses as an object; when there is none, an unparsed `se` with no times, no cases and the literal message for its kind, ending with the decimal numeral of a nonzero exit code |
| `ResultParser.ObjectReads` | src/judge/judge_scheduler.h:1225-1285 | what each member of the object becomes, and the default when it is missing or of another kind |
| `ResultParser.CasesInOrder` | src/judge/judge_scheduler.h:1245-1282 | the case results are those of the array's objects in order, other elements skipped |
| `ResultParser.DecimalReads` | src/judge/judge_scheduler.h:1185-1298 | the exit code's numeral reads back to the code under a decimal reader of its own, without leading zeros |
| `ResultParser.ResultUnique` | src/judge/judge_scheduler.h:1182-1299 | that promise determines the result, the message's numeral included |
| `ResultParser.UnendedLine` | src/judge/judge_scheduler.h:1216-1216 | output after the last newline is a line of its own unless nothing is left of it |
| `ResultParser.NoiseIgnored` | src/judge/judge_scheduler.h:1205-1299 | output before the deciding line, and after it if no later line qualifies, does not matter; the deciding line may lack its newline |
| `ResultParser.VerdictThroughFrames` | src/judge/docker_client.h:356-395 | the same through any framing and any stderr |
| `ResultParser.StatusOfInjective` | src/db/submission_repo.h:116-141 | reading a status string loses nothing |
| `ResultParser.StatusSpelled` | src/db/submission_repo.h:116-141 | the status read from a string is the one spelled so, and `mark_finished` accepts exactly the nine verdict strings |
| `JudgedRow.EnvelopeReads` | src/judge/judge_scheduler.h:1227-1290 | reading the envelope judge.sh documents gives back every field and every case; nulls become the defaults |
| `JudgedRow.ReportReachesRow` | src/judge/judge_scheduler.h:877-914 | end to end: through any framing, stderr and surrounding output, with or without a final newline, a pass that wins, gets through and writes leaves exactly the report in the row, whose status is spelled as reported, or the row running iff the status is none of the nine; other rows are untouched |
| `JudgedRow.ReportAnnounced` | src/judge/judge_scheduler.h:896-999 | such a pass publishes that report with the task's own data iff the write was answered and the status is one of the nine, and checks the task's user in iff it is `ac` |
| `TokenStore.InMemoryRefreshTokenStore.PurgeExpired` | src/auth/refresh_token.h:288-300 | keeps exactly the live entries and counts the others |
| `TokenStore.InMemoryRefreshTokenStore.Soonest` | src/auth/refresh_token.h:227-238 | finds an entry expiring no later than any other |
| `TokenStore.InMemoryRefreshTokenStore.Revoke` | src/auth/refresh_token.h:217-241 | purges, evicts the soonest entry iff the live ones fill the cap, then lists the token unless it is listed |
| `TokenStore.InMemoryRefreshTokenStore.IsRevoked` | src/auth/refresh_token.h:243-257 | answers whether the token is listed and unexpired, erasing an expired entry |
| `TokenStore.CallKeepsInv` | src/auth/refresh_token.h:217-300 | every call keeps the size bound, agreement with the reference for ids never evicted, and the record of evictions sound |
| `TokenStore.AnswersLikeReference` | src/auth/refresh_token.h:217-300 | over any calls the store answers like an uncapped first-unexpired-revocation-wins map about any id never evicted; the size respects the cap; each eviction happened with exactly cap live entries, none expiring before the evicted one |
| `TokenStore.UncappedNeverEvicts` | src/auth/refresh_token.h:227-238 | a zero cap never evicts |
| `TokenRotation.IssueTokenPair` | src/auth/refresh_token.h:400-430 | issues iff the access lifetime is at least 1 and the refresh lifetime no shorter; each token has its own id and kind and the user, only the access token the name and role; each `exp` is a whole second, its lifetime rounded down by less than one; the refresh token verifies as one at once and the access token does not; reported expiries are lifetimes from their own readings |
| `TokenRotation.RotateTokenPair` | src/auth/refresh_token.h:464-535 | with a clock reading per use: misuse, invalid, revoked or rotated, each exactly when the arguments, the token's kind and expiry and its own blacklist entry say so; the new pair is the old token's user's; only a success lists the old token, for its remaining whole seconds; an empty id is never listed and no other entry is added or changed |
| `TokenRotation.RotationHappens` | src/auth/refresh_token.h:510-535 | a successful rotation is a run of the blacklist |
| `TokenRotation.CoverFallsShort` | src/auth/refresh_token.h:518-525 | the cover ends less than one second before `exp`; read at one instant it never exceeds it and meets it iff a whole number of seconds was left |
| `TokenRotation.ReplayRefused` | src/auth/refresh_token.h:510-525 | after a rotation at t and any calls that do not evict it, the old token is refused as revoked at every later time before the cover ends |
| `TokenRotation.ReplayFate` | src/auth/refresh_token.h:510-535 | the exact answer at every later moment: revoked, then rotated again, then expired |
| `TokenRotation.RotatedTwice` | src/auth/refresh_token.h:518-525 | a token rotated with less than a second left and rotated again one tick later |
| `TokenRotation.BothRotateIff` | src/auth/refresh_token.h:510-525 | of two rotations of one token, interleaved with each other and any other calls, both are let through iff both ask before either revokes |
| `TokenRotation.BothRotate` | src/auth/refresh_token.h:510-525 | for every token id, a run in which two racing rotations are both let through |
| `TokenRotation.RevokeRefreshToken` | src/auth/refresh_token.h:564-619 | `revoked` iff the token is a live refresh token and no user or its own user is expected; a foreign user changes nothing; what is reported, the token id included, and until when a new entry stands under the ceiling |
| `TokenRotation.LogoutFate` | src/auth/refresh_token.h:596-619 | the exact answer to a logged-out token at every later moment, whatever it was listed for before |
| `TokenRotation.LogoutCoversIff` | src/auth/refresh_token.h:596-615 | a newly listed token is covered to within a second of `exp` iff the ceiling does not cut its remaining seconds |
| `TokenRotation.LogoutListsNothing` | src/auth/refresh_token.h:596-619 | with less than a second left `revoked` is reported, the blacklist cannot change and the token can still be rotated |
| `TokenRotation.CappedLogoutLapses` | src/auth/refresh_token.h:603-615 | a logout whose ceiling is below the remaining seconds: refused at once, rotated long before `exp` |
| `TokenRotation.LogoutHappens` | src/auth/refresh_token.h:596-619 | a logout is a run of the blacklist |
| `Checkin.RunIsMaximalInterval` | src/db/checkin_repo.h:232-248 | a run is an interval of recorded days that cannot be extended to the left |
| `Checkin.CheckinRepo.TryCheckin` | src/db/checkin_repo.h:189-260 | with a date per statement: records the day once; updates the counters iff the record is new, there is a users row and all statements succeed; what it answers in every case; truthful counters stay truthful iff nothing was recorded or all succeeds with no midnight between insert and update |
| `Checkin.StreaksAreTruthful` | src/db/checkin_repo.h:189-260 | over any non-decreasing days the counters are the latest day, the maximal run ending there and the longest run anywhere |
| `Checkin.CheckinRepo.GetStats` | src/db/checkin_repo.h:268-297 | whether today is recorded, the number of records, the stored counters or zero without a users row, and what they mean when truthful |
| `Checkin.ReportedStreakAliveIff` | src/db/checkin_repo.h:268-297 | the reported streak is the one alive today iff the last check-in was today or yesterday, or never |
| `Checkin.LapsedStreakReported` | src/db/checkin_repo.h:268-297 | truthful counters that report a streak long lapsed |
| `Checkin.LostUpdateForgivenIff` | src/db/checkin_repo.h:189-260 | after a record whose counter update failed and one more check-in, all three counters are right iff a condition on the counters and the two dates holds |
| `Checkin.LostUpdateCorrupts` | src/db/checkin_repo.h:189-260 | a lost update that leaves `longest` one short after a gap, and the streak one short without one |
| `Checkin.LostUpdateOverReports` | src/db/checkin_repo.h:189-260 | a lost update after which both the streak and the record are larger than any run |
| `Checkin.CurrentRightIff` | src/db/checkin_repo.h:232-256 | over any later visits and from any counters, the streak is right at the end iff it was right or some visit left a gap |
| `Checkin.RecoversIff` | src/db/checkin_repo.h:232-256 | over any later visits, from a right streak or with a gap first, all three counters are right iff the record was right or a run ending at a newly visited day has reached both the stored record and the true one |
| `Checkin.WrongStreakRecoversIff` | src/db/checkin_repo.h:232-256 | over any later visits, from a wrong streak, all three counters are right iff some visit left a gap and the record, as the wrong streak had raised it by then, was right or is reached together with the true one by a run after the gap |
| `CheckinNight.UndividedStaysTruthful` | src/db/checkin_repo.h:189-260 | any number of check-ins over any number of days: if no midnight falls between an insert and its update, the counters are truthful whenever no check-in is in flight |
| `CheckinNight.AcrossMidnightIff` | src/db/checkin_repo.h:189-260 | any number of check-ins, their statements interleaved in any way across at most one midnight: once all have settled the counters are truthful iff a condition on the counters before and on the order and dates of the statements holds |
| `CheckinNight.MidnightCorrupts` | src/db/checkin_repo.h:189-260 | a run of two check-ins across midnight, every statement succeeding, that leaves the streak one short |
| `LogRotation.Logger.RotateIfNeeded` | src/logger.h:461-489 | nothing happens while the line fits; otherwise every file takes the next number, those beyond `max_files` go, and a new empty file is open, with the size counter in step |
| `LogRotation.Logger.Log` | src/logger.h:319-348 | one write rotates if needed and appends to the open file |
| `LogRotation.FilesAreASuffix` | src/logger.h:319-348 | after any writes the files, oldest to newest, are consecutive groups of whole lines ending with the last one, at most `max_files` of them, and with fewer of them nothing has been dropped |
| `LogRotation.GroupsConcat` | src/logger.h:461-489 | so their bytes concatenate to a suffix of everything written |
| `LogRotation.FilesBounded` | src/logger.h:461-489 | every file is at most the larger of the limit and one line |
| `LogRotation.RotatedFilesFull` | src/logger.h:461-489 | with lines of at most L bytes every rotated file is larger than the limit minus L |
| `JsonLine.AppendJsonEscaped` | src/logger.h:366-387 | the escaping loop appends the escaped form of every byte string |
| `JsonLine.EscapedForms` | src/logger.h:366-387 | the escaped form of every byte, written out |
| `JsonLine.AppendKvJson` | src/logger.h:389-400 | appends one member, with its comma iff one is due |
| `JsonLine.FormatLine` | src/logger.h:402-421 | the JSON branch prints the standard fields, the request id if wanted, then the given fields in order; scanning the line gives each value under its own name |
| `JsonLine.RenderScans` | src/logger.h:366-421 | a scanner for string objects recovers exactly the printed key/value list, for all byte strings |
| `JsonLine.RenderPrintable` | src/logger.h:366-421 | a printed line holds no raw control byte |
| `JsonLine.FileDeterminesRecords` | src/logger.h:366-421 | newline-joined lines determine the records that were logged |
| `Notifier.JudgeNotifier.Subscribe` | src/judge/judge_notifier.h:186-204 | throws on an empty callback; otherwise a fresh handle, last in its submission's list |
| `Notifier.JudgeNotifier.Take` | src/judge/judge_notifier.h:160-166 | the critical section takes out exactly the waiting callbacks of that submission |
| `Notifier.JudgeNotifier.Publish` | src/judge/judge_notifier.h:158-174 | takes the waiting callbacks of that submission and then, outside the lock, invokes them in order |
| `Notifier.JudgeNotifier.Unsubscribe` | src/judge/judge_notifier.h:219-241 | drops the newest waiting callback of the submission, whatever the handle |
| `Notifier.FiresAtMostOnce` | src/judge/judge_notifier.h:158-241 | in every interleaving of snapshots, invocations, subscribes and unsubscribes each callback fires at most once and only with a row of its own submission |
| `Notifier.PublishDeliversWaiting` | src/judge/judge_notifier.h:158-174 | a publication takes exactly the callbacks waiting for that id, in subscription order, none of them fired, and leaves all others waiting |
| `Notifier.PublisherInOrder` | src/judge/judge_notifier.h:167-173 | in every interleaving a publisher has invoked exactly the first so many of the callbacks it took, in order |
| `Notifier.UnsubscribeHonestIff` | src/judge/judge_notifier.h:219-241 | unsubscribing does what the handle asks iff nothing waits or the handle is the newest |
| `Notifier.RefinesHandleKeyed` | src/judge/judge_notifier.h:158-241 | where windows of one submission do not overlap, every run equals that of a handle-keyed channel |
| `Notifier.UnsubscribeDropsAnother` | src/judge/judge_notifier.h:219-241 | a run in which one subscriber leaves and another one is dropped |
| `Notifier.FiresAfterUnsubscribeIff` | src/judge/judge_notifier.h:158-241 | a callback can run after its own unsubscribe returned iff a publisher had taken it or a newer callback was dropped in its place |
| `Notifier.CallbackAfterReturn` | src/judge/judge_notifier.h:284-303 | a run in which a callback runs after its waiter has unsubscribed |
| `Notifier.WaitForOwnSubmission` | src/judge/judge_notifier.h:260-305 | `wait_for` returns a published row iff its callback fired before it looked, and then one of its own submission |
| `Watchers.StepKeepsInv` | src/judge/judge_scheduler.h:946-999 | every joint step keeps both systems' invariants and one snapshot per published submission, and never changes who was told |
| `Watchers.ToldExactly` | src/judge/judge_notifier.h:158-305 | in every joint run a watcher is told iff its submission has been published and its callback was waiting at that moment |
| `Watchers.MissedForever` | src/judge/judge_notifier.h:260-305 | a watcher that was not waiting at the publication is told in no continuation |
| `Watchers.LateWatcherMissed` | src/judge/judge_notifier.h:260-305 | whoever subscribes at any time after the publication is told in no continuation |
| `Watchers.WatcherMisses` | src/judge/judge_notifier.h:260-305 | a whole run that ends so |
| `Tags.TrimMeaning` | src/db/tag_repo.h:291-303 | trimming cuts exactly the blanks at both ends |
| `Tags.TrimTagName` | src/db/tag_repo.h:291-303 | the two index loops compute the trimmed name |
| `Tags.ValidateTagName` | src/db/tag_repo.h:253-284 | accepts exactly the names of allowed length without control bytes and without blanks at either end |
| `Tags.TrimAndValidate` | src/db/tag_repo.h:927-940 | trims in order and stops at the first invalid name |
| `Tags.InsertedCompletes` | src/db/tag_repo.h:943-968 | inserting a list adds exactly the missing collation classes, first spelling first, old rows unchanged and one row per class |
| `Tags.TagTable.InsertIgnore` | src/db/tag_repo.h:943-968 | the insert statement, row by row |
| `Tags.TagTable.SelectByName` | src/db/tag_repo.h:970-1005 | exactly the rows whose class is among the names, keyed by stored spelling |
| `Tags.TagTable.Collect` | src/db/tag_repo.h:1007-1021 | rows in input order, or failure at the first name whose class is stored under another spelling |
| `Tags.TagTable.FindOrCreateMany` | src/db/tag_repo.h:921-1029 | rejects an invalid list at its first bad name without touching the table; otherwise completes the table and succeeds iff, before the call, every trimmed name was its class's stored spelling or the batch's only spelling of a class not stored; rows in input order, or failure at the first name stored under another spelling |
| `Tags.OtherSpellingFails` | src/db/tag_repo.h:1007-1021 | a class stored under another spelling makes the resolver fail |
| `Tags.ResolvedIff` | src/db/tag_repo.h:943-1021 | exactly which batches are resolved, told from the table and the batch before the call |
| `Tags.TwoSpellingsFail` | src/db/tag_repo.h:905-918 | two spellings of a class not stored yet: the first is stored and the call fails at the second |
| `Revisions.NextKeepsGapFreeIff` | src/db/problem_revisions_repo.h:718-752 | an inserted number, forced ones included, keeps the numbering gap-free iff it is N + 1 |
| `Revisions.StepKeepsIff` | src/db/problem_revisions_repo.h:707-806 | a step of any writers keeps the numbering gap-free iff it does not store a forced number other than the next one |
| `Revisions.GapFreeThroughoutIff` | src/db/problem_revisions_repo.h:707-806 | in every interleaving of allocating and forcing writers the numbers are exactly 1..N at every moment iff every forced number stored is the next one by then |
| `Revisions.NumbersAreOwned` | src/db/problem_revisions_repo.h:707-806 | in every run, forced numbers included, a problem's numbers and its successful calls correspond one to one |
| `Revisions.ForcedNumberLeavesGap` | src/db/problem_revisions_repo.h:718-752 | a forced number stored in an empty table leaves a gap |
| `Revisions.NumbersAreGapFree` | src/db/problem_revisions_repo.h:707-806 | with the read of MAX and the insert as separate steps, allocating writers number each problem exactly 1..N |
| `Revisions.ConflictNeedsTwoOthers` | src/db/problem_revisions_repo.h:792-799 | in every run, forced numbers of any kind included, an allocating call gives up only if at least two other revisions of that problem were recorded during it |
| `Revisions.MaxNumber` | src/db/problem_revisions_repo.h:756-763 | COALESCE(MAX, 0) of the recorded numbers |
| `Revisions.RevisionsTable.Record` | src/db/problem_revisions_repo.h:707-806 | undisturbed, the retry loop is a path of the transition system: an allocated number is MAX + 1 and cannot fail, a forced one succeeds iff it is free, a conflict changes no row |
| `Revisions.RevisionsTable.RecordAmong` | src/db/problem_revisions_repo.h:707-806 | with other writers acting between any two of its steps the loop is still a path of the transition system, and what it returns is the number the table has for this call, or a conflict |
| `AuditFilter.ValidateDatetime` | src/db/audit_log_repo.h:424-443 | accepts exactly 10 to 19 bytes without control characters |
| `AuditFilter.ClampListFilter` | src/db/audit_log_repo.h:448-452 | limit into 1..100 with default 20, offset at least 0, filters untouched |
| `AuditFilter.BuildWhereClause` | src/db/audit_log_repo.h:841-886 | fails exactly on a misshapen time, naming the first; otherwise the text reads back as the filter's conditions and binding ints before strings gives each placeholder its own value |
| `AuditFilter.WhereSelectsExactly` | src/db/audit_log_repo.h:841-920 | evaluating that text on any table selects exactly the rows meeting the filter, or fails iff the database cannot read a time |
| `AuditFilter.MatchingMeans` | src/db/audit_log_repo.h:841-886 | which rows match a filter, column by column |
| `AuditFilter.Count` | src/db/audit_log_repo.h:898-940 | the total is the number of matching rows; the error cases exactly |
| `AuditFilter.OrderIsUnique` | src/db/audit_log_repo.h:942-980 | the id tie-break leaves only one newest-first order |
| `AuditFilter.List` | src/db/audit_log_repo.h:952-998 | a page of the newest-first matching rows at the clamped offset and limit (20, at most 100, else as asked), newest first with the larger id first within one moment, no longer than the limit, with the count's total |
| `AuditFilter.PagesTile` | src/db/audit_log_repo.h:952-998 | stepping the offset by the clamped limit, the pages one after another are the newest-first matching rows, none missing and none repeated |
| `Samples.PermitsConserved` | src/judge/sample_runner.h:64-116 | in every interleaving free permits plus runs in progress equal the cap of at least 1, permits stay within 0..cap, and each finished run gave back exactly one |
| `Samples.SaturatedIff` | src/judge/sample_runner.h:155-165 | an arriving run is refused iff the cap's number of runs is in progress, and a refusal changes nothing |
| `Samples.BoxesRemovedOnce` | src/judge/sample_runner.h:221-332 | in every interleaving a container is in the hands of a run in progress or has had exactly one removal attempt, or none if the reply to its create was lost, and Docker still has it iff a run holds it, that reply was lost or that attempt failed; a finished run's container has had its attempt |
| `Samples.RunIsAPath` | src/judge/sample_runner.h:152-353 | an undisturbed run is a path of the transition system with exactly its calls, ending with its permit back |
| `Samples.RunCallsMean` | src/judge/sample_runner.h:221-332 | a permitted run's logs are read iff its container exited in time, it is killed iff waiting failed, and it gets one removal attempt |
| `Samples.CountingSemaphore.TryAcquire` | src/judge/sample_runner.h:95-100 | takes a permit iff one is free |
| `Samples.CountingSemaphore.Release` | src/judge/sample_runner.h:101-105 | gives one back |
| `Samples.SampleRunner.Await` | src/judge/sample_runner.h:286-343 | wait, then logs or kill, one removal, and the parsed verdict or a failure |
| `Samples.SampleRunner.RunPermitted` | src/judge/sample_runner.h:169-353 | the calls made and the answer given for every pattern of outcomes, a thrown directory error included |
| `Samples.SampleRunner.Run` | src/judge/sample_runner.h:152-353 | the permit count is unchanged however the run ends; saturated iff none was free |

## Left out

- HTTP routes, CORS, configuration loading, password policy and wiring: input and output around the core.
- The Docker HTTP client: its calls are nondeterministic outcomes with fresh container ids.
- JWT signing, bcrypt and UUIDs: a presented token is unusable or one of ours, and token ids are taken as fresh.
- JSON parsing: a partial function from a line to a value.
- The MySQL driver: tables are maps or sequences, one statement is one step, and a collation and the reading of times are parameters.
- Condition variables, wake-ups and liveness: waits are guarded steps and only safety is claimed.
- Metrics and log output of the judge.
- Starting a pool again after its shutdown: one start and one shutdown.
- An exception escaping `run_one_task` into the worker's catch-all (out of memory): the pass itself catches everything else.
- A missing pool or notifier: the model's pool may answer nothing, and its publications may reach nobody.
- Plain CRUD (`problem`, `user`, `solution`, `comment`, `discussion`, `notification` repositories) and `tag_repo` `replace`: easy members beside the resolver.
- Text log format, log levels, and rotation over a directory that already holds gaps or more files than are kept; file operations succeed.
- Field validation in `record`: easy single-loop members.
- Blocking `acquire` of the sample semaphore and the trimming of sample cases: the first is never called.
- TokenRotation.ReplayRefused: takes the wall clock and the steady clock to advance together; the store's calls are in lock order.
- TokenRotation.RotateTokenPair: has no other call between its blacklist question and its revocation; TokenRotation.BothRotateIff has.
- Scheduler.JudgeQueue.Shutdown: lets the workers finish one after another with nobody else about, as Scheduler.JudgeQueue.WorkerLoop and WarmPoolCalls.Pool do; interleavings are covered by PipelineTheorems, WarmPool and JointRun.
- Scheduler.JudgeQueue.WorkerLoop: see Scheduler.JudgeQueue.Shutdown.
- Revisions.RevisionsTable.Record: has no other writer between its steps; Revisions.RevisionsTable.RecordAmong has.
- CheckinNight.AcrossMidnightIff: takes every statement to succeed; a failed update is the lost update of Checkin.LostUpdateForgivenIff.
- Scheduler.JudgeQueue.Start: is not called while a shutdown of a scheduler that was never started is under way.
