# Promotion protocol: model and proofs

A Dafny model of the autopilot promotion protocol and of the stores and algorithms it rests on. Run
`dafny verify dfyconfig.toml` to check it.

What is modelled, and in which file:

- `Pointer.dfy`: the active-guidance pointer of one store. Compare-and-swap, rollback and clear over a pointer row, a
  revision row that survives deletion of the pointer, and an append-only audit log. The code has three different
  readers of a slot's revision, and they are kept apart: the maximum of both rows, the lookup that falls back
  to the pointer row, and the slot row alone.
- `Queue.dfy`, `QueueTheorems.dfy`, `QueueOutcomes.dfy`: leased jobs with fencing tokens, what holds over every run of
  the queue, and what each transaction comes to.
- `WorkerLoop.dfy`, `Worker.dfy`, `WorkerOutcomes.dfy`: a worker process as the sequence of queue operations it performs
  between other processes' operations. The first file gives the meaning of its loop, the second is the code, and
  the third says what an attempt comes to.
- `Transition.dfy`, `TransitionInvariant.dfy`, `TransitionRuns.dfy`, `TransitionTheorems.dfy`: the transition runner as a state
  machine. A step is one database transaction, a crash, or a pointer call by a foreign writer. The resolver of a
  pending transition has a program counter, so its two slot reads, its pointer call and its final write are
  separate steps, and crashes and foreign writes fall between any two of them. The third file shows that one
  invariant is kept by every step; the fourth derives the theorems.
- `Decisions.dfy`, `Outcomes.dfy`: whom the runner admits, which arm it serves, which outcomes count, and what the
  outcomes decide in every run, said of the tables and the plan rather than of the code's branches.
- `Recognition.dfy`, `RecognitionExample.dfy`: what the resolver's two separate slot reads can and cannot recognise, with
  foreign writers between them, and a concrete run that reaches the rows for which they fail.
- `LaggingExample.dfy`: runs from a store whose slot row lags behind its pointer row.
- `Runner.dfy`: the runner's code as a class over the transition, receipt and pointer tables. Each method is proved to
  perform a run of the machine, so the theorems about runs are theorems about the code.
- `EndToEnd.dfy`: the queue, the machine and the pointer store together. A candidate is vetted in one step and admitted
  in a later one.
- `Coordinator.dfy`: the manual coordinator: the evidence chain read row by row, then one compare-and-swap.
- `Reconcile.dfy`: the keyset-paged reconciliation scan, with other processes listing, approving, admitting and
  excluding candidates meanwhile.
- `Rlm.dfy`, `Retention.dfy`, `Replay.dfy`: the budgeted recursive analyser, capped evidence retention, the replay gate.

Each imperative file has the same shape. Pure functions give the meaning of every operation, a class or a
method in the source's form is proved equal to them, and lemmas about the functions state what is promised.
Clock readings are parameters of the operations, and no relation between them is assumed.

## Where the code does less than one might read into it

These are stated as lemmas with the exact condition under which the code does what is expected.

- A recovered promotion or rollback can be mistaken. The resolver reads a slot's version and revision separately. If the
  candidate proposes the version that is already active, a foreign writer between the two reads can make the runner
  monitor a different version, or report a rollback it never made. This happens for no other candidate
  (`GenuineExactlyWhenDistinct`), and rows for which it can happen are reachable
  (`RepeatedPromotionIsReachable`, `RepeatedRollbackIsReachable`).
- A worker loop that is to run `once` may claim more than once: after a lost lease it goes on to the next pass before
  it looks at `once`. It claims at most one job exactly unless the first pass loses its lease and the second is
  granted a job (`OnceClaimsOnce`), and `OnceClaimsTwice` is a run with two claims. The command line passes a limit
  of one pass as well.
- An exception while one pending transition is resumed leaves all later ones pending, and nothing expires or is scanned in
  that call (`ResumeIncomplete`, `Reconcile`).
- Manual promotion has no time-of-check gap exactly when the caller's expected revision is absent or at most the revision
  observed; a caller who names a later revision can have stale evidence applied (`SoundExactlyWithinObserved`).
- A monitored candidate always has control observations, so `monitor_baseline_missing` is never reported
  (`OutcomeDecides`).
- A running job need not have a lease. A claim deletes expired leases of other jobs without requeueing them, and reclaiming
  looks only at jobs with a lease (`ClaimStrandsExpired`, `StrandedStays`, `RunningJobWithoutLease`).
- A forced enqueue over a job with an expired lease row fails on the foreign key and changes nothing (`EnqueueOutcome`).
- A hard failure or regression whose own text contains the marker `judge_` reads as a judge failure: the report is
  review-only instead of rejected, and never ready (`ReviewExactlyWhenJudged`). `MarkedCaseIsReviewed` is such a report.
- `rejected`, and `rolled_back` after a failed canary, mean the incumbent at the effective revision admission found. It is
  the recorded revision exactly if the slot row did not lag behind the pointer row at admission
  (`RecordedExactlyUnlessLagging`); `RejectedAheadOfRecorded` and `RolledBackAheadOfRecorded` are runs where it is not.
  A candidate admitted over a lagging slot row runs its canary but is never promoted (`LaggedIsNeverPromoted`).
- A manual rollback's report of what it replaced is true exactly when the named revision is absent or not ahead of the
  effective one (`ReportedExactlyWhenNotAhead`).
- A scan misses a candidate that others approve behind its cursor (`LateApprovalIsMissed`); it misses nobody who was
  eligible when it began (`FinishedScanMissesNobody`).

## Model

| member | source | states |
|---|---|---|
| `GuidancePointer.StepReadings` | helpers/store.py:679-762 | One call raises the effective revision by exactly one if it is applied and not at all if it is refused, even when the refusal repairs a lagging slot row; the revision it returns is the one a lookup then finds. |
| `GuidancePointer.RevisionCountsAppliedCalls` | helpers/store.py:696-762 | Over any run the effective revision counts the applied calls on the slot, and a run that applied none left the pointer as it was. |
| `GuidancePointer.EqualReadingsPinPointer` | helpers/store.py:679-762 | ABA freedom for any two of the three readers: an equal later reading means that nothing was applied in between and the pointer was the same at every moment, across clear and re-install. |
| `GuidancePointer.AuditLogReplaysHistory` | helpers/store.py:717-762 | The log only grows, and folding a slot's new entries over its starting pointer and revision, each naming the previous content and the next revision, gives the current pointer and revision. |
| `GuidancePointer.GuidanceStore.CompareAndSwap` | helpers/store.py:696-722 | The transaction's tables and result are those of the specified call: scope check, comparison with the maximum revision, repair on refusal, or pointer, revision and audit on success. |
| `GuidancePointer.GuidanceStore.RollBack` | helpers/store.py:724-725 | A rollback is that call with the rollback action. |
| `GuidancePointer.GuidanceStore.ClearSlot` | helpers/store.py:727-763 | Clearing deletes the pointer row, keeps the revision history and logs the previous version, or refuses and repairs. |
| `GuidancePointer.GuidanceStore.AppendVersion` | helpers/store.py:649-654 | Staging never overwrites an existing version row and moves no pointer. |
| `GuidancePointer.GuidanceStore.GetActive` | helpers/store.py:665-677 | The joined read yields the pointer's version with the effective revision, exactly when a pointer row exists. |
| `GuidancePointer.GuidanceStore.GetRevision` | helpers/store.py:679-694 | The lookup reads the slot row and falls back to the pointer row. |
| `JobQueue.JobStore.EnqueueJob` | helpers/store.py:790-804 | Inserts, declines over an existing job or a live lease, or fails on the foreign key of an expired one. |
| `JobQueue.JobStore.ClaimJob` | helpers/store.py:806-841 | Sweeps expired leases, picks the oldest pending job of the filter, and fails it for good at the attempt limit or grants it the next token. |
| `JobQueue.JobStore.HeartbeatJob` | helpers/store.py:843-847 | Renews exactly an unexpired lease with the same owner and token. |
| `JobQueue.JobStore.CompleteJob` | helpers/store.py:849-900 | A fenced completion ends the attempt and records at most one approval of a nominated, vouched candidate, or changes nothing. |
| `JobQueue.JobStore.CompleteJobUnfenced` | helpers/store.py:849-900 | The legacy completion without owner and token, kept apart as its own operation. |
| `JobQueue.JobStore.CancelJob` | helpers/queue.py:140-172 | Cancels pending or running work, for a lease holder only under its unexpired lease. |
| `JobQueue.JobStore.ReclaimExpired` | helpers/store.py:902-912 | Exactly the running jobs with an expired lease go back to pending, or to failed at their limit, and lose the lease. |
| `QueueTheorems.RunKeepsWf` | helpers/store.py:806-912 | In every reachable queue a lease implies a running job and carries the last token issued for it. |
| `QueueTheorems.TokensIncrease` | helpers/store.py:806-841 | Tokens issued for one job strictly increase across completion, cancellation, expiry, reclaim and forced re-enqueue. |
| `QueueTheorems.StaleWorkerExcluded` | helpers/queue.py:105-172 | Once a job was completed, cancelled, reclaimed or claimed again, every later operation with an earlier token is declined and changes nothing, for ever. |
| `QueueTheorems.CompletionUsesLatestToken` | helpers/store.py:849-866 | An accepted fenced completion holds an unexpired lease on the last token issued of a running job. |
| `QueueTheorems.CompletionsFollowTokenOrder` | helpers/store.py:849-900 | Accepted completions of a job come in strictly increasing token order, so a token yields at most one, whatever the clock does. |
| `QueueTheorems.AttemptIsExclusive` | helpers/store.py:806-912 | Between a claim and the accepted completion with its token nothing ended the attempt. |
| `QueueTheorems.EnqueueOutcome` | helpers/store.py:790-804 | An enqueue succeeds if and only if the job is new, or forced with no lease row of any age; otherwise nothing changes; fence counters are never reset. |
| `QueueTheorems.ClaimStrandsExpired` | helpers/store.py:806-812 | A claim leaves without a lease exactly the running jobs whose lease had expired. |
| `QueueTheorems.StrandedStays` | helpers/store.py:902-912 | Only a forced enqueue, an unfenced completion or an unleased cancellation ends that; no reclaim does. |
| `QueueTheorems.RunningJobWithoutLease` | helpers/store.py:806-912 | A concrete run in which a running job has no lease, also after a reclaim. |
| `QueueTheorems.AttemptsCountClaims` | helpers/store.py:806-841 | Under a fixed claim limit a job's attempts are its successful claims since its enqueue and never pass the limit. |
| `QueueTheorems.ClaimsAreBounded` | helpers/store.py:806-912 | Without new enqueues the claims of a run are paid out of the attempts left over all jobs, through failures, retries and reclaims. |
| `QueueOutcomes.LeaseLasts` | helpers/store.py:806-912 | As long as no clock has passed its end, a lease stays through any enqueueing, claiming, renewing, fenced completing, leased cancelling and reclaiming by others, its job stays as it is, and nobody else is granted that job. |
| `QueueOutcomes.ReportInTime` | helpers/store.py:849-866 | All that time its worker's report is accepted. |
| `QueueOutcomes.RenewalLeases` | helpers/store.py:843-847 | A renewal is accepted exactly from the holder of an unexpired lease, and leaves one that runs for the asked time, a second at the least; otherwise nothing changes. |
| `QueueOutcomes.GrantLeases` | helpers/store.py:806-841 | A granted claim leaves its worker a lease with the granted token, for the asked time. |
| `QueueOutcomes.ClaimMeans` | helpers/store.py:806-841 | A claim takes the oldest waiting job of the context if it has attempts left, under the next token, and fails it for good if it has none; otherwise only expired leases go. |
| `QueueOutcomes.ReclaimMeans` | helpers/store.py:902-912 | Exactly the running jobs whose lease ran out are requeued, or failed when their attempts are used up, and everything else stays. |
| `QueueOutcomes.CompletionMeans` | helpers/store.py:849-900 | A fenced completion is accepted exactly from the holder of an unexpired lease whose candidate, if it speaks for one, is on record; it approves exactly that candidate, once. |
| `QueueOutcomes.CancellationMeans` | helpers/queue.py:140-172 | Exactly pending and running work is cancelled, for a lease holder only under its unexpired lease. |
| `Worker.AcceptedWorkWasExclusive` | helpers/scheduler/worker.py:201-279 | When a worker's completion is accepted, the job was its own without interruption from the claim it works under. |
| `WorkerLoop.LoopPasses` | helpers/scheduler/worker.py:201-279 | Without `once` the loop makes every planned pass; with it, it leaves after the first pass that does not lose its lease, so it makes one pass more than it loses leases. |
| `WorkerLoop.OnceClaimsOnce` | helpers/scheduler/worker.py:206-279 | With `once` there is at most one claim if and only if there is no second pass, the first one keeps its lease, or the second is granted nothing. |
| `WorkerLoop.OnceClaimsTwice` | helpers/scheduler/worker.py:222-278 | A concrete loop with `once` whose lease runs out during the first pass and that claims twice. |
| `Worker.QueueWorker.WorkerLoop` | helpers/scheduler/worker.py:201-279 | The queue operations of the loop, between those of other processes, are exactly the specified ones, and it returns the claims granted; under its latest claim and token throughout, with as many claims asked as passes, and with `once` at most one pass more than leases lost. |
| `Worker.QueueWorker.Iterate` | helpers/scheduler/worker.py:209-275 | One pass: reclaim, claim, and for a granted job the watch, the report and the exception handler, with the two results that steer the loop. |
| `Worker.QueueWorker.Handle` | helpers/scheduler/worker.py:272-273 | Whatever raised, and whatever was reported before, a failure is reported with the classification of that exception. |
| `Worker.QueueWorker.Execute` | helpers/scheduler/worker.py:60-83 | While the optimizer runs, the worker's own operations only renew its lease, and it stops exactly at the first cancellation seen or renewal refused. |
| `Worker.QueueWorker.Fail` | helpers/queue.py:126-138 | A failure is requeued exactly if it is transient and attempts are left when it was read, by a fenced completion. |
| `WorkerOutcomes.WatchStopsAtFirst` | helpers/scheduler/worker.py:72-83 | The watch passes every round in which the job is not cancelled and the lease still held, and stops at the first that is not, before the renewal on a cancellation and after it on a refusal. |
| `WorkerOutcomes.TimelyAttemptSettles` | helpers/scheduler/worker.py:60-275 | An attempt that renews and reports in time settles its job with the status it reports, whatever other workers try meanwhile, gives the lease back, and has the candidate it speaks for approved. |
| `WorkerOutcomes.AttemptReports` | helpers/scheduler/worker.py:222-275 | An exception is the last thing an attempt reports; without one, a stopped attempt reports nothing and any other reports its result or failure once. |
| `WorkerOutcomes.PassReclaimsThenClaims` | helpers/scheduler/worker.py:209-222 | A pass requeues what has expired, claims once within its retries, and deals with exactly the job it was granted. |
| `Transition.Settings` | helpers/autopilot_transition_runner.py:226-250 | A calibrated allocation is accepted only as a whole percentage from 1 to 99 that represents it exactly. |
| `TransitionRuns.NextKeepsInv` | helpers/autopilot_transition_runner.py:540-1245 | Every step of the machine, foreign writes and crashes included, keeps the invariant over pointer, rows, receipts and resolvers. |
| `TransitionRuns.Reachable` | helpers/autopilot_transition_runner.py:540-1245 | So the invariant holds in every state of every run. |
| `TransitionTheorems.CrashRecovery` | helpers/autopilot_transition_runner.py:703-945 | However often a resolver crashes and resumes, a candidate is promoted at most once and rolled back at most once; if nobody else moved the slot, rejected, retained and rolled back each determine pointer and revision. |
| `TransitionTheorems.RecordedExactlyUnlessLagging` | helpers/autopilot_transition_runner.py:601-945 | A transition that ended without a move, on a slot nobody else moved, is at its recorded revision if and only if the slot row did not lag at admission. |
| `TransitionTheorems.LaggedIsNeverPromoted` | helpers/autopilot_transition_runner.py:601-876 | In no run is a candidate promoted that was admitted over a lagging slot row. |
| `TransitionTheorems.ClaimedMovesAreLogged` | helpers/autopilot_transition_runner.py:802-945 | In every run a row that says promoted or monitor_rollback has exactly one such entry of its own in the audit log; only recovered moves need not. |
| `LaggingExample.RejectedAheadOfRecorded` | helpers/autopilot_transition_runner.py:601-788 | A concrete run to a rejected row whose slot is ahead of the recorded revision. |
| `LaggingExample.RolledBackAheadOfRecorded` | helpers/autopilot_transition_runner.py:1105-1218 | Likewise to a row rolled back after a failed canary. |
| `TransitionTheorems.ResumeSettles` | helpers/autopilot_transition_runner.py:703-945 | A resumed resolver that is left alone settles within six actions: it accepts a move that took effect, makes one that is due, and reports anything else as a conflict without touching the pointer. |
| `TransitionTheorems.RunnerAuditsAreExact` | helpers/autopilot_transition_runner.py:836-925 | Every applied runner promotion replaced the admitted incumbent, and every applied rollback exactly the candidate, at the recorded revision. |
| `TransitionTheorems.ResolverMovesOnlyItsOwn` | helpers/autopilot_transition_runner.py:802-945 | In every run a resolver step changes a pointer only from the content it may replace, so no foreign write is overwritten. |
| `Recognition.SettledPhasesAreTrue` | helpers/autopilot_transition_runner.py:791-945 | In every run, with writers between the two reads, a row whose candidate differs from its incumbent is monitored or retained only if the slot held the candidate at the recorded revision, and counts as rolled back only if the slot held the incumbent at the next one; other content leaves it for recovery. |
| `Recognition.VouchedWasHeld` | helpers/autopilot_transition_runner.py:791-945 | Whatever slot content a row's phase or a decided resolver vouches for was there, at that revision, at some moment of the run. |
| `Recognition.DistinctCandidatesAreRecognised` | helpers/autopilot_transition_runner.py:791-945 | And it is there now, as long as the slot is still at that revision, for recovered promotions and recovered rollbacks. |
| `Recognition.GenuineExactlyWhenDistinct` | helpers/autopilot_transition_runner.py:791-945 | For a pending row of any run that is ready for its pointer call, every continuation is free of such mistakes if and only if candidate and incumbent are different versions. |
| `Recognition.RepeatedVersionIsMistaken` | helpers/autopilot_transition_runner.py:791-945 | For a candidate that repeats the incumbent's version, the writes by others after which the runner monitors, or reports as rolled back, a version it does not mean. |
| `RecognitionExample.RepeatedPromotionIsReachable` | helpers/autopilot_transition_runner.py:540-653 | A concrete run from an ordinary store reaches such a row ready to be promoted. |
| `RecognitionExample.RepeatedRollbackIsReachable` | helpers/autopilot_transition_runner.py:802-1222 | Continued, it reaches such a row ready to be rolled back. |
| `RecognitionExample.RepeatIsEvidence` | helpers/promotion.py:123-315 | A replay of a version against itself passes the evidence chain. |
| `TransitionTheorems.ReceiptConservation` | helpers/autopilot_transition_runner.py:1138-1218 | In every reachable state the canary, control and monitor counters equal the matching receipts, one receipt per exposure. |
| `Outcomes.OutcomeDecides` | helpers/autopilot_transition_runner.py:1138-1222 | In every run the outcome that counts decides exactly by the receipts so far: hard failures against the veto, numbers against horizon and minimums, the failure rate against the control's at every look; each phase and reason holds if and only if its own condition does. |
| `Outcomes.MonitorStands` | helpers/autopilot_transition_runner.py:1190-1222 | At any moment of any run a candidate past its promotion is monitored, retained or rolling back if and only if its receipts say so. |
| `Outcomes.StoppedCanaryHadFailed` | helpers/autopilot_transition_runner.py:1150-1189 | Whoever was stopped for a hard failure, too few observations or a regression has these in the receipts that are still there. |
| `Outcomes.CountsAreReceipts` | helpers/autopilot_transition_runner.py:1138-1196 | Observations, failures and hard failures are numbers of matching rows of the outcome table. |
| `TransitionTheorems.ReceiptsSawExpectedPointer` | helpers/autopilot_transition_runner.py:1105-1150 | Every receipt was taken while the slot held the expected version at the expected revision. |
| `TransitionTheorems.RetainedPassedEveryLook` | helpers/autopilot_transition_runner.py:1190-1218 | A retained candidate was within margin over the prefix of its receipts at every look and at the horizon, and within the veto. |
| `TransitionTheorems.LiveMonitorBound` | helpers/autopilot_transition_runner.py:1190-1218 | A monitored candidate's failures are at most (control rate + margin) times the last look plus the outcomes since, which are fewer than one interval. |
| `TransitionTheorems.LifecycleStep` | helpers/autopilot_transition_runner.py:601-1218 | Only the intended phase changes occur, settled rows never change, identity fields are fixed, and every change lowers a potential. |
| `TransitionTheorems.LifetimeIsBounded` | helpers/autopilot_transition_runner.py:601-1218 | Over any run a row changes at most as often as its potential allows. |
| `TransitionTheorems.OneLivePerSlot` | helpers/store.py:328-332 | Two live transitions never share a slot. |
| `Runner.TransitionRunner.ConsiderCandidate` | helpers/autopilot_transition_runner.py:540-653 | The checks ahead of the transaction come first and refuse without touching the store; then, after any steps of other processes, the transaction is the machine's admission step, with the same reply. |
| `Decisions.AdmissionMeans` | helpers/autopilot_transition_runner.py:540-653 | A candidate gets a transition if and only if authority, allocation, verification, publication, approval, validation, artifact, free slot, evidence, replay, grant and staged version are all there; the row holds what the slot held, and each refusal has exactly its own cause. |
| `Runner.TransitionRunner.RecordOutcome` | helpers/autopilot_transition_runner.py:1062-1222 | The transaction is the machine's recording step, and adds a receipt exactly if the outcome counts. |
| `Decisions.CountedExactly` | helpers/autopilot_transition_runner.py:1062-1150 | An outcome counts, as one more receipt, if and only if it is known, addressed to a row in that stage under authority in force, in time, with the slot as recorded, not a repetition and from a known arm. |
| `Decisions.HaltedExactly` | helpers/autopilot_transition_runner.py:1085-1137 | Drifted authority, an expired canary and a moved slot stop the row instead, each with its own phase and reason. |
| `Decisions.IgnoredExactly` | helpers/autopilot_transition_runner.py:1068-1150 | Every other reply is given if and only if its own condition holds, and changes nothing. |
| `Decisions.EveryOutcomeIsOne` | helpers/autopilot_transition_runner.py:1062-1150 | There is no fourth case. |
| `Decisions.OutcomeConcernsOne` | helpers/autopilot_transition_runner.py:1062-1222 | The transaction touches its own candidate's row and the receipts, and no pointer, resolver or other row. |
| `Runner.TransitionRunner.RecordAndResolve` | helpers/autopilot_transition_runner.py:1062-1245 | The whole call is that step followed only by foreign calls and steps of this candidate's resolver, and stops short of a settled row only for those reasons. |
| `Runner.TransitionRunner.PromotePending` | helpers/autopilot_transition_runner.py:802-876 | With crashes and foreign calls in six gaps, the method is a run of the candidate's resolver that touches no other row; it leaves the row pending only if a gap crashed, the grant was refused or the version is not staged, and otherwise returns the settled phase. |
| `Runner.TransitionRunner.RollbackPending` | helpers/autopilot_transition_runner.py:879-945 | Likewise for rolling back. |
| `Runner.TransitionRunner.ActiveSlot` | helpers/autopilot_transition_runner.py:791-799 | Two separate reads with a gap between them, after which the resolver's position is the decision they lead to. |
| `Runner.TransitionRunner.CallPointer` | helpers/autopilot_transition_runner.py:836-912 | The pointer call made is compare-and-swap, rollback or clear, as phase and incumbent demand. |
| `Runner.TransitionRunner.SelectGuidance` | helpers/autopilot_transition_runner.py:948-1060 | The slot's live row, if there is one, is fetched and the slot read twice, with any steps of other processes in between; an arm is served exactly if the row is servable on those reads, the exposure is assigned to it and its artifact is there, and otherwise whatever the row is by then is marked for its own reason; without a live row the incumbent's usable artifact is returned. |
| `Decisions.ChoiceMeans` | helpers/autopilot_transition_runner.py:972-1060 | Each arm is served, and each mark made, if and only if its own condition holds of the row, the plan and what was read. |
| `Decisions.ShareIsExact` | helpers/autopilot_transition_runner.py:1014-1036 | Of the hundred assignments exactly the planned percentage gets the candidate. |
| `Runner.TransitionRunner.ExpireCanaries` | helpers/autopilot_transition_runner.py:769-788 | Exactly the lapsed canaries of the context under matching authority are rejected, and their number is returned. |
| `Runner.TransitionRunner.ResumeIncomplete` | helpers/autopilot_transition_runner.py:703-731 | Pending rows of the context are handled in turn, settled under their own authority or left for recovery under another; the first exception or crash ends the call, leaves its row pending and the rest untouched. |
| `EndToEnd.PromotionHistory` | helpers/autopilot_transition_runner.py:508-876 | Every automatic promotion in the log was preceded by a fenced approval under the last token, an admission that found that very approval with the job's configuration, against the incumbent, and a canary that met horizon, minimums, margin and veto; it replaced that incumbent, which the slot held at the same revision, and against which the evidence chain verified, at every moment since admission. |
| `EndToEnd.RunInv` | helpers/autopilot_transition_runner.py:508-653 | In every reachable state of queue and machine together each transition row belongs to an approved candidate, and what a process found when it vetted a candidate still holds, whenever its transaction runs. |
| `EndToEnd.OnlyCompletionsApprove` | helpers/store.py:867-897 | Approvals come only from fenced completions that held their lease and vouched for the candidate's digest and configuration, and carry their key, token, digest and configuration. |
| `Coordination.VerifyingIsChain` | helpers/promotion.py:123-315 | A verdict reached by reading rows at different moments is the verdict of the snapshot at its end, because rows are only appended, unless a row or the baseline was missing. |
| `Coordination.ChainExactlyWhenProven` | helpers/promotion.py:167-315 | The chain verifies if and only if the rows the version names are there, readable, unaltered, say the same of one another, passed validation twice and a replay against that baseline; otherwise the refusal names the first thing wanting. |
| `Coordination.EvidenceSuffices` | helpers/promotion.py:123-315 | What was evidence when the check began is accepted, whatever others append meanwhile. |
| `Coordination.ChainKept` | helpers/promotion.py:167-198 | A verified chain stays verified, with the same proof, under every later append. |
| `Coordination.ChainPinsBaseline` | helpers/promotion.py:289-303 | A staged version is evidence for one slot and one baseline only. |
| `Coordination.AppliedPromotionIsCurrent` | helpers/promotion.py:317-352 | With an expected revision absent or not ahead of the observed one, an applied promotion replaced exactly the version it reports, and the rows are evidence against it at the instant of the swap. |
| `Coordination.ProvenPromotionIsApplied` | helpers/promotion.py:317-352 | A version proven against the slot's content when its promotion starts is applied if and only if the slot is at the expected revision at the swap. |
| `Coordination.RefusedPromotionIsWanting` | helpers/promotion.py:317-352 | A refused promotion names what is wanting and leaves the slot alone. |
| `Coordination.SoundExactlyWithinObserved` | helpers/promotion.py:317-352 | That guarantee holds over all interleavings if and only if the expected revision is absent or not ahead of the observed one. |
| `Coordination.AheadOfObservedIsUnsound` | helpers/promotion.py:328-352 | Otherwise there are writes by others after which stale evidence is applied. |
| `Coordination.PromotionsOfOneVersionAgree` | helpers/promotion.py:299-303 | Any two applied promotions of one staged version replaced the same version of the same slot. |
| `Coordination.AppliedRollbackIsCurrent` | helpers/promotion.py:354-379 | An applied rollback replaced what it reports, if the named revision is absent or not ahead of the effective one. |
| `Coordination.RollbackIsApplied` | helpers/promotion.py:354-379 | A rollback within the slot is applied if and only if the slot is at the expected revision when it is made. |
| `Coordination.ReportedExactlyWhenNotAhead` | helpers/promotion.py:354-379 | That holds over all interleavings if and only if it is so, or the version belongs to another slot and nothing is ever applied. |
| `Coordination.AheadMisreports` | helpers/promotion.py:354-379 | Otherwise there are writes by others after which an applied rollback reports a version it did not replace. |
| `Coordination.PromotionCoordinator.VerifiedEvidenceChain` | helpers/promotion.py:123-315 | The checks, in the code's order and with its refusals, each row read at its own moment; what it verifies is evidence. |
| `Coordination.PromotionCoordinator.Promote` | helpers/promotion.py:317-352 | Promotion is the specified read, check and swap. |
| `Coordination.PromotionCoordinator.RollBack` | helpers/promotion.py:354-379 | Rollback is the specified read and swap. |
| `Reconciliation.InOrderListsAll` | helpers/autopilot_transition_runner.py:668-679 | The query's order lists every row once, strictly ascending by creation time and id. |
| `Reconciliation.PageIsNext` | helpers/autopilot_transition_runner.py:667-679 | A page is ascending, holds only rows that follow the cursor, and each row that follows is in it or beyond its last. |
| `Reconciliation.ScanIsOrderly` | helpers/autopilot_transition_runner.py:664-700 | Whatever other processes list, approve, admit or exclude meanwhile, candidates are visited in strictly ascending order, each listed, approved and not settled when the scan began, and whoever was eligible then is settled, visited or still to come. |
| `Reconciliation.FinishedScanMissesNobody` | helpers/autopilot_transition_runner.py:664-700 | At the end of a scan that nothing stopped, everybody eligible at its beginning was visited or has been settled meanwhile. |
| `Reconciliation.LateApprovalIsMissed` | helpers/autopilot_transition_runner.py:664-700 | A concrete scan comes to its end without a candidate that was approved behind its cursor while it ran. |
| `Reconciliation.ScanAnswers` | helpers/autopilot_transition_runner.py:682-699 | Only the last reply may stop the scan, and it excludes exactly the visited candidates that were rejected, besides what others exclude. |
| `Reconciliation.AloneScanVisitsPrefix` | helpers/autopilot_transition_runner.py:664-700 | With nobody else listing, approving, admitting or excluding, the paged scan is one walk along the list that was eligible at the start, up to the first stopping reply, it ends, and it adds at most one row, a canary. |
| `Reconciliation.Reconciler.ScanCandidates` | helpers/autopilot_transition_runner.py:664-700 | The paged loop, with other processes acting between any two of its transactions and the process ending anywhere, is that scan. |
| `Reconciliation.Reconciler.Reconcile` | helpers/autopilot_transition_runner.py:656-700 | An exception or crash while resuming ends the call before expiry and scan; otherwise, after whatever others do, exactly the lapsed canaries are rejected under the authority read then, and the call is the scan from there. |
| `RecursiveAnalysis.CapRecords` | helpers/rlm_queries.py:18-35 | The records a query reads are the longest prefix within its slice. |
| `RecursiveAnalysis.CappedIsLongest` | helpers/rlm_queries.py:18-35 | That prefix fits, and one record more would not. |
| `RecursiveAnalysis.EventsForSelects` | helpers/rlm_queries.py:38-42 | A query of a bucket sees exactly the records of that bucket, one without a bucket all of them in order. |
| `RecursiveAnalysis.SharesAreEven` | helpers/rlm.py:311-320 | Dividing what is left among the queries left gives each the floor or the ceiling of the even share, and uses up the cap. |
| `RecursiveAnalysis.AnalysisWithinBudget` | helpers/rlm.py:272-354 | For every planner and handler the recursion ends, queries, depth and findings stay within their caps, reads stay within the even shares, and the shares sum to the cap once all queries ran. |
| `RecursiveAnalysis.AnalysisIsClosed` | helpers/rlm.py:322-354 | Every predecessor of a returned finding is returned, a descendant's before it, without a repeated id. |
| `RecursiveAnalysis.AnalysisUnfolds` | helpers/rlm.py:272-354 | Everything planned is asked, in order, one level deeper, with what the handlers see of the index, and a synthetic finding stands exactly for depth or cycle; if a budget closes, it is the beginning of that; predecessors are exactly the planned children's findings, and the result is the root and the first finding of each id below it. |
| `RecursiveAnalysis.PlannedIsPursued` | helpers/rlm.py:322-339 | Where no budget closed, every query planned by an executed query was executed one level deeper under its ancestors, unless it is too deep or repeats one. |
| `RecursiveAnalysis.RlmController.Analyze` | helpers/rlm.py:272-284 | The controller's mutable run is the specified analysis, and unfolds as said. |
| `RecursiveAnalysis.RlmController.AnalyzeAt` | helpers/rlm.py:286-354 | So is each recursive call, with its counters, list and index. |
| `Retention.StableSortSorts` | helpers/evidence.py:256 | Sorting is a permutation in order that keeps the order of equal keys. |
| `Retention.RetainedIsMaximal` | helpers/evidence.py:257-271 | A context keeps exactly the smaller of its cap and the sum over its loops of the smaller of loop cap and live events. |
| `Retention.DroppedWhenFull` | helpers/evidence.py:261-268 | A live event is dropped if and only if the newer events that are kept, which are the tail of what is kept, fill its context or its loop. |
| `Retention.RetainedIsSublist` | helpers/evidence.py:257-271 | What is kept is a sublist of the sorted live events. |
| `Retention.RetentionIsIdempotent` | helpers/evidence.py:243-271 | What is kept is sorted, within the age limit and taken from the input, and retaining again changes nothing. |
| `Retention.RetainsAged` | helpers/evidence.py:243-271 | Retention is decided over exactly the events within the age limit, each as often as supplied, by time and reference, equal ones as they came. |
| `Retention.LiveIsKeptOrFull` | helpers/evidence.py:249-271 | An event within the age limit is kept as often as it was supplied, unless its context or its loop is full. |
| `Retention.RetainEvents` | helpers/evidence.py:243-271 | The sweep, the sort and the counting reverse pass compute that. |
| `Replay.CreateManifest` | helpers/replay.py:66-94 | A manifest is exactly the supplied cases under distinct ids; it is refused if and only if there are none or an id repeats. |
| `Replay.FreezeHeldOut` | helpers/replay.py:112-122 | A held-out set is frozen exactly if it is a manifest that shares no case with training. |
| `Replay.GroupedSums` | helpers/replay.py:211-215 | Sums and counts grouped by bucket add up to those over all cases. |
| `Replay.BucketsBoundTheWhole` | helpers/replay.py:211-241 | If every bucket's regression is within a limit, so is the regression over all cases. |
| `Replay.ReadyExactlyWhenClean` | helpers/replay.py:181-241 | Promotion is ready if and only if no case failed hard on either arm, no judge failed, protected buckets did not regress and the others are within tolerance; then so is the reported global regression. |
| `Replay.ReviewExactlyWhenJudged` | helpers/replay.py:226-234 | Review-only is decided exactly if a judge failed or a failing label contains the judge's marker. |
| `Replay.ReadyOverRuns` | helpers/replay.py:151-234 | Ready if and only if neither arm failed hard on any case, the judge objected to no pair, shown in the order of the case's place, and no bucket's average grade drops by more than it may. |
| `Replay.ReviewOverRuns` | helpers/replay.py:187-234 | Review-only if and only if at some case the judge objected or a failing label contains its marker. |
| `Replay.FiguresOverRuns` | helpers/replay.py:187-241 | Every case is paired, and scores and regressions are those of the two arms' runs. |
| `Replay.MarkedCaseIsReviewed` | helpers/replay.py:226-234 | A report on one hard failure, with no judge failure, that is review-only because of the case's id. |
| `Replay.PairedReplay` | helpers/replay.py:151-241 | The loops over cases and buckets compute the report, with the early refusals first; its decision and figures are those of the runs of both arms. |

## Left out

- Identifiers, labels and digests of the protocol are natural numbers or opaque values; string coercion, blank-string checks and JSON are not modelled, and a digest is equality of what it covers.
- Each `BEGIN IMMEDIATE ... COMMIT` is one atomic step; SQLite, locks, WAL mode, connections and migrations are not modelled, only primary keys, the unique index on live transitions and the foreign keys that decide an outcome.
- Authority records, policy and calibration lookup, publication matching, grants and canary assignment are facts supplied from outside at each step; their modules are not part of this model.
- One resolver works on a candidate at a time. Two at once could leave a row rejected with its candidate installed, and no theorem is claimed for that case.
- Floating point: rates, margins and scores are exact reals, so rounding, NaN and infinities are not captured.
- QueueTheorems.StrandedStays: says which operations can end a stranded job, not that each does, because an unfenced completion may also set the status to running.
- Runner.TransitionRunner.SelectGuidance: the assignment of traffic to an arm and the artifacts found usable are parameters.
- Runner.TransitionRunner.ConsiderCandidate: what the checks find in other modules' records is given to the call; EndToEnd reads approval, candidate and evidence from their tables.
- Runner.TransitionRunner.ResumeIncomplete: the order in which fetched rows are resumed is arbitrary here, and the unordered query of the code promises none; during resumption other processes make pointer calls only.
- Reconciliation.Reconciler.ScanCandidates: the loop is taken over a finite number of visits; without a bound on what others list it need not end, and none is claimed beyond AloneScanVisitsPrefix.
- The candidate table has one row type in the queue, one in the evidence chain and one in the scan, each with the columns read there; EndToEnd keeps the first two in step, the third is separate.
- RecursiveAnalysis.RlmController.Analyze: the five query handlers and the fixed child plan are replaced by arbitrary functions, and the write-only map of findings by id is omitted.
- Retention.RetainEvents: events are taken as already projected, so redaction and timestamp parsing are not captured.
- Replay.PairedReplay: the executor and the judge are functions; row details of the report that no decision reads are omitted.
- Worker.QueueWorker.WorkerLoop: the optimizer, worker heartbeats, sleeping and the context status cache are omitted; an unlimited loop is every finite number of passes; an exception outside the attempt, or in reporting its failure, ends the process and is not modelled; rows the worker appends are among the operations of others.
- classify_failure and other keyword heuristics: whether a failure is transient is a parameter.
- deterministic_splits, objective samples, prompt artifacts, activation records, HTTP, user interface and process supervision are not modelled; they would add easy members or rest on modules that are not part of this model.
