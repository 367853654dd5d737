# Signal Plane: verified state machines

Signal Plane keeps its work in SQLite tables and changes them one transaction at a time, while webhooks, redeliveries, operator
commands and crashes land in between. This project models four of its components in Dafny and proves what holds over every run:

- **CI repair** (`Ci*.dfy`): tasks that wait for CI, are repaired by charged attempts, and complete or escalate.
- **Work ledger** (`Ledger*.dfy`, `RouterLoop.dfy`): admission with supersession, claims under serialization leases, completion with
  retries and waits, crash recovery, and the executor loop on top of it.
- **Job dispatcher** (`Dispatch*.dfy`): replayable recording, head-of-line launches, bounded retries, terminal results with a
  notification outbox, and external waits. Its protocol contains CI repair, because both share the jobs table and one worker.
- **Push scanner** (`PushScan.dfy`, `PushResponses.dfy`): the bounded decode search and the durable response queue.

Each component has the same layers. `*Tables.dfy` holds the rows and, for every transaction, a function from the tables to the tables
after it, where `None` stands for an error that rolls back. `*Store.dfy` holds the transactions as methods of a class that updates its
tables in place, each proved equal to its function. `*Protocol.dfy` and `LedgerInvariant.dfy` make a transition system of these
functions: the worker holds at most one claim, anything else may happen between two of its transactions, and a crash drops the claim.
`*Worker.dfy` holds the worker's code around a claim, proved to take only steps of that system. The remaining files prove
invariants of the system and theorems about all its runs.

What the model assumes:

- A transaction is atomic, and a failing statement undoes all of it. In `Complete` of the ledger this is an assumption about the code
  as well, since an inner `err` is shadowed there.
- The dispatcher has one worker. Events may land between a claim and its answer, but no second worker's answer can.
- A restart keeps the tables.
- Time is counted in milliseconds, the unit of the stored columns. Broker, GitHub and reporter answers are arbitrary inputs.
- Keys built by joining fields, and hashes of them, are equal only if the fields are. Generated ids are new or the insert fails.
- A query with `ORDER BY … LIMIT 1` returns some first row; ties that SQL leaves open are left open here.

The protocol leaves open in which order a pass of the worker looks for work, which is sound for what holds of all runs. To show
that something can happen, a run must be one the worker makes: `DispatchTurns.Orderly` adds the order of a pass (escalations,
reconciliations, repair launches, repair statuses, notices, jobs) and the arguments the worker passes on, for a worker with a
reporter. Every run exhibited below is orderly.

Five places where the code does less than one might expect, and where exactly:

- A job that enters CI while `report_pending` is not moved to `ci_waiting`, so its status can leave its notification behind.
  `DispatchTorn.ReportAndJobComeApart` is such a run; `DispatchLate.EnteringLateTears` shows that from any orderly run that ends
  with such an entry, some orderly continuation leads there; `DispatchOutbox.OutboxMatchesWhenLaunched` shows that no run does if
  jobs enter CI only when `launched`. A report left behind stays so: it is never delivered, blocked or requeued
  (`DispatchEngaged.TornForever`), and once it is due no job is claimed any more (`DispatchEngaged.TornStopsLaunches`). A blocked
  report can likewise become one that no operator may requeue (`DispatchTorn.RequeueCanBeRefused`).
- A wake recorded for a waiting CI task is lost exactly when the observation in flight is answered with a stale pull head
  (`CiWakes.WakeIsLostIffStale`); the task is then next offered at its new deadline (`CiWakes.OfferedAtNewDeadline`).
  `DispatchStalls.WebhookCanBeLost` is such a run.
- A repository run that reports a wait once more after it was resumed puts its job back to `external_waiting`, and no issue event
  frees it (`DispatchStalls.ReplayedWaitGetsStuck`). While all reports are in step, a wake can restore an `external_waiting` job if
  and only if its wait is ready, or still waiting with a named issue (`DispatchStuck.RestorableIff`); otherwise the job stays there,
  and no other job is claimed, until its run reports a newer wait (`DispatchStuck.StuckStays`). A run that stops waiting by itself is
  picked up only if its row is ready (`DispatchStuck.MovedOnNeedsWake`), which `DispatchStalls.MovedOnIsNotPickedUp` shows to fail.
- An overdue mark on a push response does not last: the response decides anew (`PushResponses.OverdueIsNotSticky`), and
  `PushResponses.MarkCanBeUndone` is a delivery marked breached that ends met.
- `WakeWaiting` of the ledger can never succeed (`LedgerInvariant.WakeNeverApplies`).

## Model

| member | source | states |
|---|---|---|
| CiProtocol.StepKeeps | internal/dispatcher/ci_repair.go:183-931 | every step of CI repair, under any policy, keeps the invariant on tasks, attempts, escalations and the claimed row |
| CiTheorems.AttemptAccounting | internal/dispatcher/ci_repair.go:366-517 | after any run a task's attempts are numbered 1..n, `repairs` is the number charged, and the task state says exactly which attempt is open, ready or bound to a run |
| CiTheorems.EscalationRowsMatch | internal/dispatcher/ci_repair.go:809-927 | after any run an escalation row exists exactly in the escalation states, in the matching state |
| CiTheorems.NoTaskStranded | internal/dispatcher/ci_repair.go:296-328 | after any run an unfinished task is offered by exactly one of the four claim functions, and is offered once its due time or wake deadline has passed |
| CiTheorems.OfferIsClaimed | internal/dispatcher/ci_repair.go:459-563 | whenever some task is on offer, an idle worker's claim does get a row |
| CiTheorems.StepAdvances | internal/dispatcher/ci_repair.go:366-798 | every step leaves a task's progress as it is or strictly lowers its measure |
| CiTheorems.ProgressIsPaidFor | internal/dispatcher/ci_repair.go:426-748 | a run moves a task at most as often as its measure allows |
| CiTheorems.RepairIsBounded | internal/dispatcher/ci_repair.go:426-456 | under a fixed policy a task gets at most `MaxAttempts` attempts, binds at most `MaxAttempts` distinct broker runs, and can be moved only a bounded number of times more |
| CiEndurance.AttemptsEndure | internal/dispatcher/ci_repair.go:492-626 | over any run, whatever policy is configured at each step, an attempt stays, keeps its bound run and its charge, and its recorded and resumed generations never go back |
| CiEndurance.GenerationResumedOnce | internal/dispatcher/ci_repair.go:565-626 | a generation is resumed under the key derived from it, and after any later run no call for it marks it again |
| CiEndurance.ResumedOnce | internal/dispatcher/ci_repair.go:599-626 | each generation of an attempt is marked resumed at most once in a run |
| CiWakes.WebhookArms | internal/dispatcher/ci_repair.go:220-293 | an admitted webhook leaves a reconciliation still to come for each waiting task it concerns |
| CiWakes.WakeIsLostOnlyOnStaleHead | internal/dispatcher/ci_repair.go:330-384 | one step leaves it to come, claims it or ends the waiting, or loses it; the last if and only if the observation in flight fails with a stale pull head |
| CiWakes.WakeIsLostIffStale | internal/dispatcher/ci_repair.go:330-384 | over any run a wake is lost before it is claimed if and only if a stale-head answer comes while it is pending |
| CiWakes.NoStaleNoLoss | internal/dispatcher/ci_repair.go:330-384 | over any run without stale-head answers no wake is lost |
| CiWakes.OfferedAtNewDeadline | internal/dispatcher/ci_repair.go:348-356 | after a stale-head answer the task is offered again exactly from its new deadline on, unless a reconciliation of another of its heads is due |
| CiStore.Store.constructor | internal/dispatcher/ci_repair.go:78-82 | a new store has no rows and the given policy |
| CiStore.Store.BeginCiWait | internal/dispatcher/ci_repair.go:183-218 | the tables afterwards are those of `BeginWait`: replays must match, and only a launched or waiting job moves |
| CiStore.Store.VisitTarget | internal/dispatcher/ci_repair.go:274-292 | one target of an event: its reconciliation is queued or marked dirty, or its waiting run is woken |
| CiStore.Store.VisitTargets | internal/dispatcher/ci_repair.go:249-292 | the loop over an event's targets has the effect of all visits at once, and reports whether anything was stirred |
| CiStore.Store.RecordCiEvent | internal/dispatcher/ci_repair.go:220-293 | a malformed event is refused, a known or irrelevant one changes nothing, and a new one is stored and brought to its targets |
| CiStore.Store.ClaimReconciliation | internal/dispatcher/ci_repair.go:296-328 | wakes passed deadlines, then takes a first due reconciliation if there is any |
| CiStore.Store.FailReconciliation | internal/dispatcher/ci_repair.go:330-364 | the effect of `FailRec` for retryable, stale-head and permanent failures |
| CiStore.Store.ApplyCiObservation | internal/dispatcher/ci_repair.go:366-456 | the effect of `ApplyObservation` for all four verdicts, and none on an error |
| CiStore.Store.ApplyToTask | internal/dispatcher/ci_repair.go:401-456 | the effect of one verdict on the task, its job and its attempts |
| CiStore.Store.QueueEscalation | internal/dispatcher/ci_repair.go:858-927 | the task and job enter escalation and an existing outbox row is kept |
| CiStore.Store.ClaimRepair | internal/dispatcher/ci_repair.go:459-490 | takes a first due ready attempt if there is any |
| CiStore.Store.BindRepairRun | internal/dispatcher/ci_repair.go:492-517 | binds a run once; another run id is refused |
| CiStore.Store.DeferRepairLaunch | internal/dispatcher/ci_repair.go:519-525 | postpones a ready attempt only |
| CiStore.Store.ClaimRepairStatus | internal/dispatcher/ci_repair.go:527-563 | takes a first due running attempt if there is any |
| CiStore.Store.RecordExternalWait | internal/dispatcher/ci_repair.go:565-601 | stale or conflicting generations are refused and replays change nothing |
| CiStore.Store.MarkExternalResumed | internal/dispatcher/ci_repair.go:603-626 | marks the recorded generation under its own key; a repeat changes nothing |
| CiStore.Store.RescheduleRepairStatus | internal/dispatcher/ci_repair.go:628-642 | reschedules a running attempt only |
| CiStore.Store.FinishRepairFailure | internal/dispatcher/ci_repair.go:644-720 | closes and charges the attempt, then escalates or opens the next one |
| CiStore.Store.ChargeAttempt | internal/dispatcher/ci_repair.go:722-748 | charges an attempt once |
| CiStore.Store.CompleteRepairDelivery | internal/dispatcher/ci_repair.go:750-798 | an exact delivery sends the task back to waiting; a replay must repeat it |
| CiStore.Store.ClaimCiEscalation | internal/dispatcher/ci_repair.go:800-807 | picks a first due undelivered escalation if there is any |
| CiStore.Store.MarkDelivered | internal/dispatcher/ci_repair.go:809-829 | the escalation, its task and its job finish together |
| CiStore.Store.MarkDeliveryFailure | internal/dispatcher/ci_repair.go:831-856 | retries until the attempt limit, then blocks escalation, task and job together |
| CiWorker.FollowKeeps | internal/dispatcher/dispatcher.go:399-485 | whatever the broker answers, following a repair run keeps the invariant of CI repair and ends its claim |
| CiWorker.DeliveryGoesThrough | internal/dispatcher/dispatcher.go:477-485 | a delivery with exact provenance is never refused: the attempt ends charged and delivered and the task waits for CI on the new head |
| CiWorker.Worker.DeferOrGiveUp | internal/dispatcher/dispatcher.go:492-498 | a transient failure is deferred by the back-off of the next operation, any other closes the attempt |
| CiWorker.Worker.HandleWait | internal/dispatcher/dispatcher.go:409-436 | records the wait, then resumes the run or defers |
| CiWorker.Worker.FinishRepair | internal/dispatcher/dispatcher.go:450-485 | a finished run is closed as failed, or charged and delivered, in that order |
| CiWorker.Worker.Proceed | internal/dispatcher/dispatcher.go:442-485 | goes on with a run that is not waiting |
| CiWorker.Worker.LeaveWait | internal/dispatcher/dispatcher.go:437-485 | a wait that is over is acknowledged first, or nothing else happens |
| CiWorker.Worker.RunRepairStatus | internal/dispatcher/dispatcher.go:399-485 | the tables after a status request are those of the steps it amounts to |
| CiJobs.CiOnlyParks | internal/dispatcher/ci_repair.go:330-927 | CI repair writes only jobs with a CI task, and never back into the launch order |
| CiJobs.CiMirrors | internal/dispatcher/ci_repair.go:330-927 | every step of CI repair keeps a job status that mirrors its task state in step with it |
| LedgerInvariant.StepKeeps | internal/workledger/store.go:89-557 | every ledger transaction keeps the invariant tying items, attempts and leases together |
| LedgerInvariant.WakeNeverApplies | internal/workledger/store.go:524-534 | an explicit wake-up never finds an item to wake |
| LedgerTheorems.LeasesAreExclusive | internal/workledger/store.go:290-301 | after any run leases, active items and running attempts correspond one to one and no two active items share a serialization key |
| LedgerTheorems.ActiveWorkIsSerialized | internal/workledger/model.go:328-337 | two items executing for one route under one scope concern different objects, are in different namespaces, or cannot exist, as the scope says |
| LedgerTheorems.RecoveryKeepsIdentity | internal/workledger/store.go:389-421 | after a crash recovery, and anything else but a claim of the item, the next claim returns the interrupted attempt with its id, number and idempotency key and makes no new one |
| LedgerTheorems.RetriesAreBounded | internal/workledger/store.go:484-510 | attempt numbers are contiguous, only the last can be live, open items are scheduled, and an item that no completion of the run reported as waiting has at most `MaxAttempts` attempts |
| LedgerTheorems.OnlyWaitsSetDeadlines | internal/workledger/store.go:496-510 | over any run without a waiting completion of an item, the item gets no wait deadline |
| LedgerTheorems.OutcomeDecides | internal/workledger/store.go:477-519 | an outcome leads to completed, failed, dead letter or waiting exactly as the route says, with the back-off entry of that attempt, and releases the lease |
| LedgerTheorems.DeadlineIsFixed | internal/workledger/store.go:492-511 | the first wait deadline never changes |
| LedgerTheorems.NoAttemptPastDeadline | internal/workledger/store.go:375-379 | once there is a deadline, no claim starts an attempt at or after it |
| LedgerTheorems.TerminalIsFinal | internal/workledger/store.go:368-557 | the row of a finished item never changes again |
| LedgerTheorems.SupersessionLeadsSomewhere | internal/workledger/store.go:281-301 | one item per snapshot, object and revision, and following successors ends at work on the same route and object that was not superseded |
| LedgerTheorems.NewestStandsAlone | internal/workledger/store.go:290-301 | right after a superseding admission the new item is the only unfinished one of its route and object |
| LedgerTheorems.RoutesStayUnique | internal/workledger/store.go:89-149 | a route never has two active snapshots |
| LedgerStore.Store.constructor | internal/workledger/store.go:28-67 | a new ledger is empty |
| LedgerStore.Store.SaveRoute | internal/workledger/store.go:89-137 | reuses an equal active snapshot, or retires the route's others and inserts one |
| LedgerStore.Store.RetireRoute | internal/workledger/store.go:139-149 | retires an active snapshot only |
| LedgerStore.Store.SupersedeOlder | internal/workledger/store.go:290-301 | the three updates, in order, close older work on the object |
| LedgerStore.Store.InsertItem | internal/workledger/store.go:284-301 | inserts the item and supersedes if the route says so |
| LedgerStore.Store.BindDelivery | internal/workledger/store.go:305-319 | binds operation and delivery, or fails without a trace |
| LedgerStore.Store.AdmitFirstDelivery | internal/workledger/store.go:281-324 | attaches to the latest equal item or inserts one, and rolls back on a conflict |
| LedgerStore.Store.AdmitEvent | internal/workledger/store.go:232-324 | the effect of `Admit`, including redeliveries and every refusal |
| LedgerStore.Store.ClaimNext | internal/workledger/store.go:368-446 | expires waits, then takes a first due item, or finds nothing due, or changes nothing |
| LedgerStore.Store.TakeItem | internal/workledger/store.go:389-446 | resumes the highest recoverable attempt or opens the next one |
| LedgerStore.Store.Acquire | internal/workledger/store.go:392-400 | attempt, lease and item change together |
| LedgerStore.Store.SettleAttempt | internal/workledger/store.go:509-519 | attempt, item and lease are settled together and the first deadline is kept |
| LedgerStore.Store.CompleteAttempt | internal/workledger/store.go:448-520 | the effect of `Complete` for every outcome and every refusal |
| LedgerStore.Store.WakeItem | internal/workledger/store.go:524-534 | wakes a waiting item that has no next attempt time |
| LedgerStore.Store.RecoverInterrupted | internal/workledger/store.go:536-557 | running attempts of active items become recoverable, the items claimable, all leases go |
| RouterLoop.Router.constructor | internal/resumeupload/router.go:116-119 | a new router owes no recovery |
| RouterLoop.Router.Begin | internal/resumeupload/router.go:120-142 | the first half of a pass is an owed recovery followed by a claim, as moves of the loop, and nothing at all if the recovery fails |
| RouterLoop.Router.Finish | internal/resumeupload/router.go:157-171 | the second half is the loop's completion move and, if that is refused or not stored, its recovery or an owed one |
| RouterLoop.ClaimsStartClean | internal/resumeupload/router.go:120-171 | under every interleaving with admissions, crashes and failing transactions, a pass that claims starts from a ledger with nothing running |
| RouterLoop.RefusedOnlyWhenSuperseded | internal/workledger/store.go:448-510 | an outcome of the executing attempt is refused if and only if its item was superseded meanwhile or the outcome is malformed: unsupported, or a wait whose next time is not between now and its deadline |
| DispatchOrder.OneJobInFlight | internal/dispatcher/store.go:570-633 | after any run at most one job is launched or waiting, every claimable job but the oldest is untouched, and claims followed creation order |
| DispatchOrder.Projects | internal/dispatcher/dispatcher.go:280-397 | every move of the dispatcher is one step of the CI repair protocol |
| DispatchOrder.RunProjects | internal/dispatcher/dispatcher.go:280-397 | every dispatcher run carries a legal CI repair run with the same tables |
| DispatchOrder.CiAccountingHolds | internal/dispatcher/ci_repair.go:366-927 | the attempt accounting and the escalation match hold in the whole dispatcher |
| DispatchOutbox.OutboxMatches | internal/dispatcher/terminal.go:253-309 | after any run a job has a terminal result exactly when it has one notice rendered from it, and, unless it entered CI, notice state and job status agree |
| DispatchOutbox.ResultsAreImmutable | internal/dispatcher/terminal.go:274-301 | a queued result and the version, body and key of its notice never change |
| DispatchOutbox.ReplayIsChecked | internal/dispatcher/terminal.go:279-301 | a different result for the same job is refused, an equal one stores nothing new |
| DispatchOutbox.RequeueIff | internal/dispatcher/terminal.go:507-587 | after any run a blocked report passes every evidence check, given its own identifiers, if and only if its job has a broker run and still shows the block, and requeueing keeps body, key, attempts and error |
| DispatchOutbox.BlockedReportsCanBeRequeued | internal/dispatcher/terminal.go:507-587 | for jobs that did not enter CI, and for all jobs if jobs enter CI only when `launched`, a blocked report can be requeued if and only if the job has a broker run |
| DispatchOutbox.EnteringMirrors | internal/dispatcher/ci_repair.go:207-210 | entering CI moves the job to `ci_waiting` if and only if it was `launched` |
| DispatchOutbox.OutboxMatchesWhenLaunched | internal/dispatcher/terminal.go:469-618 | if jobs enter CI only when `launched`, every notice agrees with its job and no job has both a report and a CI task |
| DispatchOutbox.JobsMirrorTasks | internal/dispatcher/ci_repair.go:205-218 | if jobs enter CI only when `launched`, the status of every job in CI mirrors the state of its task |
| DispatchTurns.OrderlyIsLegal | internal/dispatcher/dispatcher.go:280-349 | runs that respect the order of a pass are runs of the protocol, with the same result |
| DispatchDrain.DrainAll | internal/dispatcher/dispatcher.go:280-346 | whatever CI work and notices are due, transient and stale answers lead an orderly worker to a pass in which only jobs are left to serve, leaving a given job that waits for CI or for GitHub alone |
| DispatchLate.EnteringLateTears | internal/dispatcher/ci_repair.go:183-218 | if an orderly run hands a `report_pending` job to CI while all reports are in step, an orderly continuation ends with CI completing the job while a failure report of its own is still to be delivered |
| DispatchTorn.ReportAndJobComeApart | internal/dispatcher/ci_repair.go:183-218 | a concrete orderly run after which CI has completed a job whose failure report is still to be retried |
| DispatchTorn.RequeueCanBeRefused | internal/dispatcher/terminal.go:507-587 | a concrete orderly run after which a blocked report cannot be requeued, whatever evidence is shown |
| DispatchEngaged.RunSound | internal/dispatcher/ci_repair.go:205-218 | over any run, however jobs enter CI, a job whose task is past waiting is out of the launch order and shows its repair or escalation |
| DispatchEngaged.TornForever | internal/dispatcher/terminal.go:469-618 | over any run a report whose job no longer waits for it is neither delivered nor blocked, and cannot be requeued |
| DispatchEngaged.TornStopsLaunches | internal/dispatcher/dispatcher.go:330-349 | once such a report is due, no orderly run claims a job any more |
| DispatchPace.LaunchesAreBounded | internal/dispatcher/dispatcher.go:360-397 | over any run in which no launch of a job is claimed at a time before its first, at most 33 of its launches are answered with a run or an error, however often the worker crashes |
| DispatchPace.OrderlyLaunchesAreBounded | internal/dispatcher/dispatcher.go:360-397 | in every orderly run at most 33 launches of a job are answered, with no condition on crashes or times |
| DispatchPace.LaunchesFit | internal/dispatcher/dispatcher.go:244-253 | the earliest time of the k-th launch lies within the ten-minute window if and only if k is at most 33 |
| DispatchPace.RetryWithinWindow | internal/dispatcher/dispatcher.go:378-381 | a retry is due after now and no later than the end of the window |
| DispatchPace.ReportsBlockLate | internal/dispatcher/terminal.go:589-618 | a report failing only transiently blocks on exactly its 24th failure, and then at least 61,410 seconds after its first attempt |
| DispatchPace.LastReportFloor | internal/dispatcher/dispatcher.go:255-267 | the delays before the 24th report attempt add up to 61,410 seconds |
| DispatchWaits.WaitsOnlyAdvance | internal/dispatcher/external_wait.go:29-73 | over any run recorded generations and their phases never go back and keys stay derived from them |
| DispatchWaits.ResumedOnce | internal/dispatcher/external_wait.go:117-149 | each generation is recorded as resumed at most once in a run |
| DispatchWaits.ResumedOnlyAfterWake | internal/dispatcher/external_wait.go:75-106 | a generation is ready or resumed only if a matching issue event arrived after it was recorded |
| DispatchWaits.WokenRunIsNext | internal/dispatcher/external_wait.go:81-106 | after a wake no other job can be claimed, and the waiting one is by the first pass that finds neither CI work nor a notice due |
| DispatchWaits.ReplayKeepsWake | internal/dispatcher/external_wait.go:52-62 | reporting the recorded generation again keeps a wake already noted |
| DispatchWaits.ResumesOnlyWhenReady | internal/dispatcher/dispatcher.go:574-587 | the broker is asked to resume only a generation that is marked ready |
| DispatchStuck.WaitsBelong | internal/dispatcher/external_wait.go:29-73 | over any run a wait on record is one of the job's own run, an `external_waiting` job has one, and every job being polled has a run id |
| DispatchStuck.MovedOnNeedsWake | internal/dispatcher/external_wait.go:134-149 | after any run, a job whose run stopped waiting goes back to `launched` if and only if its row is ready, and otherwise stays as it is |
| DispatchStuck.StuckStays | internal/dispatcher/external_wait.go:52-149 | over any run without a newer generation, a job whose wait is resumed, or cannot be woken, is not `launched` again, and unless CI has a task for it every claim takes this job |
| DispatchStuck.RestorableIff | internal/dispatcher/external_wait.go:75-149 | while all reports are in step, whatever else is due or claimed, some orderly run without a newer generation brings an `external_waiting` job back to `launched` if and only if its wait is ready, or still waiting with a named issue |
| DispatchStalls.MovedOnIsNotPickedUp | internal/dispatcher/external_wait.go:134-149 | a concrete orderly run after which a poll finds the run no longer waiting and leaves the job `external_waiting` |
| DispatchStalls.ReplayedWaitGetsStuck | internal/dispatcher/external_wait.go:52-68 | a concrete orderly run that replays a resumed generation and ends with the job stuck |
| DispatchStalls.WebhookCanBeLost | internal/dispatcher/ci_repair.go:330-356 | a concrete orderly run after which an admitted webhook leaves nothing to reconcile before the new deadline |
| DispatchReplay.ReplayChangesNothing | internal/dispatcher/store.go:256-317 | recording a stream with redeliveries inserted anywhere later leaves exactly the same tables |
| DispatchReplay.FirstJobWins | internal/dispatcher/store.go:308-313 | a semantic key keeps its first job, unchanged and alone |
| DispatchReplay.CandidateGetsJob | internal/dispatcher/store.go:286-317 | a first delivery with a candidate leaves a job for its key |
| DispatchReplay.CheckpointIsHighest | internal/dispatcher/store.go:301-317 | the checkpoint is the highest sequence of any acceptable message |
| DispatchStore.Store.constructor | internal/dispatcher/store.go:122-142 | a new store shares its jobs with CI repair and has no other rows |
| DispatchStore.Store.RecordDelivery | internal/dispatcher/store.go:256-317 | the effect of `Record`, including refused and repeated deliveries |
| DispatchStore.Store.ClaimDue | internal/dispatcher/store.go:570-611 | claims the oldest claimable job, or nothing if that one is not due, counting an attempt only for an unlaunched job |
| DispatchStore.Store.SetLaunched | internal/dispatcher/store.go:613-619 | only an unlaunched job becomes launched, with a run id |
| DispatchStore.Store.SetLaunchFailure | internal/dispatcher/store.go:621-628 | only an unlaunched job is retried or failed |
| DispatchStore.Store.SetStatus | internal/dispatcher/store.go:630-633 | reschedules a polled job and clears its failure count on success |
| DispatchStore.Store.CountPreOutboxFailure | internal/dispatcher/store.go:635-650 | counts a failure before the outbox exists, and returns the count |
| DispatchStore.Store.DeferReportPending | internal/dispatcher/store.go:652-658 | defers a pending report without a result |
| DispatchStore.Store.QueueTerminalResult | internal/dispatcher/terminal.go:253-309 | result, notice and job status are stored together or not at all |
| DispatchStore.Store.ClaimReportDue | internal/dispatcher/terminal.go:457-467 | picks the first due notice if there is any |
| DispatchStore.Store.SetReportDelivered | internal/dispatcher/terminal.go:469-505 | notice and job finish together, the job as the outcome says |
| DispatchStore.Store.SetReportFailure | internal/dispatcher/terminal.go:589-618 | notice and job are retried or blocked together |
| DispatchStore.Store.ReconcileBlockedReport | internal/dispatcher/terminal.go:507-587 | requeues a blocked report if and only if all evidence fits |
| DispatchStore.Store.RecordExternalWait | internal/dispatcher/external_wait.go:26-73 | the effect of `RecordWait` for new, repeated, newer, stale and conflicting generations |
| DispatchStore.Store.RecordExternalWake | internal/dispatcher/external_wait.go:75-106 | marks the concerned waits ready and reports whether there were any |
| DispatchStore.Store.DeferExternalResume | internal/dispatcher/external_wait.go:108-115 | reschedules a waiting job only |
| DispatchStore.Store.SetExternalResumed | internal/dispatcher/external_wait.go:117-132 | row and job change together or not at all |
| DispatchStore.Store.ReconcileExternalResume | internal/dispatcher/external_wait.go:134-149 | row and job change together or not at all |
| DispatchWorker.PollKeeps | internal/dispatcher/dispatcher.go:547-681 | whatever the broker answers, a poll keeps every invariant of the dispatcher and ends its claim |
| DispatchWorker.Worker.FinishLaunch | internal/dispatcher/dispatcher.go:360-397 | the launch half of a pass is the corresponding move of the protocol |
| DispatchWorker.Worker.FinishReport | internal/dispatcher/dispatcher.go:329-346 | the report half of a pass is the corresponding move of the protocol |
| DispatchWorker.Worker.FailProjection | internal/dispatcher/dispatcher.go:692-708 | counts the failure, due again after the back-off of the next count, and queues a failed result after the last one |
| DispatchWorker.Worker.WaitExternally | internal/dispatcher/dispatcher.go:565-597 | records the wait and resumes the run only if it was woken |
| DispatchWorker.Worker.FinishRun | internal/dispatcher/dispatcher.go:649-681 | a finished run is projected, enters CI or is queued for reporting |
| DispatchWorker.Worker.Advance | internal/dispatcher/dispatcher.go:642-681 | continues with a run that is not waiting |
| DispatchWorker.Worker.LeaveWait | internal/dispatcher/dispatcher.go:636-681 | a waiting job goes back to `launched` first, or nothing happens |
| DispatchWorker.Worker.RunStatus | internal/dispatcher/dispatcher.go:547-681 | the tables after a poll are those of the moves it amounts to, with retries due after the back-off of the failures on the claimed row |
| Delays.BackOffDoubles | internal/dispatcher/dispatcher.go:244-278 | the first delay is the base, the next ones double as often as stated and never beyond the cap, and then they stay the same |
| PushScan.ScanValues | internal/pushscan/scanner.go:259-321 | ends clean or low if and only if nothing within `MaxDecodeDepth` decodings matches, fails to look up, is fully decodable at exactly the bound, or exceeds `MaxCandidates`; every other verdict has a reachable reason; at most `MaxCandidates` pops |
| PushScan.FoundEarly | internal/pushscan/scanner.go:262-321 | breadth first with a seen set finds every value at its least depth |
| PushScan.ExhaustedIsClear | internal/pushscan/scanner.go:283-321 | when the queue runs empty the values seen are exactly those within reach, and all is clear |
| PushScan.AddInputs | internal/pushscan/scanner.go:278-282 | queues every non-empty input, or has found too many |
| PushScan.Add | internal/pushscan/scanner.go:262-277 | queues a new non-empty value and keeps the search sound, or has found too many |
| PushScan.LookUp | internal/pushscan/scanner.go:292-306 | a value is unmatched exactly if it and all its token runs are |
| PushScan.Expand | internal/pushscan/scanner.go:315-319 | queues every non-empty decoding, or has found too many |
| PushScan.Examine | internal/pushscan/scanner.go:287-314 | the reason to stop at a value, if there is one |
| PushScan.Visit | internal/pushscan/scanner.go:283-319 | one turn of the loop keeps the search sound or stops with a reachable reason |
| PushResponses.ServedFairly | internal/pushscan/store.go:240-255 | a delivery with n pending ahead of it has another attempt counted within n/64 + 1 rounds, provided that what is noted meanwhile carries times after its own last attempt or request |
| PushResponses.SettledOnce | internal/pushscan/scanner.go:189-216 | a delivery that left `response_pending` never changes again, and all its requests and idempotency keys are the same |
| PushResponses.OverdueIsNotSticky | internal/pushscan/scanner.go:203-210 | after a response the verdict is breached if and only if halt or alert came after the deadline, whatever the overdue mark said |
| PushResponses.MarkCanBeUndone | internal/pushscan/scanner.go:203-210 | a concrete run in which a delivery is marked breached and then ends met |
| PushResponses.Store.constructor | internal/pushscan/store.go:20-39 | a new store is empty |
| PushResponses.Store.SaveReceipt | internal/pushscan/store.go:129-156 | keeps the first receipt and refuses a replay that differs |
| PushResponses.Store.SaveResult | internal/pushscan/store.go:184-203 | keeps the first result |
| PushResponses.Store.SaveAttempt | internal/pushscan/store.go:220-233 | counts and times an attempt of a pending delivery only |
| PushResponses.Store.SaveResponse | internal/pushscan/store.go:205-218 | settles a pending delivery only |
| PushResponses.Store.TryResponse | internal/pushscan/scanner.go:189-216 | notes the attempt before asking, and settles only on a valid answer |
| PushResponses.Store.MarkOverdueResponses | internal/pushscan/store.go:235-238 | a row changes if and only if it is pending, past its deadline and not yet breached; it is then breached and keeps its place in the queue, and nothing overdue is left |
| PushResponses.Store.PendingBatch | internal/pushscan/store.go:240-255 | returns the first 64 pending deliveries by last attempt, or all of them |
| PushResponses.Store.Reconcile | internal/pushscan/scanner.go:151-187 | one pass tries each delivery of the batch in order, whatever happens to the others |
| Basics.QueryFirst | internal/dispatcher/store.go:578-580 | a sorted query with a limit of one returns a first row |

## Left out

- HTTP brokers, the GitHub and reporter clients, the event bus, gateway handlers, ingress sockets, metrics and the `main` packages: their answers are inputs here.
- SQL text, driver errors and partial statement failure: a transaction succeeds or rolls back as a whole.
- Schema migration and the status rewrites of `OpenStore`: reopening a store is the identity here, which it is not for jobs that CI finished.
- `internal/recovery` and the replay counters of `RecordRecovery`: offline orchestration over the stream.
- `ReconcileFailedLaunch`: an operator command that puts an old job back into the launch order, outside the one-in-flight theorem.
- Release resolution, content results, pull request correlation and ingress failures of the ledger: they do not touch items' states, attempts or leases.
- Route resolution, shadow admission, configuration checks and agent bindings: per-field checks.
- Regular expressions, decoders, hashes and rendered texts: functions or predicates given from outside, and a terminal result's remaining text is acceptable, oversized or malformed.
- The wording of error texts: a message is arbitrary, and the fixed prefixes put before the last one are not kept.
- The security event outbox, fingerprint registration and response validation of the push scanner: a response here is one that was accepted.
- DispatchPace.LaunchesAreBounded: counts launches whose answer is recorded; one whose answer is lost in a crash, or names no run, leaves the schedule as it was and can recur until the window closes.
- PushScan.ScanValues: a fingerprint lookup answers the same for the same text during one scan, because registrations and their expiry are not part of this model.
- PushResponses.ServedFairly: rows are assumed readable, and the clock not to go back to the time of the row's own last attempt.
- DispatchStuck.RestorableIff: stated while all reports are in step, because a report left behind stops every claim of a job once it is due.
