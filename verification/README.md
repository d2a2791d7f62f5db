# Durable protocols of Scholight, modelled in Dafny

Scholight keeps three protocols in PostgreSQL and AWS that must survive crashed workers, late events and
repeated calls. This project models them as transactions over small tables and proves what holds after
every step, over every run, and across crashes. `dafny verify dfyconfig.toml` checks the whole project.
Nothing here is executed: every statement is proved.

**The Survey aggregate.** Daily usage rows, Surveys, at most one job each, immutable Draft revisions,
compute attempts with leases, checkpoints and completion mail. `SurveyModel` has the rows,
`SurveyTransitions` one function per transaction, `SurveyInvariants` what every reachable state
satisfies. `SurveyQuotaLemmas`, `SurveyDraftLemmas`, `SurveyAttemptLemmas`, `SurveyRowLemmas` and
`SurveySteps` say what a change to one row does to one invariant; `SurveyKeeps`, `SurveyWithdraw`,
`SurveyArchive` and `SurveyCompute` put them together transaction by transaction. `SurveyOps` lists the
transactions as operations; a reserving one is taken apart into its steps, and `SurveyCalm` and
`SurveyPending` say what others can do to it meanwhile. `SurveyRuns` strings operations into runs, and
`SurveyQuota`, `SurveyHistory`, `SurveyEvolution`, `SurveyApproved`, `SurveyFencing`, `SurveyGuarantees`,
`SurveyReserving`, `SurveyServing`, `SurveyRescue`, `SurveyStranded` and `SurveyEnding` state what runs
promise. `SurveyAdmission`, `SurveyRequests`, `SurveyDrafting`, `SurveyRecall`, `SurveyLaunches`,
`SurveyStops`, `SurveyResults` and `SurveyMail` say of each transaction, in every reachable state, when it
goes through and what it comes to for its caller and for the transactions after it. `FairQueue` and `SurveyFairness` are about the order work is offered in. `SurveyPositions` and
`SurveyDeadlines` show runs, built with `SurveyScenario`, after which the published order is another or a
deadline has passed. `SurveyStore` is the same tables as a class whose methods check and rewrite rows one
after another, each proved equal to its transition function.

**The destination queue.** `TargetQueue` has jobs, receipts, install records, the reviewed scope and the
claim counter; `TargetFencing` proves that lapsed tokens are harmless, `TargetStarvation` bounds how long
aged backfill waits, `TargetOvertaking` shows what the bound depends on, `TargetCalls` says what each call comes to and for
how long, `TargetAdoption` says when
working off the scope ends, `TargetStore` is the class.
`Ledger` is the join-style upsert behind the scope and the deferred ledger, and `MetadataSync` the daily
synchronization that writes, ledgers and enqueues before its cursor moves.

**The release controller.** `ReleaseModel` has the stack, the change sets, the registrations, the
background controller, the tasks and the journal, with every event that may happen on its own;
`ReleaseProgram` is what a run does, as a function of the cloud and of the outside events;
`AdmissionRelease` is the controller, a class proved to do exactly that. It can be killed before any call
to the outside and run again. `ReleaseEnding` says which releases can still be completed, and
`ReleasePatience` how long a run waits before it gives up.

**Literal search.** `LikePattern` is the escape behind the history filter.

`Wrappers` holds the option type and `Sets` facts about set sizes.

## How crashes and concurrency appear

- Each transaction is one step: the row and advisory locks make it so. Steps of any callers interleave
  freely in a run, with the clock moving in between.
- A reserving transaction is several steps: it begins, which stops its clock; it gets the capacity lock of
  its queue and fetches its work list, the first 32 items in fair order; and it locks one candidate's
  Survey after another until it has reserved one. Everything but another reserving transaction of the same
  queue may come between. All that holds of runs holds with such steps in them.
- A refused transaction leaves the tables alone. The class methods write before they check where the code
  does, and restore what they wrote.
- Worker identity is event mode's: the lease owner of a job or Draft is the id of a compute attempt.
- History that no table keeps (charges made, cancels accepted, checkpoints committed, which create call
  made a Survey) is recorded beside the tables. No transaction's decision depends on it, except that a
  reserving one recognises a listed Survey by its create call, as the code does by its random id.
- `MetadataSync` receives, day by day, what workers do to the queue, what the endpoints do, after how many
  effects the process dies, and which part of a batch the store then holds.
  `AdmissionRelease` receives a script of outside events, one of which happens before each call; the
  process is dead when the script is used up.

## What turned out not to hold

- A running job can be stranded for good (`SurveyStranded`). A retryable stop event takes the lease
  away; if nobody reserves the job before its deadline, or it is out of compute starts, the candidate query
  no longer offers it (`scholight/db/queries_survey_attempts.py:284-299`) and the sweep, which wants a
  lease, never sees it (`scholight/db/queries_survey.py:1001-1004`). Its reservation stays taken. It can
  still be saved by a reserving transaction that began before the deadline and has yet to fetch its list,
  or that has the job on its list and can pass over the candidates ahead: those withdrawn, still queued, or
  of users without room. `StrandedForever` shows that without these a job never ends, and `EndsExactly`
  that in all other cases but one it can, whatever is ahead of it in fair order. `StrandingRun` and
  `RescuingRun` are a run for either side.
- A candidate that is reserved need no longer be on offer: the check under its Survey's lock does not look
  at the deadline again. `LateExactly` shows that this is the only thing that can have changed;
  `RescuingRun` is a run in which it has.
- The published place of a queued job is not always its place in the claim order. The claim also numbers
  the user's archiving and unleased running jobs, and passes by queued jobs for which an attempt is under
  way; the position counts the queued jobs and nothing else. `TurnGap`, `JobTurnPublished` and
  `JobOrderPublished` say exactly how far turn and order are off, and `JobPlacePublished` how far the place
  is and when it is right; it always is under the condition of `JobPlacesAgree`. `ReservedJobMisleads` and
  `ArchivingJobMisleads` are runs with a position too late and one too early. Drafts rank alike, so only
  those with an attempt under way make a difference (`DraftTurnPublished`).
- The fairness turn is counted per destination, not per configuration, so another configuration can have
  every fifth claim. An aged job is bound to be claimed once enough claims of its own configuration fall
  on a fair turn (`FairTurnBound`); with one configuration every fifth does (`StarvationBound`), with two
  none need, and the job waits as long as one likes (`OvertakenForever`). The wait is counted from after
  the instant the job became available: in that instant older jobs can still be restarted before it
  (`RestartedForever`, `TimeStartsTheWait`).
- The adoption loop ends only while no job is ahead of its scope row. Recording scope before enqueueing
  keeps it so (`NeverStuck`); a manual retry that enqueues without recording does not
  (`ManualRetryCanStick`), and then no pass helps (`StuckForever`).
- A release whose candidate drops a product flag cannot be resumed if it is interrupted between the
  candidate's update and its checkpoint (`DroppedFlagExample`, `StrandedRelease`, for any such candidate
  `AnyDropCanStrand`). `CompletesExactly` shows that this is the only way to lose a release whose flags
  were recorded as a map. A journal of the controller's first version restores one flag only
  (`LegacyRestoresExactly`). Completing a release may take somebody's help: while a change set is broken or
  failed, every run ends as not executable, and it is not the controller that deletes it.

## Model

| member | source | states |
|---|---|---|
| `SurveyRuns.ReachableSound` | scholight/db/queries_survey.py:185-1309 | every state that any run leads to from empty tables satisfies all the invariants, and the work list of a reserving transaction under way still fits the tables |
| `SurveyRuns.RunKeeps` | scholight/db/queries_survey.py:185-1309 | any sequence of the transactions, in any order and by any callers, keeps every invariant of the Survey tables: quota counts, status lockstep, single charge, sticky cancels, Draft chain, leases, attempt numbers, budgets, caps, checkpoint line |
| `SurveyKeeps.CreateKeeps` | scholight/db/queries_survey.py:185-267 | creating a Survey keeps every invariant of the Survey tables: quota counts, status lockstep, single charge, sticky cancels, Draft chain, leases, attempt numbers, budgets, caps, checkpoint line |
| `SurveyKeeps.StartKeeps` | scholight/db/queries_survey.py:390-471 | starting a Survey keeps the invariants: the new job has the newest ready Draft, and status, quota and job move together |
| `SurveyWithdraw.CancelKeeps` | scholight/db/queries_survey.py:474-558 | cancelling keeps the invariants in all three forms: withdrawing a drafting or queued Survey, asking a running one, refusing |
| `SurveyWithdraw.DeleteKeeps` | scholight/db/queries_survey.py:561-619 | deleting keeps the invariants, with the reservation given back and every dependent row gone |
| `SurveyArchive.SettleKeeps` | scholight/db/queries_survey.py:771-849 | settling keeps the invariants: one reservation becomes one charge or none, never for a cancelled execution |
| `SurveyArchive.FinishKeeps` | scholight/db/queries_survey.py:852-911 | finishing the archive keeps the invariants: the Survey ends as its job did, and mail agrees with the outcome |
| `SurveyArchive.DeferKeeps` | scholight/db/queries_survey.py:914-954 | deferring the archive keeps the invariants |
| `SurveyArchive.WorkspaceMissingKeeps` | scholight/db/queries_survey.py:957-993 | marking the workspace missing keeps the invariants, charged or cancelled as the execution may already be |
| `SurveyArchive.RecoverJobKeeps` | scholight/db/queries_survey.py:1007-1050 | ending an expired execution keeps the invariants: its reservation is released and a requested cancel is honoured |
| `SurveyArchive.RecoverArchivedKeeps` | scholight/db/queries_survey.py:1084-1181 | recovering an archived failure keeps the invariants and charges a Survey that was not charged before |
| `SurveyArchive.RepairKeeps` | scholight/db/queries_survey.py:1236-1284 | activating repaired evidence keeps the invariants and stays free |
| `SurveyCompute.RequestDraftKeeps` | scholight/db/queries_survey_drafts.py:112-182 | queueing a generated Draft keeps the invariants: it is the only active one, based on the newest revision |
| `SurveyCompute.ManualDraftKeeps` | scholight/db/queries_survey_drafts.py:185-261 | a manual Draft keeps the invariants and extends the revision chain by one |
| `SurveyCompute.CompleteDraftKeeps` | scholight/db/queries_survey_drafts.py:370-414 | completing a Draft keeps the invariants and succeeds exactly for the owner of its lease: the superseded and limit exits are dead |
| `SurveyCompute.FailDraftKeeps` | scholight/db/queries_survey_drafts.py:417-450 | failing a Draft keeps the invariants |
| `SurveyCompute.RecoverDraftKeeps` | scholight/db/queries_survey_drafts.py:453-500 | the sweep of one expired Draft keeps the invariants |
| `SurveyCompute.ReserveKeeps` | scholight/db/queries_survey_attempts.py:160-231 | reserving the first item in fair order with nothing in between keeps the invariants: next number, within budget, within both caps, alone on its item |
| `SurveyPending.FetchKeeps` | scholight/db/queries_survey_attempts.py:160-176 | getting the capacity lock and fetching the work list keeps the invariants |
| `SurveyPending.TryKeeps` | scholight/db/queries_survey_attempts.py:177-231 | trying the next candidate of a list keeps the invariants, whatever happened since the fetch |
| `SurveyPending.StepPending` | scholight/db/queries_survey_attempts.py:160-231 | no transaction, and no step of a reserving one, spoils a list under way: each candidate that is still the same item has the counted attempts, none active, and budget left, and the queue has room |
| `SurveyCompute.LaunchingKeeps` | scholight/db/queries_survey_attempts.py:325-336 | marking an attempt launching keeps the invariants |
| `SurveyCompute.LaunchFailedKeeps` | scholight/db/queries_survey_attempts.py:399-426 | a launch failure with its back-off keeps the invariants |
| `SurveyCompute.LaunchedKeeps` | scholight/db/queries_survey_attempts.py:429-444 | marking an attempt launched keeps the invariants |
| `SurveyCompute.ClaimDraftKeeps` | scholight/db/queries_survey_attempts.py:531-573 | claiming exactly the reserved Draft keeps the invariants |
| `SurveyCompute.ClaimJobKeeps` | scholight/db/queries_survey_attempts.py:576-655 | claiming exactly the reserved job keeps the invariants, first claim, resumption or archiving |
| `SurveyCompute.CheckpointKeeps` | scholight/db/queries_survey_attempts.py:658-699 | committing a checkpoint keeps the invariants, and the failing fence on the attempt row is never reached |
| `SurveyCompute.HeartbeatKeeps` | scholight/db/queries_survey_attempts.py:733-775 | a heartbeat keeps the invariants |
| `SurveyCompute.SucceededKeeps` | scholight/db/queries_survey_attempts.py:447-503 | a clean exit keeps the invariants, whether or not the item was really finished |
| `SurveyCompute.StoppedKeeps` | scholight/db/queries_survey_attempts.py:790-857 | a stop event keeps the invariants, early, late or repeated |
| `SurveyQuota.QuotaConservation` | scholight/db/queries_survey.py:197-262 | after every run, for every user and day: reserved_count is the number of live reservations, succeeded_count the number of charging steps of the run (deleted Surveys included), and their sum at most the largest limit of a create call (the user's override if there is one, else the configured limit) plus the archive recoveries made |
| `SurveyQuota.ChargeStep` | scholight/db/queries_survey.py:807-833 | one step raises the charges of a key by one exactly if it turns one of the key's Surveys consumed, and the recoveries exactly if it does so by archive recovery |
| `SurveyGuarantees.ReservationStands` | scholight/db/survey_locking.py:45-64 | the usage row of a Survey always exists, and a Survey that is reserved has a reservation to give back |
| `SurveyGuarantees.SettleAccepted` | scholight/db/queries_survey.py:800-826 | settling succeeds exactly for the lease owner of a running job; the lost-reservation and lost-aggregate exits are dead |
| `SurveyGuarantees.CancelAccepted` | scholight/db/queries_survey.py:489-547 | cancelling is accepted exactly in drafting, queued and running, and refused exactly in archiving; the reservation exits are dead |
| `SurveyGuarantees.DeleteAccepted` | scholight/db/queries_survey.py:572-613 | deleting is refused exactly in running and archiving, with no other failure possible |
| `SurveyGuarantees.RecoveryAccepted` | scholight/db/queries_survey.py:1000-1031 | the sweep ends exactly the running jobs with an expired lease and never misses a reservation |
| `SurveyGuarantees.ArchiveRecoveryFindsRow` | scholight/db/queries_survey.py:1158-1171 | archive recovery never finds its usage row missing |
| `SurveyGuarantees.QuotaTerminalHolds` | migrations/013_allow_free_readable_surveys.sql:5-13 | no reachable state violates the quota constraint in its later form: a succeeded Survey may be free, an unfinished one is always reserved |
| `SurveyGuarantees.UsageConstraintsHold` | migrations/005_survey.sql:15-23 | no reachable state has a negative count in a usage row |
| `SurveyGuarantees.ConstraintsHold` | migrations/005_survey.sql:92-190 | no reachable state violates the outcome, storage, approved-Draft, content, revision-range or one-active-Draft constraints |
| `SurveyAdmission.CreateAccepted` | scholight/db/queries_survey.py:205-231 | in every reachable state a new request is refused on quota exactly if the reservations that stand and the charges ever made reach the override, whatever the configured limit, or the configured limit where there is no override; otherwise it goes through exactly if its identifiers are fresh |
| `SurveyAdmission.CreateTakesEffect` | scholight/db/queries_survey.py:232-260 | an accepted create makes a drafting Survey with one reservation and one Draft that is offered to compute at once; no other row changes |
| `SurveyAdmission.CreateRepeated` | scholight/db/queries_survey.py:215-227 | a repeated request is answered without effect if its content is the same and refused if not |
| `SurveyAdmission.CreateRemembered` | scholight/db/queries_survey.py:215-227 | over any run the request of an accepted create is remembered as long as its Survey is there |
| `SurveyAdmission.RequestsUnique` | migrations/005_survey.sql:25-58 | in every reachable state a user has at most one Survey per request key |
| `SurveyRequests.DraftRequestsUnique` | migrations/005_survey.sql:64-122 | in every reachable state a Survey has at most one Draft per request key |
| `SurveyRequests.DraftRemembered` | scholight/db/queries_survey_drafts.py:112-146 | over any run a Draft request is remembered as long as its Survey is there: repeated it has no effect, with other content it is refused |
| `SurveyDrafting.DraftAccepted` | scholight/db/queries_survey_drafts.py:130-160 | in every reachable state a new Draft request, generated or by hand, goes through exactly if the Survey is drafting, no Draft of it is under way, fewer than ten are ready and its identifier is fresh; otherwise the first of these that fails is the refusal |
| `SurveyDrafting.GeneratedIsOffered` | scholight/db/queries_survey_drafts.py:147-182 | a generated Draft is offered to compute at once and builds on the newest revision |
| `SurveyDrafting.ManualIsNewest` | scholight/db/queries_survey_drafts.py:215-261 | a Draft by hand is at once the newest revision, one above the last, with its text |
| `SurveyDrafting.CompleteAccepted` | scholight/db/queries_survey_drafts.py:370-400 | in every reachable state completing a Draft succeeds exactly for the owner of its lease |
| `SurveyDrafting.CompletedIsNewest` | scholight/db/queries_survey_drafts.py:395-414 | a completed Draft is the newest revision, one above the last, with the text it was completed with |
| `SurveyDrafting.FailAccepted` | scholight/db/queries_survey_drafts.py:417-450 | failing a Draft is for the owner of its lease exactly; it ends failed, and another Draft of its Survey can be requested |
| `SurveyDrafting.SweepAccepted` | scholight/db/queries_survey_drafts.py:453-500 | the sweep gives up exactly the running Drafts whose lease has run out, and another Draft can be requested then |
| `SurveyDrafting.StartAccepted` | scholight/db/queries_survey.py:400-445 | in every reachable state a Survey without a job is started exactly if it is drafting, no Draft of it is under way and one is ready; with a job only the same request is repeated |
| `SurveyDrafting.StartTakesEffect` | scholight/db/queries_survey.py:432-471 | starting makes one job, offered to compute at once, with the newest revision approved and the wish for a mail on record |
| `SurveyRecall.CancelRunning` | scholight/db/queries_survey.py:489-504 | cancelling a running Survey leaves the wish on its job and changes nothing else |
| `SurveyRecall.CancelWaiting` | scholight/db/queries_survey.py:505-558 | cancelling a Survey that has not started computing gives its reservation back and leaves no job and no Draft under way; no other row changes |
| `SurveyRecall.DeleteTakesAll` | scholight/db/queries_survey.py:561-619 | deleting takes the Survey with its job, Drafts, attempts and mail, and nothing else |
| `SurveyRecall.DeleteGivesBack` | scholight/db/queries_survey.py:590-613 | deleting gives back a reservation exactly if the Survey had not started computing, and takes back no charge |
| `SurveyResults.SettleTakesEffect` | scholight/db/queries_survey.py:800-849 | a settled execution is charged exactly if it was not to be cancelled, succeeded and counts; it waits for its archive with its outcome and error, its worker keeping the lease |
| `SurveyResults.SettleRepeated` | scholight/db/queries_survey.py:790-799 | settling again is harmless if it says the same or a cancel overrules it, and refused otherwise |
| `SurveyResults.SweepTakesEffect` | scholight/db/queries_survey.py:1007-1050 | an execution ended by the sweep is not charged: it is cancelled if that was asked for, else failed with its worker lost, and nobody holds it |
| `SurveyResults.SweptWorkerIsOut` | scholight/db/queries_survey.py:1007-1050 | the worker of such an execution can change nothing any more |
| `SurveyResults.ArchiveAccepted` | scholight/db/queries_survey.py:852-993 | in every reachable state finishing, putting off and reporting a missing workspace are for the owner of a job that waits for its archive, exactly |
| `SurveyResults.FinishTakesEffect` | scholight/db/queries_survey.py:870-898 | a finished archive gives the Survey the status of the outcome and ends the job for good; quota stays |
| `SurveyResults.DeferTakesEffect` | scholight/db/queries_survey.py:914-954 | an archive that is put off counts the try, waits as long as told without a lease, and keeps its outcome |
| `SurveyResults.MissingEndsFailed` | scholight/db/queries_survey.py:957-993 | with its workspace missing an execution ends failed and says so, whatever it was settled as; its quota stays |
| `SurveyMail.MailQueued` | scholight/db/queries_survey.py:899-906 | in every reachable state a Survey has a completion mail exactly if one was asked for and it succeeded or failed, and the mail tells which |
| `SurveyMail.MailAsAsked` | scholight/db/queries_survey.py:899-906 | over any run the mail asked for when starting is queued exactly when the execution has a result |
| `SurveyResults.RecoveryGoesThrough` | scholight/db/queries_survey.py:1084-1157 | in every reachable state a failed result is recovered exactly if it failed uncharged with that recoverable error, its archive is the one looked at, and its mail is not being sent |
| `SurveyResults.RecoveryTakesEffect` | scholight/db/queries_survey.py:1158-1205 | a recovered result has succeeded, is charged once, and has the archive that was chosen |
| `SurveyResults.RecoveryRepeated` | scholight/db/queries_survey.py:1105-1125 | recovering again is harmless for the same archive and refused for any other |
| `SurveyResults.RepairGoesThrough` | scholight/db/queries_survey.py:1236-1275 | in every reachable state evidence is repaired exactly if the result succeeded uncharged with degraded quality and its archive is the one looked at |
| `SurveyResults.RepairTakesEffect` | scholight/db/queries_survey.py:1276-1300 | afterwards the manifest is the replacement and nobody complains about quality; it stays free |
| `SurveyResults.RepairRepeated` | scholight/db/queries_survey.py:1250-1262 | repairing again is harmless for the same replacement and refused for any other |
| `SurveyHistory.RunGrows` | scholight/db/queries_survey.py:185-1309 | no run takes back a charge, an accepted cancel or a committed checkpoint |
| `SurveyEvolution.RunOutlives` | scholight/db/queries_survey.py:185-1309 | the same over whole runs; a deleted Survey never comes back under its old identity |
| `SurveyEvolution.CancelIsFinal` | scholight/db/queries_survey.py:489-504 | once a cancel of a running Survey is accepted, no continuation charges it or makes it succeed; it can only end cancelled, or failed for a missing workspace |
| `SurveyGuarantees.RevisionNumbers` | scholight/db/queries_survey_drafts.py:147-175 | the ready revisions are exactly 1..n with n at most 10, each based on the one before |
| `SurveyApproved.ReadyForever` | scholight/db/queries_survey_drafts.py:382-407 | a ready Draft stays exactly as it is over any run, as long as its Survey is not deleted |
| `SurveyApproved.ApprovedForever` | scholight/db/queries_survey.py:432-458 | the Draft a job was started with stays its approved Draft and the highest revision for good |
| `SurveyFencing.Fenced` | scholight/db/queries_survey_attempts.py:485-498 | no settlement, archive step, claim, checkpoint, heartbeat, late success or stop event of one attempt changes a job, its Survey or a Draft leased to another attempt |
| `SurveyGuarantees.ClaimJobAccepted` | scholight/db/queries_survey_attempts.py:594-630 | such a claim gets the job exactly if the job is unfinished |
| `SurveyGuarantees.ClaimDraftAccepted` | scholight/db/queries_survey_attempts.py:537-559 | such a claim gets the Draft exactly if the Draft is queued |
| `SurveyGuarantees.LeaseOwnerRuns` | scholight/db/queries_survey_attempts.py:561-650 | a leased item has exactly one active attempt: the running lease owner |
| `SurveyGuarantees.CommittedByOwner` | scholight/db/queries_survey_attempts.py:668-696 | a checkpoint is committed only by the running lease owner, directly after the last one; nothing else touches the line |
| `SurveyGuarantees.OneCheckpointLine` | scholight/db/queries_survey_attempts.py:658-699 | over any run the checkpoints of an execution are numbered 1, 2, and so on, are never rewritten, come from attempts in order, and the job points at the last |
| `SurveyGuarantees.AttemptNumbers` | scholight/db/queries_survey_attempts.py:198-227 | the attempts ever made on one item are numbered exactly 1..n |
| `SurveyGuarantees.CapacityHolds` | scholight/db/queries_survey_attempts.py:160-231 | after every run: attempts within the global and per-user limit of their kind, at most one active per item, at most the maximum of compute starts for a Draft and eight more for a job |
| `SurveyLaunches.LaunchRetried` | scholight/db/queries_survey_attempts.py:399-426 | a failed launch keeps its slot and is tried again exactly when its wait of 15, 30, 60, 120 or 300 seconds is over |
| `SurveyLaunches.LaunchedOnce` | scholight/db/queries_survey_attempts.py:429-444 | a launched attempt keeps its task: marking it again is harmless, another task is refused |
| `SurveyLaunches.ClaimedDraft` | scholight/db/queries_survey_attempts.py:531-573 | a claimed Draft computes under a lease: the sweep gives it up exactly from the end of that lease on, and nobody else can claim it |
| `SurveyLaunches.ClaimedJob` | scholight/db/queries_survey_attempts.py:594-655 | a claimed job has its deadline from its first claim, resumes from its checkpoint and counts it, and runs with its Survey |
| `SurveyLaunches.LeaseRunsOut` | scholight/db/queries_survey_attempts.py:637-655 | the sweep ends a claimed running job exactly from the end of its lease on, unless it is renewed |
| `SurveyApproved.DeadlineStands` | scholight/db/queries_survey_attempts.py:637-650 | over any run a job keeps its place in line, and its deadline once it has one |
| `SurveyLaunches.HeartbeatAccepted` | scholight/db/queries_survey_attempts.py:733-775 | in every reachable state a heartbeat is heard exactly from the owner of the lease of the item it was reserved for |
| `SurveyLaunches.HeartbeatRenewsJob` | scholight/db/queries_survey_attempts.py:745-775 | a heartbeat renews the lease of a job for its length and changes nothing else |
| `SurveyLaunches.HeartbeatRenewsDraft` | scholight/db/queries_survey_attempts.py:733-760 | the same for a Draft |
| `SurveyStops.StopEndsDraft` | scholight/db/queries_survey_attempts.py:841-853 | in every reachable state the first stop event of the attempt that holds a Draft offers the Draft again, in its old place, exactly if it is retryable, and fails it otherwise |
| `SurveyStops.StopMakesRoom` | scholight/db/queries_survey_attempts.py:841-853 | another Draft of the Survey can be requested after a stop for good, and not after a retryable one |
| `SurveyStops.StopFreesJob` | scholight/db/queries_survey_attempts.py:832-840 | the first stop event of the attempt that holds a job takes its lease and nothing else, so it is offered again unless it computes past its deadline |
| `SurveyStops.StopElsewhere` | scholight/db/queries_survey_attempts.py:832-853 | a stop event changes no item its attempt does not hold |
| `SurveyStops.StaleStop` | scholight/db/queries_survey_attempts.py:812-817 | an event that is not newer changes nothing, and one after the end only the version on record |
| `SurveyStops.CleanExitCounts` | scholight/db/queries_survey_attempts.py:447-484 | in every reachable state a clean exit is a success exactly if the Draft is not under way any more, or the job has finished; otherwise it is to be retried |
| `SurveyStops.ExitReturnsDraft` | scholight/db/queries_survey_attempts.py:485-503 | after a clean exit without a result the Draft still held is offered again, in its old place |
| `SurveyStops.ExitReturnsJob` | scholight/db/queries_survey_attempts.py:485-503 | after a clean exit without a result the job still held is freed, and offered again unless it computes past its deadline |
| `SurveyStranded.StrandedForever` | scholight/db/queries_survey_attempts.py:284-299 | a running job stays running under every run, its reservation held, if it has no lease and no active attempt, no reserving transaction can list it any more by its own clock, and the one under way has no way to it on its list |
| `SurveyEnding.EndsExactly` | scholight/db/queries_survey.py:1000-1031 | a running job can leave its running state by some continuation, at whatever load, however its attempts stand and whatever is ahead of it in fair order, exactly if it is not stranded: nobody works on it, it is past its deadline or out of starts, and the reserving transaction under way, if any, has no way to it; undecided only if nothing but a transaction that began in time and still waits for its lock is left |
| `SurveyServing.ComputingIsLeased` | scholight/db/queries_survey_attempts.py:637-655 | in every reachable state an attempt that computes a running job is the owner of its lease |
| `SurveyDeadlines.StrandingRun` | scholight/db/queries_survey_attempts.py:790-857 | a run from empty tables that strands a job: its attempt stops retryably and nobody reserves the job again before the deadline |
| `SurveyDeadlines.RescuingRun` | scholight/db/queries_survey_attempts.py:171-231 | a run from empty tables in which the deadline passes after the job was listed: no list offers it any more, the late reservation is made all the same, and the job ends as a charged success |
| `SurveyStranded.OfferedExactly` | scholight/db/queries_survey_attempts.py:284-299 | with room for its user, the work list offers a waiting running job exactly while the deadline is ahead and compute starts are left |
| `SurveyStranded.AnyJobCanStrand` | scholight/db/queries_survey_attempts.py:832-841 | any leased running job can strand: reserving transactions under way come to nothing, a retryable stop event of its attempt arrives, and time passes |
| `SurveyStranded.LeasedJobEnds` | scholight/db/queries_survey.py:996-1055 | a running job that holds a lease is ended by the sweep once the lease has run out |
| `FairQueue.RoundRobin` | scholight/db/queries_survey_drafts.py:282-294 | at every point of serving, a user still waiting has been served at most one row fewer than anybody else |
| `FairQueue.PlaceFollows` | scholight/db/queries_survey.py:325-338 | places number the queue in serving order without ties |
| `FairQueue.DraftPositionsAgree` | scholight/db/queries_survey.py:325-331 | among rows of one rank, as Drafts are, the published place equals the claim order's row number |
| `FairQueue.FirstIsOffered` | scholight/db/queries_survey_drafts.py:290-294 | the row in place 1 is the next served exactly if caps and budgets allow it |
| `FairQueue.TurnGap` | scholight/db/queries_survey_attempts.py:274-299 | whatever is queued and whatever is open, the claim turn of a row is its published turn plus its user's earlier rows that are open but not queued, minus its older rows that are queued but not open; so the turn is right exactly when these are equally many |
| `FairQueue.OrderExact` | scholight/db/queries_survey.py:332-338 | two queued rows are served in the published order exactly if the difference of their lags does not overtake the difference of their turns |
| `FairQueue.OrderAgrees` | scholight/db/queries_survey.py:332-338 | rows of one user, and rows that lag alike, are always served in the published order |
| `SurveyFairness.QueuedListed` | scholight/db/queries_survey_attempts.py:284-291 | in every reachable state a queued job is open for a claim exactly while no attempt is under way for it |
| `SurveyFairness.JobTurnPublished` | scholight/db/queries_survey.py:332-338 | in every reachable state: claim turn plus the user's older queued jobs with an attempt under way equals published turn plus the user's archiving and older running jobs waiting for a claim; the turns agree exactly if these are equally many |
| `SurveyFairness.JobOrderPublished` | scholight/db/queries_survey.py:332-338 | in every reachable state, exactly when two queued jobs are claimed in the order their positions show; jobs of one user always are |
| `SurveyFairness.JobPlacePublished` | scholight/db/queries_survey.py:332-338 | in every reachable state a queued job's place in the claim order and its position differ by four counts of jobs: uncounted ones served sooner, queued ones shown sooner with an attempt under way, queued ones shown sooner that fall behind by lag, and queued ones shown later that get ahead by lag; the position is right exactly if these balance |
| `SurveyFairness.JobPlacesAgree` | scholight/db/queries_survey.py:332-338 | with no archiving or running job waiting for a claim and no attempt under way for a queued one, every published job position is the place in the claim order |
| `SurveyFairness.OwnOrder` | scholight/db/queries_survey_attempts.py:279-281 | of a user's own reservable items the one queued first is served first, except that an archiving job goes before the rest |
| `SurveyFairness.OldestFirst` | scholight/db/queries_survey_attempts.py:308-309 | of two users with one open item each, the one whose item was queued first is served first |
| `SurveyPositions.ReservedJobMisleads` | scholight/db/queries_survey_attempts.py:287-291 | a run from empty tables after which position 3 is shown for the job that is claimed first: its user's older job has an attempt reserved |
| `SurveyPositions.ArchivingJobMisleads` | scholight/db/queries_survey_attempts.py:280-281 | a run from empty tables after which position 1 is shown for a job that is claimed third: its user's older job is being archived |
| `SurveyFairness.DraftTurnPublished` | scholight/db/queries_survey_attempts.py:252-261 | the open Drafts are among the queued ones, and the published turn of a Draft exceeds its claim turn by the user's older queued Drafts that are not open |
| `SurveyFairness.DraftPositionPublished` | scholight/db/queries_survey.py:325-331 | the shown position of a waiting Draft is its place in the claim order over all waiting Drafts |
| `SurveyStore.Store.CreateSurvey` | scholight/db/queries_survey.py:185-267 | the row-by-row create leaves exactly the tables its transition function describes, exceptions rolled back, and keeps the invariants; `SurveyAdmission` says what that comes to |
| `SurveyStore.Store.RequestGeneratedDraft` | scholight/db/queries_survey_drafts.py:112-182 | the row-by-row request leaves exactly the tables its transition function describes, exceptions rolled back, and keeps the invariants |
| `SurveyStore.Store.CreateManualDraft` | scholight/db/queries_survey_drafts.py:185-261 | the row-by-row manual revision leaves exactly the tables its transition function describes, exceptions rolled back, and keeps the invariants |
| `SurveyStore.Store.CompleteSurveyDraft` | scholight/db/queries_survey_drafts.py:370-414 | the row-by-row completion leaves exactly the tables its transition function describes, exceptions rolled back, and keeps the invariants |
| `SurveyStore.Store.FailSurveyDraft` | scholight/db/queries_survey_drafts.py:417-450 | the row-by-row failure leaves exactly the tables its transition function describes, exceptions rolled back, and keeps the invariants |
| `SurveyStore.Store.NewestDraft` | scholight/db/queries_survey.py:432-442 | the scan finds the ready Draft of highest revision, or none exactly if there is none |
| `SurveyStore.Store.StartSurvey` | scholight/db/queries_survey.py:390-471 | the row-by-row start leaves exactly the tables its transition function describes, exceptions rolled back, and keeps the invariants |
| `SurveyStore.Store.CancelSurvey` | scholight/db/queries_survey.py:474-558 | the row-by-row cancel leaves exactly the tables its transition function describes, exceptions rolled back, and keeps the invariants |
| `SurveyStore.Store.DeleteSurvey` | scholight/db/queries_survey.py:561-619 | the row-by-row delete leaves exactly the tables its transition function describes, exceptions rolled back, and keeps the invariants |
| `SurveyStore.Store.SettleExecution` | scholight/db/queries_survey.py:771-849 | the row-by-row settlement leaves exactly the tables its transition function describes, exceptions rolled back, and keeps the invariants |
| `SurveyStore.Store.FinishSurveyArchive` | scholight/db/queries_survey.py:852-911 | the row-by-row archive completion leaves exactly the tables its transition function describes, exceptions rolled back, and keeps the invariants |
| `SurveyStore.Store.DeferSurveyArchive` | scholight/db/queries_survey.py:914-954 | the row-by-row deferral leaves exactly the tables its transition function describes, exceptions rolled back, and keeps the invariants |
| `SurveyStore.Store.MarkArchiveWorkspaceMissing` | scholight/db/queries_survey.py:957-993 | the row-by-row mark leaves exactly the tables its transition function describes, exceptions rolled back, and keeps the invariants |
| `SurveyStore.Store.RecoverExpiredJobs` | scholight/db/queries_survey.py:996-1055 | the sweep ends as many executions as it counts, at most the limit, and below the limit leaves no expired one |
| `SurveyStore.Store.ExpiredJobs` | scholight/db/queries_survey.py:1000-1006 | the selection lists distinct expired jobs, longest overdue first, all of them if they fit |
| `SurveyStore.Store.RecoverExpiredDrafts` | scholight/db/queries_survey_drafts.py:453-500 | the Draft sweep fails as many Drafts as it counts, at most the limit, and below the limit leaves no expired one |
| `SurveyStore.Store.RecoverArchivedFailure` | scholight/db/queries_survey.py:1058-1211 | the row-by-row recovery leaves exactly the tables its transition function describes, exceptions rolled back, and keeps the invariants |
| `SurveyStore.Store.RepairDegradedEvidence` | scholight/db/queries_survey.py:1214-1309 | the row-by-row repair leaves exactly the tables its transition function describes, exceptions rolled back, and keeps the invariants |
| `SurveyStore.Store.BeginReservation` | scholight/db/survey_locking.py:68-84 | a reserving transaction begins and waits for its capacity lock |
| `SurveyStore.Store.FetchCandidates` | scholight/db/queries_survey_attempts.py:162-176 | with the lock granted: the list is the first 32 reservable items in serving order by the transaction's clock; there is none only at the global limit or with nothing reservable |
| `SurveyStore.Store.ReserveNext` | scholight/db/queries_survey_attempts.py:160-238 | with nothing between its steps, below the global limit it reserves the reservable item that is first in fair order, and nothing only if nothing is reservable |
| `SurveyStore.Store.Candidates` | scholight/db/queries_survey_attempts.py:241-311 | the first 32 reservable items in serving order, numbered over all open items; fewer only if there are no more |
| `SurveyStore.Store.ReserveLocked` | scholight/db/queries_survey_attempts.py:177-231 | the next candidate, after its Survey is locked and whatever other transactions did since the list was fetched, is checked again and reserved or passed over; the invariants stay, and no unique index stops it |
| `SurveyReserving.CandidateAccepted` | scholight/db/queries_survey_attempts.py:177-231 | in every reachable state a candidate is reserved exactly if its Survey and item are still those fetched, nobody holds the item and its user has room; no unique index is in the way |
| `SurveyReserving.LateExactly` | scholight/db/queries_survey_attempts.py:308-327 | in every reachable state, when a candidate is reserved, the work list would still offer it exactly if it is a Draft or an archiving job, or has no deadline, or its deadline is ahead |
| `SurveyReserving.LateIsAtOnce` | scholight/db/queries_survey_attempts.py:177-231 | a late reservation in time inserts the row a fresh look at the tables asks for, and is the reservation made with nothing in between if the item is first in fair order by then |
| `SurveyReserving.AtOnce` | scholight/db/queries_survey_attempts.py:160-231 | beginning, fetching the list and taking its first candidate with nothing in between is one atomic reservation of the item that is first in fair order |
| `SurveyFairness.OfferedLeads` | scholight/db/queries_survey_attempts.py:274-299 | the item reserved first is the row the fair queue serves first among those within caps and budgets |
| `SurveyReserving.CountStands` | scholight/db/queries_survey_attempts.py:194-219 | the attempts on a candidate that passes the check are the ones counted when the list was fetched, none active, and the budget allows one more |
| `SurveyStore.Store.MarkAttemptLaunching` | scholight/db/queries_survey_attempts.py:325-336 | the row update leaves exactly the tables its transition function describes, exceptions rolled back, and keeps the invariants |
| `SurveyStore.Store.RecordLaunchFailure` | scholight/db/queries_survey_attempts.py:399-426 | the row update leaves exactly the tables its transition function describes, exceptions rolled back, and keeps the invariants |
| `SurveyStore.Store.MarkAttemptLaunched` | scholight/db/queries_survey_attempts.py:429-444 | the row update leaves exactly the tables its transition function describes, exceptions rolled back, and keeps the invariants |
| `SurveyStore.Store.ClaimExactDraft` | scholight/db/queries_survey_attempts.py:531-573 | the row-by-row claim leaves exactly the tables its transition function describes, exceptions rolled back, and keeps the invariants |
| `SurveyStore.Store.ClaimExactJob` | scholight/db/queries_survey_attempts.py:576-655 | the row-by-row claim leaves exactly the tables its transition function describes, exceptions rolled back, and keeps the invariants |
| `SurveyStore.Store.CommitJobCheckpoint` | scholight/db/queries_survey_attempts.py:658-699 | compare-and-set, then the fence on the attempt row, with the job row rolled back if the fence fails: leaves exactly the tables its transition function describes, exceptions rolled back, and keeps the invariants |
| `SurveyStore.Store.HeartbeatAttempt` | scholight/db/queries_survey_attempts.py:733-775 | the row-by-row renewal leaves exactly the tables its transition function describes, exceptions rolled back, and keeps the invariants |
| `SurveyStore.Store.RecordSucceeded` | scholight/db/queries_survey_attempts.py:447-503 | the row-by-row record leaves exactly the tables its transition function describes, exceptions rolled back, and keeps the invariants |
| `SurveyStore.Store.RecordStopped` | scholight/db/queries_survey_attempts.py:790-857 | the row-by-row record leaves exactly the tables its transition function describes, exceptions rolled back, and keeps the invariants; `SurveyStops` says what that comes to |
| `Ledger.OnlyTheSetMatters` | scholight/db/target_ingestion.py:215-223 | a ledger depends only on the set of observations recorded, not on their order or number |
| `Ledger.ReplayHarmless` | scholight/db/queries_deferred_fulltext.py:10-24 | recording any of the observations again changes nothing |
| `Ledger.LedgerMeans` | scholight/db/target_ingestion.py:218-222 | a row is the least one covering what was observed: highest version, first and last day, all reasons, and nothing else |
| `Ledger.UpsertSwap` | scholight/db/target_adoption.py:22-45 | two upserts of whole rows commute, as seeding from two ledgers needs |
| `TargetQueue.ReachableSound` | scholight/db/target_ingestion.py:69-213 | after every run running means leased, and a succeeded job has the receipt for its present version and configuration |
| `TargetQueue.RunKeeps` | scholight/db/target_ingestion.py:69-213 | the same with unique tokens as an invariant of every operation |
| `TargetFencing.RunForward` | scholight/db/target_ingestion.py:79-89 | over any run versions never fall, receipts and install manifests never change, and no old token gains or regains a lease |
| `TargetFencing.LapsedForever` | scholight/db/target_ingestion.py:143-195 | a token whose lease is gone never gets one again, and renew, release, complete, fail and the installer's guard do nothing for it |
| `TargetFencing.LapsesWhen` | scholight/db/target_ingestion.py:143-195 | a token lapses exactly when its lease has run out or its job no longer carries it |
| `TargetFencing.RestartLapses` | scholight/db/target_ingestion.py:79-87 | a newer version or another configuration takes the job from its present holder at once |
| `TargetFencing.ClaimIsFresh` | scholight/db/target_ingestion.py:115-141 | a claim hands out a token nobody holds, and the job's previous token has lapsed |
| `TargetStarvation.FairTurnBound` | scholight/db/target_ingestion.py:99-141 | aged claimable backfill has been claimed once more claims for its configuration fell on a fair turn than attempts are left to the backfill ordered before it, whatever other configurations claim and whatever else happens meanwhile |
| `TargetStarvation.StarvationBound` | scholight/db/target_ingestion.py:99-141 | so when one configuration claims, it is claimed within 5(R+1) claims, R being those attempts |
| `TargetOvertaking.OvertakenForever` | scholight/db/target_ingestion.py:101-141 | for every n, a run from the empty destination with 4n claims for its configuration that never takes an aged job with nothing ordered before it: the fair turns all go to another configuration |
| `TargetOvertaking.RestartedForever` | scholight/db/target_ingestion.py:66-97 | for every n, a run with n claims, all for its configuration, that never takes an aged job in the instant it became available: an older job is restarted each time |
| `TargetOvertaking.TimeStartsTheWait` | scholight/db/target_ingestion.py:119-128 | any passing of time starts the wait of an aged job that a claim may take |
| `TargetStarvation.OwnClaimHelps` | scholight/db/target_ingestion.py:119-140 | while such a job waits no claim for its configuration comes back empty; unless it takes the job, no attempts are added before it, and on a fair turn one fewer is left |
| `TargetStarvation.OtherCallsHelp` | scholight/db/target_ingestion.py:143-213 | no other operation adds attempts before a waiting job or takes it out of line |
| `TargetStarvation.NextExists` | scholight/db/target_ingestion.py:119-130 | a claim is empty exactly if nothing is claimable, and its choice is unique |
| `TargetStarvation.ForeignClaimHelps` | scholight/db/target_ingestion.py:101-140 | a claim for another configuration moves the shared counter, never takes the job and changes nothing ordered before it |
| `TargetStarvation.UrgentGoesFirst` | scholight/db/target_ingestion.py:123-128 | off the fair turn any claimable job of better priority goes first |
| `TargetStarvation.CrashBound` | scholight/db/target_ingestion.py:108-118 | a job whose workers only crash is claimed at most as often as it has attempts left |
| `TargetStarvation.CrashedOut` | scholight/db/target_ingestion.py:108-118 | once they are used up, the next claim after expiry buries it |
| `TargetAdoption.RowResumed` | scholight/db/target_ingestion.py:248-278 | an applied row is enqueued and stops matching exactly if it is not stuck; other rows are not concerned |
| `TargetAdoption.ResumedIsOffered` | scholight/db/target_ingestion.py:262-277 | a row that is worked off gives its paper a job at the scope's version that can be claimed at once, as backfill if it is new |
| `TargetAdoption.InstalledForGood` | scholight/db/target_ingestion.py:252-264 | over any run a paper installed at its scope's version is not selected again for that version and configuration |
| `TargetAdoption.NeverStuck` | scholight/scheduler/ingest_worker.py:113-122 | when scope is recorded before enqueueing, no scope row is ever stuck |
| `TargetAdoption.StuckForever` | scholight/db/target_adoption.py:114-117 | a stuck row matches after any number of passes: the adoption loop does not end |
| `TargetAdoption.ManualRetryCanStick` | scholight/cli/scheduler.py:173-185 | a manual enqueue that bypasses the scope can make a row stuck |
| `TargetCalls.HolderAccepted` | scholight/db/target_ingestion.py:143-195 | renewing, releasing, failing and finishing are for the live holder exactly, finishing with the receipt besides; for anybody else nothing changes |
| `TargetCalls.FailedRetries` | scholight/db/target_ingestion.py:179-195 | a job failed with a retry time can be claimed at every clock from that time on and at none before, with its attempts and version kept |
| `TargetCalls.FailedDies` | scholight/db/target_ingestion.py:179-195 | a job failed without one can be claimed at no clock |
| `TargetCalls.FailedForGood` | scholight/db/target_ingestion.py:179-195 | over any run it stays so until the job is started over: a waiting one before its time, a dead one for good |
| `TargetCalls.RestsUntilStarted` | scholight/db/target_ingestion.py:69-213 | over any run a dead or succeeded job, and one whose time has not come, keeps version, configuration, status, attempts and place, and nobody can claim it, until it is revived or enqueued as something else |
| `TargetCalls.RenewedLasts` | scholight/db/target_ingestion.py:143-152 | a renewed lease is live exactly for the time asked for, and the job claimable by others exactly from then on |
| `TargetCalls.ReleasedWaits` | scholight/db/target_ingestion.py:154-163 | a released job can be claimed at once and has its attempt back |
| `TargetCalls.FinishedRests` | scholight/db/target_ingestion.py:165-177 | a finished job has succeeded and can be claimed at no clock |
| `TargetCalls.RevivedWaits` | scholight/db/target_ingestion.py:205-213 | an operator revives exactly dead jobs, which can be claimed at once with no attempt counted |
| `TargetCalls.ClaimStartsAttempt` | scholight/db/target_ingestion.py:99-141 | a claim counts one attempt on a claimable job, whose lease is live exactly for the time asked for, buries the used-up jobs of its configuration and touches no other |
| `TargetCalls.ClaimsInOrder` | scholight/db/target_ingestion.py:119-130 | of all claimable jobs a claim takes the most urgent, backfill older than a day before all else on every fifth claim, then the longest available, then the oldest, then the first by id |
| `TargetCalls.EnqueuedInOrder` | scholight/db/target_ingestion.py:69-97 | of two papers enqueued together, new ones and those asked for by hand go before revisions, these before reconciliation, and backfill last, on every turn |
| `TargetCalls.EnqueueStarts` | scholight/db/target_ingestion.py:69-97 | a paper that is new or starts over can be claimed at once, at the version and configuration asked for, with no attempt counted and at the better priority |
| `TargetCalls.EnqueueUrges` | scholight/db/target_ingestion.py:76-90 | a request for what the job already is makes it more urgent if it can, and touches neither its lease nor its attempts |
| `TargetCalls.RecordAccepted` | scholight/db/fulltext_install.py:62-105 | a stage is accepted exactly under the manifest on record, and completion exactly with the content on record |
| `TargetCalls.CompletedCanFinish` | scholight/db/fulltext_install.py:80-105 | the holder that has recorded the completed installation of its job can finish it |
| `TargetCalls.CompletedOnce` | scholight/db/fulltext_install.py:62-105 | over any run a version is never completed again with another content or under another manifest |
| `TargetStore.Store.EnqueuePaper` | scholight/db/target_ingestion.py:69-97 | the upsert agrees with the promotion rule and keeps the invariants |
| `TargetStore.Store.ClaimNext` | scholight/db/target_ingestion.py:99-141 | the claim buries, selects, leases and counts exactly as specified and keeps the invariants |
| `TargetStore.Store.FirstInLine` | scholight/db/target_ingestion.py:119-130 | the scan returns the unique first claimable job |
| `TargetStore.Store.RenewLease` | scholight/db/target_ingestion.py:143-152 | renews exactly a live lease held by the caller |
| `TargetStore.Store.ReleaseJob` | scholight/db/target_ingestion.py:154-163 | releases exactly a job held by the caller, attempt refunded |
| `TargetStore.Store.CompleteJob` | scholight/db/target_ingestion.py:165-177 | completes exactly a held job with its receipt |
| `TargetStore.Store.FailJob` | scholight/db/target_ingestion.py:179-195 | fails exactly a held job as its transition does: `FailedRetries`, `FailedDies` and `FailedForGood` say what that comes to |
| `TargetStore.Store.RetryDead` | scholight/db/target_ingestion.py:205-213 | revives exactly a dead job |
| `TargetStore.Store.RecordInstall` | scholight/db/fulltext_install.py:62-105 | records a stage and, at the last, the receipt, only under the live lease for that version and configuration |
| `TargetStore.Store.RecordScope` | scholight/db/target_ingestion.py:215-223 | records a batch as the ledger prescribes |
| `TargetStore.Store.SelectRows` | scholight/db/target_ingestion.py:252-264 | selects matching rows, longest known first, all of them if they fit |
| `TargetStore.Store.ResumeScope` | scholight/db/target_ingestion.py:248-278 | one applied pass: with no stuck row, as many rows stop matching as were matched |
| `TargetStore.Store.DrainScope` | scholight/db/target_adoption.py:114-117 | the loop ends with nothing left to match when no row is stuck |
| `MetadataSync.CrashThenReplay` | scholight/scheduler/metadata_sync.py:149-158 | a crashed batch that is replayed leaves the ledger one clean pass would have left |
| `MetadataSync.PartThenReplay` | scholight/store/ingestion.py:96-176 | a batch of distinct papers that dies with any part of it in the store, and is replayed, leaves the store and the ledger of one clean pass |
| `MetadataSync.BatchCovered` | scholight/scheduler/metadata_sync.py:116-130 | every paper of a recorded batch is in the store and in the ledger for that day |
| `MetadataSync.Sync.WriteBatch` | scholight/scheduler/metadata_sync.py:116-146 | the store holds the batch, or whatever part of it had landed when the process died; ledger and store only grow, and a batch reported written is stored, ledgered and, with a queue, enqueued in full: a paper without a job gets one that can be claimed at once, at its version and from its source |
| `MetadataSync.Sync.EnqueueBatch` | scholight/scheduler/metadata_sync.py:131-146 | it succeeds exactly if the budget covers the batch and no paper has an inexact version; then every paper has a job at the version of its outcome or a later one, claimable at once unless it was up to date, a new one says where it comes from, and no other job changes; jobs stay within their scope |
| `MetadataSync.Sync.SyncDay` | scholight/scheduler/metadata_sync.py:149-158 | a day is done exactly if the process lives through two effects for each batch and one for each paper enqueued, and no paper to be enqueued has an inexact version; then all its papers are stored, ledgered and, with a queue, enqueued |
| `MetadataSync.Sync.TryDay` | scholight/scheduler/metadata_sync.py:189-239 | a day is passed exactly if a complete listing answers, its papers can all be written and enqueued, and the process lives to move the cursor; it is passed on the first such listing, never on the submission-date one |
| `MetadataSync.Sync.Work` | scholight/cli/scheduler.py:155-192 | whatever is done to the queue meanwhile, enqueueing by hand included, takes nothing from what was recorded; jobs stay within scope if only recorded versions are enqueued |
| `MetadataSync.Sync.MarkSucceeded` | scholight/db/queries_ingestion.py:184-208 | the cursor moves to the same or the next day, or from nowhere, and is refused otherwise |
| `MetadataSync.Sync.InitialCursor` | scholight/scheduler/metadata_sync.py:161-168 | the first cursor is the newest recent day with papers, or else the day before the window |
| `MetadataSync.Sync.RunSync` | scholight/scheduler/metadata_sync.py:189-239 | a run advances the cursor by exactly the days it completed and reports the next day as failed otherwise; the days completed are exactly those that could be passed, each on its complete listing; jobs stay within their scope if others only serve the queue |
| `MetadataSync.Sync.ManyRuns` | scholight/scheduler/metadata_sync.py:189-267 | however often it is killed and started again, and whatever is done to the queue between runs and days, the cursor once set never skips or goes back, and every day after its start was fetched from a complete listing, stored and ledgered and, with a queue, has its papers' jobs |
| `ReleaseModel.EnvKeeps` | scripts/release_admission.py:101-111 | nothing that happens between two calls takes a release off its course or back |
| `ReleaseModel.RestoredExactly` | scripts/release_admission.py:299-303 | the four stages end in exactly the reviewed parameters |
| `ReleaseModel.LegacyRestoresExactly` | scripts/release_admission.py:333-335 | a first-version journal ends in the reviewed parameters exactly if its one value is the reviewed one and the other product stays off |
| `AdmissionRelease.NextStep` | scripts/release_admission.py:113-126 | due overrides are in force already, name an unknown parameter, or are exactly the next of the four configurations |
| `AdmissionRelease.Controller.ChangeBackground` | scripts/release_admission.py:113-167 | stage by stage: overrides in force afterwards, plans that always fit, and the exact case of an unknown parameter |
| `AdmissionRelease.Controller.WaitAck` | scripts/release_admission.py:169-190 | afterwards the controller holds the registrations as they are and has said so within ninety seconds |
| `AdmissionRelease.Controller.ListTasks` | scripts/release_admission.py:193-199 | every product task alive afterwards was listed, although tasks stop between pages |
| `AdmissionRelease.Controller.DescribeTasks` | scripts/release_admission.py:200-209 | if no described task is unsettled, no product task is alive |
| `AdmissionRelease.Controller.WaitDrained` | scripts/release_admission.py:192-213 | a drained verdict means that no product task is alive and none can be launched |
| `AdmissionRelease.Controller.ApplyCandidate` | scripts/release_admission.py:215-283 | the candidate is in place afterwards; outside change, changed candidate and empty difference are never reported |
| `AdmissionRelease.Controller.Run` | scripts/release_admission.py:289-339 | every run, killed anywhere, moves only forward, rewrites no checkpoint, and on completion leaves the restored candidate; a dropped flag makes it unresumable in one window; with an empty journal and an unsettled stack it fails as unstable, or is killed, having changed nothing, and it fails so in no other case |
| `AdmissionRelease.Controller.RunAgain` | scripts/release_admission.py:289-339 | any number of runs, each killed where its script ends, move only forward: a completed release leaves exactly the reviewed parameters, an unknown parameter is only reported for a dropped flag, a stranded release fails or is killed every time with its journal unchanged, and one of an unsettled stack never begins |
| `ReleasePatience.UpdateTimesOut` | scripts/release_admission.py:101-111 | an update that was started is given up exactly if 180 looks all find it still in progress |
| `ReleasePatience.AcknowledgementTimesOut` | scripts/release_admission.py:169-190 | the acknowledgement is given up exactly if sixty looks pass without a report, at most ninety seconds old, of the registrations as they were |
| `ReleasePatience.DrainTimesOut` | scripts/release_admission.py:192-213 | the drain is given up only after both task lists were read through a hundred and twenty times |
| `AdmissionRelease.OneOfFour` | scripts/release_admission.py:54-60 | at every moment the stack has one of the four configurations, and no flag is on from pause to restoration |
| `AdmissionRelease.NobodyWorksUnderTheCandidate` | scripts/release_admission.py:316-322 | no product task is alive while the candidate is being applied or waits to be restored |
| `ReleaseEnding.CompletesExactly` | scripts/release_admission.py:113-126 | at any moment of a release, killed or not and with or without an update in progress, some sequence of runs completes it exactly if the stack still has every flag to be paused or the replacement of the runtime is recorded |
| `ReleaseEnding.ResumableCompletes` | scripts/release_admission.py:289-339 | a release whose candidate drops no flag can be completed from every moment of it |
| `ReleaseEnding.ResumableRelease` | scripts/release_admission.py:289-339 | the controller run any number of times on such a release never reports an unknown parameter, and completion stays possible after every run |
| `ReleaseEnding.FreshCompletes` | scripts/release_admission.py:295-313 | a release of a stable stack can be completed, whatever its candidate |
| `ReleaseEnding.CalmRunCompletes` | scripts/release_admission.py:289-339 | one run in which the updates succeed and the controller answers completes a release from wherever it stands |
| `ReleaseEnding.StuckForever` | scripts/release_admission.py:316-318 | while the runtime is not recorded and a flag to be paused is gone, every later run fails or is killed and the journal stays as it is |
| `ReleaseEnding.DroppedFlagStrands` | scripts/release_admission.py:316-322 | any release whose candidate drops a product flag has a first run, killed between the update and its checkpoint, after which no run completes it |
| `ReleaseEnding.AnyDropCanStrand` | scripts/release_admission.py:316-322 | the same from any stable stack, whatever its tasks, change sets and clock |
| `ReleaseEnding.DroppedFlagExample` | scripts/release_admission.py:123-124 | a written-out state and script of nineteen calls that end so |
| `ReleaseEnding.StrandedRelease` | scripts/release_admission.py:289-339 | the controller started on that state and script is interrupted, and every later run of it fails or is killed |
| `LikePattern.ReplacesQuote` | scholight/db/queries_history.py:51-53 | the three replacements in sequence equal one escape per character |
| `LikePattern.FindsSubstrings` | scholight/db/queries_history.py:15-19 | the ILIKE filter with the escaped pattern holds exactly for texts containing the query, letter case aside |
| `LikePattern.PatternMatches` | scholight/db/queries_history.py:51-53 | LIKE with the escaped pattern holds exactly for texts containing the query |
| `LikePattern.PatternAccepted` | scholight/db/queries_history.py:51-53 | the pattern never ends in a dangling escape |

## Left out

- SQL, connection pools, logging, metrics, HTTP and MCP adapters, authentication, command line parsing: not protocol content.
- Lock order and deadlock freedom.
- The missing-usage-row error of the aggregate lock is not a branch of the transitions; `ReservationStands` shows it cannot occur.
- The application clock and the database clock are one clock.
- The cascade order of foreign keys: deleting a Survey removes its rows at once, in whichever order the database would.
- Deletion of a whole user account, and its effect on reservations.
- Titles, error messages, heartbeat and progress timestamps, progress stages, exit codes, memory and failure diagnostics.
- The distinction between an owned and a cancel-requested heartbeat reply, which the caller reads from the same row.
- Resource profiles and task definitions of attempts, and the unique task ARN index; the controller's decision whether a stop is retryable is a parameter.
- Legacy claims by worker id (`claim_survey_job`, `claim_survey_draft`, `heartbeat_survey_job`): with them an expired lease can be revived, and capacity is not an invariant. The claim order of `claim_survey_draft` is modelled in `FairQueue`.
- Manifest key syntax: a manifest is a primary key or a recovery overlay of one user and job, or foreign; artifact checks happen before the transaction and are not part of this model.
- The mailer: only whether a completion mail is being sent.
- SurveyStore.Store.ReserveNext: the transaction with nothing between its steps; `FetchCandidates` and `ReserveLocked` are its steps when others come between.
- SurveyEnding.EndsExactly: leaves one case open, in which only a reserving transaction that began before the deadline and has not got the capacity lock yet could still list the job. Whether it gets to it depends on the other jobs past their deadlines that it lists ahead of it.
- A deleted Survey is told from a later one under the same number by its place among the create calls, which random identifiers provide.
- The clock of a transaction stands where it began. This is modelled for reserving transactions, which wait for a lock; for all others the time between their start and their first lock is not.
- SurveyStore.Store.StartSurvey: requires the invariants, because only they make the newest ready Draft unique.
- SurveyStore.Store.RecoverExpiredJobs: requires the invariants, under which no row of the sweep fails and the batch is never rolled back.
- Unique owner tokens stand for the random suffix of a claim; their collision is not modelled.
- TargetStore.Store.RecordInstall: the guard and the write that follows it are one step; `TargetQueue.DoRecord` lets the write happen at any time, and receipts stay immutable and sufficient all the same.
- TargetStarvation.FairTurnBound: for a job available before now, retries that lie in the future, and no re-enqueueing of the job itself.
- Target registration, baseline verification and the plan and proof files of an adoption; seeding scope from two ledgers is covered by `Ledger.UpsertSwap` and `Ledger.OnlyTheSetMatters`.
- The legacy queue without a destination, its reconciliation of missing chunks and its deferred-ledger clean-up.
- MetadataSync.Sync.RunSync: normalization, embedding and field enrichment of papers are one effect that may fail; two synchronizations never overlap, which the advisory lock provides.
- MetadataSync.PartThenReplay: every paper occurs once in the batch; a batch that holds two versions of one paper is not covered.
- Other processes that change the runtime stack during a release: the guard against them is shown never to fire without one.
- AdmissionRelease.Controller.ChangeBackground: waiting for a change set to be created, the resource guard on its contents and console output are not modelled; creation succeeds or finds no change.
- ReleaseEnding.CompletesExactly: somebody may have to delete a broken or failed change set; until then runs fail as not executable. A first-version journal is covered when the one flag it records is a parameter of the candidate; otherwise the last stage is refused, as the contract of `AdmissionRelease.Controller.RestoreFlags` says.
- ReleaseEnding.ResumableCompletes: the same help with a broken or failed change set.
- AdmissionRelease.Controller.ListTasks: a listing is a fixed number of pages, each reporting its tasks as they are when it is read.
- Search itself, ranking, embeddings, document conversion, search quotas, clean-up and mail outboxes, and usage cursors.
- Case folding is any character map that keeps the percent sign, the underscore and the backslash apart from all other characters; folds that change the length of a text are not modelled.
