# Rank-and-rent operations, verified models

Dafny models of the parts of the `rank_rent` service whose guarantees have to hold over whole runs, with
proofs. `dafny verify dfyconfig.toml` checks all of it.

## What is modelled

**The lead-delivery protocol** (`Delivery*.dfy`). A durable job queue with leases. Any number of workers claim
deliveries, commit an attempt, call a provider, and record the outcome, while heartbeats extend leases, a
recovery pass takes stale leases back, leads are deleted, assignments change and workers crash.

- `DeliveryTypes` holds the rows, `DeliveryProtocol` the transactions as functions on the whole system.
- `DeliveryInvariant` and `DeliverySafety` hold the inductive invariant and its proof, action by action.
- `DeliveryColumns` says of each transaction what it leaves in the columns, without the functions that define it.
- `DeliveryRuns`, `DeliveryLeads` and `DeliveryTiming` hold the theorems about whole runs.
- `DeliveryWorker` is the worker and the privacy service as they are written: a class whose methods update the
  stored rows in place, each proved to take exactly one step of the protocol.
- `DeliveryOutcome` runs that class with the fixture adapter to the end.

**The review side**: `Reviews` (versioned state machine with its history), `Overrides` (apply/revert log and its two
views), `Batches` (create, confirm and queue), `BatchRuns` (the cost chain over whole runs, while opportunities move,
scans come and go and templates are edited).

**Around the protocol**: `Assignments` (provider life cycle and hand-over), `Submission` (idempotency and the
duplicate window under concurrent submitters), `RateLimiter` (the sliding window).

**Algorithms**: `Pearson`, `Report` (calibration totals and segments), `Slug`, `Columns`.

## Assumptions

- Every committed database transaction is one atomic step and transactions are serialisable. The two transactions of
  `run_delivery_by_id` read their rows without a lock, so the delivery theorems lean on this assumption. An operation
  that raises leaves the state as it was.
- `Submission` does without that assumption: the key lookup, the checks and the insert of one submission are separate
  steps with others in between, as they are when the database isolates transactions less strictly. Only the unique
  key is enforced by the database.
- `run_delivery_by_id` is four steps: start, call begins, call returns, finish. Heartbeats, recovery, deletions and
  other workers come in between in any order. The ids a worker tries to claim may come from an out-of-date read.
- The clock never goes back. A transaction may carry any time up to the current one; where a theorem needs that the
  heartbeats of one worker carry times in order, it says so. Recovery takes any subset of the
  stale rows, because locked rows are skipped.
- A lease token is a position in the log of leases ever issued, so tokens are fresh by construction. The provider's
  answer is arbitrary. Completeness of approval evidence is a boolean that comes with the request.
- Money is an integer of ten-thousandths of a dollar, statistics are over `real`; the square root inside the
  coefficient is the number it must be.
- In `BatchRuns`, scans outside batches may be started at any time, and any scan may change to any status at any time.
- History variables, which decide nothing: `System.alerts`, `Job.calls`, `Attempt.token`, `Review.complete`,
  `Book.replaced`, `Store.answers`, `Lead.origin` in `Submission`, and the limiter's `history`, `floor` and `clock`.
  `System.issued` is the log of leases; only its length is read, to number the next one.

## Findings

- A recovery pass that leaves a lead with no open and no delivered delivery stores `delivery_failed` but raises no
  alert, since it drops what `_refresh_lead_state` returns (`worker.py:168`). `RecoveryFailsExactly` says before the pass
  when that happens, `FailsSilently` is a run in which it does.
- Submitters of one key do not all get the same lead. A submission answered as a duplicate never takes up its own key
  (`services.py:409`), so the key may go in later: `DuplicateLeavesKeyFree` is such a run, one submission at a time. A
  deletion frees the key as well: `DeletionFreesKey`. `HolderNamedExactly` says which steps keep every answer about a key
  on the lead that has it, `CheckNamesHolderExactly` what can be seen of it before a check, and `OneLeadPerKey` what
  follows for a run.
- With others between its check and its insert, two leads of one subject can be stored within the window.
  `StaleChecksLetBothIn` is such a run, `InsertSeparates` and `CheckSeparates` say when an insert is safe.
- An opportunity can have two active scans. A scan request (`main.py:1723`) and a retry (`main.py:1653`) queue theirs
  without looking for an active scan of the opportunity: `TwoRequestsTwoScans`. A promotion does look
  (`main.py:1271-1281`), but the worker sets a failed scan back to queued without looking (`scan_worker.py:586`):
  `FailedScanReturns`. `OneActiveExactly` says which steps keep one active scan per opportunity; queueing a batch always
  does, and `QueueAddsNoSecond` holds even where there are two already.
- After evidence is rewritten under an active override, reversing it leaves a log whose replay is not the evidence.
  `RewrittenUnderneath` is such a log, `ReplayGivesActive` says exactly when the replay gives the evidence back.
- A limiter called with a wider window after a narrower one has forgotten the events in between.
  `WiderWindowForgets` says exactly when the count is still right, `WiderWindowAdmitsTooMany` makes three such calls.
- `slugify` is not idempotent on all text: the lower case of U+0130 holds a combining dot, which is not alphanumeric.
  `IdempotentExactly` gives the condition, `DottedNotIdempotent` the example.

## Model

| member | source | states |
|---|---|---|
| DeliverySafety.StepKeeps | src/rank_rent/lead_routing/worker.py:62-347 | every transaction, by any worker, recovery pass, submission or deletion, keeps the invariant of the whole system |
| DeliverySafety.InitialInv | src/rank_rent/lead_routing/worker.py:350-389 | the empty system satisfies the invariant |
| DeliverySafety.RecoverKeeps | src/rank_rent/lead_routing/worker.py:116-171 | a recovery pass over any subset of the stale rows keeps the invariant |
| DeliverySafety.DeleteKeeps | src/rank_rent/lead_routing/privacy.py:194-236 | deleting a lead keeps the invariant even while workers hold or call its deliveries |
| DeliverySafety.EngagedAlone | src/rank_rent/lead_routing/worker.py:223-250 | past its first transaction, a worker shares its delivery with no other worker past theirs |
| DeliveryRuns.RunInv | src/rank_rent/lead_routing/worker.py:62-347 | the invariant holds in every reachable state |
| DeliveryRuns.StepMoves | src/rank_rent/lead_routing/worker.py:62-347 | what one transaction can do to one delivery: extend its call log, pay for a status change with its rank, lose but never regain a lease, keep lease and heartbeat clocks aligned |
| DeliveryRuns.ContactAtMostOnce | src/rank_rent/lead_routing/worker.py:223-283 | when a call begins no other worker is in contact for that delivery, and every earlier call came back with a transient failure that its owner recorded |
| DeliveryRuns.FinalCallIsLast | src/rank_rent/lead_routing/worker.py:283-345 | no call follows one that was accepted, rejected or never recorded, however long the run |
| DeliveryRuns.RunExtends | src/rank_rent/lead_routing/worker.py:252-281 | the calls made so far stay a prefix of the calls made later, and recorded outcomes are never rewritten |
| DeliveryRuns.AttemptLedger | src/rank_rent/lead_routing/worker.py:223-250 | attempts are numbered 1..attempt_count, at most max_attempts, all but the last retryable failures; running, succeeded and unknown attempts mirror the delivery's status; claimable or leased leaves an attempt to spend |
| DeliveryRuns.AttemptIsFound | src/rank_rent/lead_routing/worker.py:287-294 | the "attempt not found" return of the last transaction is unreachable |
| DeliveryRuns.BoundedWork | src/rank_rent/lead_routing/worker.py:460-491 | a delivery changes status at most 3 times max_attempts plus twice the leases lost before contact, over any run |
| DeliveryRuns.RankPays | src/rank_rent/lead_routing/worker.py:161-168 | the rank of a delivery falls with every status change except recovery of a merely leased row |
| DeliveryLeads.StoredStatusIsDerived | src/rank_rent/lead_routing/worker.py:516-546 | in every reachable state the stored lead status is deleted with no open delivery, spam with no delivery, or says exactly which statuses its deliveries have: one open; one delivered and none open; none of either |
| DeliveryLeads.LeadStatusSticks | src/rank_rent/lead_routing/privacy.py:194-236 | deleted is absorbing, also for a worker that returns from a call later; a settled lead changes only by deletion, and until then events are only added |
| DeliveryLeads.AlertExactlyWhen | src/rank_rent/lead_routing/worker.py:494-513 | a transaction alerts a lead exactly when it is a worker's own and turns the lead from routing to failed |
| DeliveryLeads.RecoveryFailsExactly | src/rank_rent/lead_routing/worker.py:138-171 | a recovery pass fails a lead, and alerts nobody, exactly when nothing of it is delivered and all its open deliveries are among the rows taken and lost during their calls |
| DeliveryLeads.FailsSilently | src/rank_rent/lead_routing/worker.py:168-168 | a run from the empty database at whose end recovery has failed a lead and nobody is alerted |
| DeliveryLeads.ContactIsChecked | src/rank_rent/lead_routing/worker.py:190-250 | in every run a worker is let on to the provider exactly when its lease holds, the assignment is active and the lead's, the planned adapter is there, and the present destination masks to the one on the row |
| DeliveryLeads.AlertedOnce | src/rank_rent/lead_routing/worker.py:494-546 | no lead is alerted twice in a run, none with a delivered or open delivery is alerted |
| DeliveryLeads.OutcomeEventsOnce | src/rank_rent/lead_routing/worker.py:549-576 | each outcome event is stored at most once, and which one is there says how the lead's deliveries ended |
| DeliveryLeads.TokensUnique | src/rank_rent/lead_routing/worker.py:84-113 | no two rows carry the same lease token |
| DeliveryLeads.LeaseFieldsExact | src/rank_rent/lead_routing/worker.py:614-619 | the lease columns are set exactly in leased and delivering |
| DeliveryLeads.LostLeaseStaysLost | src/rank_rent/lead_routing/worker.py:606-611 | a lease that no longer owns its row never owns it again |
| DeliveryLeads.StaleWorkerIsHarmless | src/rank_rent/lead_routing/worker.py:190-194 | start, heartbeat and finish by a worker whose lease was taken change no table and alert nobody |
| DeliveryLeads.FreshHeartbeatIsSafe | src/rank_rent/lead_routing/worker.py:123-137 | with the loop's settings a row is stale exactly when its last heartbeat is older than the allowance, so recovery never takes a younger one |
| DeliveryLeads.RetryDelayShape | src/rank_rent/lead_routing/worker.py:460-491 | retry delays are positive, capped, nondecreasing in the attempts made, and start at the base |
| DeliveryTiming.DelaysDouble | src/rank_rent/lead_routing/worker.py:482-486 | the first delay is the base, each further one twice the one before, until the maximum |
| DeliveryTiming.RequeueSetsTime | src/rank_rent/lead_routing/worker.py:460-491 | a transient failure recorded with attempts left makes the delivery due after the delay for its number of attempts |
| DeliveryTiming.NotBeforeDue | src/rank_rent/lead_routing/worker.py:84-96 | in every run a requeued row stays as written until a claim at its due time or later, or the deletion of its lead; earlier claims do nothing to it |
| DeliveryTiming.NoContactBeforeDue | src/rank_rent/lead_routing/worker.py:84-96 | in every run no provider call for a requeued delivery begins before a claim at its due time or later, or the deletion of its lead |
| DeliveryTiming.HeartbeatProtects | src/rank_rent/lead_routing/worker.py:429-457 | in every run, while a lease that was beaten still holds and its worker's heartbeats carry times in order, no recovery within the allowances of the beat takes its row |
| DeliveryTiming.TokenDecides | src/rank_rent/lead_routing/worker.py:606-611 | in every reachable state a worker's lease holds exactly when its token is the one on the row |
| DeliveryWorker.DeliveryStore.ClaimNextDelivery | src/rank_rent/lead_routing/worker.py:62-113 | leases a listed row that is pending or retrying and has no due time or one not after the claim, under a fresh token; claims none exactly when no listed row is like that; from a fresh selection it is an oldest due row |
| DeliveryColumns.ClaimWrites | src/rank_rent/lead_routing/worker.py:84-113 | the columns a claim sets, on exactly the rows that are due |
| DeliveryWorker.DeliveryStore.RecoverStaleDeliveries | src/rank_rent/lead_routing/worker.py:116-171 | the row-by-row loop, refreshing the lead after each row, equals taking all rows at once and refreshing each lead once |
| DeliveryWorker.RecoverOneMore | src/rank_rent/lead_routing/worker.py:138-171 | an intermediate lead refresh inside a recovery pass makes no difference to the result |
| DeliveryColumns.RecoverWrites | src/rank_rent/lead_routing/worker.py:138-171 | a row lost during its call is closed as unknown with its attempt, one lost before it is due again at once, no other row changes |
| DeliveryWorker.DeliveryStore.StartDelivery | src/rank_rent/lead_routing/worker.py:190-250 | the first transaction is the start step, and says whom to alert |
| DeliveryColumns.StartWrites | src/rank_rent/lead_routing/worker.py:190-250 | what the first transaction leaves: one more running attempt, a failed row with the reason, or nothing where the lease is gone |
| DeliveryColumns.ErrorNamesFirstFailure | src/rank_rent/lead_routing/worker.py:195-214 | each reason is given exactly when its check is the first to fail |
| DeliveryColumns.MaskedAddress | src/rank_rent/lead_routing/privacy.py:75-80 | a masked address keeps its first letter and the domain |
| DeliveryColumns.MaskedNumber | src/rank_rent/lead_routing/privacy.py:75-80 | a masked number shows its last four digits |
| DeliveryWorker.DeliveryStore.HeartbeatDelivery | src/rank_rent/lead_routing/worker.py:429-457 | where the worker still owns the lease, sets the row's heartbeat to now and its expiry a lease later and changes nothing else; otherwise changes nothing and tells it to stop |
| DeliveryWorker.DeliveryStore.FinishDelivery | src/rank_rent/lead_routing/worker.py:283-347 | the last transaction is the finish step for each kind of provider reply, and returns exactly the alert it added |
| DeliveryColumns.FinishWrites | src/rank_rent/lead_routing/worker.py:283-345 | the reply goes to the row and to its last attempt if the lease still holds, and no other row changes |
| DeliveryColumns.ReplyWrites | src/rank_rent/lead_routing/worker.py:297-345 | the columns of the row after each kind of reply, with attempts left or not |
| DeliveryColumns.AttemptWrites | src/rank_rent/lead_routing/worker.py:297-345 | the columns of the attempt after each kind of reply |
| DeliveryWorker.DeliveryStore.RetryOrFail | src/rank_rent/lead_routing/worker.py:460-491 | a transient failure requeues with backoff while attempts remain and otherwise fails the delivery as exhausted, returning exactly the alert it added |
| DeliveryWorker.DeliveryStore.FailDelivery | src/rank_rent/lead_routing/worker.py:494-513 | fails the row, refreshes the lead, and alerts exactly when the lead has just failed |
| DeliveryWorker.DeliveryStore.RefreshLeadState | src/rank_rent/lead_routing/worker.py:516-546 | overwrites the stored status with the one its deliveries derive, adds its outcome event, and reports a failure |
| DeliverySafety.OpenLeadRoutes | src/rank_rent/lead_routing/worker.py:516-546 | a lead with an open delivery is routing: since every transaction that refreshes a lead does so for a delivery that was open, it never overwrites a deleted or spam status |
| DeliveryWorker.DeliveryStore.DeleteLead | src/rank_rent/lead_routing/privacy.py:158-166 | needs a privileged role, reports a missing lead, and otherwise takes the deletion step |
| DeliveryWorker.DeliveryStore.Anonymize | src/rank_rent/lead_routing/privacy.py:194-236 | overwrites lead, deliveries and events as the deletion step does, cancelling whatever is still open |
| DeliveryColumns.DeleteWrites | src/rank_rent/lead_routing/privacy.py:194-236 | the columns a deletion overwrites in the lead, its deliveries and its events, and that it changes no other row |
| DeliveryWorker.DeliveryStore.EnforceRetention | src/rank_rent/lead_routing/privacy.py:168-181 | deletes exactly the expired leads not yet deleted, once each, and touches no other row |
| DeliveryOutcome.FixtureDeliveryAdapter.Deliver | src/rank_rent/lead_routing/adapters.py:33-50 | raises on the first attempts of a key, then accepts, then repeats the stored result |
| DeliveryOutcome.RunRound | src/rank_rent/lead_routing/worker.py:174-347 | one undisturbed round claims, calls once and ends delivered, requeued or exhausted as the adapter and the attempts left decide |
| DeliveryOutcome.RunToCompletion | src/rank_rent/lead_routing/worker.py:350-389 | with an adapter failing its first k attempts and m allowed, the loop ends delivered after k + 1 attempts if k < m, otherwise failed after exactly m, with as many adapter calls |
| DeliveryOutcome.DeliverOne | src/rank_rent/lead_routing/worker.py:350-389 | the same from an empty database: one stored submission ends delivered after k + 1 attempts if k < m, otherwise failed after m |
| DeliveryWorker.DeliveryStore.StoreSubmission | src/rank_rent/lead_routing/services.py:425-484 | a committed submission adds its lead, form event and pending deliveries and keeps the invariant |
| DeliveryColumns.InsertWrites | src/rank_rent/lead_routing/services.py:425-484 | the rows a submission adds, and that it changes none |
| Reviews.HistoryIsFaithful | src/rank_rent/opportunity_review/services.py:183-302 | after any requests each history has versions 1..n, chained states, allowed moves and backed approvals, and replaying it rebuilds status, owner, version and approval time |
| Reviews.TransitionKeeps | src/rank_rent/opportunity_review/services.py:183-243 | one transition appends one row that keeps every history faithful |
| Reviews.OnlyFullReviewApproves | src/rank_rent/opportunity_review/services.py:71-150 | approval is reachable from full review and from no other state |
| Reviews.SourcesAgree | src/rank_rent/opportunity_review/services.py:71-150 | the table of targets of each state agrees with the table of sources of each state |
| Reviews.CanonicalStands | src/rank_rent/opportunity_review/services.py:62-160 | a stored name stands for its own state, or for the state its earlier-release name maps to, or for none |
| Reviews.MovedHas | src/rank_rent/opportunity_review/services.py:183-243 | what a transition leaves in the opportunity and in its row, column by column, or the first objection to it |
| Reviews.OneCommitPerVersion | src/rank_rent/opportunity_review/services.py:1220-1232 | of all requests expecting the same version of an opportunity at most one commits |
| Reviews.ApprovalIsBacked | src/rank_rent/opportunity_review/services.py:163-176 | whenever property work may go ahead, a non-system actor approved from full review on complete evidence and only the owner has changed since |
| Reviews.ArchivedIsFinal | src/rank_rent/opportunity_review/services.py:71-150 | no request moves an archived opportunity |
| Reviews.OpportunityReviewService.MoveTo | src/rank_rent/opportunity_review/services.py:183-243 | commits or refuses exactly as the ledger function says, leaves state, owner, version, approval time and row as requested, and names the first objection otherwise |
| Reviews.OpportunityReviewService.MoveBySystem | src/rank_rent/opportunity_review/services.py:245-274 | a pipeline move to the present state does nothing, any other is an ordinary transition by the pipeline |
| Reviews.OpportunityReviewService.SetOwner | src/rank_rent/opportunity_review/services.py:276-302 | a change of owner raises the version and keeps the state |
| Overrides.InForceIsLast | src/rank_rent/opportunity_review/services.py:1173-1201 | an override is in force exactly when it is the last of an odd number of rows about its evidence |
| Overrides.AtMostOneInForce | src/rank_rent/opportunity_review/services.py:330-378 | at most one override per piece of evidence is in force |
| Overrides.ReplayGivesActive | src/rank_rent/opportunity_review/services.py:330-421 | replaying the new values over the present evidence gives the value of the override in force; with none in force it gives the evidence back exactly when nothing was overridden or the evidence is still what the last application found |
| Overrides.RewrittenUnderneath | src/rank_rent/opportunity_review/services.py:400-415 | a log with nothing in force whose replay is not the rewritten evidence |
| Overrides.OverrideLog.ActiveOverride | src/rank_rent/opportunity_review/services.py:1173-1201 | the newest-first search finds the override in force, and finds none only when there is none |
| Overrides.OverrideLog.ApplyOverride | src/rank_rent/opportunity_review/services.py:330-378 | accepted exactly when the evidence as it is now exists and is as expected, the value changes it and none is active; then it is in force and records what it found |
| Overrides.OverrideLog.ReverseOverride | src/rank_rent/opportunity_review/services.py:380-421 | accepted exactly for an application of that opportunity not yet reversed; then nothing is in force and the replay gives what the application found |
| Overrides.OverrideLog.ListOverrides | src/rank_rent/opportunity_review/services.py:423-442 | lists each row of the opportunity once, in order, and its set-based flag agrees with being in force |
| Batches.EligibleAdmits | src/rank_rent/opportunity_review/services.py:549-575 | every state a batch may be planned from admits the transition the batch will ask for |
| BatchRuns.RunInv | src/rank_rent/opportunity_review/services.py:517-738 | in every run of plans, confirmations, queueings, moves of opportunities, scans and template edits, histories stay faithful and batches consistent |
| BatchRuns.CostChain | src/rank_rent/opportunity_review/services.py:517-738 | in every run each batch's item costs, as planned at its creation, add up to the stored estimate, at most the approved maximum, at most the budget, at most its template's budget at creation |
| BatchRuns.ApprovedAsAsked | src/rank_rent/opportunity_review/services.py:629-662 | in every run a batch's approved maximum is the amount of a confirmation of that batch while it was planned |
| Batches.TotalAdds | src/rank_rent/opportunity_review/services.py:667-671 | costs add up over two lists, and one item costs what it says |
| Batches.PlannableStates | src/rank_rent/opportunity_review/services.py:549-575 | the stored states, names of earlier releases included, from which an opportunity may go into a batch |
| Batches.PlannedIs | src/rank_rent/opportunity_review/services.py:619-625 | a planned opportunity is in testing_planned, one version on and otherwise unchanged |
| Batches.ApprovedIs | src/rank_rent/opportunity_review/services.py:650-660 | an approved opportunity is in full_scan_approved, one version on and otherwise unchanged |
| BatchRuns.QueuesOnce | src/rank_rent/opportunity_review/services.py:664-738 | in every run a batch that has been queued cannot be queued again |
| BatchRuns.QueueAddsNoSecond | src/rank_rent/opportunity_review/services.py:677-730 | in every run, whatever other scans do, queueing a batch leaves an opportunity's active scans alone or gives it its only one |
| BatchRuns.OneActiveExactly | src/rank_rent/main.py:1949-1985 | up to any point of a run no opportunity has had two active scans exactly when every scan started without looking, and every ended scan made active again, found none active |
| BatchRuns.StepKeepsOne | src/rank_rent/services/scan_worker.py:554-586 | one step keeps at most one active scan per opportunity exactly when it is no such start and no such return |
| BatchRuns.PutActive | src/rank_rent/services/scan_worker.py:586-586 | an active scan put in place of an inactive one, or of none, keeps one active scan per opportunity exactly when the opportunity had none |
| BatchRuns.TwoRequestsTwoScans | src/rank_rent/main.py:1949-1985 | a run with two scan requests for one opportunity after which both scans are active |
| BatchRuns.FailedScanReturns | src/rank_rent/services/scan_worker.py:359-370 | a run in which every start looks for active scans first and two are active nevertheless |
| Batches.QueuedScans | src/rank_rent/opportunity_review/services.py:692-730 | one new scan per item gives each item's opportunity its only active scan and leaves the active scans of every other opportunity as they were |
| Batches.PlanAllKeeps | src/rank_rent/opportunity_review/services.py:617-627 | from eligible states none of a testing plan's transitions is refused, and exactly the planned opportunities move |
| Batches.BatchPlanner.CreateBatchPlan | src/rank_rent/opportunity_review/services.py:517-627 | a plan with the asked profile, budget, opportunities and planned costs is stored exactly when the checks before the first write pass; a testing plan moves exactly its opportunities; a refusal changes nothing |
| Batches.BatchPlanner.ConfirmBatch | src/rank_rent/opportunity_review/services.py:629-662 | confirmed, with exactly the approved amount, from planned with an amount between estimate and budget and, for full scans, all items approvable; otherwise nothing changes |
| Batches.BatchPlanner.QueueBatch | src/rank_rent/opportunity_review/services.py:664-738 | queued exactly from confirmed with no queued or running scan on any item: one new queued scan per item at its cost, named in the item; reports the stored approved maximum; the cost error and the result's validator never fire |
| Batches.BatchPlanner.CheckQueueable | src/rank_rent/opportunity_review/services.py:664-691 | passes exactly for a queueable batch, with the estimate as planned cost; never fails on cost |
| Batches.BatchPlanner.OwnedTemplate | src/rank_rent/opportunity_review/services.py:1240-1252 | a template may be used exactly by its owner or an admin while it is active |
| Assignments.RunKeeps | src/rank_rent/lead_routing/services.py:152-217 | every run keeps the invariant and never again touches a terminated or replaced row |
| Assignments.EveryRun | src/rank_rent/lead_routing/services.py:70-77 | after any operations a property has at most one active assignment, and exactly the terminal rows have an end time and a reason |
| Assignments.SourcesAgree | src/rank_rent/lead_routing/services.py:70-77 | the table of targets of each status agrees with the table of sources of each status |
| Assignments.ReplaceHandsOver | src/rank_rent/lead_routing/services.py:189-217 | a replacement takes its property from exactly one active assignment to exactly one other and leaves other properties alone |
| Assignments.HandOverKeeps | src/rank_rent/lead_routing/services.py:189-217 | replacing keeps the invariant: a candidate's way through pilot to active cannot be refused once the old row is gone |
| Assignments.ChainNeverCycles | src/rank_rent/lead_routing/services.py:212-213 | following replaced_assignment_id from any row meets only replaced rows and never one twice |
| Assignments.ProviderOperations.Transition | src/rank_rent/lead_routing/services.py:152-188 | succeeds exactly when allowed, reasoned and not competing with another active row; stamps the first activation, and an end with the given reason and time, and changes no other column or row |
| Assignments.ProviderOperations.ReplaceAssignment | src/rank_rent/lead_routing/services.py:189-217 | succeeds exactly from an active row to another row of its property that may become active, with a reason; then the old row has ended for it and the new one is active and names the old; otherwise nothing changes |
| Assignments.ProviderOperations.ActiveAssignment | src/rank_rent/lead_routing/services.py:267-273 | finds an active row of the property exactly when there is one |
| Submission.StepKeeps | src/rank_rent/lead_routing/services.py:348-506 | every interleaving of lookups, checks, inserts, deletions and status changes keeps keys unique and the rows of each lead complete |
| Submission.SameKeySameLead | src/rank_rent/lead_routing/services.py:561-580 | submissions answered about the same key as new or replayed, so not as duplicates, name the one lead that has the key unless it was deleted, however they interleave |
| Submission.HolderNamedExactly | src/rank_rent/lead_routing/services.py:348-506 | up to any point of a run all answers about a key, duplicates included, have named the lead that has it exactly when no check answered with another key's lead and no lead answered about lost its key |
| Submission.StepNamesHolder | src/rank_rent/lead_routing/services.py:348-580 | one step keeps all answers about a key on the lead that has it exactly when it is no such check and no such deletion |
| Submission.CheckNamesHolderExactly | src/rank_rent/lead_routing/services.py:400-416 | whatever duplicate a check comes up with has the form's key exactly when all duplicates on file have it; with the key still free, exactly when there is none |
| Submission.DeleteNamesHolder | src/rank_rent/lead_routing/privacy.py:194-211 | a deletion keeps all answers about a key on the lead that has it exactly when the lead deleted is not one that was answered about under that key |
| Submission.DeleteWipes | src/rank_rent/lead_routing/privacy.py:194-211 | a deleted lead is marked so, gives up key and subject and keeps the rest; no other lead changes |
| Submission.OneLeadPerKey | src/rank_rent/lead_routing/services.py:348-580 | where those guards hold before every step, all answers about a key name one and the same lead, the only one that has the key |
| Submission.DuplicateLeavesKeyFree | src/rank_rent/lead_routing/services.py:409-415 | three submissions one after the other, two of them with one key, that are answered with two different live leads |
| Submission.DeletionFreesKey | src/rank_rent/lead_routing/privacy.py:206-206 | a run in which a deleted lead's key goes in again as another lead |
| Submission.RowsOfALead | src/rank_rent/lead_routing/services.py:425-482 | each lead has one consent, one assessment and one form event, and, unless it was blocked as spam, exactly one delivery for each channel on which its assignment has a destination and an adapter |
| Submission.BeatenFindsWinner | src/rank_rent/lead_routing/services.py:561-580 | a submission whose insert was refused was beaten by some lead, and finds that lead unless it is deleted first |
| Submission.RoutesExact | src/rank_rent/lead_routing/services.py:544-559 | the routable channels are those with a nonempty destination and an adapter, each once, email before phone |
| Submission.InsertSeparates | src/rank_rent/lead_routing/services.py:400-416 | an insert keeps leads of one subject more than the window apart exactly when none is within the window on either side |
| Submission.CheckSeparates | src/rank_rent/lead_routing/services.py:400-416 | the source's one-sided check, passing at insert time, is enough for any arrival order, and also needed when nothing later is on file |
| Submission.AtomicRunSeparates | src/rank_rent/lead_routing/services.py:400-416 | in every run whose checks directly precede their inserts, undeleted leads of one subject are more than the window apart |
| Submission.StaleChecksLetBothIn | src/rank_rent/lead_routing/services.py:400-416 | a concrete run with checks and inserts apart that stores two leads of one subject within the window |
| Submission.LeadRoutingService.Submit | src/rank_rent/lead_routing/services.py:348-506 | an undisturbed submission replays a known key whatever else is wrong, refuses in the order of the checks, answers a duplicate within the window, or inserts one lead with the form's columns and its status |
| Submission.LeadRoutingService.RoutableChannels | src/rank_rent/lead_routing/services.py:544-559 | the loop collects email before phone, those that can be reached |
| Submission.LeadRoutingService.Commit | src/rank_rent/lead_routing/services.py:425-484 | the lead and all rows beside it are written together, or none when the key is taken |
| Submission.LeadRoutingService.IdempotencyWinner | src/rank_rent/lead_routing/services.py:561-580 | answers with the lead that has the key now, or raises when there is none |
| RateLimiter.InMemoryRateLimiter.Allow | src/rank_rent/lead_routing/adapters.py:127-136 | under one window and a nondecreasing clock refuses exactly when the full accepted history has reached the limit within the window, and keeps every closed window within the limit |
| RateLimiter.InMemoryRateLimiter.Prune | src/rank_rent/lead_routing/adapters.py:131-132 | popping old heads leaves the events no older than the cutoff, one at the cutoff included |
| RateLimiter.AcceptKeepsCap | src/rank_rent/lead_routing/adapters.py:133-136 | accepting below the limit keeps every interval of the window's length within the limit |
| RateLimiter.WiderWindowForgets | src/rank_rent/lead_routing/adapters.py:129-132 | after pruning with another window the count is right exactly when no event lies between the two cutoffs |
| RateLimiter.WiderWindowAdmitsTooMany | src/rank_rent/lead_routing/adapters.py:127-136 | three calls with limit two and windows 10, 5 and 10 of which the last is accepted as the third event within its window |
| Pearson.CauchySchwarz | src/rank_rent/outcomes/services.py:545-556 | the squared numerator is at most the product of the two sums of squares, equal exactly for proportional deviations |
| Pearson.Bounded | src/rank_rent/outcomes/services.py:545-556 | the coefficient lies in [-1, 1], and its square is one exactly when some line goes through all the points |
| Pearson.EndsAreLines | src/rank_rent/outcomes/services.py:545-556 | the coefficient is 1 exactly when some rising line goes through all points, and -1 exactly when some falling one does |
| Pearson.DeviationsCancel | src/rank_rent/outcomes/services.py:550-551 | deviations from the centre add up to zero |
| Pearson.FromPlainSums | src/rank_rent/outcomes/services.py:550-554 | n times a sum of products of deviations is n times the sum of products less the product of the sums |
| Pearson.SumAdds | src/rank_rent/outcomes/services.py:550-554 | sums add up over two lists, and one number sums to itself |
| Pearson.DotAdds | src/rank_rent/outcomes/services.py:552-554 | sums of products add up over two lists, and one pair gives its product |
| Pearson.ProportionalIsLine | src/rank_rent/outcomes/services.py:545-556 | proportional deviations put all points on the line through the means |
| Pearson.UndefinedExactly | src/rank_rent/outcomes/services.py:546-556 | the result is None exactly with fewer than two pairs or when all x or all y are equal |
| Pearson.SwapInvariant | src/rank_rent/outcomes/services.py:545-556 | swapping the axes changes nothing |
| Pearson.UnitsInvariant | src/rank_rent/outcomes/services.py:545-556 | a positive change of scale and any change of origin in x change nothing |
| Slug.Slugify | src/rank_rent/domain/models.py:11-16 | the loop terminates and gives what a single pass over the text gives |
| Slug.TrimmedIsSlug | src/rank_rent/domain/models.py:11-16 | collapsing all runs of dashes and trimming the ends equals the single pass |
| Slug.HalveSameRuns | src/rank_rent/domain/models.py:14-15 | one whole-string replacement of double dashes leaves the same text up to the length of its runs of dashes |
| Slug.SlugShape | src/rank_rent/domain/models.py:11-16 | a slug has no doubled, leading or trailing dash |
| Slug.SlugLetters | src/rank_rent/domain/models.py:12-13 | apart from dashes a slug holds exactly the characters that the text's letters and digits lower to |
| Slug.IdempotentExactly | src/rank_rent/domain/models.py:11-16 | a slug is its own slug exactly when every letter of the text lowers to letters and digits |
| Slug.AsciiIdempotent | src/rank_rent/domain/models.py:11-16 | on ASCII text slugs are always their own slugs |
| Slug.DottedNotIdempotent | src/rank_rent/domain/models.py:12-12 | a character set that keeps to its rules and a text with U+0130 that fails the condition, whose slug has another slug |
| Columns.ColumnNumber | scripts/build_us_geography.py:592-597 | the loop gives the column named by the leading letters, and column A when there are none |
| Columns.NameThenColumn | scripts/build_us_geography.py:592-597 | every column number has a name that reads back as that number |
| Columns.ColumnThenName | scripts/build_us_geography.py:592-597 | every string of capital letters is the name of the column it denotes, so no two share one |
| Columns.SameOrder | scripts/build_us_geography.py:592-597 | columns are ordered as their names are, by length and then alphabetically |
| Columns.ReferenceReadsBack | scripts/build_us_geography.py:592-597 | a column's name followed by a row reads back as that column |
| Report.Generate | src/rank_rent/outcomes/services.py:266-406 | for every metric the total of each truth basis is the sum over the rows on it, in the period, of a decision on file; there is an item for exactly the decisions with such a row, holding its verified leads and won jobs; each segmentation groups the items by its own column and adds up to the property count and to the observed and operator-verified leads and won jobs |
| Report.SumAdds | src/rank_rent/outcomes/services.py:500-502 | sums add up over two lists, and one counted element adds its own value |
| Report.ItemsHold | src/rank_rent/outcomes/services.py:296-330 | each item belongs to a decision on file with a row and holds the observed and operator-verified leads and won jobs of its rows |
| Report.ItemsMissNone | src/rank_rent/outcomes/services.py:284-287 | every decision with a row has an item |
| Report.KeysPartition | src/rank_rent/outcomes/services.py:276-295 | adding up group by group over distinct keys counts each element with a listed key exactly once |
| Report.BasesPartition | src/rank_rent/outcomes/services.py:283-295 | the four truth bases share out the rows of known decisions |
| Report.SegmentsAddUp | src/rank_rent/outcomes/services.py:559-573 | segments add up to the number of items and to their leads and won jobs |
| Report.SegmentItems | src/rank_rent/outcomes/services.py:559-573 | one segment for each value of the column that occurs (service family, market size band or evidence quality), with the number, leads and won jobs of the items that have it |
| Report.Collect | src/rank_rent/outcomes/services.py:276-330 | visiting the decisions in turn gives one item per decision with rows, and totals holding each group's rows |
| Report.AddTotals | src/rank_rent/outcomes/services.py:500-502 | each of the nine metrics grows by the row's own column |
| Report.CountRow | src/rank_rent/outcomes/services.py:288-295 | a row goes into the totals of its own truth basis and no other |

## Left out

- Row locks, isolation levels and partial commits: covered by the serialisability assumption above.
- Contact data, hashes and message texts: they are overwritten or passed on but decide nothing; the duplicate hash is
  represented by property and subject.
- A delivery's `id` and `delivery_key`: both unique, one name stands for both.
- Digits of masked destinations: ASCII digits, where Python also accepts other decimal digits.
- The schedule of heartbeats and polling: any schedule is allowed, so nothing is claimed about timeliness.
- Sending of operator alerts: the decision to alert is modelled, the adapter call and its failures are not.
- Outcome and analytics rows of a lead: written and anonymised beside the protocol, they decide nothing in it.
- Approval completeness queries and evidence packets: one boolean of the transition request.
- Scan execution, planning, scoring, cost controls and the property workflow: their effects appear as inputs.
- Database constraints other than the unique submission key: the code's own checks are what is proved.
- Batches.BatchPlanner.CreateBatchPlan: takes the opportunity ids in ascending order, the order the query returns them in; duplicates are refused before it by the request's validator.
- Report.SegmentItems: lists segments in order of first occurrence, not sorted by key, and leaves out the average score, which is not a conserved figure.
- RateLimiter.InMemoryRateLimiter.Allow: the clock of successive calls is nondecreasing, which the source takes from the system clock.
- Pearson.Bounded: over the reals, so the rounding of floating point and the final `round` are not modelled.
- Labels of `_correlation`, growth rates, indexing days and positions of the report: functions of one row or one item.
- Template editing, discovery, routing profiles, call routing health and analytics recording: single inserts and updates.
- The audit log, HTTP handlers, command line, dashboard and local deployment.
