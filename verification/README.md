# Verified model of the PostgreSQL adapter

The backend keeps accounts, media, generation tasks, posts, export jobs, mail
challenges and diaries in PostgreSQL. Each public repository method is one
transaction: it locks rows, checks guards, and commits everything or nothing.
This project models those transactions and the domain rules they call, and proves
what they promise together: which account data is erased and when, who may still
write to a task, what a reader may be shown, what happens exactly once.

## How it is organised

A transaction is a function from the committed tables to the next tables or to the
error that rolls it back. A run is any sequence of such transactions, in any order
and with any instants, including failing ones. The guarantees are statements about
every run, proved through invariants that every transaction keeps. Where the
original works step by step, a class holds the tables and its methods write them
row by row, with loops and rollback; the contract of such a method is the
transaction function, so everything proved about runs holds of it.

| files | contents |
|---|---|
| `Base` | options, results, errors, sums over maps, ascending listings |
| `GenerationTask`, `GenerationCleanup` | domain rules of tasks, leases, settlements and cleanup requests |
| `GenerationRows`, `GenerationRowsInvariant`, `GenerationRowsProofs` | every transaction on the rows of one task, and what they keep |
| `Media` | the asset status machine, its deletions, consents and receipts |
| `GenerationStore` | all tables together, the cascades, account erasure, `Apply` and `Run` |
| `GenerationStoreInvariant`, `GenerationStoreProofs`, `GenerationStoreErasure`, `GenerationStoreAccounts`, `GenerationStoreSteps`, `GenerationRuns`, `GenerationAssets` | the two invariants (`Core`, `AccountsOk`), step by step and for every run |
| `GenerationGuarantees`, `GenerationQuota`, `GenerationAcceptance`, `GenerationSubmission`, `GenerationCompleteness`, `AccountErasure`, `LateIdentity` | the guarantees |
| `ExampleRuns`, `Counterexamples`, `Redelivery` | concrete runs that reach the states in which a promise fails |
| `GenerationRepository` | the same transactions as methods over mutable tables |
| `Finalization` | finalization under READ COMMITTED, statement by statement |
| `PostReview`, `PostReviewProofs`, `CommunityRepository` | post review |
| `Delivery`, `DeliveryRuns`, `HandlerCalls`, `DeliveryConsumer` | event handlers with receipts on the tables of `GenerationStore`; everybody else's transactions enter as any function that keeps a stated law, and all transactions of the store are shown to keep it |
| `DataExport`, `MailChallenge`, `DiaryOrdinals`, `Paging`, `LikeEscape` | one component each |

Identifiers, hashes, texts and keys are opaque natural numbers; instants are
microseconds, with 0 for the zero time. Clocks, fresh identifiers and the choice
among unlocked rows (`SKIP LOCKED`) are parameters.

## What does not hold

The code is modelled as it is. Where a promise fails, a lemma gives the exact
condition, and another one a run from the empty tables that reaches the failure:

- A status change by an administrator does not look at the current status, so it can
  reactivate or suspend an account whose deletion is pending; while it has that
  status every finalization is refused (`GenerationStoreSteps.SetStatusKeepsAccounts`,
  `AccountErasure.ReactivatedIsNeverErased`, `Counterexamples.ReactivationIsReached`).
- A provider identity that arrives late cannot be recorded on a revoked task that has
  an unpublished-output request: synchronization adds a provider target to that
  request, which may hold none, and the whole transaction is rolled back
  (`LateIdentity.LateIdentityBlockedIff`, `LateIdentity.LateAcceptanceBlockedIff`,
  `Counterexamples.LateIdentityIsReached`, `Counterexamples.KnownIdentityIsRefused`).
  The first run is one of the repository's interface: its own workers record such a
  version only for a task whose identity is known.
- A cleanup request reopened by a late identity between the recount and the commit of
  a finalization is overlooked (`Finalization.ErasesFinishedIff`,
  `Finalization.ReopeningIsOverlooked`).
- Cleanup requests made for a task or its source are not linked to the account
  deletion. They outlive the erasure, and one that lists a provider target can then
  never be claimed again (`AccountErasure.StrandedAfterErasure`,
  `Counterexamples.StrandedRequestIsReached`).
- A handler of media events looks the asset up before its receipt. When the deletion
  of an account's last asset erases the account in the same transaction, a redelivery
  of that record is refused on every attempt although its receipt is on file, and the
  consumer never passes its offset; so is the check of an asset whose owner was erased
  first (`HandlerCalls.RedeliveredIff`, `HandlerCalls.HandledIff`,
  `DeliveryConsumer.Consumer.Consume`, `Redelivery.RefusedRedeliveryIsReached`).
- A retry or duplicate is refused as unavailable for as long as an earlier success
  with its content under another key has lost its output row
  (`GenerationAcceptance.ReplayIff`, `Counterexamples.LostRetryIsReached`).
- A cancellation computes that a waiting task should come forward but does not store
  it (`GenerationGuarantees.CancelIsExactIff`, `Counterexamples.CanceledWaitIsReached`).
- Exhausted export jobs become failed only in a transaction that also hands out a job
  (`DataExport.ExhaustedFailsIff`, `DataExport.ExhaustedStaysIsReached`).
- Without a backoff, a mail lease could be handed out twice with the same value; the
  mail service always waits at least a minute (`MailChallenge.SameLeaseAgainIff`).

## Model

| member | source | states |
|---|---|---|
| `AccountErasure.NoDeletionIsForgotten` | backend/internal/adapter/postgres/account.go:344-397 | After every run that reactivates no closing account, a deletion that is still open belongs to a closed account and has an asset that is not deleted or a linked cleanup request that is not complete: whoever finishes last has finalized. |
| `AccountErasure.ErasureIsSafe` | backend/internal/adapter/postgres/account.go:354-386 | A user row disappears only through finalization, at a moment when the account is closing, every asset is deleted and every linked request is complete; the deletion request is completed in that same transaction. |
| `AccountErasure.EmptyAccountIsErased` | backend/internal/adapter/postgres/account.go:328-334 | An active account without assets and tasks is erased by the transaction that begins its deletion. |
| `AccountErasure.ErasureIsReached` | backend/internal/adapter/postgres/account.go:244-397 | A run of two transactions after which a registered user is erased: the guarantees about erasure speak of states that are reached. |
| `AccountErasure.NothingRemains` | backend/internal/adapter/postgres/account.go:367-396 | Once a deletion is complete no user row, asset, media deletion, task, hold, output, reconciliation record or linked cleanup request of the user is left. |
| `AccountErasure.ErasedOnce` | backend/internal/adapter/postgres/account.go:344-352 | A completed deletion is never changed again and its user never returns, whatever runs afterwards. |
| `AccountErasure.ClosedNeverAuthenticates` | backend/internal/adapter/postgres/account.go:156-172 | From the moment a deletion is requested no session authenticates its user, at any instant, after any run that does not reactivate the account. |
| `AccountErasure.BeginningCloses` | backend/internal/adapter/postgres/account.go:244-342 | Beginning a deletion closes the account in the same transaction (no session, every asset on its way out, every task revoked and covered by a linked request) and leaves something outstanding, or has erased the account already. |
| `AccountErasure.ReactivatedIsNeverErased` | backend/internal/adapter/postgres/account.go:354-365 | Once a closing account was reactivated, the finalization that would have erased it is refused. |
| `AccountErasure.StrandedAfterErasure` | backend/internal/adapter/postgres/generation_cleanup.go:561-675 | For a cleanup request left unlinked after the erasure of its task: claiming it hands it to a worker if and only if it lists no provider target and has an attempt left; with a provider target it leaves automatic retries for good, without one its stale last attempt is exhausted. |
| `LateIdentity.LateIdentityBlockedIff` | backend/internal/adapter/postgres/generation_worker.go:377-444 | A worker with the current lease and an identity the task may take records it if and only if the task is not revoked or has no unpublished-output request. |
| `LateIdentity.LateAcceptanceBlockedIff` | backend/internal/adapter/postgres/generation_reconciliation.go:94-157 | An administrator's late acceptance of an unknown submission is recorded under the same condition. |
| `LateIdentity.OrphanBlocksSync` | backend/internal/adapter/postgres/generation_cleanup.go:308-353 | Synchronizing a revoked task with its provider identity succeeds if and only if the task has no unpublished-output request. |
| `LateIdentity.OrphanListsNoProvider` | backend/internal/application/generation/cleanup.go:169-211 | A valid unpublished-output request lists no provider target. |
| `Counterexamples.LateIdentityIsReached` | backend/internal/adapter/postgres/generation_cleanup.go:308-353 | A run from the empty tables after which a worker with a live lease is refused the identity of its revoked task. |
| `Counterexamples.KnownIdentityIsRefused` | backend/internal/application/generation/result_worker.go:150-180 | A run from the empty tables after which presenting the known identity of a task once more is refused, because a version left behind was recorded before its owner revoked it. |
| `Counterexamples.StrandedRequestIsReached` | backend/internal/adapter/postgres/generation_cleanup.go:456-471 | A run from the empty tables that ends in an erasure and leaves a pending, never linked request with a provider target, which the first claim rejects. |
| `Counterexamples.ReactivationIsReached` | backend/internal/adapter/postgres/community_moderation.go:330-358 | A run from the empty tables after which a closing account is active again and the removal of its last asset is refused. |
| `Counterexamples.LostRetryIsReached` | backend/internal/adapter/postgres/generation.go:122-134 | Two runs from the empty tables: before the cleanup of a revoked result a retry of a later request with that content is answered, after it the same retry is refused. |
| `Counterexamples.CanceledWaitIsReached` | backend/internal/adapter/postgres/generation.go:431-433 | A run from the empty tables after which a cancellation stores a retry instant that the domain rule clears. |
| `GenerationStoreSteps.SetStatusKeepsAccounts` | backend/internal/adapter/postgres/community_moderation.go:330-358 | A successful status change keeps the closing-account invariant if and only if it does not give another status to an account whose deletion is pending. |
| `GenerationStoreSteps.ApplyKeepsAccounts` | backend/internal/adapter/postgres/account.go:244-397 | Every other transaction keeps it: a pending deletion has a closed account and something outstanding; a completed one has no user row. |
| `GenerationStoreSteps.ApplyKeepsCore` | backend/internal/adapter/postgres/generation_cleanup.go:150-759 | Every transaction over users, sessions, media, tasks, holds, outputs and cleanup requests keeps the core invariant. |
| `GenerationRuns.RunKeepsCore` | backend/internal/adapter/postgres/generation_cleanup.go:150-759 | The core invariant holds after every run of any transactions in any order, failing ones included. |
| `GenerationRuns.RunKeepsAccounts` | backend/internal/adapter/postgres/account.go:244-397 | The closing-account invariant holds after every run without a reactivation. |
| `GenerationRuns.RunLater` | backend/internal/adapter/postgres/generation_worker.go:464-491 | Of any two states of a run the later one follows from the earlier: no identifier is reused, row revisions and fencing tokens never go back, terminal and revoked stay so, completed deletions are final. |
| `GenerationStoreAccounts.BeginAccountDeletionKeeps` | backend/internal/adapter/postgres/account.go:244-342 | Closing an account keeps both invariants, for its own account and for every other one. |
| `GenerationStoreAccounts.CompleteDeletionKeeps` | backend/internal/adapter/postgres/media.go:592-620 | Finishing the removal of an asset keeps both invariants, erasing the account if it was the last item. |
| `GenerationStoreAccounts.CompleteCleanupKeeps` | backend/internal/adapter/postgres/generation_cleanup.go:677-720 | Finishing a cleanup request keeps both invariants, erasing the account if it was the last item. |
| `GenerationStoreErasure.EraseKeepsCore` | backend/internal/adapter/postgres/account.go:367-396 | Erasing one account leaves every other account, its tasks, lineage and links well formed. |
| `GenerationStoreErasure.ClosedTables` | backend/internal/adapter/postgres/account.go:263-334 | Closing revokes exactly the owner's tasks with linked requests, marks exactly the owner's remaining assets, and leaves all other rows as they were. |
| `Finalization.NoFinalizationIsLost` | backend/internal/adapter/postgres/account.go:344-397 | Under READ COMMITTED, for every interleaving of the statements of any number of finishers (own write, row lock, two counts, commit), with rollbacks and reopened requests: a deletion that is still pending has an item whose completion is not committed. |
| `Finalization.WithoutLockFinalizationIsLost` | backend/internal/adapter/postgres/account.go:346-352 | An execution from the start of an account, possible without the row lock, after which a deletion is pending with everything finished and nobody left to finalize it. |
| `Finalization.ErasesFinishedIff` | backend/internal/adapter/postgres/account.go:344-397 | In every execution from the start of an account, a commit that erases leaves nothing unfinished if and only if no complete request was reopened since that finisher recounted the linked requests; reopenings before the recount do no harm. |
| `Finalization.ReopeningIsOverlooked` | backend/internal/adapter/postgres/generation_cleanup.go:308-353 | An execution from the start of an account, under the row lock, in which a request reopened after the recount is overlooked by the erasing commit. |
| `GenerationGuarantees.RevocationIsClosed` | backend/internal/adapter/postgres/generation_cleanup.go:371-491 | In every reachable state an asset that is deleting or deleted has revoked every image task that references it, and a revoked image has revoked every model task built on its output. |
| `GenerationStoreProofs.DeleteKeepsCore` | backend/internal/adapter/postgres/media.go:277-349 | Deleting an asset keeps the core invariant (so the image tasks that reference it and the models built on them are revoked in that transaction), completes no cleanup request and requests no other asset's removal. |
| `GenerationStoreProofs.WithdrawKeepsCore` | backend/internal/adapter/postgres/media.go:156-187 | Withdrawing a consent keeps the core invariant, writes consents and task rows only, and completes no cleanup request. |
| `GenerationStoreProofs.AcceptKeepsCore` | backend/internal/adapter/postgres/generation.go:102-350 | No accepted task breaks the closure: its inputs are live assets of the owner, or an unrevoked published image. |
| `GenerationStoreProofs.PublishKeepsCore` | backend/internal/adapter/postgres/generation_settlement.go:36-89 | A publication keeps the core invariant (in particular no two tasks share a result) and completes no cleanup request. |
| `GenerationStoreProofs.EnsureSourcesKeep` | backend/internal/adapter/postgres/generation_cleanup.go:371-399 | The source cascade leaves every listed task revoked with a source request, revokes the models of every newly revoked image, and completes no request. |
| `GenerationRowsInvariant.EnsureKeeps` | backend/internal/adapter/postgres/generation_cleanup.go:190-260 | Ensuring a request leaves the task revoked with a request of the scope; the row invariant holds again (every owner request lists every known target, an unsubmitted canceled task is settled), no request becomes complete, and only the account link asked for is new. |
| `GenerationRowsInvariant.SyncKeeps` | backend/internal/adapter/postgres/generation_cleanup.go:308-353 | Synchronization restores the row invariant whatever was missing: every owner request of a revoked task lists the late provider identity and the output. |
| `GenerationRowsInvariant.AddTargetToRevokedKeeps` | backend/internal/adapter/postgres/generation_cleanup.go:112-144 | A target found after revocation is listed by every owner request. |
| `GenerationRowsInvariant.RecordOrphanKeeps` | backend/internal/adapter/postgres/generation_cleanup.go:85-110 | A version uploaded but never published is listed by the unpublished-output request, and the row invariant is kept. |
| `GenerationCleanup.AddTargetLists` | backend/internal/application/generation/cleanup.go:320-343 | A successful addition keeps the request well formed and lists the target, every target listed before, and no other. |
| `GenerationGuarantees.CleanupMissesNothing` | backend/internal/adapter/postgres/generation_cleanup.go:289-353 | In every reachable state a revoked task has an owner request, and each owner request lists the provider task once its identity is known and the output while its row exists. |
| `GenerationCompleteness.CompleteWasHandedOut` | backend/internal/adapter/postgres/generation_cleanup.go:561-759 | In every state of every run, the targets a complete request lists are exactly those that an earlier claim handed to the attempt that completed it. |
| `GenerationCompleteness.StepCompletes` | backend/internal/adapter/postgres/generation_cleanup.go:677-720 | No transaction completes a request that was not in progress in the same attempt with the same targets. |
| `GenerationCompleteness.StepHandsOut` | backend/internal/adapter/postgres/generation_cleanup.go:561-639 | A request that is complete or in progress after a step was so before, in the same attempt with the same targets, or was handed out by that step. |
| `GenerationRowsProofs.CompleteKeeps` | backend/internal/adapter/postgres/generation_cleanup.go:677-720 | Completing a claimed request keeps the row invariant and drops the output row unless the request was for an unpublished version. |
| `GenerationGuarantees.CommitNeedsCurrentLease` | backend/internal/adapter/postgres/generation_worker.go:398-454 | No transaction that presents a worker lease commits unless token and attempt are the row's current ones and, while the task is active, owner and expiry are too and the lease has not run out. |
| `GenerationGuarantees.SupersededNeverCommits` | backend/internal/adapter/postgres/generation_worker.go:446-454 | A worker whose lease was superseded never commits again, in this state or after any further run. |
| `GenerationGuarantees.AcquisitionSupersedes` | backend/internal/adapter/postgres/generation_worker.go:31-231 | Every acquisition supersedes all earlier leases of the task and succeeds only after the previous one ran out. |
| `GenerationGuarantees.TimeoutRespectsLease` | backend/internal/adapter/postgres/generation_timeout.go:41-108 | A timeout changes nothing while a worker lease is live, and otherwise leaves the overdue task expired and revoked. |
| `GenerationGuarantees.TimeoutQueuesVersions` | backend/internal/adapter/postgres/generation_timeout.go:84-103 | Every object version in the caller's inventory is listed for deletion by the requests of the expired task. |
| `GenerationTask.AcquireIsQuiet` | backend/internal/application/generation/lease.go:34-84 | An acquisition raises the token by one, grants the lease for the given time, only when no earlier lease is live, and changes nothing about settlement, revocation or identity. |
| `GenerationTask.MutateIsQuiet` | backend/internal/adapter/postgres/generation_worker.go:323-392 | Every leased change keeps the task valid and leaves token, settlement, revocation and result alone; only recording the provider identity changes it. |
| `GenerationGuarantees.CancelIsExactIff` | backend/internal/adapter/postgres/generation.go:406-457 | A cancellation that leaves the task active stores what the domain rule computed if and only if the task had no retry instant, and never brings a waiting task forward. |
| `GenerationGuarantees.SettlementIsAtomic` | backend/internal/adapter/postgres/generation_settlement.go:36-247 | In every reachable state hold, output and status agree: reserved exactly while active, consumed exactly on success; a readable success has exactly its own output, any other end has none. |
| `GenerationRowsInvariant.FinalizedTask` | backend/internal/application/generation/settlement.go:66-99 | A settlement without output writes a terminal task and its released hold together, and leaves no output row. |
| `GenerationRowsInvariant.PublishedTask` | backend/internal/application/generation/settlement.go:30-61 | A publication writes the succeeded task, its consumed hold and its output together; repeating it changes nothing. |
| `GenerationRowsProofs.OnTaskKeeps` | backend/internal/adapter/postgres/generation_worker.go:27-491 | Each of the fourteen transactions on one task keeps its rows well formed, publishes nothing, completes no cleanup, links nothing to an account, and revokes only a task without a result. |
| `GenerationRowsProofs.ReconcileKeeps` | backend/internal/adapter/postgres/generation_reconciliation.go:94-209 | An operator's decision keeps the row invariant and stays local to the task. |
| `GenerationRowsProofs.ReconciliationDecides` | backend/internal/adapter/postgres/generation_reconciliation.go:94-209 | Only an unknown submission at the expected revision can be decided: a late acceptance leaves the identity on an active, unleased task, a refusal a terminal task (canceled if it was stopped, failed otherwise) with its hold released; either way exactly one audit record is appended. |
| `GenerationSubmission.SubmissionsAreSeparated` | backend/internal/application/generation/model.go:387-515 | Between two submissions of one task, in any run, some step takes effect as a finding (by a worker or an operator) that turns the unknown submission into one not started. |
| `GenerationSubmission.AcceptedIsNeverResubmitted` | backend/internal/application/generation/model.go:392-430 | Once the provider identity of a task is known, no run begins another submission of it or changes the identity. |
| `GenerationSubmission.StartedIsHeld` | backend/internal/application/generation/model.go:392-515 | While no such finding takes effect a started submission stays started, in the same attempt, over any run; an accepted one does unconditionally. |
| `GenerationSubmission.MutateHolds` | backend/internal/adapter/postgres/generation_worker.go:332-392 | Of the leased changes only a finding returns a task to unsubmitted, and only an unsubmitted, unstopped task within its deadline begins a submission. |
| `GenerationSubmission.OtherWorkSame` | backend/internal/adapter/postgres/generation_worker.go:27-318 | Leases, settlements, timeouts, cancellations and cleanup leave the submission of the task alone. |
| `GenerationRowsProofs.ExpireKeeps` | backend/internal/adapter/postgres/generation_timeout.go:41-108 | A timeout keeps the row invariant. |
| `GenerationQuota.SettlementUsage` | backend/internal/adapter/postgres/generation.go:465-484 | A settlement moves the quota sum by nothing on success and by minus the task's units otherwise, frees one task slot and its budget. |
| `GenerationQuota.AcceptanceUsage` | backend/internal/adapter/postgres/generation.go:102-212 | Accepting a new task adds exactly its own cost and stays within the policy. |
| `GenerationQuota.QuotaNeverExceeded` | backend/internal/application/generation/admission.go:82-126 | However submissions, settlements, cancellations, revocations and erasures interleave, no owner holds more tasks, quota or budget for a purpose than the most generous policy of the run allows. |
| `GenerationAcceptance.OneTaskPerKey` | backend/internal/adapter/postgres/generation.go:116-147 | In every reachable state a client request (owner, purpose, idempotency key) has at most one task. |
| `GenerationAcceptance.RetriesAreFree` | backend/internal/application/generation/acceptance.go:89-127 | After a task was accepted and any further run, a retry of its request fails or changes nothing, and succeeds only with the same content and policy version. |
| `GenerationAcceptance.ReplayIff` | backend/internal/adapter/postgres/generation.go:122-140 | An active user's retry with the same content succeeds if and only if it is well formed and no earlier success with that content under another key lost its output row. |
| `GenerationRepository.Repository.BeginAccountDeletion` | backend/internal/adapter/postgres/account.go:244-342 | The step-by-step method commits exactly the closing transaction, or restores every table and reports its error. |
| `GenerationRepository.Repository.FinalizeAccountDeletionIfReady` | backend/internal/adapter/postgres/account.go:344-397 | The method erases exactly when nothing remains, and otherwise writes nothing. |
| `GenerationRepository.Repository.CompleteDeletion` | backend/internal/adapter/postgres/media.go:592-620 | The method writes the deleted asset, its receipt and, if it was the last item, the erasure; or restores every table. |
| `GenerationRepository.Repository.CompleteTaskCleanup` | backend/internal/adapter/postgres/generation_cleanup.go:677-720 | The method writes the complete request, drops the output and, if it was the last item, the erasure; or restores every table. |
| `GenerationRepository.Repository.DeleteMedia` | backend/internal/adapter/postgres/media.go:277-349 | The method revokes through the asset before it marks it, or restores every table; the refusal by posts and diaries is a parameter. |
| `GenerationRepository.Repository.RequestTaskCleanup` | backend/internal/adapter/postgres/generation_cleanup.go:150-188 | The method ensures the request and those of the dependent models, or restores every table. |
| `GenerationRepository.Repository.EnsureCleanupRow` | backend/internal/adapter/postgres/generation_cleanup.go:190-260 | Row by row the method writes what ensuring a request is specified to write. |
| `GenerationRepository.Repository.EnsureEachRow` | backend/internal/adapter/postgres/generation_cleanup.go:456-491 | The loop writes one request per listed task, re-reading each row, and stops at the first error. |
| `GenerationRepository.Repository.EnsureSourceRows` | backend/internal/adapter/postgres/generation_cleanup.go:371-399 | The loop writes the source request of each task and those of its models. |
| `GenerationRepository.Repository.CloseMediaRows` | backend/internal/adapter/postgres/account.go:288-327 | The loop links the media deletions there are, requests the missing ones and stops at the first error. |
| `GenerationRepository.Repository.PersistSettlementRows` | backend/internal/adapter/postgres/generation_settlement.go:139-247 | Hold, output and the fenced task update are written in this order, as specified. |
| `GenerationRepository.Repository.UpdateTaskRow` | backend/internal/adapter/postgres/generation_worker.go:464-491 | The guarded update writes one row exactly when revision (and token) match, and reports how many rows it wrote. |
| `GenerationRepository.Repository.FinalizeLeasedTask` | backend/internal/adapter/postgres/generation_settlement.go:30-89 | Proof, settlement and writes commit together or not at all. |
| `GenerationRepository.Repository.PublishLeasedTask` | backend/internal/adapter/postgres/generation_settlement.go:18-89 | Proof, deadline, publication and writes commit together or not at all. |
| `GenerationRepository.Repository.ExpireTaskIfDue` | backend/internal/adapter/postgres/generation_timeout.go:41-108 | Settlement, cleanup request and the loop over object versions commit together or not at all. |
| `PostReviewProofs.WorkflowHolds` | backend/internal/adapter/postgres/community_posts.go:14-229 | In every reachable state a post that is not deleted is readable, its state agrees with its pointers, a pending revision excludes a draft and is under review in the post's round, the published revision is approved, the draft awaits submission, and the rounds add up. |
| `PostReviewProofs.ApplyKeeps` | backend/internal/adapter/postgres/community_moderation.go:72-163 | Every post, media and account transaction keeps the invariant behind it. |
| `PostReviewProofs.PostIsLoadable` | backend/internal/adapter/postgres/community_helpers.go:89-108 | Every post that is not deleted has a revision to load. |
| `PostReviewProofs.SubmitHitsItsRow` | backend/internal/adapter/postgres/community_posts.go:147-160 | The unchecked review update of a submission always matches its one revision. |
| `PostReviewProofs.RevisionsAreImmutable` | backend/internal/adapter/postgres/community_helpers.go:45-61 | No transaction on a post that stays undeleted drops a revision or changes its content or images, and approved and cancelled revisions are never touched again; a post goes only with its owner. |
| `PostReviewProofs.RepeatedDecisionChangesNothing` | backend/internal/adapter/postgres/community_moderation.go:83-95 | Repeating a decision changes nothing, whoever repeats it and with whatever stale revision numbers. |
| `PostReviewProofs.NoRoundIsDecidedTwice` | backend/internal/adapter/postgres/community_moderation.go:83-134 | A second, different decision on the same revision is refused. |
| `PostReviewProofs.CancelCounts` | backend/internal/adapter/postgres/community_posts.go:183-187 | Cancelling a pending revision adds exactly one cancelled round. |
| `PostReviewProofs.RemovalNeverRestoresDraft` | backend/internal/adapter/postgres/community_moderation.go:139-163 | A removal never moves a draft pointer: the branch that would is never reached. |
| `PostReviewProofs.FrozenImagesExist` | backend/internal/adapter/postgres/community_helpers.go:63-79 | In every reachable state every image of a pending or published revision is frozen to an existing derivation of a ready asset of the same owner. |
| `PostReviewProofs.LeavingBuriesPosts` | backend/internal/adapter/postgres/account.go:263-270 | The posts an account has when its deletion is requested stay deleted until their rows go with the account, and are never publicly readable again, over any further run, reactivation and erasure included. |
| `PostReviewProofs.LeftPostsStayUnreadable` | backend/internal/adapter/postgres/community_feed.go:134-143 | While an account is not active none of its posts is publicly readable, earlier or later ones, over any run that does not make it active again. |
| `PostReviewProofs.ReadableAgainIff` | backend/internal/adapter/postgres/community_feed.go:134-143 | A post of an inactive author becomes readable in a step if and only if the step makes the author active and the post is published. |
| `PostReviewProofs.ReferencesAcceptedIff` | backend/internal/adapter/postgres/community_helpers.go:25-43 | References are accepted if and only if the diary entry is the owner's, the images are distinct and each is the owner's live community image. |
| `CommunityRepository.Repository.CreatePostRevision` | backend/internal/adapter/postgres/community_helpers.go:45-61 | The loop inserts one link row per image in order; the result is the new revision and nothing else. |
| `CommunityRepository.Repository.FreezeRevisionMedia` | backend/internal/adapter/postgres/community_helpers.go:63-79 | The loop freezes each link row or reports the first image without a normalized version. |
| `CommunityRepository.Repository.UpdatePost` | backend/internal/adapter/postgres/community_posts.go:92-128 | Written step by step: the update transaction, or the tables as they were. |
| `CommunityRepository.Repository.SubmitPost` | backend/internal/adapter/postgres/community_posts.go:130-167 | Written step by step: the submission transaction, or the tables as they were. |
| `CommunityRepository.Repository.WithdrawPost` | backend/internal/adapter/postgres/community_posts.go:169-208 | Written step by step: the withdrawal transaction, or the tables as they were. |
| `CommunityRepository.Repository.DecidePost` | backend/internal/adapter/postgres/community_moderation.go:72-137 | Written step by step: the decision transaction, or the tables as they were. |
| `DataExport.StatusNeverGoesBack` | backend/internal/adapter/postgres/data_export.go:77-195 | Under every writer the status rank never decreases, attempts never exceed three, and a cleaned job is expired or revoked with no archive for ever. |
| `DataExport.AtMostOneCompletion` | backend/internal/adapter/postgres/data_export.go:123-159 | Once a completion was accepted no other one ever is. |
| `DataExport.OvertakenWorkerIsRefused` | backend/internal/adapter/postgres/data_export.go:123-169 | What a worker of an earlier claim delivers or gives up changes nothing, however late. |
| `DataExport.ClaimOvertakes` | backend/internal/adapter/postgres/data_export.go:97-121 | Every claim raises the attempt counter by one, within the limit, after the previous lease ran out. |
| `DataExport.LeasesExclude` | backend/internal/adapter/postgres/data_export.go:171-190 | From the moment a cleanup lease is taken no build lease is live or claimable. |
| `DataExport.ExhaustedFailsIff` | backend/internal/adapter/postgres/data_export.go:97-121 | An exhausted job becomes failed in a claiming transaction if and only if the transaction also finds a job to hand out. |
| `DataExport.ExhaustedStaysIsReached` | backend/internal/adapter/postgres/data_export.go:97-121 | A run in which three builds ran out of their lease and the next claiming transaction leaves the job in preparation. |
| `DataExport.Repository.ClaimJob` | backend/internal/adapter/postgres/data_export.go:97-121 | The method takes the oldest claimable job that nobody has locked, and undoes its marking when there is none. |
| `DataExport.Repository.CompleteJob` | backend/internal/adapter/postgres/data_export.go:123-159 | Guard by guard: accepted exactly under the completion condition, one row written. |
| `DataExport.Repository.ClaimJobCleanup` | backend/internal/adapter/postgres/data_export.go:171-190 | The method takes the oldest cleanable job that nobody has locked, if there is one. |
| `DataExport.StepKeeps` | backend/internal/adapter/postgres/data_export.go:54-199 | Every writer keeps the job invariant and the relation between earlier and later rows. |
| `MailChallenge.ChallengesHold` | backend/internal/adapter/postgres/account_mail.go:31-236 | In every reachable state a user has at most one live challenge per purpose, it carries the present address, none is both consumed and revoked, and consumed implies sent. |
| `MailChallenge.ConsumedOnce` | backend/internal/adapter/postgres/account_mail.go:104-182 | A consumed challenge is never confirmed again. |
| `MailChallenge.SupersededReportsChangeNothing` | backend/internal/adapter/postgres/account_mail.go:220-236 | A sender whose lease was superseded changes nothing by reporting, however late, if retries wait beyond their claim. |
| `MailChallenge.ReclaimSupersedes` | backend/internal/adapter/postgres/account_mail.go:184-210 | A new claim supersedes every lease the challenge was claimed under before. |
| `MailChallenge.SameLeaseAgainIff` | backend/internal/adapter/postgres/account_mail.go:190-236 | The same lease value can be handed out again by a claim at the first instant if and only if the retry is due by then. |
| `MailChallenge.StepKeeps` | backend/internal/adapter/postgres/account_mail.go:31-240 | Every challenge and user transaction keeps the invariant. |
| `MailChallenge.ChangeKeeps` | backend/internal/adapter/postgres/account.go:187-207 | Changing the address revokes the live challenges of the old one. |
| `MailChallenge.Repository.ClaimDue` | backend/internal/adapter/postgres/account_mail.go:184-210 | The method claims up to the limit, earliest first, of the due challenges that nobody has locked, and all of them if there are fewer. |
| `MailChallenge.Repository.MarkChallengeSent` | backend/internal/adapter/postgres/account_mail.go:220-227 | One row is affected exactly when the lease is the current one. |
| `MailChallenge.Repository.ConfirmUserVerification` | backend/internal/adapter/postgres/account_mail.go:104-135 | Written step by step: the confirmation, or nothing. |
| `Delivery.EffectsHappenOnce` | backend/internal/adapter/postgres/media.go:430-620 | Any sequence of redeliveries, failures and late commits, mixed with any lawful transactions, leaves the tables as if each event had been handled once, by its first delivery that succeeded -- the erasure of an account by the deletion of its last asset included. |
| `Delivery.ResultsAreSetOnce` | backend/internal/adapter/postgres/media.go:430-620 | Over every such mixture a notification's availability instant is set at most once, an asset gets at most one terminal check result and at most one derivation, a row goes only with its owner, and nothing erased comes back. |
| `Delivery.HandledIsReceived` | backend/internal/adapter/postgres/media.go:430-463 | A handler that succeeds leaves its receipt, also when it erases the account, and with a receipt its last transaction changes nothing. |
| `Delivery.HandledFollows` | backend/internal/adapter/postgres/media.go:592-620 | The transactions of the three handlers keep the tables well formed and the law that everybody else is held to. |
| `GenerationAssets.RunFollows` | backend/internal/adapter/postgres/media.go:250-657 | Over any run of the store an asset only moves forward, gets at most one check result and derivation, loses its row only with its owner, and no row comes under a used identifier. |
| `GenerationAssets.ApplyFollows` | backend/internal/adapter/postgres/account.go:367-396 | The same of every single transaction, those that end in an erasure included. |
| `DeliveryRuns.OperationIsLawful` | backend/internal/adapter/postgres/account.go:344-397 | Every transaction of the store, account closing and erasure included, keeps the law that exactly-once delivery relies on. |
| `DeliveryRuns.SystemIsExact` | backend/internal/adapter/postgres/media.go:430-620 | Over any sequence of deliveries, transactions of the store and new notifications from the empty tables, effects happen once and results are set once. |
| `HandlerCalls.RedeliveredIff` | backend/internal/application/eventworker/worker.go:176-276 | A call on a record whose receipt is on file, or whose asset needs nothing more, that neither breaks nor runs out of time succeeds if and only if the row of its asset has not been erased, whatever commits before it or in its middle. |
| `HandlerCalls.HandledIff` | backend/internal/application/eventworker/worker.go:176-276 | An undisturbed call on any announced record succeeds if and only if the row of its asset is there and, for a deletion without a receipt, the asset is not the last item of a closing account that was given another status. |
| `HandlerCalls.ErasedIsRefused` | backend/internal/adapter/messagequeue/kafka.go:197-223 | A record whose asset has been erased is refused on every attempt for ever. |
| `Redelivery.RefusedRedeliveryIsReached` | backend/internal/adapter/postgres/media.go:592-620 | A run from the empty tables: the handler deletes the last image of a closing account, erases the account, leaves its receipt and times out; the record is refused ever after, and so is the one that announced the upload. |
| `DeliveryConsumer.Consumer.HandleRecord` | backend/internal/adapter/messagequeue/kafka.go:197-223 | The handler is called until it succeeds, at most three times, and never after a cancellation; success means a receipt, or that nothing was left to do. |
| `DeliveryConsumer.Consumer.Begin` | backend/internal/application/eventworker/worker.go:176-276 | The first of a handler's two transactions: it commits exactly when the row is there, and leaves something for the second or finds the asset settled. |
| `DeliveryConsumer.Consumer.Call` | backend/internal/application/eventworker/worker.go:176-276 | One handler call with its one or two transactions and everybody else's in between: success means a receipt, or that the first transaction found a settled asset. |
| `DeliveryConsumer.Consumer.Consume` | backend/internal/adapter/messagequeue/kafka.go:138-186 | No offset is committed before its record decoded and its handler succeeded, the effects stay in log order, none beyond the record at the committed offset, and a record whose asset has been erased is never passed. |
| `DeliveryConsumer.Consumer.SessionsAreExact` | backend/internal/adapter/messagequeue/kafka.go:138-223 | After any number of sessions the tables are those of the first successes alone, all results were set once, each event of the topic has at most one effect, in log order, and every committed record has its receipt or needed nothing. |
| `Media.OnMediaKeeps` | backend/internal/adapter/postgres/media.go:250-657 | Upload, check and removal transactions keep the asset invariant; an asset only moves forward and none is deleted by them. |
| `Media.FinishDeletionKeeps` | backend/internal/adapter/postgres/media.go:592-620 | Finishing a removal deletes exactly that asset and keeps the invariant. |
| `DiaryOrdinals.Diaries.Compact` | backend/internal/adapter/postgres/media.go:372-388 | In-place renumbering: each update moves a row to a free ordinal, and the end is 0..n-1 in the old order. |
| `DiaryOrdinals.Diaries.UnlinkEntry` | backend/internal/adapter/postgres/media.go:351-395 | Removing an asset from one entry writes the renumbered links and the entry, or nothing. |
| `DiaryOrdinals.Diaries.UnlinkMedia` | backend/internal/adapter/postgres/media.go:351-395 | The asset is unlinked from every entry that shows it or from none, and the entries stay well formed. |
| `DiaryOrdinals.RenumberedAt` | backend/internal/adapter/postgres/media.go:372-388 | The new ordinal of a row is the number of remaining rows before it. |
| `DiaryOrdinals.OrderIsKept` | backend/internal/adapter/postgres/media.go:372-388 | Two remaining rows keep their order. |
| `DiaryOrdinals.UnlinkedIsOk` | backend/internal/adapter/postgres/media.go:351-371 | An entry that may lose the asset keeps a body or an image, keeps its images distinct and no longer shows the asset. |
| `Paging.Follow` | backend/internal/adapter/postgres/generation.go:367-404 | Following the cursor visits every row exactly once, in order, in as many pages as the rows fill. |
| `Paging.FetchFrom` | backend/internal/adapter/postgres/generation.go:371-384 | The page after the first k rows is the next block of the sorted table, with a cursor exactly when rows are left. |
| `Paging.BuildByCutting` | backend/internal/adapter/postgres/diary.go:133-156 | Cutting the extra record off computes the page. |
| `Paging.BuildByStopping` | backend/internal/adapter/postgres/community_feed.go:71-88 | Stopping at the extra record computes the same page. |
| `Paging.OrdersAreTotal` | backend/internal/adapter/postgres/diary.go:130-135 | Each cursor condition is its ORDER BY clause, and each is a strict total order. |
| `Paging.FollowEach` | backend/internal/adapter/postgres/community_feed.go:63-89 | So paging is exact for generation tasks, public posts and diary entries. |
| `LikeEscape.SearchIsLiteral` | backend/internal/adapter/postgres/community_feed.go:44-55 | A text matches the escaped term between two percent signs if and only if it contains the term, letter case aside. |
| `LikeEscape.EscapeIsPerCharacter` | backend/internal/adapter/postgres/community_feed.go:209-213 | The three sequential replacements equal one per-character mapping. |
| `LikeEscape.EscapedMatchesPrefix` | backend/internal/adapter/postgres/community_feed.go:209-213 | An escaped term matches exactly the texts that begin with the term, whatever pattern follows. |

## Transactions

Where the functions behind the guarantees come from (paths as above, under
`backend/internal/`).

| functions | source |
|---|---|
| `GenerationTask`: `AcquireLease`, `RenewLease`, `ReleaseLease`, `ReleaseLeaseForRetry`, `ValidateLease` | `application/generation/lease.go` |
| `GenerationTask`: `Transition`, `RequestCancel`, `RevokeAccess`, `BeginSubmit`, `ScheduleSubmissionRetry`, `RecordExternal`, `Observe`, `ReconcileNotAccepted`, `DelayFor`, `Valid` | `application/generation/model.go` |
| `GenerationTask`: `PublishOutput`, `FinalizeWithoutOutput`, `ValidAsset`, `Close` | `application/generation/settlement.go`, `output.go`, `reservation.go` |
| `GenerationCleanup`: `NewCleanup`, `NewOrphan`, `Begin`, `Exhaust`, `RejectUnsafeTarget`, `Finish`, `Fail`, `AddTarget` | `application/generation/cleanup.go` |
| `GenerationRows`: `LeaseTask`, `ChangeTask`, `Claimable`, `UpdateTask` | `adapter/postgres/generation_worker.go` |
| `GenerationRows`: `Settle`, `FinalizeTask`, `PublishTask`, `SettleUnsubmitted`, `PersistSettlement`, `PersistOutput`, `UpdateFenced`, `UpdateReservation` | `adapter/postgres/generation_settlement.go` |
| `GenerationRows`: `EnsureCleanup`, `AttachOrphan`, `SyncTargets`, `AddTargetToRevoked`, `RecordOrphan`, `RecordUnpublishedOutput`, `BeginTaskCleanup`, `ClaimTaskCleanup`, `CompleteTaskCleanup`, `FailTaskCleanup`, `IdentityMatches` | `adapter/postgres/generation_cleanup.go` |
| `GenerationRows`: `ExpireTask`, `ReconcileTask`, `CancelTask`, `ConfirmImage` | `adapter/postgres/generation_timeout.go`, `generation_reconciliation.go`, `generation.go`, `generation_confirmation.go` |
| `GenerationStore`: `Accept`, `Classify`, `Admit`, `UsageOf`, `UsableInput`, `UsableSource` | `adapter/postgres/generation.go`, `application/generation/admission.go`, `acceptance.go` |
| `GenerationStore`: `EnsureSources`, `EnsureDependents`, `EnsureEach`, `RequestTaskCleanup`, `RequestSourceCleanup` | `adapter/postgres/generation_cleanup.go` |
| `GenerationStore`: `BeginAccountDeletion`, `FinalizeIfReady`, `FindUserBySession`; `CompleteDeletion`, `DeleteMedia`, `WithdrawConsent` | `adapter/postgres/account.go`; `media.go` |
| `Media` | `adapter/postgres/media.go` |
| `PostReview` | `adapter/postgres/community_posts.go`, `community_moderation.go`, `community_helpers.go`, `account.go`, `media.go` |
| `DataExport`, `MailChallenge` | `adapter/postgres/data_export.go`, `account_mail.go`, `account.go`, `media.go` |

## Left out

- AccountErasure.NoDeletionIsForgotten: excludes runs that reactivate a closing account; SetStatusKeepsAccounts shows that this is exactly the case in which it fails.
- AccountErasure.ErasureIsSafe: speaks of linked cleanup requests only; requests made for a task or a source are not linked, see StrandedAfterErasure.
- GenerationGuarantees.RevocationIsClosed: is about deleted media; a consent withdrawal skips assets whose source is already deleted, so no closure is stated for consents.
- GenerationRepository.Repository.DeleteMedia: takes the verdict of the post and diary tables as a parameter; PostReview and DiaryOrdinals model those tables.
- MailChallenge.SupersededReportsChangeNothing: asks that retries wait beyond their claim, which the mail service's backoff of at least a minute guarantees.
- PostReviewProofs.WorkflowHolds: is about posts that are not deleted; an account deletion marks posts deleted without touching their revisions.
- Paging.Follow: pages through a fixed table; rows written between two pages are not modelled.
- PostReviewProofs.LeftPostsStayUnreadable: excludes reactivation; ReadableAgainIff shows that this is exactly what can make such a post readable.
- DeliveryConsumer.Consumer.Consume: is the one consumer of its topic, among the consumers of the other topics and all transactions of the store; a topic shared by several consumers is not modelled.
- Transactions are serial except in Finalization. Most guards lock the row they decide on before reading it; the reads without a lock (post references and frozen images, the consent of an upload, the media of a withdrawn consent) are treated as part of a serial transaction.
- The five tables of a generation task are one group of rows per task, as their unique indexes allow; joins across tasks are modelled.
- Which of several matching tasks a repeated submission returns, task views, and the outbox event written beside a new task.
- Outbox publishing, synchronisation records, avatars, receipts and the counters shown for a pending deletion.
- Hashes, tokens, passwords, JSON canonicalisation, object keys and uuid parsing: opaque values; a fresh uuid is one that was never used.
- Integer widths appear only where the code checks them (revision, token and attempt limits).
- Case folding in searches is per character; collation and Unicode normalisation are not modelled.
- Frontend, HTTP layer, object store and broker clients, export snapshots, calendar and session queries, follows, likes, bookmarks, reports, appeals and comments: field mapping or short one-table guards.
