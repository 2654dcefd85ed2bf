# MailX: verified model of broadcasts, idempotency, billing, keys, lists and reports

A Dafny model of the parts of MailX whose correctness depends on what several
processes do to shared rows at once, and of the text formats and queries around
them. `dafny verify dfyconfig.toml` checks everything.

## How the model is built

Each subsystem with concurrent actors has the same layers.

- **Rows** (`BroadcastRows`, `IdempotencyRows`, `RenewalRows`, `ApiKeyRows`): the
  tables as values, and one total function per committed SQL transaction. A
  transaction is one atomic step.
- **Protocol** (`ExpansionProtocol`, `IdempotencyProtocol`, `RenewalProtocol`,
  `ApiKeyLineage`): every line of Go between two statements is a program counter
  with the local variables that are live there. Any number of actors interleave
  with owners, clocks and crashes. A statement may commit, fail, or commit with
  its reply lost.
- **Theorems** over all runs, and, where the code does not meet a promise, the
  exact condition and a run that shows it (`BroadcastTheorems`, `SnapshotScan`,
  `Completion`, `PacedCompletion`, `CompletionLimits`, `EffectiveStatus`,
  `Progress`, `TickProgress`, `Watermark`, `IdempotencyTheorems`,
  `IdempotencyReleases`, `IdempotencyRetention`, `RenewalTheorems`; the runs in
  `OvertakenRun`, `CancelledWitness`, `IdempotencyWitnesses`, `RenewalWitness`).
- **Grounds**: on what rows and answers each step may happen, said in the rows'
  own fields and in figures, without the functions that decide it (`Warrants`,
  `BatchHistory`, `IdempotencyRetention`, `RenewalDemands`, and a part of
  `ApiKeyLineage`). `BatchHistory` keeps notes of every answer an expander was
  given and shows that over whole runs it does only what they allow.
- **Stores and actors as classes** (`BroadcastStore`, `Expander`,
  `IdempotencyStore`, `IdempotencyHandler`, `RenewalStore`, `Renewer`,
  `KeyService`): the statements change fields in place and are tied to the row
  functions; the Go control flow, with its loops and early exits, is shown to be
  a run of the protocol, so that every theorem about runs applies to it. Between
  two statements the actors call `Interfere`, whose contract admits anything
  others may have committed; its body does nothing, and its callers see only the
  contract. The network's answers are drawn with `*` or promised the same way.

The log of a broadcast database and the claim numbers, eras and latest claims of
the idempotency rows exist only to state properties.

`Keyset` (the order and the cursor predicate), `Arithmetic`, `Text` and `Options`
are shared. `SaveProtocol`, `Pagination`, `Analytics`, `Dsn`, `DsnReader`,
`EnhancedStatus`, `Paystack` and `Tokens` stand alone.

## Where the code and its own comments differ

The model follows the code.

- `TryCompleteBroadcast` says completed means no recipient is pending, but its
  test and its UPDATE are two statements. With the service's batch sizes the
  promise holds all the same, for any number of expanders, as long as no recipient
  is erased during the expansion: a scan of 200 a visit outruns claims of 25, so
  no test passes before the scan is complete. (Erasing the unclaimed recipients of
  a scan under way could let one pass early; erasure is not part of the model.)
  Proved: exactly the batch sizes for which that is so, and the exact step at fault
  when it is not.
- `InsertMessage` already marks the recipient materialized in the transaction of
  the message row, so the mark that follows it is a repetition. A suppressed
  recipient therefore never has a message in runs that started empty.
- `process` fails the whole broadcast on any error of the domain lookup, a
  transient database error included (`LookupErrorEndsBroadcast`). Nothing else
  fails a broadcast (`FailedByLookup`).
- Cancelling does not stop a status update that was under way: a recipient
  reported cancelled may later be reported suppressed or failed. Proved: the two
  statements that do it, and no other.
- `Save` takes an existing directory for a complete record unless it is more than
  five seconds old. Messages then have their complete files exactly as long as
  every writer has saved and inserted the row, failed or died within the lease of
  its claim less those five seconds.
- The poll of an in-progress key does not look at the fingerprint again, so it
  can answer with a resource of another payload.
- A release is guarded by the claim's created_at, which is the database clock.
  It takes another request's claim exactly when both were won in the same
  microsecond of that clock. As a claim is only replaced when it looks stale or
  has been purged, that also takes an application clock more than 30 seconds
  ahead, or a purge within that microsecond.
- A verification that finds no such reference finishes the attempt as failed. If
  the charge request was still to be sent, or on its way, the period can be
  charged twice.
- A rotation samples its clock before it takes the row lock. With a grace period
  it can revive a key that expired in between.
- The cursor of audience members carries the contact's creation time while the
  query compares the membership's.
- An unaligned analytics range that passes the first check can touch 746 buckets;
  the row limit of 745 still detects it.

## Model

| member | source | states |
|---|---|---|
| BroadcastStore.Store.CreateBroadcast | internal/database/broadcasts.go:112-161 | acceptance writes one accepted row with the audience and the send_at asked for, its watermark the database clock, its scan not begun |
| BroadcastStore.Store.CancelBroadcast | internal/database/broadcast_control.go:15-37 | an accepted or expanding broadcast is cancelled and the cancellation logged; cancelled again is unchanged, any other state a conflict, an unknown id not found |
| BroadcastStore.Store.RescheduleBroadcast | internal/database/broadcast_control.go:39-62 | only an accepted broadcast, only to an instant after the database clock |
| BroadcastStore.Store.ClaimActiveBroadcasts | internal/database/broadcast_expansion.go:21-41 | the oldest active, due, unlocked broadcasts up to the limit, as copies |
| BroadcastStore.Store.MarkBroadcastExpanding | internal/database/broadcast_expansion.go:45-62 | moves a due accepted broadcast to expanding and says whether it did |
| BroadcastStore.Store.MarkBroadcastFailed | internal/database/broadcast_expansion.go:69-77 | ends an active broadcast, leaves every other alone |
| BroadcastStore.Store.SnapshotBroadcastBatch | internal/database/broadcast_expansion.go:91-190 | the loop over one page of members is the batch transaction: conflict unless active and due, nothing once complete, otherwise one row per new contact, cursor behind the page, complete on a short page |
| BroadcastStore.Store.ClaimPendingBroadcastRecipients | internal/database/broadcast_expansion.go:210-255 | stamps the oldest pending recipients whose lease is over and that nobody holds locked, and returns their ids in any order; nothing unless the broadcast is active and due |
| BroadcastStore.Store.RecordBroadcastRecipientFailure | internal/database/broadcast_expansion.go:269-280 | one more attempt on a pending row, failed at the fifth; other rows untouched |
| BroadcastStore.Store.MarkBroadcastRecipientSuppressed | internal/database/broadcast_expansion.go:285-293 | a pending row becomes suppressed, any other is left alone |
| BroadcastStore.Store.MarkBroadcastRecipientMaterialized | internal/database/broadcast_expansion.go:299-307 | a pending row becomes materialized with its own id as message id, any other is left alone |
| BroadcastStore.Store.HasPendingBroadcastRecipients | internal/database/broadcast_expansion.go:311-321 | true exactly when some recipient of the broadcast is stored pending |
| BroadcastStore.Store.CompleteBroadcast | internal/database/broadcast_expansion.go:335-341 | the UPDATE of completion: looks at status and snapshot_complete, not at recipients |
| BroadcastStore.Store.LockBroadcastRecipient | internal/database/broadcast_control.go:78-114 | the refusals in the order of the code: erased, message exists, broadcast missing, state or schedule, recipient no longer pending |
| BroadcastStore.Store.InsertMessage | internal/database/messages.go:164-319 | message row and materialized mark commit together, only for a pending recipient of an active, due broadcast without a message and with a verified domain |
| BroadcastInvariant.ClosedIsStable | internal/database/broadcast_control.go:102-112 | once a recipient has left pending or its broadcast has ended, no message for it can appear in any later state |
| BroadcastInvariant.EvolvesTransitive | internal/database/broadcast_control.go:15-62 | what one transaction may change composes over any number of them |
| BroadcastInvariant.StampClaimsKeeps | internal/database/broadcast_expansion.go:220-247 | claiming a batch keeps the invariant: each claim more than a lease after the last one of the same row |
| BroadcastInvariant.SnapshotBatchKeeps | internal/database/broadcast_expansion.go:106-190 | a batch keeps one row per contact, none past the watermark, the cursor moving forward |
| BroadcastInvariant.DeleteFileKeeps | internal/broadcast/expander.go:375-387 | deleting a stored file keeps every message backed, provided the recipient is closed without a message |
| BroadcastInvariant.RefusalIsFinal | internal/database/broadcast_control.go:94-112 | the conflict that makes the expander delete the file means no message exists and none will |
| ExpansionProtocol.NextKeeps | internal/broadcast/expander.go:147-429 | every statement of an expander keeps the database invariant and leaves the expander knowing what its next statement relies on |
| ExpansionProtocol.PcStays | internal/broadcast/expander.go:147-429 | what an expander knows between two statements stays true whatever others commit |
| ExpansionProtocol.ExecKeeps | internal/broadcast/expander.go:121-200 | the invariant holds in every interleaving of expanders, owners, audience changes, clock and crashes |
| BroadcastTheorems.StartsAreCovered | internal/broadcast/expander.go:121-145 | runs from an empty installation, and from rows left by an earlier one, satisfy the invariant to begin with |
| BroadcastTheorems.MessagesAreBacked | internal/broadcast/expander.go:360-387 | in every run each message row has its stored file, although expanders delete files |
| BroadcastTheorems.RefusedStaysUnsent | internal/broadcast/expander.go:375-387 | after a state conflict no run ever inserts that message, and every later try is refused as well |
| BroadcastTheorems.EndIsACut | internal/database/broadcast_expansion.go:45-77 | cancelled, completed and failed are absorbing; no later recipient row, claim or message for the broadcast |
| BroadcastTheorems.LookupErrorEndsBroadcast | internal/broadcast/expander.go:174-188 | any error of the domain lookup, a passing one included, ends the broadcast as failed in every later run, and nothing more is sent for it |
| BroadcastTheorems.FailedWhen | internal/broadcast/expander.go:174-188 | a step makes a broadcast failed if and only if it is the MarkFailed of an expander whose lookup failed, and the broadcast was accepted or expanding |
| BroadcastTheorems.AboutToFailWhen | internal/broadcast/expander.go:174-188 | an expander comes to that statement if and only if its lookup for this broadcast errs or finds the domain unverified |
| BroadcastTheorems.FailedByLookup | internal/database/broadcast_expansion.go:64-77 | in every run, a broadcast that became failed had such a lookup |
| BroadcastTheorems.CancelCutsOff | internal/database/broadcast_control.go:15-37 | after a cancellation commits nothing more is logged for the broadcast, whatever was in flight |
| BroadcastTheorems.HandedOffOnce | internal/broadcast/expander.go:236-242 | two handoffs in a run are for different recipients and different (broadcast, contact) pairs |
| BroadcastTheorems.NoMessageAfterPending | internal/database/broadcast_control.go:94-112 | once a recipient has left pending, its status is final and no message is inserted for it |
| BroadcastTheorems.NoEarlyStart | internal/database/broadcast_expansion.go:106-115 | every snapshot and handoff happened at or after the send_at now on record, and recipients exist only for broadcasts that have left accepted |
| BroadcastTheorems.SendAtFreezes | internal/database/broadcast_control.go:39-62 | after expansion starts, send_at never changes |
| BroadcastTheorems.ClaimsAreALeaseApart | internal/database/broadcast_expansion.go:198-280 | two claims of a recipient are more than five minutes apart; pending means fewer than five attempts, failed means exactly five |
| BroadcastTheorems.MessagesAreMaterializedRecipients | internal/database/messages.go:286-292 | in runs from empty: a message exists exactly when its recipient is stored materialized, and every row, message and cancellation is in the log |
| SnapshotScan.BatchesRefineOneScan | internal/database/broadcast_expansion.go:91-190 | for every batch size, batches end in the same database as one scan of the whole audience, after exactly n/b + 1 batches and no fewer |
| SnapshotScan.StayingMembersAreSnapshotted | internal/database/broadcast_expansion.go:117-176 | a member at the watermark who never leaves has a recipient row once the snapshot is complete, with any number of expanders |
| SnapshotScan.SnapshotRespectsWatermark | internal/database/broadcast_expansion.go:120-126 | no row comes from a membership younger than the watermark, and a contact has at most one |
| SnapshotScan.PageIsInserted | internal/database/broadcast_expansion.go:149-166 | every contact of a page ends up with a row, and no row is lost |
| Completion.OnlyALateUpdateStrands | internal/database/broadcast_expansion.go:327-342 | a step turns sound completion unsound if and only if it is the UPDATE arriving when recipients are pending again |
| Completion.SoleExpanderCompletesSoundly | internal/broadcast/expander.go:191-199 | with one expander, completed implies a complete snapshot and no pending recipient |
| Completion.FusedCompletionIsSound | internal/database/broadcast_expansion.go:328-341 | with the pending test and the UPDATE as one step, the same for any number of expanders |
| RecipientWrites.StepRows | internal/broadcast/expander.go:147-429 | only a snapshot batch adds recipient rows, only a claim stamps them, and only the recipient being handled changes status |
| ScanPace.ReadsHaveRows | internal/database/broadcast_expansion.go:117-176 | after k full batches of n memberships a broadcast has at least n * k / 2 recipient rows |
| ScanPace.FullBatchReads | internal/database/broadcast_expansion.go:117-176 | a full batch reads n memberships not read before, and before the watermark no contact is read twice |
| PacedCompletion.ScanOutrunsClaims | internal/broadcast/expander.go:157-199 | while the scan is incomplete, some recipient has never been claimed and so is pending |
| PacedCompletion.CompletionIsSound | internal/broadcast/expander.go:157-199 | with any number of expanders, completed implies a complete snapshot and no pending recipient, when a snapshot batch is more than twice a materialize batch |
| PacedCompletion.ServiceCompletesSoundly | internal/broadcast/expander.go:29-32 | the same for the service's own batch sizes 5, 200 and 25 |
| OvertakenRun.OvertakenStrands | internal/database/broadcast_expansion.go:328-341 | for every smaller non-empty snapshot batch, a run of two expanders that ends completed with a pending recipient |
| CompletionLimits.CompletionIsSoundWhen | internal/broadcast/expander.go:157-199 | exactly the batch sizes with which completed means done in every run |
| EffectiveStatus.CountsAddUp | internal/database/analytics.go:246-261 | intended is the sum of the five reported counts |
| EffectiveStatus.ReportsWhen | internal/database/broadcasts.go:217-220 | cancelled is reported exactly for what is pending without a message in a cancelled broadcast, materialized also for what has its message but not its mark |
| EffectiveStatus.MarkIsUnobservable | internal/broadcast/expander.go:276-282 | the expander's final mark changes no reported status and no count, so a crash before it cannot be seen |
| EffectiveStatus.CancelMovesPending | internal/database/broadcasts.go:217-220 | cancelling moves exactly the recipients reported pending to cancelled |
| EffectiveStatus.ReportedStatusIsFinal | internal/database/broadcasts.go:217-220 | along any run from empty, materialized, suppressed and failed are final; cancelled can only become suppressed or failed |
| EffectiveStatus.CancelledMovesWhen | internal/broadcast/expander.go:223-272 | a step moves a report of cancelled if and only if it suppresses that recipient or counts its fifth failure; the report becomes suppressed or failed accordingly |
| CancelledWitness.CancelledMayBecomeSuppressed | internal/broadcast/expander.go:223-231 | a run of the service in which a recipient is reported cancelled first and suppressed afterwards |
| CancelledWitness.CancelledMayBecomeFailed | internal/broadcast/expander.go:247-272 | a run of five visits in which a recipient is reported cancelled first and failed afterwards |
| EffectiveStatus.IntendedIsFixed | internal/database/analytics.go:246-261 | once the snapshot is complete or the broadcast has ended, the intended recipients never change |
| Progress.BatchSpends | internal/database/broadcast_expansion.go:130-190 | every snapshot batch spends at least one unit of the work budget |
| Progress.DriveAdvances | internal/broadcast/expander.go:147-200 | a calm visit returns within its statement bound, having completed the broadcast or spent a unit |
| Progress.VisitsAreShort | internal/broadcast/expander.go:147-200 | a visit is over after six statements per claimed recipient and ten more |
| Progress.VisitsComplete | internal/broadcast/expander.go:121-145 | a sole expander completes a broadcast after at most budget + 1 calm visits, and never visits it again |
| TickProgress.FocusSteps | internal/broadcast/expander.go:132-140 | what a visit does is independent of the broadcasts the tick visits after it |
| TickProgress.OthersStay | internal/broadcast/expander.go:147-200 | a visit leaves rows, budgets and leases of all other broadcasts as they were |
| TickProgress.OldestIsFound | internal/database/broadcast_expansion.go:21-41 | whenever a broadcast is due, the first one a tick visits is not younger than it |
| TickProgress.TicksAreShort | internal/broadcast/expander.go:132-140 | a tick is over after six statements a claimed recipient and ten more for each broadcast it visits |
| TickProgress.TicksComplete | internal/broadcast/expander.go:121-145 | no broadcast is starved: the calm ticks that begin with it due are at most as many as the budgets of the broadcasts not younger than it, and one more for each; after so many it is completed |
| Progress.FreshBudget | internal/database/broadcast_expansion.go:257-280 | the budget of a new broadcast is six per eligible member and one |
| SaveProtocol.LostWhen | internal/storage/store.go:210-263 | a step leaves a message row without its complete files if and only if it inserts the row over an incomplete directory or removes the directory under the row |
| SaveProtocol.SavesAreBackedWhen | internal/storage/store.go:166-208 | whatever fails or crashes inside Save, message rows always have their complete files if and only if every writer gets from its claim to the insert of the row, fails or dies, within 295 seconds, the claim lease less the grace of the repair |
| SaveProtocol.LoneSave | internal/storage/store.go:166-263 | a save with nobody else around: the message with its files, its files alone when only the insert failed, or nothing when the removal worked |
| SaveProtocol.RetryInserts | internal/storage/store.go:210-263 | the next try takes complete files as they are |
| Warrants.AcceptedAsAsked | internal/database/broadcasts.go:112-161 | the accepted row is exactly what was asked for, and no other row changes |
| Warrants.CancelRepliesWhen | internal/database/broadcast_control.go:15-37 | which broadcasts each answer of a cancellation is for, and that only a change writes |
| Warrants.RescheduleRepliesWhen | internal/database/broadcast_control.go:39-62 | the same for a rescheduling |
| Warrants.FindsWhen | internal/database/broadcast_expansion.go:21-41 | a tick finds only broadcasts under way, all of them while there is room, otherwise no younger one before an older one |
| Warrants.ClaimsWhen | internal/database/broadcast_expansion.go:210-255 | a claim takes only pending recipients not claimed for five minutes, of a broadcast under way, and leaves one out only for as many that are not younger |
| Warrants.SnapshotsWhen | internal/database/broadcast_expansion.go:106-145 | the batch is refused exactly when the broadcast is not accepted or expanding, or not yet due, and otherwise says exactly whether the scan is over |
| Warrants.ClaimStamps | internal/database/broadcast_expansion.go:220-247 | exactly the claimed recipients are stamped, with the database clock |
| Warrants.InsertsWhen | internal/database/broadcast_control.go:78-114 | a message is inserted if and only if its recipient is pending without one, its broadcast under way and the domain verified |
| Warrants.NothingUnwarranted | internal/database/broadcast_expansion.go:106-255 | every snapshot, claim, handoff and cancellation in the log was warranted by the rows it was logged over |
| Warrants.StartsWhenAsked | internal/database/broadcasts.go:112-161 | in every run, nothing of a broadcast accepted for t is snapshotted, claimed or handed off before t, unless its owner reschedules it |
| Warrants.StartsWhenRescheduled | internal/database/broadcast_control.go:39-62 | the same after a rescheduling that was answered with success |
| SnapshotScan.StaysMemberWhen | internal/database/audiences.go:130-165 | a contact stays a member with the same created_at exactly until it is removed, whatever joins and expanders do |
| Watermark.LateJoinersStayOut | internal/database/broadcast_expansion.go:117-126 | in no run does a contact get a recipient row that was not a member in time, however often it joins and leaves |
| BatchHistory.GoesOnWhen | internal/broadcast/expander.go:147-190 | a visit comes to the scan or to the claim exactly through a committed start or batch of a broadcast under way |
| BatchHistory.EntersWhen | internal/broadcast/expander.go:209-223 | the recipient loop is entered if and only if the suppression lookup of the claimed batch has just succeeded, with that batch and that answer |
| BatchHistory.LeavesWhen | internal/broadcast/expander.go:209-274 | it is left exactly at its end, at a recipient not admitted, or after the cleanup of a refused one |
| BatchHistory.TurnsWhen | internal/broadcast/expander.go:223-429 | which answer leads a recipient to admission, build, save, insert, cleanup, failure or mark |
| BatchHistory.RunInOrder | internal/broadcast/expander.go:147-429 | over whole runs an expander stands only where the answers it was given let it come |
| BatchHistory.ChangesHaveGrounds | internal/broadcast/expander.go:209-429 | whatever a run sends, saves, deletes, counts as failed or suppresses was claimed, with the domain verified and the suppressions of its batch looked up with success; what was listed is suppressed, what is sent was not listed, was admitted, built and saved |
| BatchHistory.ListedAreNotHandled | internal/broadcast/expander.go:209-231 | in every run, inside the loop the suppressed set is the answer of this batch's lookup, and nobody on it is built, saved or inserted |
| Expander.Expander.MaterializeOne | internal/broadcast/expander.go:313-429 | build, save, insert and the cleanup of a refused insert, as steps of the protocol, with each error going where the caller takes it |
| Expander.Expander.CleanUp | internal/broadcast/expander.go:375-387 | up to three deletions; success reports the conflict, failure an ordinary error |
| Expander.Expander.MaterializeBatch | internal/broadcast/expander.go:209-274 | the recipient loop with its early exits is a run of the protocol that ends at the completion test; what its answers lead to is pinned by the rows of BatchHistory |
| Expander.Expander.Process | internal/broadcast/expander.go:147-200 | one bounded step of one broadcast is a run of the protocol |
| Expander.Expander.Tick | internal/broadcast/expander.go:132-140 | a whole tick is a run of the protocol |
| Expander.Expander.TickSafely | internal/broadcast/expander.go:132-140 | a tick, with anything committed by others in between, keeps the invariant and undoes no earlier fact |
| IdempotencyStore.Store.InsertClaim | internal/database/idempotency.go:53-66 | claims an absent key and says so; a present one is untouched |
| IdempotencyStore.Store.ReclaimStale | internal/database/idempotency.go:68-83 | takes over an unfinished claim older than the cutoff, with a new instant and fingerprint |
| IdempotencyStore.Store.ReleaseIdempotencyClaim | internal/database/abuse.go:63-73 | deletes the row only while in progress with this fingerprint and claim instant |
| IdempotencyStore.Store.InsertResource | internal/database/messages.go:294-318 | the resource and the completed key commit together, or nothing does: the key must be in progress with the same fingerprint |
| IdempotencyStore.Store.DeleteExpired | internal/database/idempotency.go:112-124 | removes the row exactly when it is past its expiry, which ends the key's era; every row that is not stays as it is |
| IdempotencyRetention.PurgeTakesTheExpired | internal/database/idempotency.go:112-124 | of all rows the purge takes the expired one it picks and changes no other |
| IdempotencyRetention.EraIsKept | internal/database/idempotency.go:36-51 | as long as every purge of a key runs within 24 hours of its first request, the key's era does not change, in any run |
| IdempotencyRetention.OneResourceWhileKept | internal/database/idempotency.go:36-51 | under the same condition a key has at most one committed email or broadcast, however often it is retried and the purge runs |
| IdempotencyRetention.AnswersAgree | internal/api/email_handler.go:366-395 | and all its 202 responses name that one |
| IdempotencyRetention.ClaimedWhen | internal/database/idempotency.go:52-90 | a key is claimed if and only if it is free, or in progress for more than 30 seconds by the request's clock; the row carries the payload, the database instant and an expiry 24 hours after the request |
| IdempotencyRetention.WaitsWhen | internal/api/email_handler.go:352-366 | a request waits exactly for a key in progress that it has read with its own payload |
| IdempotencyRetention.AdmittedWhen | internal/api/email_handler.go:262-303 | an email is saved only after admission and committed only after the save; a refused one goes on to release its key |
| IdempotencyRetention.CreatedWhen | internal/database/messages.go:294-318 | a request has created its resource exactly when its own commit found the key in progress with its payload |
| IdempotencyProtocol.ExecKeeps | internal/api/email_handler.go:165-328 | over all interleavings: records agree with the resources they name, one resource per key and era, resources and files are never taken back |
| IdempotencyTheorems.EmptyIsCovered | internal/api/email_handler.go:165-328 | runs from an empty installation satisfy the invariant to begin with |
| IdempotencyTheorems.AtMostOneResource | internal/database/idempotency.go:36-51 | until an expired key is purged it has at most one committed email or broadcast, whatever stalls, reclaims and clocks do |
| IdempotencyTheorems.AnswersAreBacked | internal/api/email_handler.go:298-328 | a 202 names a committed resource of the request's key, with its file, and of its own payload unless it was polled for |
| IdempotencyTheorems.EmailsAreBacked | internal/api/email_handler.go:277-303 | no committed email lacks its stored file |
| IdempotencyTheorems.LostRaceReplays | internal/api/email_handler.go:307-319 | a request that lost its key to a finished identical retry answers with the retry's resource |
| IdempotencyTheorems.PollIsOwnPayloadWhen | internal/api/email_handler.go:352-366 | a polled replay is of the request's payload if and only if the completed row still carries its fingerprint |
| IdempotencyTheorems.OnePayloadAnswers | internal/api/email_handler.go:347-366 | if a key is only ever used with one payload, every 202 names a resource of that payload |
| IdempotencyReleases.PoisedWhen | internal/database/abuse.go:58-73 | a step brings a request into a position to release another's claim if and only if it wins a claim of the same key and payload at the same database instant as a request that may still be refused |
| IdempotencyReleases.ReleasesAreOwnWhen | internal/database/abuse.go:58-73 | over whole runs: refusals release only their own claims if and only if no two such claims are won at one instant |
| IdempotencyReleases.ClaimsStayOkWhen | internal/database/abuse.go:58-73 | claims stay told apart by their instants if and only if no claim made at this instant and still held is replaced or purged |
| IdempotencyReleases.ReleasesOnlyItsOwn | internal/database/idempotency.go:68-83 | while application clocks stay within the staleness window and no key is purged at the instant of its claim, a refused request releases only the claim it won itself |
| IdempotencyReleases.RefusalFreesTheKey | internal/api/email_handler.go:269-275 | a refused request that still holds its key leaves it free and every other key alone |
| IdempotencyWitnesses.PollMayReplayAnotherPayload | internal/api/email_handler.go:405-428 | a run in which a waiting request is answered with a message of another payload |
| IdempotencyWitnesses.SkewLetsAReleaseTakeAnothersClaim | internal/database/abuse.go:58-73 | a run in which a release deletes another request's claim: an application clock 31 seconds ahead, and two claims within one microsecond of the database clock |
| IdempotencyHandler.Handler.ClaimIdempotencyKey | internal/database/idempotency.go:52-90 | the three statements, with other requests between them, lead to a claim, an existing record or an error |
| IdempotencyHandler.Handler.PollIdempotencyCompletion | internal/api/email_handler.go:405-428 | the wait ends with a completed record or gives up, after 51 reads at most |
| IdempotencyHandler.Handler.ResolveIdempotency | internal/api/email_handler.go:335-371 | proceed with a claim, replay, or fail, each where the protocol says |
| IdempotencyHandler.Handler.AcceptOne | internal/api/email_handler.go:165-328 | every path of an email request is a run of the protocol, and its 202 names a committed, backed resource of its key |
| IdempotencyHandler.Handler.HandleCreate | internal/api/broadcast_handler.go:161-201 | the same for a broadcast request |
| Paystack.ClassifyIs | internal/billing/renewal.go:73-83 | which texts, in any case, are a success, which a failure, and that all others decide nothing |
| Paystack.SucceedsWhen | internal/billing/renewal.go:122-161 | a success is exactly a good answer whose status says so, and reports that answer's amount and currency |
| Paystack.VerdictIsSound | internal/billing/renewal.go:122-161 | against a gateway whose final status words are true, succeeded means charged and failed means no money was kept |
| Paystack.UnknownExactlyWhenOpen | internal/billing/renewal.go:122-161 | the verdict is unknown if and only if an honest gateway may send the reply both with the money taken and without |
| RenewalStore.Store.ClaimRenewalAttempt | internal/database/renewal.go:195-271 | records and returns the next attempt exactly when the plan, the reminder, the window, the earlier attempts and the spacing allow it |
| RenewalStore.Store.FinishRenewalAttempt | internal/database/renewal.go:277-292 | settles a pending attempt only, and says whether it did |
| RenewalStore.Store.PendingRenewalAttempts | internal/database/renewal.go:296-314 | lists exactly the pending attempts old enough, each once and oldest first, with its own plan and price |
| RenewalStore.Store.ApplyPlanPayment | internal/database/plans.go:220-262 | extends the plan and records the reference together, once per reference |
| RenewalTheorems.EachChargeExtendsOnce | internal/api/billing_handler.go:198-222 | in every run a reference extends a plan at most once, only if it was charged, and always if its attempt succeeded |
| RenewalTheorems.ExtensionLosesNoDays | internal/database/plans.go:206-246 | a payment buys at least a full period, and an early renewal of the same plan adds to the running one |
| RenewalTheorems.OnlyAPrematureVerifyIsUnsound | internal/api/billing_renewal.go:154-169 | a step keeps the books sound if and only if it is not a verification that denies a charge still to arrive |
| RenewalTheorems.SoundAlongWhen | internal/api/billing_renewal.go:154-169 | over whole runs: the books are sound in every state if and only if no verification denies a charge still to arrive |
| RenewalTheorems.NoChargeIsForgotten | internal/api/billing_renewal.go:173-227 | when charges arrive before they are verified, money held for a renewal has extended the plan or belongs to an attempt still pending |
| RenewalTheorems.AtMostOneNetCharge | internal/api/billing_renewal.go:173-227 | when charges arrive before they are verified: once an attempt is claimed, no earlier one of its period holds money or ever will, and an attempt nobody claimed holds none |
| RenewalTheorems.FailedTookNoMoney | internal/billing/renewal.go:35-46 | under the same condition an attempt finished as failed took no money and never will |
| RenewalDemands.AttemptRecordedWhen | internal/database/renewal.go:195-271 | an attempt is recorded if and only if the tenant's plan is paid, active, on automatic renewal with a card and ends within 48 hours, a reminder of that period is 24 hours old, and fewer than three earlier attempts have all failed, the last 12 hours ago |
| RenewalDemands.ChargesAreSpaced | internal/database/renewal.go:195-271 | over whole runs: at most three attempts a period, within 48 hours of its end, 12 hours apart, each at its plan's price and none after one that has not failed |
| RenewalDemands.ChargesWhen | internal/api/billing_renewal.go:128-152 | a charge is sent only by whoever has just recorded the claim and been told so; an unreadable card settles it as failed |
| RenewalDemands.SettledWhen | internal/api/billing_renewal.go:173-227 | a payment is applied exactly for a success of the claimed amount in US dollars, an attempt finished as failed exactly for a failure, and everything else stays pending |
| RenewalDemands.ReportedBefore | internal/billing/renewal.go:122-161 | and the gateway has reported that amount as a success |
| RenewalDemands.FinishesWhen | internal/api/billing_renewal.go:173-227 | once the payment is applied, by this call or before, the attempt is finished as succeeded |
| RenewalDemands.PaymentsCoverThePrice | internal/database/plans.go:206-262 | in every run nothing extends a plan for less than its price |
| RenewalDemands.VerifiesTheOldOnly | internal/api/billing_renewal.go:154-169 | only attempts pending for an hour are verified |
| RenewalWitness.StalledRenewerChargesTwice | internal/api/billing_renewal.go:128-152 | a run in which a renewer stalls past the reconcile delay and one period is charged twice |
| Renewer.Renewer.Settle | internal/api/billing_renewal.go:173-227 | settling a result, whichever branch it takes and whatever fails on the way, is a run of the protocol that ends at the next listed attempt |
| Renewer.Renewer.RenewOne | internal/api/billing_renewal.go:128-152 | claim, charge and settle are a run of the protocol |
| Renewer.Renewer.ReconcilePending | internal/api/billing_renewal.go:154-169 | verifying and settling what is still unknown is a run of the protocol |
| Renewer.Renewer.RunOnce | internal/api/billing_renewal.go:43-60 | a pass keeps the payment books: nothing extended twice, nothing extended uncharged |
| Renewer.HandleWebhook | internal/api/billing_handler.go:181-234 | a usable charge.success is applied at most once; acknowledged as applied exactly when it changed something, and answered 5xx exactly when the storage call failed |
| ApiKeyLineage.LineagesAreChains | internal/database/api_keys.go:157-222 | under concurrent rotations and revocations, keys with a common ancestor or successor lie on one chain, and a chain never closes |
| ApiKeyLineage.AtMostOneAuthenticates | internal/auth/service.go:94-128 | without grace at most one key of a lineage is accepted at any instant |
| ApiKeyLineage.RefusedStaysRefused | internal/auth/service.go:146-183 | without grace a key once refused stays refused, although the rotation samples its clock before the lock |
| ApiKeyLineage.LaterReadsAreRefused | internal/auth/service.go:94-128 | every authentication that reads the row after a refusal is refused as well |
| ApiKeyLineage.RevivedExactlyWhen | internal/database/api_keys.go:177-222 | a rotation revives a refused key if and only if the key expired after the clock was sampled and the grace still runs |
| ApiKeyLineage.GraceMayRevive | internal/auth/service.go:146-183 | a run with grace in which an expired key is accepted again |
| ApiKeyLineage.RotationInheritsExpiry | internal/auth/service.go:172-175 | the new key expires when the old one would have, and the old one links to it |
| ApiKeyLineage.AcceptedExactlyWhile | internal/auth/service.go:94-128 | a key that is neither revoked nor rotated is accepted exactly until its expiry, in every run |
| ApiKeyLineage.GraceExactly | internal/auth/service.go:146-183 | a key retired by a rotation is accepted exactly until the sampled clock plus the grace, whatever follows short of a revocation |
| ApiKeyLineage.RevokedIsRefused | internal/auth/service.go:94-140 | after a revocation, with or without grace, the key is refused at every instant of every run, and every authentication that reads its row from then on reads the revocation |
| ApiKeyLineage.RefusedRotation | internal/database/api_keys.go:157-222 | a rotation that finds the key retired, revoked or expired under the lock changes nothing |
| KeyService.KeyStore.RotateAPIKey | internal/database/api_keys.go:157-222 | both rows change or neither; a retired, revoked or expired key is refused under the lock |
| KeyService.KeyStore.RevokeAPIKey | internal/database/api_keys.go:134-143 | sets revoked_at once |
| KeyService.Service.Create | internal/auth/service.go:62-91 | the new key is neither revoked nor replaced, and expires its lifetime after the clock sampled before the insert |
| KeyService.Service.Authenticate | internal/auth/service.go:94-128 | accepted exactly when the row that was read is not revoked and does not expire by the clock sampled afterwards; ErrRevoked exactly when it is revoked, ErrExpired when it has expired, unknown when there is none |
| KeyService.Service.Rotate | internal/auth/service.go:146-183 | a success found the old key neither replaced, revoked nor expired under the lock, leaves it linked to the new one and expiring after the grace; the call is a run of the lineage protocol |
| KeyService.Service.Revoke | internal/auth/service.go:134-140 | a success leaves the key revoked as of the clock |
| Keyset.SortedIsUnique | internal/database/contacts.go:113-118 | ORDER BY (created_at, id) has one answer |
| Keyset.SuffixIsSorted | internal/database/broadcasts.go:238-245 | what lies beyond a row of the scan is the rest of the scan |
| Keyset.PageIsPrefix | internal/database/broadcasts.go:238-245 | a page takes the least rows beyond the cursor and leaves out only later ones |
| Pagination.HandleList | internal/api/contact_handler.go:153-187 | limits outside 1 to 100 are refused; otherwise the page and the cursor of the query with limit + 1 |
| Pagination.DescendingRowsAre | internal/database/contacts.go:113-118 | the newest-first query returns rows past the cursor falling by time and id, and leaves none out that comes before a row shown |
| Pagination.AscendingRowsAre | internal/database/broadcasts.go:238-245 | the recipients' query the same, rising |
| Pagination.FixedWalkIsExact | internal/api/broadcast_handler.go:362-380 | following next_cursor over a fixed list gives every row once, in order |
| Pagination.FixedWalkStops | internal/api/broadcast_handler.go:362-380 | all pages are full until the one without a cursor |
| Pagination.ChangingWalkIsExact | internal/database/broadcasts.go:238-245 | under inserts and deletes no row is shown twice, and a row present throughout is shown by the end |
| Pagination.DescendingWalkIsExact | internal/database/contacts.go:113-118 | the same for the lists that run newest first |
| Pagination.MembersPageAdvancesWhen | internal/api/audience_handler.go:226-264 | the next page of audience members repeats nothing if and only if the last contact shown was created when it was added |
| Pagination.MembersWalkMayLoop | internal/api/audience_handler.go:258-261 | when the contacts are older than all memberships, the second page is the first one again |
| Analytics.AnalyticsTimeseries | internal/database/analytics.go:157-208 | a success is the whole series and adds up to the overview in each counter; each failure has exactly its reason |
| Analytics.RowsSumToOverview | internal/database/analytics.go:106-131 | buckets that were not cut off add up to the overview of the range |
| Analytics.AtMostTwoMoreBuckets | internal/database/analytics.go:172-206 | a range that passes the first check touches at most 746 buckets |
| Analytics.BoundIsReached | internal/database/analytics.go:172-206 | an hourly range that passes it and touches exactly 746 |
| Analytics.CountIs | internal/database/analytics.go:78-131 | a count is the number of events of its kind from the start on and before the end |
| Analytics.RangesAdd | internal/database/analytics.go:78-131 | the counts of two ranges that meet add up to those of the whole, an event at the meeting point counting in the second |
| Analytics.BucketIsItsOverview | internal/database/analytics.go:157-208 | a bucket's count is the overview of the part of the range that lies in its hour or day |
| Analytics.ExcessiveWhen | internal/database/analytics.go:172-206 | the check before the query refuses exactly ranges of 745 hours or days and more |
| Dsn.SanitizeIs | internal/bounce/generate.go:164-177 | sanitised text has no CR, LF or NUL and no outer space, and clean text is unchanged |
| Dsn.SanitizeKeeps | internal/bounce/generate.go:164-177 | what is left is the middle of the text, each CR, LF and NUL as one space, and only what would be space is cut off |
| Dsn.StripsEnclosing | internal/bounce/generate.go:155-162 | angle brackets that enclose an address are removed |
| Dsn.StripsNothingElse | internal/bounce/generate.go:155-162 | an address without both is left as it is |
| Dsn.StripsOuterSpace | internal/bounce/generate.go:155-162 | and space around it is no part of it |
| Dsn.FieldsOf | internal/bounce/generate.go:116-140 | a recipient's group has a Status field exactly when its status is valid and a Diagnostic-Code exactly when there are words |
| Dsn.RecipientStatuses | internal/bounce/recipient.go:44-76 | one status per envelope recipient, in order; the recipient a remote answer was about keeps its status, code and words, and no other is given them |
| Dsn.WriteDeliveryStatus | internal/bounce/generate.go:107-143 | the builder loop writes the message's fields and each recipient's, separated by one blank line; an empty report is refused |
| DsnReader.ReaderRecoversReport | internal/bounce/generate.go:107-143 | a reader of section 2.1 of RFC 3464 recovers one message group and exactly one group per recipient, in order, with sanitised address, action, valid status and diagnostic, for arbitrary text |
| DsnReader.FailureIsReported | internal/bounce/recipient.go:44-76 | end to end: each envelope recipient is read back once, and the remote's words only for the one they were about |
| DsnReader.NormalizeIsIdempotent | internal/bounce/generate.go:179-183 | normalising line ends twice is normalising once, and leaves no bare LF |
| DsnReader.NormalizesLineEnds | internal/bounce/generate.go:179-183 | the lines stay what they are and every line end becomes CRLF |
| EnhancedStatus.AcceptedWhen | internal/bounce/status.go:23-74 | the accepted texts are classes 2, 4 and 5 with subject and detail below 1000, in decimal |
| EnhancedStatus.ComponentIs | internal/bounce/status.go:43-54 | a component is accepted if and only if it is the decimal form of a number up to 999 |
| EnhancedStatus.ScanComponent | internal/bounce/status.go:43-54 | the digit scan decides the same |
| EnhancedStatus.ParseIsInverse | internal/bounce/status.go:23-74 | a text parses to a status if and only if the status is valid and prints as that text |
| EnhancedStatus.PrintIsInjective | internal/bounce/status.go:69-74 | no two statuses share a printed form |
| Tokens.ParseIsInverse | internal/auth/apikey.go:132-186 | a text is accepted if and only if it is mx, a 32-digit key id and a 64-digit secret in lower-case hex, and parses to them |
| Tokens.AcceptedWhen | internal/auth/apikey.go:132-186 | which texts of a hundred characters are credentials, character by character |
| Tokens.ReferencesCoincideWhen | internal/billing/renewal.go:173-179 | exactly when two renewal references are the same text |
| Tokens.ReferencesAreDistinct | internal/billing/renewal.go:173-179 | for period ends since 1970 the reference separates tenant, period end and attempt |
| Tokens.NegativePeriodsCollide | internal/billing/renewal.go:173-179 | before 1970 a dash may belong to the tenant or to the number |

## Left out

- Erasure of contacts and messages and the retention purge: rows of recipients and messages are never deleted in the broadcast model, so the erased-recipient path is never taken.
- Tenants: every query is scoped to one tenant, so the broadcast, idempotency and list models have one; renewal has many.
- Messages of POST /v1/emails are not in the broadcast model, nor broadcasts' rows in the idempotency model beyond their creation.
- Rendering, MIME, DKIM, SMTP and file contents: building a message succeeds, fails for good or fails for now, and file contents are not part of this model.
- The rate limiter, backlog counts and plan limits: admission is an arbitrary answer.
- Requests without an Idempotency-Key, whose inserts complete no key.
- Identifier generation, hashing, random bytes and base64: identifiers are fresh numbers, cursors carry their key unencoded, and a presented secret has already been verified.
- Two clocks of one transaction: now() and clock_timestamp() read the same instant, because a transaction is one step.
- Ties in created_at: of equally old recipients any may be claimed, since any set of rows may be locked by others; equally old broadcasts are taken in the order of their identifiers.
- Text identifiers are numbers, standing for their rank in the database's collation.
- last_used_at of API keys, scopes and names: they take part in no decision modelled here.
- Reminders and their mail: a reminder is part of the tenant row, which may change at any time.
- The failure reasons of renewals and the mails about them.
- Time ranges are taken as exact nanoseconds, without the rounding of the database driver.
- The human-readable part, the MIME envelope and the original headers of a bounce; the Arrival-Date text is given, as a line without outer space.
- Invalid UTF-8 in untrusted text, which the Go code replaces character by character.
- BIMI, SPF, DMARC, webhooks, tracking and domain analytics: they would add only one-branch claims.
- Progress.VisitsComplete: a sole expander without backpressure, transient errors or cancellation, each visit after the leases of the one before are over.
- RenewalTheorems.AtMostOneNetCharge: assumes that a charge request has arrived at the gateway before reconcilePending verifies it; without that it is false, as RenewalWitness.StalledRenewerChargesTwice shows.
- IdempotencyReleases.ReleasesOnlyItsOwn: assumes clocks within the staleness window, and that no key is purged at the instant it was claimed; the exact condition is that of IdempotencyReleases.ReleasesAreOwnWhen.
- BroadcastTheorems.MessagesAreBacked: saving is one step there, and saving again succeeds; when the several file operations of Save amount to that is SaveProtocol.SavesAreBackedWhen.
- SaveProtocol.SavesAreBackedWhen: one clock for leases and directory times, and the age of an existing directory can be read; attachments, which broadcasts do not have, are left out, and a removal that fails leaves the directory as it was.
- BroadcastStore.Store.CreateBroadcast: the completion of an idempotency key in the same transaction is that of IdempotencyStore.Store.InsertResource, on the rows of the idempotency model.
- PacedCompletion.CompletionIsSound: for runs that start from an empty installation, without erasure.
- PacedCompletion.ServiceCompletesSoundly: without erasure of recipients during the expansion, like every run of the broadcast model.
- TickProgress.TicksComplete: one expander, nothing failing within a tick, each tick after the leases of the one before are over; between ticks owners may create, cancel and reschedule, members may leave and time passes.
- EffectiveStatus.ReportedStatusIsFinal: for runs whose rows were all written by this code.
