# Verification of the settlement-instruction platform

A Dafny 4.11 model of the platform's services and the properties it rests on:

* the append-only version store behind instruction-service and payment-service, with its
  transactions and security events;
* the instruction and payment lifecycles, joined by the SINGLE_USE saga, as interleaved steps with
  crashes, lost replies and delayed requests;
* the graph that ssi-indexer projects from version rows: CURRENT, SUPERSEDES, lifecycle,
  CONFLICTS_WITH and CONSUMED edges;
* sequence identifiers, the policy-clearing fixpoint, the brace matcher, the merged audit feed and
  the two pairs of inventory summaries.

`dafny verify dfyconfig.toml` checks the whole project.

## How it is laid out

| layer | files |
|---|---|
| text, order, lists, results | `Text`, `SortedNames`, `Lists`, `Wrappers` |
| version store | `VersionStore` (rows as values), `Storage` (documents and the collection object), `StoreTransactions` (concurrent transactions), `StoreClock` (when intervals partition time), `SecurityEvents` (events and their match with rows) |
| instruction-service | `InstructionLifecycle` (operations and event log), `InstructionService` (service object) |
| payment-service | `PaymentLifecycle` (checks and mutations), `PaymentLog` (event log), `PaymentRows` (the log over stored versions), `PaymentService` (service object) |
| saga | `Saga` (the interleaved machine), `SagaSafety` (invariant), `SagaTheorems` (results), `SagaApproval` (one approval per instruction), `SagaScripts` and `PaymentCalls` (uninterrupted calls as runs), `SagaRelease` and `SagaHolders` (when an instruction can still be given back), `InstructionLog` (the instructions' event log over serial runs), `SagaLimits` (witnesses) |
| indexer | `Facts`, `Graph` (one transaction as a function), `GraphWriter` (the writer object), `GraphChain`, `GraphLifecycle`, `GraphConflicts`, `GraphConsumption`, `GraphPayments` (payment edges against the stores) |
| the rest | `Sequences`, `PolicySeed`, `BraceMatcher`, `AuditFeed`, `Summaries` |

Objects whose methods change stored state are classes (`VersionCollection`, `InstructionService`,
`PaymentService`, `Neo4jWriter`, `SequenceRepository`, `SequenceService`); each method is proved equal
to a function of the old state, and the properties are lemmas about those functions and their runs.
`PaymentService` carries a ghost saga state in its invariant, next to the match of mutation events with
rows: every call is proved to be a run of the interleaved machine, so the saga results hold of the stored rows
(`StoredHolderIsUnique`, `StoredApprovalIsUnique`, `StoredHoldIsFinal`).

What a service call does is stated twice: as one step of the machine, for the results about runs, and in the fields
of the rows, replies and events, with every guard, error and constant written out. The functions the machine shares
with the services (`Apply`, `Active`, `ReleasesOnEnd`, the edge maps, ..) are pinned by the second form.

Modelling choices that decide what the statements mean:

* **Policy decisions** are arbitrary inputs (`allowed`, `mayView`, `mayUse`).
* **Serial writes.** `append_version` does not compare the row it closes with the row the service
  read. `Step(s, a, serial)` has a flag: with `serial` set, a write happens only while the row that was
  read is still open. Store results need no such hypothesis; saga safety does, and
  `StaleWriteBreaksSafety` and `StalePaymentWriteBreaksSafety` are the runs that show why. Calls on different entities always interleave freely.
* **Messages.** Nothing is retried. A USE or RELEASE_USE request, once sent, is served at most once, at any
  later time, unless it is lost or refused. `sent` remembers every request, `pending` holds those that may
  still be served. Only payment-service sends them.
* **Facts** carry an arbitrary `open` flag, because the backfill of existing rows may deliver closed
  copies as well as open ones.

## What the proofs found

* **Intervals can overlap under concurrency.** `append_version` reads the clock before it looks for
  the open row (instruction-service/src/inst/repository.py:62-72). With two writers a row can be closed
  before it starts, even with a clock that never runs backwards: `StaleClockBreaksPartition`. The exact
  condition, over whole runs, is `RunPartitionsTimeIff`: every commit reads a clock value no older than the
  start of the row it closes. A clock that never goes back and calls on one entity that do not overlap are enough
  (`OneAtATimePartitionsTime`).
* **The release promised when a payment ends can be lost for good.** payment-service/README.md:70 promises it.
  `HolderReleasableIff` says for every holder exactly when its instruction can still be given back: a SUBMITTED
  holder always can; an APPROVED one never; a DRAFT only while the submit that used the instruction can still
  finish; an ended one only while its one release is due, on its way, or being served from the row that is still
  open (`ReleasableIff`, `StuckForever`). Five families hold it for good:
  * a system cancel: payment-service/src/ps/service.py:1041 passes no token, so the client raises and the error
    is swallowed (`ExpiredApprovalStrandsInstruction`);
  * a submit that stops after USE leaves the instruction USED by a DRAFT payment (`CrashLeavesDraftHolder`), and
    cancelling that payment does not release it (`NoReleaseIsDue`). USED therefore does not imply that the holder
    is SUBMITTED or APPROVED; the converse holds (`ClaimIsHeld`);
  * a user's reject or cancel that stops between its own write and the request
    (`CrashAfterRejectStrandsInstruction`);
  * a release that is refused or lost: payment-service/src/ps/instruction_client.py:140-165 posts it once and
    payment-service/src/ps/service.py:1070 swallows the failure (`RefusedReleaseStrandsInstruction`);
  * a USE that arrives after the payment was submitted again, rejected and released: the instruction is USED by a
    REJECTED payment that has spent its release (`LateUseStrandsInstruction`).
* **Only the type test at approval guards old snapshots.** A payment drafted while the instruction was STANDING
  is submitted without USE even if the instruction has become SINGLE_USE since; it can never be APPROVED
  (`ApprovedHasInstructionType`), so approvals are unique whatever the snapshots (`AtMostOneEverApproved`).
* **Overlapping calls** can end with two APPROVED payments on one SINGLE_USE instruction. One write out of turn is
  enough, on the instruction (`StaleWriteBreaksSafety`) or on the payment (`StalePaymentWriteBreaksSafety`).
* **Consumption edges depend on CURRENT.** The WHERE clause of the payment query drops the row, so
  CONSUMED is written only by a submit fact that becomes current (`ConsumedExactly`, `LateSubmitNeverLinks`).
  In the orderly case it says what the two stores say (`ConsumptionMatchesStores`).
* **A replayed draft can forge a conflict** with an account the instruction no longer has
  (`ReplayedDraftForgesLink`). `LinkedExactly` says which links arbitrary deliveries leave behind, and
  `AllLinksSoundIff` that they are all real exactly when no delivery found a rival with terms its own current
  version does not have. Delivery in order per instruction never does (`InOrderNeverForges`,
  `ConflictsMatchBruteForce`).
* **The two instruction summaries disagree about CANCELLED rows**: the scoped one skips them, the
  aggregated one counts them (`InstructionSummariesAgreeIff`).
* **The audit page can miss events** when it asks for more than 500 and one source has more than 500 of
  them (`ListEvents` states exactly when).
* payment-service/README.md:64 says that create requires an APPROVED instruction; the code accepts DRAFT,
  SUBMITTED and APPROVED ones (payment-service/src/ps/service.py:114-123), and the model follows the code.

## Model

| member | source | states |
|---|---|---|
| Text.DecimalReadsBack | sequence-service/src/seq/formatting.py:20-21 | printing a number in decimal loses nothing |
| Text.NoLeadingZero | sequence-service/src/seq/formatting.py:20-21 | a printed number other than 0 does not start with 0 |
| Text.KeyedInjective | instruction-service/src/inst/storage.py:17-18 | a key made of text, separator and number determines both parts, whatever the text contains |
| Text.KeyedSplits | instruction-service/src/inst/storage.py:21-22 | splitting at the last separator gives the text back |
| Storage.DocumentKeyInjective | instruction-service/src/inst/storage.py:17-18 | one document key per entity and version, for arbitrary identifiers |
| Storage.EntityRecovered | payment-service/src/ps/storage.py:21-22 | the entity id is recovered from the document key |
| Storage.FilterSelectsExactly | instruction-service/src/inst/repository.py:37-39 | the id filter matches every row of its entity and no row of any other |
| Storage.RowRoundTrip | instruction-service/src/inst/storage.py:44-88 | row to document to row is the identity for clocks before the open marker; the key text and the marker are those of the source |
| Storage.VersionCollection.FindOpen | instruction-service/src/inst/repository.py:63-66 | the query finds the entity's open row, or there is none |
| Storage.VersionCollection.FindAllOpen | payment-service/src/ps/repository.py:141-152 | exactly one document per entity with an open row |
| Storage.VersionCollection.GetCurrent | instruction-service/src/inst/repository.py:110-131 | the open row, or not found exactly when there is none |
| Storage.VersionCollection.InsertInitial | instruction-service/src/inst/repository.py:41-54 | version 1 is inserted, a second one is refused, chains stay chains |
| Storage.VersionCollection.AppendVersion | instruction-service/src/inst/repository.py:56-108 | without other writers: closes row n and inserts row n+1, or fails leaving the rows untouched |
| VersionStore.VersionsAreOneToN | instruction-service/src/inst/repository.py:70-98 | a well-formed store has versions exactly 1..n per entity, with only n open |
| VersionStore.OnlyOneOpen | instruction-service/src/inst/repository.py:127-131 | an entity has at most one open row and it is the newest |
| VersionStore.AppendKeepsChains | payment-service/src/ps/repository.py:54-109 | closing row n and inserting n+1, open and with the given content and start, keeps every chain intact |
| VersionStore.PartitionIffStartsInOrder | instruction-service/src/inst/storage.py:44-61 | the intervals of an entity partition time from its creation exactly when starts never decrease |
| VersionStore.AppendKeepsPartitionIff | instruction-service/src/inst/repository.py:62-97 | one append keeps the partition exactly when its clock reading is not older than the row it closes |
| StoreTransactions.EveryRunKeepsTheStore | instruction-service/src/inst/repository.py:56-108 | for any number of concurrent calls, aborts included: versions are 1..n with only n open, and events and recorded rows are in bijection |
| StoreTransactions.FindReadsTheOpenRow | instruction-service/src/inst/repository.py:63-68 | a call finds the open row of its entity, whichever it is, or fails for want of one, and writes nothing |
| StoreTransactions.OneWinnerPerRow | payment-service/src/ps/repository.py:76-101 | of all calls that read the same open row at most one commits |
| StoreTransactions.LoserNeverWrites | instruction-service/src/inst/repository.py:90-106 | a call that lost its row can only end in ConcurrentModificationError or an abort, with rows and events untouched |
| StoreTransactions.LosersNeverCommit | instruction-service/src/inst/repository.py:99-106 | that stays so over every continuation |
| StoreTransactions.OutcomesAreFinal | instruction-service/src/inst/repository.py:90-108 | a call that committed, aborted or failed keeps that outcome for good |
| StoreTransactions.EveryOtherLoses | payment-service/src/ps/repository.py:76-101 | once one call commits, every other call that had read the same row has lost it, now and in every continuation |
| StoreTransactions.RowsStayForever | instruction-service/src/inst/repository.py:79-98 | rows never disappear, never change content or start, and never change at all once closed |
| StoreTransactions.RunPartitionsTimeIff | instruction-service/src/inst/repository.py:62-97 | over a run, all entities' intervals partition time exactly when every commit was in clock order |
| StoreClock.OneAtATimePartitionsTime | instruction-service/src/inst/repository.py:62-97 | with a clock that never goes back and calls on one entity that do not overlap, every entity's intervals partition time |
| StoreTransactions.StaleClockBreaksPartition | instruction-service/src/inst/repository.py:62-72 | a run with a monotone clock in which a row is closed before it starts |
| StoreTransactions.UncontendedAppendSucceeds | instruction-service/src/inst/service.py:337-369 | a call nobody races appends exactly one version and its event |
| SecurityEvents.EventKeepsMatch | payment-service/src/ps/service.py:329-360 | a version written together with its event keeps mutation events and recorded rows in bijection; a denial's event adds nothing |
| InstructionLifecycle.GuardsFollowAutomaton | instruction-service/src/inst/service.py:442-1020 | the operations' status guards are exactly the steps of the documented lifecycle, plus the holder check of release |
| InstructionLifecycle.ApplyAgreesWithLog | instruction-service/src/inst/service.py:371-399 | each operation extends the log by its own event and keeps status, usage count and holder what the log implies |
| InstructionLifecycle.ApplyKeepsStamps | instruction-service/src/inst/service.py:757-920 | approver, rejecter, suspender, rejection reason and holder are those of the last such event in the log |
| InstructionLifecycle.NewAgreesWithLog | instruction-service/src/inst/service.py:401-437 | a new instruction agrees with its one-event log |
| InstructionLifecycle.DraftLogFitsBothTypes | instruction-service/src/inst/service.py:454-463 | the type may change in DRAFT because a DRAFT's log never used the instruction |
| InstructionLifecycle.RouteFinalAfterDraft | instruction-service/src/inst/service.py:454-455 | once out of DRAFT, no operation changes the route or returns to DRAFT |
| InstructionService.ServeKeepsInv | instruction-service/src/inst/service.py:337-399 | every call keeps chains, logs and the match of mutation events with rows |
| InstructionService.EveryHistoryReplays | instruction-service/src/inst/service.py:322-399 | so does every sequence of calls |
| InstructionService.StoredRowsReplay | instruction-service/src/inst/service.py:322-335 | version n carries n events that extend version n-1's and replay to its status, usage count, holder and stamps |
| InstructionService.InstructionService.PersistNewVersion | instruction-service/src/inst/service.py:371-399 | appends one version with the event recorded, and its security event unless excluded |
| InstructionService.InstructionService.Create | instruction-service/src/inst/service.py:401-440 | the first version in full, or the exact error, denial and duplicate included; one security event except for a duplicate |
| InstructionService.InstructionService.Update | instruction-service/src/inst/service.py:442-486 | DRAFT only, then authorized; written and returned: the requested route replaces the old one, nothing else moves; the errors, and the one security event of a denial or success, are exact |
| InstructionService.InstructionService.Cancel | instruction-service/src/inst/service.py:488-533 | DRAFT or SUBMITTED only, then authorized; written and returned: CANCELLED with its time; the errors, and the one security event of a denial or success, are exact |
| InstructionService.InstructionService.Submit | instruction-service/src/inst/service.py:722-755 | DRAFT only, then authorized; written and returned: SUBMITTED with its time; the errors, and the one security event of a denial or success, are exact |
| InstructionService.InstructionService.Approve | instruction-service/src/inst/service.py:757-799 | SUBMITTED only, then authorized; written and returned: APPROVED with approver and time; the errors, and the one security event of a denial or success, are exact |
| InstructionService.InstructionService.Reject | instruction-service/src/inst/service.py:801-846 | SUBMITTED only, then authorized; written and returned: REJECTED with rejecter, time and reason; the errors, and the one security event of a denial or success, are exact |
| InstructionService.InstructionService.Suspend | instruction-service/src/inst/service.py:848-884 | APPROVED only, then authorized; written and returned: SUSPENDED with suspender and time; the errors, and the one security event of a denial or success, are exact |
| InstructionService.InstructionService.Reactivate | instruction-service/src/inst/service.py:886-920 | SUSPENDED only, then authorized; written and returned: APPROVED again, the suspension cleared; the errors, and the one security event of a denial or success, are exact |
| InstructionService.InstructionService.Use | instruction-service/src/inst/service.py:922-968 | APPROVED only, then authorized; written and returned: one use more, and USED by the payment when SINGLE_USE; the errors, and the one security event of a denial or success, are exact |
| InstructionService.InstructionService.ReleaseUse | instruction-service/src/inst/service.py:970-1020 | for the holder of a USED SINGLE_USE instruction only, then authorized; written and returned: APPROVED with no holder and one use less; the errors, and the one security event of a denial or success, are exact |
| SagaSafety.HeldInstructionIsNotWritten | instruction-service/src/inst/service.py:922-1020 | while the payment that used a SINGLE_USE instruction lives, no accepted operation can write the instruction |
| SagaSafety.RunKeepsInv | payment-service/src/ps/service.py:580-895 | the saga invariant survives every interleaving of steps, crashes and delayed requests |
| SagaTheorems.AtMostOneHolder | payment-service/src/ps/service.py:580-691 | in every reachable state at most one SUBMITTED or APPROVED payment with a SINGLE_USE snapshot stands against a SINGLE_USE instruction, which is USED by it |
| SagaTheorems.ClaimIsHeld | payment-service/src/ps/service.py:630-664 | such a payment's recorded version is the instruction's current one |
| SagaTheorems.SettledForever | payment-service/src/ps/service.py:693-757 | once such a payment is APPROVED neither row is ever written again |
| SagaTheorems.OnlyDatesCancelSagaPayments | payment-service/src/ps/service.py:165-228 | at approval of a saga payment the version, status and type tests always pass: only dates can cancel it |
| SagaTheorems.VersionCountsAppends | instruction-service/src/inst/repository.py:70-98 | the version number grows by exactly the appends of a run |
| SagaTheorems.ApprovalPassesExactlyWhen | payment-service/src/ps/service.py:165-228 | the check passes exactly when nothing was appended since the recorded version, the status backs the payment, the dates hold and the types match |
| SagaTheorems.ReleaseRestoresInstruction | payment-service/src/ps/service.py:1049-1068 | a reject or cancel whose release arrives gives the instruction back: APPROVED, no holder, usage count restored |
| SagaApproval.ApprovedHasInstructionType | payment-service/src/ps/service.py:220-226 | an APPROVED payment is of its instruction's final type, whatever type it was drafted with |
| SagaApproval.ApprovedIsUnique | payment-service/src/ps/service.py:693-757 | in every reachable state at most one payment, of whatever snapshot, is APPROVED on a SINGLE_USE instruction, and it holds it |
| SagaApproval.AtMostOneEverApproved | payment-service/src/ps/service.py:693-757 | once one payment is APPROVED on an instruction that is or becomes SINGLE_USE, no other is APPROVED then or later, whatever its snapshot, and both rows stay as they are |
| SagaRelease.HolderBelongs | payment-service/src/ps/service.py:630-664 | whoever holds an instruction is a payment drafted against it as SINGLE_USE |
| SagaRelease.StuckForever | payment-service/src/ps/service.py:1009-1078 | when a payment has ended with no release due, on its way or being served, its instruction is never written again |
| SagaRelease.NoReleaseIsDue | payment-service/src/ps/service.py:1009-1078 | that is so after a system cancel, or the cancel of a draft that already used the instruction |
| SagaRelease.ReleasableIff | payment-service/src/ps/service.py:1049-1078 | an ended payment's instruction can still be given back exactly while its one release is due, on its way, or being served from the row still open |
| SagaHolders.HolderReleasableIff | payment-service/src/ps/service.py:580-895 | for every holder exactly when the instruction can still be given back: DRAFT while its submit can finish, SUBMITTED always, APPROVED never, ended as above |
| SagaHolders.EndingGivesBack | payment-service/src/ps/service.py:759-895 | a SUBMITTED holder that is rejected, or cancelled by its user, and whose request is served, leaves the instruction APPROVED with no holder and no use |
| InstructionLog.InstructionLogsReplay | instruction-service/src/inst/service.py:371-399 | in every state of a serial run each instruction is what its event log says |
| SagaScripts.SubmitSucceeds | payment-service/src/ps/service.py:580-691 | left alone, the submit saga ends with instruction USED and payment SUBMITTED against that version |
| SagaScripts.ApproveRuns | payment-service/src/ps/service.py:693-757 | an uninterrupted approve either approves or cancels as the system, as the check says |
| SagaLimits.PayInFull | payment-service/src/ps/service.py:428-757 | draft, submit and approve can go through, and change nothing else |
| SagaLimits.StaleWriteBreaksSafety | instruction-service/src/inst/service.py:848-920 | one instruction write out of turn, from a reachable state, and two payments end APPROVED on one SINGLE_USE instruction |
| SagaLimits.StalePaymentWriteBreaksSafety | payment-service/src/ps/service.py:693-757 | the same with one payment write out of turn: an approve over a row rejected and released meanwhile |
| SagaLimits.ExpiredApprovalStrandsInstruction | payment-service/src/ps/service.py:1041-1078 | a reachable state with nothing in flight whose instruction is held by a system-cancelled payment in every continuation |
| SagaLimits.CrashAfterRejectStrandsInstruction | payment-service/src/ps/service.py:793-813 | the same for a user's reject that stopped after its own write |
| SagaLimits.RefusedReleaseStrandsInstruction | payment-service/src/ps/service.py:1061-1078 | the same for a user's reject whose release was received and refused |
| SagaLimits.LateUseStrandsInstruction | payment-service/src/ps/service.py:630-664 | the same for a USE served after its payment was submitted again, rejected and released |
| SagaLimits.CrashLeavesDraftHolder | payment-service/src/ps/service.py:630-664 | the same for a DRAFT payment whose submit stopped after USE |
| PaymentLog.WrittenAgrees | payment-service/src/ps/service.py:362-425 | every write extends the payment's log by one entry and keeps status and stamps what the log says |
| PaymentLifecycle.ViewsThatBack | payment-service/src/ps/service.py:109-228 | which statuses, dates, versions and types of an instruction back a draft, a submit and an approval |
| PaymentLog.PaymentLogsReplay | payment-service/src/ps/service.py:409-425 | in every reachable state version n of a payment has n entries after the one of Payment.create, replaying to its status, submitter, approver, rejecter and canceller |
| PaymentRows.RowsShareTheLog | payment-service/src/ps/service.py:409-425 | the logs of a payment's stored versions are the prefixes of the newest one |
| PaymentCalls.DirectCallRuns | payment-service/src/ps/service.py:515-578 | an uninterrupted update, approve or STANDING submit is a run of the saga with exactly one new version |
| PaymentCalls.SystemCancelRuns | payment-service/src/ps/service.py:708-732 | so is the system cancel, the missing instruction included |
| PaymentCalls.EndCallRuns | payment-service/src/ps/service.py:759-895 | so are reject and cancel, with the release request sent exactly when one is due |
| PaymentCalls.ReleaseRuns | payment-service/src/ps/service.py:1063-1068 | serving the release request is a run that writes only the instruction |
| PaymentService.PaymentService.GetCurrent | payment-service/src/ps/service.py:1080-1084 | the current payment, or not found exactly when there is none |
| PaymentService.PaymentService.GetInstruction | payment-service/src/ps/instruction_client.py:94-108 | the current instruction; missing before forbidden |
| PaymentService.PaymentService.RecordDenial | payment-service/src/ps/service.py:284-327 | a denied call by a recorded subject adds exactly one unsuccessful event with its action, subject and version, and nothing else |
| PaymentService.PaymentService.Persist | payment-service/src/ps/service.py:329-360 | the store gains exactly the payment's next version, closing the one before, together with its security event |
| PaymentService.PaymentService.Create | payment-service/src/ps/service.py:428-511 | the error of each failing guard in the order of the guards; on success the caller is handed version 1, stored, with every field given, and one CREATE event is noted; otherwise nothing changes but the event of a denial |
| PaymentService.PaymentService.Update | payment-service/src/ps/service.py:515-576 | the same for update: a DRAFT of the same instruction, which is backed and not expired; written are the requested amount and value date and the recorded version |
| PaymentService.PaymentService.ListAssociated | payment-service/src/ps/repository.py:131-160 | the newest 100 open rows of the instruction's payments |
| PaymentService.SiblingCheckIsExact | payment-service/src/ps/service.py:135-154 | with at most 100 payments on the instruction, a DRAFT is refused exactly when another payment of the instruction is DRAFT or SUBMITTED |
| PaymentService.ListingIsDetermined | payment-service/src/ps/repository.py:131-160 | beyond 100 the listing is determined unless rows of the instruction share a time |
| PaymentService.PaymentService.MarkUsed | payment-service/src/ps/service.py:630-664 | the USE request and its fates: not permitted by policy, refused because the instruction is no longer APPROVED, unreachable, reply lost, acknowledged and re-read |
| PaymentService.PaymentService.Submit | payment-service/src/ps/service.py:580-691 | the error of each failing guard, two unfinished payments among the newest 100 included; on success the stored SUBMITTED version is returned, its fields given, and the instruction USED by it when SINGLE_USE; the only failure with an effect is a lost USE reply, after which the instruction is USED and the payment still DRAFT |
| PaymentService.PaymentService.Approve | payment-service/src/ps/service.py:693-757 | APPROVED, or cancelled by the system when version, status, type or dates of the instruction no longer fit; the stored version is returned with its fields, the errors and the event are exact |
| PaymentService.PaymentService.CancelBySystem | payment-service/src/ps/service.py:1009-1047 | cancels without authorization and without a release |
| PaymentService.PaymentService.Reject | payment-service/src/ps/service.py:759-813 | the error of each failing guard; otherwise the stored REJECTED version is returned, and, if granted, an instruction it holds is APPROVED again with no holder and no use |
| PaymentService.PaymentService.Cancel | payment-service/src/ps/service.py:815-894 | the same for DRAFT or SUBMITTED payments and CANCELLED |
| PaymentService.PaymentService.TryRelease | payment-service/src/ps/service.py:1049-1078 | frees the instruction exactly when the ended payment was submitted as SINGLE_USE, holds it, and the request is sent with a token and granted; refused or not, the one request is spent |
| PaymentService.PaymentService.OperateInstruction | instruction-service/src/inst/service.py:442-920 | a user's operation between payment calls: its exact reply, and its effect as a run of the saga |
| PaymentService.PaymentService.StoredHolderIsUnique | payment-service/src/ps/service.py:580-757 | at-most-one-holder, stated of the rows stored after any calls |
| PaymentService.PaymentService.StoredApprovalIsUnique | payment-service/src/ps/service.py:693-757 | at most one stored open row is APPROVED on a SINGLE_USE instruction, whatever the snapshots, and the instruction's open row is USED by it |
| PaymentService.PaymentService.StoredHoldIsFinal | payment-service/src/ps/service.py:1049-1078 | after any calls, a stored USED instruction can still be given back exactly when its holder's open row is SUBMITTED |
| PaymentService.PaymentService.StoredPaymentReplays | payment-service/src/ps/service.py:409-425 | every stored version, after any calls, is what its log says, and that log is the newest one cut after its entry |
| Facts.VersionKeyInjective | ssi-indexer/src/etl/neo4j_client.py:55-61 | version node keys identify the version for arbitrary identifiers |
| Facts.EdgeNamesAreDistinct | ssi-indexer/src/etl/graph_model.py:9-19 | every action but UPDATE has its own edge type |
| Facts.OperationEdge | ssi-indexer/src/etl/mongo_cdc.py:42-110 | the fact of a row an operation wrote asks for that operation's edge, from the user of the call |
| Facts.CreationEdge | ssi-indexer/src/etl/graph_model.py:54-89 | the same for creation |
| GraphLifecycle.EdgesFollowRows | ssi-indexer/src/etl/graph_model.py:9-19 | once all facts of an instruction are processed, each of the nine named edges runs from a user to a version exactly when the stored row shows that act of that user: its status, its last event, and its stamp where it has one |
| GraphWriter.Neo4jWriter.PassesWhere | ssi-indexer/src/etl/neo4j_client.py:722-735 | some matched row passes the CURRENT clause exactly when the fact advances |
| GraphWriter.Neo4jWriter.MarkCurrent | ssi-indexer/src/etl/neo4j_client.py:736-741 | the old CURRENT edges go, the new one and the current properties come |
| GraphWriter.Neo4jWriter.MergeConflicts | ssi-indexer/src/etl/neo4j_client.py:807-832 | both directions for every rival found, and nothing else |
| GraphWriter.Neo4jWriter.UpsertInstructionFact | ssi-indexer/src/etl/neo4j_client.py:602-870 | the statements of the transaction, one after the other, amount to one graph step |
| GraphWriter.Neo4jWriter.UpsertPaymentFact | ssi-indexer/src/etl/neo4j_client.py:1022-1235 | the same for payment facts, consumption skipped when the row was dropped |
| GraphWriter.Neo4jWriter.Consume | ssi-indexer/src/etl/neo4j_client.py:819-863 | after a sequence of deliveries the stored graph is their projection |
| GraphChain.CurrentConverges | ssi-indexer/src/etl/neo4j_client.py:722-742 | for any order and repetition each root has at most one CURRENT edge, to the highest open version delivered, with that version's properties |
| GraphChain.CurrentNeverRegresses | ssi-indexer/src/etl/neo4j_client.py:1104-1125 | CURRENT never moves to a lower version |
| GraphChain.AdvancesByStatusAndVersion | ssi-indexer/src/etl/neo4j_client.py:722-735 | for arbitrary facts and statuses: which open facts become current |
| GraphChain.CurrentMatchesStore | ssi-indexer/src/etl/graph_model.py:36-39 | once the open row's fact has arrived, CURRENT, status text, version and holder are the store's |
| GraphChain.PaymentCurrentMatchesStore | ssi-indexer/src/etl/neo4j_client.py:1104-1125 | the same for payment roots: CURRENT, status text and version |
| GraphChain.SupersedesExactly | ssi-indexer/src/etl/neo4j_client.py:715-720 | SUPERSEDES is exactly k to k-1 for each delivered version k above 1 |
| GraphChain.NodesAreNamed | ssi-indexer/src/etl/neo4j_client.py:715-720 | a version has a node exactly when it or its successor was delivered, and the node is bare until its own fact comes |
| GraphChain.WalkVisitsEveryVersion | ssi-indexer/src/etl/neo4j_client.py:661-665 | with 1..n delivered in any order, walking from CURRENT visits n, n-1, .., 1 |
| GraphLifecycle.LifecycleExactly | ssi-indexer/src/etl/neo4j_client.py:833-842 | lifecycle edges are exactly those the delivered facts ask for |
| GraphLifecycle.LogMatchesStore | instruction-service/src/inst/service.py:322-399 | the operations served and the rows stored determine each other |
| GraphLifecycle.EdgesAreTheOperationLog | ssi-indexer/src/etl/neo4j_client.py:833-842 | once all facts of an instruction are processed, in any order and with repeats, its edges are exactly the successful non-UPDATE operations, each from its user |
| GraphPayments.RowEdge | ssi-indexer/src/etl/mongo_cdc.py:113-178 | the edge of a payment row is that of its last log entry, from the entry's actor, whichever field the rules read |
| GraphPayments.PaymentFactAsksFor | ssi-indexer/src/etl/graph_model.py:92-105 | the five payment edges and the legacy action names, with the user each takes, for arbitrary facts |
| GraphPayments.PaymentEdgesFollowRows | ssi-indexer/src/etl/graph_model.py:21-33 | the same as EdgesFollowRows for the five payment edge types |
| GraphPayments.PaymentEdgesAreTheLog | ssi-indexer/src/etl/graph_model.py:21-33 | once all facts of a payment are processed, in any order and with repeats, its edges are exactly the non-UPDATE entries of its stored log, each from its user |
| GraphConflicts.ConflictsAreSymmetric | ssi-indexer/src/etl/neo4j_client.py:807-820 | CONFLICTS_WITH is symmetric and irreflexive for any deliveries |
| GraphConflicts.NodeShowsRow | ssi-indexer/src/etl/neo4j_client.py:679-697 | the node of a delivered version shows the stored status, account and currency |
| GraphConflicts.ConflictsAreComplete | ssi-indexer/src/etl/neo4j_client.py:807-820 | for any order and repeats, active current versions that share account and currency are linked |
| GraphConflicts.LinkedExactly | ssi-indexer/src/etl/neo4j_client.py:807-832 | for any order and repeats, two instructions are linked exactly when some delivery of one ran its query while both current versions were active and the other's terms equalled the delivered fact's |
| GraphConflicts.LinkIsSoundIff | ssi-indexer/src/etl/neo4j_client.py:807-832 | for any order and repeats, a link is a real clash of the current versions exactly when no delivery found the other with terms its own current version lacks |
| GraphConflicts.AllLinksSoundIff | ssi-indexer/src/etl/neo4j_client.py:807-832 | so the whole relation is real exactly when no delivery forges |
| GraphConflicts.ActiveLinkedIff | ssi-indexer/src/etl/neo4j_client.py:807-820 | active current versions are linked exactly when they share account and currency or a delivery forged the link |
| GraphConflicts.InOrderNeverForges | instruction-service/src/inst/service.py:454-455 | in per-instruction order no delivery forges, because terms are final after DRAFT |
| GraphConflicts.LinksAreSound | instruction-service/src/inst/service.py:454-455 | in per-instruction order every link is a real clash of the current versions |
| GraphConflicts.ConflictsMatchBruteForce | ssi-indexer/src/etl/neo4j_client.py:807-832 | in per-instruction order, two active current versions are linked exactly when they share account and currency |
| GraphConflicts.ReplayedDraftForgesLink | ssi-indexer/src/etl/neo4j_client.py:807-832 | without that order a stale fact links instructions that share nothing |
| GraphConsumption.ConsumedExactly | ssi-indexer/src/etl/neo4j_client.py:1135-1145 | for any order and repeats, the edges exist exactly when some submit that became current is not followed by a release |
| GraphConsumption.RootsAreNamed | ssi-indexer/src/etl/neo4j_client.py:1127-1133 | a root exists exactly when a fact of it was delivered or a payment version against it became current |
| GraphConsumption.OrderlyConsumption | ssi-indexer/src/etl/neo4j_client.py:843-858 | with ordered topics and submits before releases: exactly when submitted and never released |
| GraphPayments.ConsumptionMatchesStores | ssi-indexer/src/etl/neo4j_client.py:843-858 | once both streams have drained in that order: exactly when the store has a SUBMIT version of the payment and no RELEASE_USE version naming it |
| GraphConsumption.LateSubmitNeverLinks | ssi-indexer/src/etl/neo4j_client.py:1110-1145 | a submit that arrives behind a newer open version never creates the edges |
| Sequences.CompactDateInjective | sequence-service/src/seq/formatting.py:8-9 | the printed date determines the date |
| Sequences.PrintedParts | sequence-service/src/seq/formatting.py:8-25 | the printed parts of both kinds of identifier, I for instructions and P for payments |
| Sequences.TwoDigitsReadBack | sequence-service/src/seq/formatting.py:8-9 | month and day are printed as the two-digit numerals of their numbers |
| Sequences.CounterKeysDistinguish | sequence-service/src/seq/formatting.py:16-25 | different requests never share a counter, even with hyphens in the line of business |
| Sequences.IdentifiersAreDistinct | sequence-service/src/seq/service.py:22-52 | all identifiers printed by both endpoints, in any interleaving, are pairwise distinct |
| Sequences.CounterHandsOutOneToK | sequence-service/src/seq/repository.py:36-55 | a counter advanced k times has handed out each of 1..k exactly once and nothing else |
| Sequences.SequenceRepository.AllocateNext | sequence-service/src/seq/repository.py:36-55 | the counter after an atomic increment with upsert, and the number returned |
| Sequences.SequenceService.Next | sequence-service/src/seq/service.py:22-52 | the number is the next of its counter, the identifier is printed in its parts and differs from all before |
| SortedNames.Sorted | opa-policy-seed/upload_policies.py:133 | the elements of a set in strictly ascending order, for any total order |
| PolicySeed.ClearPolicies | opa-policy-seed/upload_policies.py:122-147 | terminates against every server within one deleting pass per policy; gives up only when every remaining policy was refused by the requests of the last pass; a server that refuses nothing sees the delete order once |
| PolicySeed.DeleteOrder | opa-policy-seed/upload_policies.py:130-133 | the preferred policies still loaded in their listed order, then all others ascending |
| PolicySeed.LeftoverIsLargestBlockedSet | opa-policy-seed/upload_policies.py:139-145 | what a dependency-checking server leaves is the largest set of policies that block each other |
| PolicySeed.ClearAgainstDependencies | opa-policy-seed/upload_policies.py:122-147 | so the outcome does not depend on the preferred order, and all is cleared exactly when nothing blocks |
| PolicySeed.RankedNeverBlocked | opa-policy-seed/upload_policies.py:75-91 | without import cycles no set of policies blocks itself |
| PolicySeed.AcyclicClears | opa-policy-seed/upload_policies.py:75-91 | so without import cycles everything is cleared |
| PolicySeed.ClearAcyclicPolicies | opa-policy-seed/upload_policies.py:122-147 | without import cycles everything is cleared, within one pass per policy, for every preferred order |
| BraceMatcher.SliceObjectBody | opa-policy-seed/validate_policy_catalog.py:37-49 | the body of the one matched object that starts there; none exactly when no matched object starts there |
| BraceMatcher.RenderedMatches | opa-policy-seed/validate_policy_catalog.py:41-48 | nested text returns to depth zero and never dips below it |
| BraceMatcher.Parse | opa-policy-seed/validate_policy_catalog.py:41-48 | text with that property is nested text |
| AuditFeed.SortDescIsStableSort | audit-service/src/audit_console/repository.py:66 | newest first, a permutation, equal timestamps in their given order |
| AuditFeed.SortOfBoth | audit-service/src/audit_console/repository.py:61-66 | sorting both collections together is merging the two sorted feeds |
| AuditFeed.FeedsHold | audit-service/src/audit_console/repository.py:56-66 | every stored event of the wanted severity is listed as often as it is stored, of one source or of both, newest first |
| Text.AtMostByFirstDifference | audit-service/src/audit_console/repository.py:66 | text is ordered by its first difference, a prefix before its extensions |
| AuditFeed.CutIsHarmlessIff | audit-service/src/audit_console/repository.py:59-64 | cutting both feeds at p leaves a page intact exactly when it holds at most p of each |
| AuditFeed.ListEvents | audit-service/src/audit_console/repository.py:49-67 | the page is the merge of the newest 500 of each source; its newest 500 always equal the full merged feed; the whole page does exactly when it holds at most 500 of either source |
| Summaries.AggregatedPaymentSummary | payment-service/src/ps/repository.py:162-194 | the sorted table of statuses of all live rows, each bucket counting the rows of that line of business and status by position, with their number |
| Summaries.ScopedPaymentSummary | payment-service/src/ps/service.py:945-963 | the same of the visible rows that are not CANCELLED among the newest 10,000 |
| Summaries.PaymentSummariesAgreeIff | payment-service/src/ps/service.py:934-963 | the two agree exactly when every live row is visible and among the newest 10,000 |
| Summaries.AggregatedInstructionSummary | instruction-service/src/inst/repository.py:156-211 | cells, both marginals and total all count the same rows, each bucket by position |
| Summaries.ScopedInstructionSummary | instruction-service/src/inst/service.py:644-697 | the same of the visible rows that are not CANCELLED among the newest 10,000 |
| Summaries.TotalsEqualMarginals | instruction-service/src/inst/service.py:675-697 | total, sum of cells and sum of either marginal are equal |
| Summaries.InstructionSummariesAgreeIff | instruction-service/src/inst/service.py:630-697 | the two agree exactly when every row is visible, among the newest 10,000 and not cancelled |

## Left out

- The Rego policies and what they decide: every decision is an arbitrary input.
- Authentication, tokens, HTTP routes and clients; kept is only that a release without a user token is never sent.
- The dead-letter queue, retries and offset commits of the indexer.
- Embeddings, vector documents and search text.
- The audit (security-event) writer of the graph.
- Root properties that any fact overwrites (`owning_lob`, `instruction_type`, `currency`, `wire_scope`), HAS_VERSION, HAS_PAYMENT, FOR_INSTRUCTION, OWNED_BY, BELONGS_TO and REPORTS_TO edges, user nodes, and the remaining version-node properties.
- Date-string parsing: dates are times, missing or unparseable, and clocks are integers before the open marker.
- Amounts are integers that nothing here computes with.
- The status EXPIRED: none of the modelled operations produces it.
- The legacy `_id` shape of old documents.
- `_ordered_policies`, the upload order of the policy seed.
- Retries after ConcurrentModificationError, and the loss of a whole database.
- Text of error messages and of the system's cancellation reasons: one fixed reason stands for all.
- PaymentService.PaymentService.MarkUsed: the fates of the request are those of one call; later service of a delayed request is in the saga machine, not in the service object.
- SagaTheorems.AtMostOneHolder: assumes serial writes, which the code does not enforce.
- GraphWriter.Neo4jWriter.Consume: facts have a nonempty id; the early return for an empty one is in the two upsert methods only.
- AuditFeed.ListEvents: the order of equal timestamps inside a cursor is taken to be fixed, and a missing timestamp reads as the empty text.
- Storage.VersionCollection.AppendVersion: states the call without other writers; concurrent writers are in `StoreTransactions`.
- BraceMatcher.SliceObjectBody: braces inside Rego string literals count as braces, as in the code.
