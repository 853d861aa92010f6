# Verified model of the coding harness core

This project models the parts of the coding harness that decide whether a change reaches a
repository safely, and proves what they promise. It is written in Dafny 4.11; `dafny verify
dfyconfig.toml` checks all of it.

## The apply transaction

A change set is written into a target tree behind a write-ahead journal. `Hosts.Host` is the machine:
the target tree (leaf, quarantine and temporary names, directories with identities), the transaction
directory (plan, journal lines, a possibly torn last line, blobs), and a process. A run has a budget of
`faults` and a predicate `frail` on the kinds of steps: while faults are left the process may be killed
before any step, and any frail step may fail; each uses up a fault. All safety results hold for every
budget and every `frail`; a run is undisturbed when it used no fault. Directory create, open and remove
steps can be cut off but do not fail. The steps on a single leaf are proven against foreign content too: they
exchange the expected content and leave any other alone; beyond that nobody else writes to the target. The
ghost field `looked` holds the names read since the tree last changed, and no verdict is given on names
that were not read back.

* `JournalEvidence` states the phase machine and the evidence each phase asks for; `JournalValidators`
  holds the imperative validators, proven to decide exactly that; `ApplyJournals` has the class with the
  record cache; `JournalLaws` and `WriteAhead` prove what holds of whole logs. `JournalStory` gives a second
  account of a readable log, in the plain fields of its records and without the journal's rules: a fresh read
  accepts exactly the logs that give it (`JournalStory.ReadableIsAccounted`).
* `LeafEffects`, `Directories` and `EntryEffects` are the file steps of one entry; `EntryProgress` ties
  the log to where an entry stands, `TransactionTree` ties both to the tree. `Transaction` is the
  invariant that every step of every run keeps.
* `ApplyBackup`, `ApplyEntryStep`, `ApplyRun`, `ApplyRollback` and `Apply` are the coordinator;
  `RecoveryEvidence`, `RecoveryClassify`, `RecoveryUndo`, `RecoveryUndoAll` and `Recovery` the recovery
  coordinator. `Apply.Lifetime` runs one apply and any number of later processes.
* `Changesets`, `Planning` and `Delivery` lead from the comparison of baseline and workspace to the
  plan and from the applied plan back to what the target then holds.

An apply that meets a single fault and is then left alone decides for itself: when the fault struck a
step whose outcome is certain (`ApplyRun.Benign`: the reads of leaves and temporaries, the final checks,
the index and identity reads, and writing and publishing where an original was quarantined), it ends
ROLLED_BACK with the old tree, and without a fault APPLIED (`Apply.ApplyEffects`). Before APPLYING it may
instead ask for recovery, with the tree untouched (`Apply.ApplyPlanned`). The failed write of an addition
has no quarantine to restore from, and the code calls its outcome uncertain and asks for recovery. APPLIED
further needs the index and the change set to read as they were planned: an apply that found another digest
asks for recovery (`ApplyRun.RecheckBoth`).

Asking for recovery is itself recorded: a verdict of that kind leaves RECOVERY_REQUIRED as the latest phase
unless the journal could not be written (`Recovery.RequireRecovery`), and from then on no process moves the
tree or reports a finished transaction (`Apply.Lifetime`).

Recovery is fail-closed. `RecoveryEvidence.Window` lists the states from which it refuses to roll back:
an incomplete temporary or one of the abandoned direction, a created parent without matching evidence,
a created parent left behind by an entry already proven rolled back, nested created parents half
removed, and an index recheck already logged. `Recovery.Recover` proves that undisturbed recovery from
an effect phase succeeds exactly outside these, and `Witnesses.EachWindow` gives for each of the five a
transaction caught in it and in no other. Besides, a torn last line makes the journal unreadable,
and a transaction that never reached APPLYING asks for manual recovery; in both cases the tree is the
one of before or is left alone.

Two facts are worth knowing. `record` checks a non-phase record only by itself: `JournalLaws.AppendRefines`
shows that this is as good as the whole check exactly unless the record rolls back an entry that a
ROLLED_BACK record already proved rolled back, `WriteAhead.ReentryBreaksTheLog` shows how the phase
table would let that happen, and `Witnesses.ReentryHappens` gives a transaction it would happen to. And
the two branches of apply for a changed digest are not reached, because the journal refuses the wrong
digest first (`ApplyRun.MismatchRefused`).

## The other cores

* `Encoding`, `Utf8`, `InputIdentity`, `InputManifest`: the canonical encoding behind the identities of
  ignored inputs, with a decoder; digests are a parameter, collision-free where stated. `IdentityVectors`
  computes the repository's first frozen vector from the model, octet by octet.
* `Leases`: the single execution slot under compare-and-swap, over all interleavings of its owners and a
  store that may fail; every call of a run is answered, and changes the table, exactly as `Leases.Does` says.
* `Approvals`: single-use approvals in a versioned table, used by clients with stale copies. Single use
  over a whole run, whatever clients still do, holds if and only if no accepted recording puts a pending
  row above all rows of an identity that was already consumed or revoked (`Approvals.SingleUseExactly`).
  `record_approval` does not look at the identity, so it accepts such rows: `Approvals.UsedTwice` is a run
  in which one identity is used twice. It cannot happen to callers that keep identity and idempotency key
  together (`Approvals.OneIntentNeverReopens`).
* `Startup`: the scan that decides whether new work may begin, which lease it takes over, and exactly which
  transactions it hands to recovery.
* `Json`, `Normalization`, `FrozenJson`, `Actions`, `Reparsing`: bounded copying of untrusted values,
  freezing, and the parser of structured actions. `ActionRules` states the protocol as a table over the 26
  actions and their parameters, apart from the parser, and proves that the parser accepts exactly what the
  table allows. `ContextPacking`: packing history into a byte budget.
* `Stopping`, `AgentLoops`: the agent loop with arbitrary answers from model, policy, tool, store and clock,
  given as a `World` for all rounds, so that what the loop does and reports is stated from those answers.
  `LoopRules`: what the checks of paths and proposals mean for any action the parser accepts.
* `SyntheticGits`: anchor, index and worktree of the task-local Git compatibility layer.

## Model

| member | source | states |
|---|---|---|
| Delivery.DeliverChangeSet | src/coding_harness/transaction/apply.py:1141-1687 | diff then apply over a whole lifetime: one apply and any number of later processes, each cut off or failing anywhere; APPLIED means the target is the old one overridden by the workspace on exactly the changed paths, ROLLED_BACK means the tree of before, never both, and an unfitting change set touches nothing |
| Delivery.AppliedDelivers | src/coding_harness/transaction/apply.py:1248-1323 | every planned entry new and nothing else moved implies the delivered tree, including which directories appeared |
| Delivery.DeliveredIsWorkspace | src/coding_harness/workspace/changeset.py:471-559 | a target that held the baseline holds the workspace on every path of either |
| Apply.Lifetime | src/coding_harness/transaction/apply.py:1141-1687 | for every plan, every crash point and every sequence of later runs: a ROLLED_BACK verdict leaves the tree of before, an APPLIED one the planned tree, no later run moves the tree again or reports the other; after a run that asked for recovery with a sound journal nothing moves the tree and none gives a terminal verdict; each later run does what it is meant to, so an undisturbed recovery rolls back exactly outside the windows |
| Apply.ApplyPlanned | src/coding_harness/transaction/apply.py:1323-1687 | in-process atomicity for every fault: APPLIED with the planned tree, every planned name read back and index and change set as planned, ROLLED_BACK with the old tree and the old index, or recovery required and recorded as such; undisturbed APPLIED exactly when index and change set did not move, else recovery required; with at most one fault, in a step of certain outcome, APPLIED exactly without it, else ROLLED_BACK or, before any effect was announced, recovery required with the tree untouched |
| Apply.ApplyEffects | src/coding_harness/transaction/apply.py:1428-1687 | from BACKUP_READY on: the same for every fault in writes, reads, re-diff, index read and appends; one fault of certain outcome and no more always ends ROLLED_BACK with the old tree, none always APPLIED unless index or change set moved, which never ends APPLIED |
| Apply.Replay | src/coding_harness/transaction/apply.py:1053-1133 | a repeated request confirms a finished transaction only when tree, index and log bear it out, always does so undisturbed, never changes the tree, and what it cannot confirm is left at RECOVERY_REQUIRED |
| Apply.LaterRun | src/coding_harness/transaction/recovery.py:116-381 | any later process keeps the invariant; outside the two effect phases it leaves the tree and the phase alone or asks for recovery; a transaction blocked before stays blocked; an undisturbed one confirms what is finished and rolls back what is under way exactly outside the windows, if the index did not move |
| Recovery.Recover | src/coding_harness/transaction/recovery.py:116-381 | crash safety and progress of one recovery run: ROLLED_BACK gives the whole old tree, APPLIED the planned one, both only with the planned index; undisturbed from APPLYING or ROLLING_BACK it reaches ROLLED_BACK if and only if no fail-closed window is open, and what it refuses is left at RECOVERY_REQUIRED; finished phases are stable |
| Recovery.RecoverReadable | src/coding_harness/transaction/recovery.py:128-193 | the same dispatch on the latest phase once the log could be read; any other phase ends at RECOVERY_REQUIRED |
| Recovery.RecoverEffects | src/coding_harness/transaction/recovery.py:195-381 | from an effect phase: rolled back with the whole old tree, exactly outside the windows when undisturbed, and only with the index of before; otherwise RECOVERY_REQUIRED is recorded |
| Recovery.ConcludeRollback | src/coding_harness/transaction/recovery.py:342-364 | ROLLED_BACK is recorded only for the whole old tree, with its leaves and artifacts read back and the index of before; undisturbed exactly so unless an index recheck is logged already |
| Recovery.ConfirmApplied | src/coding_harness/transaction/recovery.py:141-163 | APPLIED is confirmed for the planned tree without leftovers, with every name read back and the index as planned; undisturbed exactly if the index did not move, else RECOVERY_REQUIRED is recorded; the tree is not changed |
| Recovery.ConfirmRolledBack | src/coding_harness/transaction/recovery.py:164-187 | ROLLED_BACK is confirmed for the old tree in the same way; the tree is not changed |
| Recovery.RolledBackNoWindow | src/coding_harness/transaction/recovery.py:195-364 | a successful rollback never started in a window: the refusals are exact |
| Recovery.OutsideWindow | src/coding_harness/transaction/recovery.py:223-271 | outside the windows every artifact resolves and every created parent is accounted for |
| Witnesses.EachWindow | src/coding_harness/transaction/recovery.py:195-364 | each reason to refuse occurs alone: a part-written temporary, a created parent without evidence, one left by a reverted entry, nested ones half removed, and an index recheck already logged, each in a state that keeps the whole invariant |
| Witnesses.RecoverStranded | src/coding_harness/transaction/recovery.py:116-381 | from any such state even undisturbed recovery gives no verdict |
| Recovery.RequireRecovery | src/coding_harness/transaction/recovery.py:34-61 | asking for recovery leaves RECOVERY_REQUIRED as the latest phase whenever the journal is readable and was not disturbed, adds at most that record in any case, and never raises undisturbed |
| Recovery.CheckIdentity | src/coding_harness/transaction/apply.py:851-879 | the identity check succeeds in every state of a transaction unless its reads are disturbed |
| RecoveryUndoAll.UndoAll | src/coding_harness/transaction/recovery.py:293-341 | undoing affected entries last to first settles each one, keeps the invariant at every step, and undisturbed removes every created parent |
| RecoveryUndoAll.StepRemovable | src/coding_harness/transaction/recovery.py:294-328 | reverse order makes shared created parents removable: all entries that come later below them are already gone |
| RecoveryUndo.UndoEntry | src/coding_harness/transaction/recovery.py:295-341 | one entry goes from verified to reverting to reverted, or stays where the log says it is |
| RecoveryClassify.ResolveAll | src/coding_harness/transaction/recovery.py:225-231 | after resolving, no entry is in flight and none has a quarantine |
| RecoveryClassify.Classify | src/coding_harness/transaction/recovery.py:233-271 | exactly the entries that still have to be undone are collected, in plan order |
| RecoveryEvidence.AllCreatedParentEvidence | src/coding_harness/transaction/recovery.py:63-91 | for every log the transaction can leave, each created parent has at most one evidence record and it is found |
| RecoveryEvidence.PathsTell | src/coding_harness/transaction/recovery.py:195-222 | the four path sets tell the rollback and apply records of each entry, although created-parent records share the apply stage |
| ApplyBackup.CreateJournal | src/coding_harness/transaction/apply.py:1332-1360 | a created journal holds PREPARING alone; a failed creation leaves a transaction recovery can read, or none |
| ApplyBackup.BackUp | src/coding_harness/transaction/apply.py:1385-1426 | BACKUP_READY is logged only with every original read and every backup stored, with the target untouched |
| ApplyBackup.NothingBeforeApplying | src/coding_harness/transaction/journal.py:628-703 | no effect record exists before APPLYING |
| ApplyRun.ApplyLoop | src/coding_harness/transaction/apply.py:1441-1521 | the loop ends with all entries verified, with a classified failure, or uncertain; in the first two cases it hands over the evidence a rollback needs, unless a temporary is left; one fault of certain outcome never ends uncertain and leaves no temporary |
| ApplyEntryStep.ApplyEntry | src/coding_harness/transaction/apply.py:1444-1521 | one round: published and logged, failed with the entry old or new, or uncertain |
| ApplyRun.VerifyApply | src/coding_harness/transaction/apply.py:1522-1590 | APPLIED is written only for the planned tree, with every planned name read back and both digests as planned; undisturbed, a moved index or change set is never accepted; a refuted check leaves all entries verified, so that they can be rolled back, and one fault of certain outcome is never worse than refuted |
| ApplyRun.RecheckBoth | src/coding_harness/transaction/apply.py:1533-1568 | both rechecks are logged exactly when what was read is what was planned: an undisturbed read of another index or change set is unprovable |
| ApplyRun.FailedClear | src/coding_harness/transaction/apply.py:1466-1521 | after a failure or a refuted check without leftovers, the evidence collected by the loop is all that the rollback needs |
| ApplyRun.ProvenNext | src/coding_harness/transaction/apply.py:1466-1475 | merging the evidence of each round keeps it complete and true for all entries |
| ApplyRun.AppliedAccepted | src/coding_harness/transaction/journal.py:370-445 | with all effects and both rechecks logged, the journal accepts APPLIED |
| ApplyRun.MismatchRefused | src/coding_harness/transaction/journal.py:672-688 | a wrong change set or index digest is refused by the journal itself, so the two mismatch branches of apply are never reached |
| ApplyRollback.RollBackApply | src/coding_harness/transaction/apply.py:1592-1687 | the in-process rollback ends ROLLED_BACK with the whole old tree and the index of before, or asks for recovery and records that; undisturbed, with no temporary in the way and evidence for every created parent, it always ends ROLLED_BACK |
| ApplyRollback.UndoAllApplied | src/coding_harness/transaction/apply.py:1601-1642 | every affected entry is undone last to first; undisturbed and with complete evidence all are, and every created parent is removed |
| LeafEffects.ConditionalLeafEffect | src/coding_harness/transaction/apply.py:414-489 | for every fault and cut the path is done, undone or in flight with its quarantine; a plain failure leaves it exactly old, success exactly new without quarantine; a leaf with other content than expected is never replaced |
| LeafEffects.WriteRegularAtomic | src/coding_harness/transaction/apply.py:319-371 | the leaf is absent or complete, never partial |
| LeafEffects.RestoreQuarantined | src/coding_harness/transaction/apply.py:385-411 | the quarantined content reappears under the leaf or stays quarantined |
| LeafEffects.QuarantineLeaf | src/coding_harness/transaction/apply.py:425-463 | the leaf disappears only once the quarantine holds the expected snapshot; a leaf with other content stays in place |
| EntryEffects.PublishEntry | src/coding_harness/transaction/apply.py:603-695 | an entry is published with evidence of exactly the parents made for it; a certain failure leaves the entry and its parents as they were |
| EntryEffects.PublishInto | src/coding_harness/transaction/apply.py:603-695 | once the parents stand: the leaf is exchanged exactly if it is the expected one, and read back |
| EntryEffects.RestoreEntry | src/coding_harness/transaction/apply.py:698-786 | restoring leads back to the old snapshot and removes only proven parents |
| EntryEffects.ResolveArtifacts | src/coding_harness/transaction/apply.py:882-982 | artifact resolution from every crash point, in both directions: it fails closed, or the path is exactly old or exactly new with no quarantine and no temporary of the current direction |
| Directories.OpenParent | src/coding_harness/transaction/apply.py:126-173 | only allowed parents are created, each with its identity as evidence |
| Directories.RemoveCreatedParents | src/coding_harness/transaction/apply.py:560-600 | only the listed directories go, innermost first, and only while empty and unchanged |
| Inspection.VerifyLeaves | src/coding_harness/transaction/apply.py:789-809 | true only if every listed entry shows its snapshot |
| Inspection.ArtifactsAbsent | src/coding_harness/transaction/apply.py:812-848 | true only if no quarantine or temporary is left; undisturbed, exactly then |
| Inspection.IdentityKept | src/coding_harness/transaction/apply.py:851-879 | in every reachable tree the recorded directory identities still match |
| TransactionTree.SafeStep | src/coding_harness/transaction/apply.py:603-695 | a step on one entry moves nothing outside the plan |
| TransactionTree.RestoredTree | src/coding_harness/transaction/apply.py:799-809 | all entries and created parents restored and nothing else moved is the whole old tree |
| TransactionTree.AppliedIsApplied | src/coding_harness/transaction/apply.py:789-848 | all entries new, no artifacts and nothing else moved is the planned tree |
| TransactionLog.Commit | src/coding_harness/transaction/journal.py:890-989 | an append adds exactly one accepted record or none and keeps the invariant, wherever it is cut |
| JournalLaws.AppendRefines | src/coding_harness/transaction/journal.py:890-989 | append refinement, exactly: a record accepted by the incremental check keeps the whole log valid if and only if it is not a rollback record of an entry already proven rolled back |
| JournalLaws.AppendStaysValid | src/coding_harness/transaction/journal.py:929-938 | in logs without ROLLED_BACK the incremental check is as good as the whole one |
| JournalStory.ReadableIsAccounted | src/coding_harness/transaction/journal.py:334-625 | a fresh read accepts exactly the logs that give a plain account of themselves: numbered in a row, phases on their course, phase records sealed and resting on their evidence in order, every other record saying what the phase above it lets it say |
| JournalStory.AdmittedIsCourse | src/coding_harness/transaction/journal.py:334-356 | the phase machine admits exactly such runs: some forward steps from PREPARING towards APPLIED, then requests for recovery, rollbacks begun from APPLYING or on request, and their ends |
| JournalStory.EveryRecordTells | src/coding_harness/transaction/journal.py:565-703 | in any readable log nothing is backed up but while preparing, touched but while applying, undone but while rolling back, and nothing happens under another phase |
| JournalStory.AppliedWasRechecked | src/coding_harness/transaction/journal.py:370-445 | between APPLYING and APPLIED change set and index were read and found as planned |
| WriteAhead.ReentryBreaksTheLog | src/coding_harness/transaction/journal.py:334-356 | entering ROLLING_BACK again after ROLLED_BACK is allowed by the phase table and lets an accepted append make any such log unreadable |
| Witnesses.ReentryHappens | src/coding_harness/transaction/journal.py:334-356 | any rolled back addition has a readable log in which this re-entry is accepted and spoils it |
| JournalLaws.PrefixClosed | src/coding_harness/transaction/journal.py:370-625 | every prefix of a valid log is valid although evidence is sought in the whole log |
| JournalLaws.PhaseStrict | src/coding_harness/transaction/journal.py:334-356 | forward phases are never entered again |
| WriteAhead.WriteAheadOrder | src/coding_harness/transaction/journal.py:334-492 | in any valid log with APPLIED each forward phase stands once and each entry has backup pending < backup verified < BACKUP_READY < APPLYING < effect pending < created parents < effect verified < APPLIED, each exactly once |
| WriteAhead.RollbackOrder | src/coding_harness/transaction/journal.py:493-562 | in any valid log with ROLLED_BACK each verified effect has exactly one pending and one verified rollback after it and before it |
| EntryProgress.AppendSound | src/coding_harness/transaction/journal.py:628-703 | the per-entry chain of records that makes rollback evidence unique is kept by every orderly append |
| EntryProgress.AppendMoves | src/coding_harness/transaction/journal.py:628-703 | an orderly append moves an entry one step along untouched, effecting, effected, reverting, reverted |
| EntryProgress.RolledBackAccepted | src/coding_harness/transaction/journal.py:493-562 | with every entry settled, ROLLED_BACK is accepted exactly if one index recheck is logged: a second one closes the door |
| JournalValidators.ValidateBackupEvidence | src/coding_harness/transaction/journal.py:448-490 | the dictionary-filling validator accepts exactly the declarative evidence |
| JournalValidators.ValidateAppliedEvidence | src/coding_harness/transaction/journal.py:370-445 | the same for the applied evidence |
| JournalValidators.ValidateRolledBackEvidence | src/coding_harness/transaction/journal.py:493-562 | the same for the rollback evidence |
| JournalValidators.ValidateRecordSequence | src/coding_harness/transaction/journal.py:565-625 | the whole-log loop accepts exactly the valid logs |
| ApplyJournals.ApplyJournal.Records | src/coding_harness/transaction/journal.py:834-883 | what the cache returns is what stands in the file; a read that does not come from the cache returns only an empty or a valid log, and undisturbed it returns every valid one |
| ApplyJournals.ApplyJournal.ReadPhase | src/coding_harness/transaction/journal.py:886-888 | the cached phase is that of a fresh read |
| ApplyJournals.ApplyJournal.Record | src/coding_harness/transaction/journal.py:890-989 | appends exactly the accepted record, keeps cache and file equal, and refuses everything else unchanged |
| Hosts.Host.AppendLine | src/coding_harness/transaction/journal.py:140-147 | an append may write nothing, a part of the line, or the line |
| Planning.PlanEntries | src/coding_harness/transaction/apply.py:1253-1321 | a plan is made exactly if every change still fits target and workspace (undisturbed); every missing parent is owned by the first entry that needs it |
| Planning.PlanOne | src/coding_harness/transaction/apply.py:1253-1321 | one entry carries out its change and owns only unclaimed missing parents |
| Planning.FindMissingParents | src/coding_harness/transaction/apply.py:513-521 | exactly the missing parents, outermost first; a file in the way is an error |
| Planning.PlanHolds | src/coding_harness/transaction/models.py:110-303 | the plan meets every invariant that the transaction needs: orders from one, no path twice, canonical order of the entries, owned parents, and no entry where another needs a directory |
| Changesets.ComputeChangeset | src/coding_harness/workspace/changeset.py:471-559 | the change set is the ordered difference of the two maps |
| Changesets.EmptyIffEqual | src/coding_harness/workspace/changeset.py:471-559 | it is empty exactly if baseline and workspace agree |
| Changesets.PatchIsCurrent | src/coding_harness/workspace/changeset.py:493-541 | patching the baseline with it gives the workspace |
| Changesets.InverseUndoes | src/coding_harness/workspace/changeset.py:493-541 | and the inverse leads back |
| Changesets.DiffUnique | src/coding_harness/workspace/changeset.py:486-559 | two maps have only one change set, so comparing digests compares differences |
| Changesets.CanonicalInjective | src/coding_harness/workspace/paths.py:27-66 | a path is known by its canonical text |
| Encoding.Varuint | src/coding_harness/workspace/ignored.py:149-158 | the loop computes unsigned LEB128 |
| Encoding.VaruintMinimal | src/coding_harness/workspace/ignored.py:149-158 | it is the shortest encoding any reader accepts and the only one of its length |
| Encoding.RoundTrip | src/coding_harness/workspace/ignored.py:161-208 | a decoder recovers any nested value from its encoding followed by arbitrary bytes, and leaves those |
| Encoding.EncodingPrefixFree | src/coding_harness/workspace/ignored.py:161-208 | the encoding is injective and prefix-free |
| Encoding.StreamInjective | src/coding_harness/workspace/ignored.py:211-212 | a stream tells its domain and its root |
| Utf8.TextRoundTrip | src/coding_harness/workspace/ignored.py:184-185 | UTF-8 decoding undoes encoding |
| Utf8.SameOrder | src/coding_harness/workspace/ignored.py:343-351 | code-point order and UTF-8 byte order of texts coincide (section 1 of RFC 3629) |
| InputIdentity.Validate | src/coding_harness/workspace/ignored.py:225-298 | a request is accepted exactly if it is as it must be; a refusal names a true fault |
| InputIdentity.OrderIndependent | src/coding_harness/workspace/ignored.py:312-368 | permuting the entries does not change the stream |
| InputIdentity.StreamBinds | src/coding_harness/workspace/ignored.py:312-368 | accepted requests with equal streams agree on everything but limits and entry order; the previous revision is forced by the new one |
| InputIdentity.IdentityBinds | src/coding_harness/workspace/ignored.py:312-368 | with a collision-free digest identities are equal exactly for such requests |
| IdentityVectors.ExpectedVector | tests/fixtures/workspace/wp11_identity_v1_vector1.annotated.txt:54-112 | the model's two streams for this request are the frozen 119 and 332 octets |
| InputIdentity.CodePointOrderAgrees | src/coding_harness/workspace/ignored.py:463-512 | the two sort keys in use order the same |
| InputManifest.MadeManifestValid | src/coding_harness/workspace/ignored.py:1019-1059 | for entries with any stages: exactly without a conflict a manifest is made; it is valid, carries the given identity, baseline, workspace and approval, the next revision, and the entries of before with the new one |
| InputManifest.ManifestBinds | src/coding_harness/workspace/ignored.py:440-496 | valid manifests with equal digests are equal |
| InputManifest.StreamsApart | src/coding_harness/workspace/ignored.py:134-136 | the three kinds of streams never coincide |
| Leases.LeaseService.DoAcquire | src/coding_harness/persistence/lease.py:225-295 | granted only into a free slot with a new id; the new table is stated whole |
| Leases.LeaseService.DoHeartbeat | src/coding_harness/persistence/lease.py:297-366 | granted only to the active holder at its revision |
| Leases.LeaseService.DoMarkExpired | src/coding_harness/persistence/lease.py:368-419 | only an active lease past the timeout becomes pending |
| Leases.LeaseService.DoRelease | src/coding_harness/persistence/lease.py:421-493 | granted only to the active holder with all three proofs |
| Leases.LeaseService.DoAcquireRecovery | src/coding_harness/persistence/lease.py:495-589 | ends exactly the pending lease of the same task and run and grants its successor, in one step |
| Leases.Interleaving | src/coding_harness/persistence/lease.py:225-589 | over every interleaving, with a store that may fail: every call is answered and changes the table as its table of conditions says, leases only move forward, never reopen, revisions strictly rise, a superseded owner never gets a heartbeat or release through, and an expired lease ends only by the recovery that takes over from it |
| Leases.OneOpen | src/coding_harness/persistence/lease.py:154-168 | at most one lease is open |
| Leases.ExecutionFollowsRelease | src/coding_harness/persistence/lease.py:225-493 | each execution lease after the first follows a release with all three proofs |
| Leases.RecoverySucceedsItsOwn | src/coding_harness/persistence/lease.py:495-589 | a recovery lease succeeds exactly the lease it ended, of the same task and run |
| Leases.ExpiredSucceeded | src/coding_harness/persistence/lease.py:368-589 | an expired lease is succeeded only by a recovery lease, of the same task and run |
| Leases.StaysSuperseded | src/coding_harness/persistence/lease.py:297-366 | once superseded, always superseded |
| Approvals.ConsumeApproval | src/coding_harness/domain/approvals.py:492-547 | permitted exactly for a pending, bound, unexpired approval at the presented revision in its own context |
| Approvals.RevokeApproval | src/coding_harness/domain/approvals.py:550-574 | permitted exactly for a pending approval |
| Approvals.ApprovalStore.RecordApproval | src/coding_harness/persistence/sqlite_store.py:606-661 | records once for each task and idempotency key |
| Approvals.ApprovalStore.UpdateApproval | src/coding_harness/persistence/sqlite_store.py:663-723 | appends the next version only to the latest row at the expected revision |
| Approvals.ApprovalStore.Use | src/coding_harness/domain/approvals.py:492-574 | a committed use was of the latest, pending row; the whole new table is stated |
| Approvals.SingleUseExactly | src/coding_harness/persistence/sqlite_store.py:606-723 | over every run, single use holds for good if and only if no accepted recording puts a pending row above all rows of an identity already used |
| Approvals.RevokingReopened | src/coding_harness/domain/approvals.py:550-574 | after such a recording the next revocation is accepted and is a second use |
| Approvals.UsedTwice | src/coding_harness/persistence/sqlite_store.py:606-661 | a run of record, revoke, record, revoke that uses one identity twice |
| Approvals.OneIntentNeverReopens | src/coding_harness/persistence/sqlite_store.py:606-661 | callers that record each identity under one task and idempotency key never meet it |
| Approvals.Interleaving | src/coding_harness/domain/approvals.py:492-574 | many clients holding stale copies, over a store that may fail: the calls that took effect form a run, every answer is the one that run calls for, and without a reopening recording each identity is used at most once |
| Startup.Scan | src/coding_harness/application/startup_recovery.py:524-863 | execution is permitted exactly when the gate is open; recovery is delegated for exactly the candidates that the taken lease covers and whose matching journal blocks, in order; undisturbed, the open lease is taken over exactly when it is ripe or already pending, and every finding is accounted for, and each reason has one |
| Startup.GateMeans | src/coding_harness/application/startup_recovery.py:738-863 | an open gate has no blocking journal, and for every candidate transaction a journal of the same transaction, reference, phase and, if known, plan digest |
| Startup.ReviewLease | src/coding_harness/application/startup_recovery.py:612-707 | any open lease blocks; undisturbed it is taken over exactly if expired or pending, of a known task and run and with a new owner and name; the whole table is stated |
| Startup.ExpireOpen | src/coding_harness/application/startup_recovery.py:634-640 | an open lease becomes pending exactly past its timeout |
| Startup.TakeOver | src/coding_harness/application/startup_recovery.py:641-670 | the pending lease ends and its successor starts in one step, exactly when the lease can be recovered |
| Startup.ReviewCandidates | src/coding_harness/application/startup_recovery.py:738-844 | a finding blocks exactly for a candidate that is not clear; exactly the delegable candidates are delegated, in order |
| Startup.WaitingBlocks | src/coding_harness/application/startup_recovery.py:300-464 | a waiting task blocks exactly if its wait is not provably safe; the kind and the decision of its finding follow from the same evidence |
| Json.WeightIsLength | src/coding_harness/agent/actions.py:268-350 | the counted weight is the length in UTF-8 of the compact JSON text with the escapes of section 7 of RFC 8259 |
| Normalization.JsonStringSize | src/coding_harness/agent/actions.py:268-285 | the string counter computes the weight, and refuses exactly NUL and surrogates |
| Normalization.CopyJsonValue | src/coding_harness/agent/actions.py:288-350 | a copy succeeds exactly within all limits, equals the value, and charges exactly its size |
| Normalization.Normalize | src/coding_harness/agent/actions.py:353-390 | the byte counter of a whole input is the length of its compact JSON text |
| FrozenJson.ThawFreeze | src/coding_harness/agent/actions.py:163-176 | thaw undoes freeze up to the order of keys |
| FrozenJson.FreezeCanon | src/coding_harness/agent/actions.py:163-168 | freezing does not see the order of keys |
| FrozenJson.CostCanon | src/coding_harness/agent/actions.py:288-350 | nor does the size |
| Reparsing.ReparseSame | src/coding_harness/agent/actions.py:635-683 | parsing what any parsed action gives back always succeeds with the same action |
| Reparsing.ParseIgnoresOrder | src/coding_harness/agent/actions.py:635-683 | the order of the five fields does not matter |
| Actions.ParseAction | src/coding_harness/agent/actions.py:635-683 | the steps of the parser compute the function whose accepted inputs the next two rows decide exactly |
| ActionRules.AllowedIsAccepted | src/coding_harness/agent/actions.py:530-683 | everything the protocol allows is accepted: the right five fields, for each of the 26 actions its parameters with their bounds, its class and result, and a budget with a positive amount, within the size limits |
| ActionRules.AcceptedIsAllowed | src/coding_harness/agent/actions.py:530-683 | and nothing else is: any accepted input is such a request, and the action is made of its parts |
| ActionRules.AcceptedKeys | src/coding_harness/agent/actions.py:530-614 | the parameters of any accepted action lie between what its type requires and what it allows; its class and result are those of its type |
| ActionRules.ChangesNameTheirDigest | src/coding_harness/agent/actions.py:542-566 | an accepted replace_file, apply_patch or delete_file carries the digest of what it expects |
| ActionRules.NoCommandsMeans | src/coding_harness/agent/actions.py:471-487 | the recursive check for command fields finds them at any depth |
| ActionRules.BoundedMeans | src/coding_harness/agent/actions.py:490-510 | free-form parameters are those nested at most sixteen deep without such fields |
| ContextPacking.Build | src/coding_harness/agent/context.py:113-212 | the result is the longest history suffix whose whole encoding fits, measured exactly, marked truncated exactly if something was dropped; the consistency failure is never reached |
| ContextPacking.LongerIsLarger | src/coding_harness/agent/context.py:174-194 | keeping more attempts takes more bytes, which makes the greedy choice the longest |
| ContextPacking.EnvelopeCost | src/coding_harness/agent/context.py:159-169 | the envelope costs the same whatever it holds |
| AgentLoops.Run | src/coding_harness/agent/loop.py:275-435 | every run ends with rounds and tool calls within the limits, every tool call behind a persisted attempt and an exact policy consent of the same round; its trace is the one the answers of the ports call for, round by round; an allowed control action ends the run with the reason of its type, AWAITING_APPROVAL for a plan exactly with an acceptable proposal; COMPLETED exactly when told, NO_PROGRESS only after a trailing run as long as the limit |
| AgentLoops.Consult | src/coding_harness/agent/loop.py:318-352 | the policy is asked about a snapshot that is the action itself, exactly for an action that was stored, answered and parsed and whose paths are acceptable; the events of the round follow from the answers |
| AgentLoops.UseTool | src/coding_harness/agent/loop.py:386-403 | a tool is called exactly for investigation tools, and its answer is what the round reports |
| AgentLoops.EndWithControl | src/coding_harness/agent/loop.py:354-384 | report_blocked, stop_with_failure and stop_without_safe_action end BLOCKED, FAILED and CANCELLED, the three requests await approval, and a plan does exactly with an acceptable proposal |
| AgentLoops.PlayRound | src/coding_harness/agent/loop.py:316-401 | a round ends in one attempt, or ends the run for the reason its answers give |
| AgentLoops.OnlyLooks | src/coding_harness/agent/loop.py:34-48 | of all tool actions exactly those that change nothing can be called |
| LoopRules.EveryPathChecked | src/coding_harness/agent/loop.py:179-193 | for any accepted action the agent may carry out, the check passes exactly if every path in its parameters is acceptable |
| LoopRules.ProposalAnswersAll | src/coding_harness/agent/loop.py:96-120 | a plan has an acceptable proposal exactly if that answers each of the six parts and has no other |
| LoopRules.ProposalWithinLimit | src/coding_harness/agent/loop.py:99-108 | the byte limit of a proposal is never reached: it is a part of an input within that limit |
| Stopping.CountIsTrailingRun | src/coding_harness/agent/stopping.py:318-333 | the progress count is the length of the trailing run of equal observations |
| Stopping.CountRestarts | src/coding_harness/agent/stopping.py:318-333 | with changing states too: a new signature or state starts the count again |
| Stopping.StopsWhenStuck | src/coding_harness/agent/stopping.py:126-140 | counting and stopping together: without another reason to stop, the agent goes on until its latest observations, as many as the limit says, are all the same; then it stops for lack of progress |
| SyntheticGits.SyntheticGit.Stage | src/coding_harness/workspace/synthetic_git.py:571-589 | stages all paths or none; accepted exactly for readable, known paths |
| SyntheticGits.SyntheticGit.Unstage | src/coding_harness/workspace/synthetic_git.py:592-611 | unstages all paths or none |
| SyntheticGits.SyntheticGit.Status | src/coding_harness/workspace/synthetic_git.py:551-559 | reports exactly the paths at which anchor and index, or index and worktree, differ |
| SyntheticGits.SyntheticGit.Diff | src/coding_harness/workspace/synthetic_git.py:562-564 | reports exactly the tracked paths at which index and worktree differ |
| SyntheticGits.SyntheticGit.Between | src/coding_harness/workspace/synthetic_git.py:511-531 | the loop finds exactly the differing paths |
| SyntheticGits.Run | src/coding_harness/workspace/synthetic_git.py:626-668 | each request is accepted exactly under its own conditions and reports exactly its paths; one that is not accepted changes nothing, and no request changes other paths |
| SyntheticGits.CleanStatus | src/coding_harness/workspace/synthetic_git.py:551-559 | status is empty exactly if anchor, index and worktree agree |
| SyntheticGits.StagedLeaveDiff | src/coding_harness/workspace/synthetic_git.py:562-589 | staged paths leave the unstaged changes and no other path moves |
| SyntheticGits.UnstageRestores | src/coding_harness/workspace/synthetic_git.py:567-611 | unstaging the cached diff restores the anchor, and all its paths are known |
| SyntheticGits.StageAll | src/coding_harness/workspace/synthetic_git.py:551-589 | staging what status reports makes the index the worktree |
| SyntheticGits.UnstageUndoesStage | src/coding_harness/workspace/synthetic_git.py:571-611 | unstaging undoes staging where the index held the anchor |
| SyntheticGits.Session | src/coding_harness/workspace/synthetic_git.py:626-668 | over any run of requests and outside edits the index holds only what the anchor or some state of the worktree held |

## Left out

- File descriptors, fsync ordering, inode checks while a directory is open, O_NOFOLLOW, ownership and modification times: each file system call is one atomic step that succeeds, fails, or is where the process dies.
- SHA-256: digests are injective; an index or change set digest is an abstract value that stays constant unless a fault changes it.
- Limits on journal size and number of records, plan file size, blob size and path length, and the JSON form of plan and journal lines: records are values and a partly written line is a flag.
- Outside writers to the target during a transaction, and failing directory steps: a directory is noted only after it was reopened and removal errors are swallowed, so neither can be accounted for.
- Detail texts of records are reduced to those the journal recognises; reason strings of results are dropped.
- The checks before planning (confirmation, conflict report, blocking transactions) and the comparison of a repeated request with its first form: they only refuse.
- Baseline capture, file inspection and the walk of the workspace with its limits: both start from given maps.
- Actions.Parse: which error is reported, and its field path, is not modelled; normalisation and case folding of keys are the parameter `forbidden`. Non-string keys and failing mappings count as unsupported values.
- Normalization.Normalize: the text of a JSON input is taken as already decoded, so only the counting of the decoded value is covered.
- AgentLoops.Run: the lexical path check and the observation signature are parameters.
- Approvals.ConsumeApproval: the checks against plan, contract and policy record are the parameter `bound`.
- Startup.Scan: a scan that meets an error of the lease store, or more than a thousand findings, gives no report; persisting findings, recording observations, and the order, identifiers and texts of findings; enumeration of journals and the workspace probe are inputs.
- Leases.LeaseService.OpenLease: the check of a decoded row for well-formed columns, since the model's rows are values.
- InputManifest.ManifestBinds: the identity in the header is a digest, as callers make it; any other text with a hexadecimal reading is told apart only up to that reading.
- SyntheticGits.SyntheticGit.Diff: as Between, names the changed paths only, without counting added and removed lines.
- SyntheticGits.SyntheticGit.Between: compares what two maps hold at each path; the line statistics of feedback are display only.
- SyntheticGits.SyntheticGit.Status: added and removed lines of feedback, symbolic links, and how the worktree is scanned.
- SyntheticGits.UnstageRestores: one request takes at most ten thousand paths, so a larger cached diff needs several.
- InputIdentity.Validate: checks of Python types are covered by the datatypes.
- Materialising an ignored input into the workspace, the task state machine, the policy engine, budgets, Docker, providers, configuration and preflight.
