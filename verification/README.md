# hukou: crash recovery, activation lineage and version store

hukou replaces executables on disk. Every change goes through a write-ahead journal, every activation is recorded in an
append-only lineage in the manifest, and rollback copies live in an immutable store. This project models that core in
Dafny and proves what it promises: that a machine may stop anywhere, also inside recovery, without leaving a mixture of
old and new; that the lineage is an undo stack; that pruning never takes what a rollback can still reach; and that the
checkers beside the core (repair planning and the audit) say what the core does.

`dafny verify dfyconfig.toml` checks everything.

## How it is modelled

**The disk** (`Disk.dfy`) has a visible and a durable layer. `Slot` is what a reader sees at a path. `Fates` is what a crash
may leave of an entry as long as its directory stays: the visible entry, entries whose directory was not synced, and torn
data that was not synced. A directory that is lost takes everything below it along, so `Outcomes` adds absence whenever
some directory above is not there for good (`Firm`), and `Crashed(d, d')` relates a disk to every coherent disk the next
process may find. The journal directory has a name that a crash may take back (`Stages`), and so has the COMMIT marker
(`Markers`). The operations are the durable-step vocabulary of `internal/durablefs`: each changes a directory entry and
then syncs the directory, and each may fail or be cut off before, between and after these two steps. After a stop every
later step fails, so one method covers every crash point inside it. A file system that is `Steady` injects no failure;
clauses that start with it say when an operation must succeed.

**The protocol** (`Journal`, `JournalDir`, `EmptyParents`, `Converge`, `Recovery`, `Capture`, `Transactions`, `Attempts`)
follows `internal/transaction`. `Safe` is its invariant. `Steered` adds that every attempt can only end on one side.
`Recovery.Run` folds the turns of a fault-free recovery over the participants: it says which tree comes out and which
directories get synced, and with them whether recovery succeeds (`Completes`) and whether the result stays (`Supported`).
`Completion` says in closed form when a run completes and which directories it leaves, and `Reversals` why a transaction of
the commands can always be taken back.

**Reading through links** (`Views`): a symbolic link is followed through the tree, by hukou's own files too. A `Ledger` is
what the manifest says, together with the tools that are vouched for and the paths reading each of them comes across.

**The commands** (`ManifestFile`, `Additions`, `Commands`, `Activate`, `Tools`, `StoreDirs`, `Originals`, `Session`,
`Limits`) run adopt, upgrade and rollback as transactions over a live file, the backup of the original, and the manifest.
`Honest` says that the manifest is there for good and agrees, for good, with the live file of every tool that is vouched
for; `Consistent` that the disk is honest at rest or inside a transaction that leads to one of two honest ends.
`Originals` prepares the directories of the backup before the transaction. `Session.Run` is the end-to-end statement over
any sequence of commands and crashes: its steps name the disk that each command starts on, the one recovery makes of that,
the one its transaction begins on and the one it leaves, from the first disk of the run to the last.

**The lineage** (`Names`, `Lineage`, `LineageChecks`, `Activation`, `Entry`, `RollbackCommand`, `Drain`) refines the event
log to a stack of versions, `Undo` replays steps over such a stack, and `Policy` chooses the release that an upgrade
pushes. **The store** (`Versions`, `Retention`) models put, plan, revalidation and prune, and rollback availability over
whole runs. **The checkers** are `Repair` and `Doctor`; **residue** in the transaction root is `Residue`. `AssetPick`,
`TarSelect` and `SpeedMeter` are the three smaller algorithms.

Digests are an injective function of content. A manifest file is a document with a schema version, so encoding is
injective; normalisation and validation are run by both encoders, and that they write the same document is proved.

Hypotheses: the data root, in which the transaction root lies, is there for good; one process holds the mutation lock;
nobody else writes managed paths or what is read through them while a command runs; managed paths, the manifest and its
backup do not nest (`Layout`, `Flat`), which the commands arrange by where they put them. A request lies apart from
everything managed, and what it changes is there for good where it is made: the manifest and the live file that is
switched, in directories that are, and of the backup its own entry and what is above the store (`Session.Placed`).
Nothing tests this at run time, and it asks no more than that about each request of a run
(`Session.WhatIsPlacedMayBeAsked`). Where a command is said to leave the disk at rest without faults, the manifest lies in
a directory that is never pruned, as the data root is. A tool that is vouched for always meets it (`Session.VouchedIsPlaced`), and the file
that is adopted need not.

## What the proofs found

- **Recovery can succeed and lose the file with its directory.** `MkdirAll` takes existing directories for durable. When an
  earlier attempt made one and stopped before the sync, the retry installs the file, syncs only the file's own directory
  and removes the journal; then power loss takes directory, file and evidence together. `Attempts.UnsyncedDirectory` gives
  the disk, `Attempts.LostWithItsDirectory` the loss. After a successful recovery the decided side is there for good if and
  only if every existing directory on the way to a participant that is to be there was there for good or lies in a
  directory that the run itself syncs (`Recovery.Recover`, by `Supported`). It always holds after a crash, which settles
  what it leaves (`Recovery.CrashSupports`), so only an attempt in the same boot as the failed one is affected. The
  commands are not: they write below settled directories, their rollback only puts files back where they were
  (`Managed.RollBackIsSupported`), and the store syncs every level below its own root again (`StoreDirs.PavedIsFirm`).
- **A fault-free recovery can fail, depending on the order of the participants.** It succeeds if and only if every
  participant is known, and each one that is gone already still has its directory when its turn comes: something has been
  installed below it, or it is there and never pruned, or something in it stays (`Completion.CompletesExactly`,
  `Completion.RecoverExactly`; this for links that lead to no participant, and `Recovery.Recover` by the fold of the turns
  for all). Two absent participants in one directory that holds nothing else cannot be completed when one is still there:
  removing it prunes the directory whose sync would make the other's absence final (`Attempts.SiblingsCannotComplete`,
  `Attempts.SiblingStrands`, `Attempts.StrandedSiblings`).
- **The commands do not meet this case.** Their transactions can be taken back at every moment
  (`Reversals.ReversibleCompletes`, `Activate.Undo`): without faults a command is carried out or leaves the disk at rest,
  ready for the next one (`Activate.Transact`, `Session.Command`). This is not said of a live file that is itself a link
  leading to the manifest. Adoption refuses such a file because the manifest is not executable, a check that is not
  modelled, and no tool that is vouched for has one (`Tools.VouchedIsStraight`).
- **The decision can still flip while the marker is not synced.** At any moment of Commit, every retry reads the visible
  decision if and only if the marker is not fully visible or is synced (`Journal.DecisionIsStable`); in between both
  readings occur (`Attempts.StopBeforeSync`). Safety does not need it: whichever is read, one complete side is reached. A
  decision to roll back is never revised (`Journal.RollBackIsFinal`).
- **Upgrading one tool can falsify the record of another.** Adopt does not resolve links, so a managed link may lead to the
  file of another tool. After a switch every other vouched tool reads the new content if and only if it was read through
  the switched file, and its recorded content otherwise (`Tools.OthersReadExactly`). All tools stay vouched for if and
  only if nobody else was read through it (`Tools.NobodyIsLost`). `Limits.LinkedToolsExist` is a disk on which the run
  `Limits.LinkedUpgrade` ends clean with a false record. Over a whole run every tool stays vouched for if and only if each
  adopted file had reached the disk and led to no managed file, nor was led to (`Session.EveryToolAgrees`,
  `Tools.AdoptedKeepsAllExactly`).
- **A freshly copied file can be torn after a clean adoption.** The live file is only guarded and never synced. The new
  record is true for good if and only if the file would be there for good once the directories of the manifest and of the
  backup are synced (`Tools.AdoptedAgreesExactly`; `Limits.UnflushedAdoption`, `Limits.UnflushedCopyExists`). When the
  machine stops inside an upgrade of such a tool, the live file may have neither the old nor the new content, and then no
  attempt to recover succeeds (`Limits.StrandedUpgrade`, `Limits.UnflushedToolExists`).
- **The default rollback reaches the bottom of every lineage that the commands build** (`Drain.Live`, `Drain.DrainTool`): an
  upgrade never pushes the active tag (`Policy.Select`). In general it does so exactly when no two neighbours share a tag
  (`Drain.StepsReachTheBottom`), and recording the active tag again, which no command does, makes such neighbours
  (`Drain.Repeat`).
- **Repair accepts journals that recovery refuses.** Repair hashes what a payload leads to; recovery requires a plain file.
  The verdicts agree exactly when no payload is a symbolic link (`Repair.AcceptedPassesExactly`, with
  `Repair.LinkedPayloadIsRefused` as the family of counterexamples).
- **The choice of an asset depends on the input order in exactly one case:** two different assets of the pool have the base
  name that is asked for (`AssetPick.OrderDoesNotMatter`, `AssetPick.OrderMatters`). It cannot happen for plain names.
- **The speed meter loses bytes exactly when time goes back** over a chunk it has evicted (`SpeedMeter.LossExactly`).

## Model

| member | source | states |
|---|---|---|
| DurableFs.FileSystem.Change | internal/durablefs/durablefs.go:200-233 | one directory-entry change is followed by a sync of its directory; every failure leaves the old or the new entry visible, and the old one still possible after a crash |
| DurableFs.FileSystem.Rename | internal/durablefs/durablefs.go:200-213 | rename replaces atomically and then syncs; a directory is never replaced |
| DurableFs.FileSystem.Link | internal/durablefs/durablefs.go:215-223 | linking never replaces what is there |
| DurableFs.FileSystem.Remove | internal/durablefs/durablefs.go:225-233 | removing takes a file or an empty directory, never a directory with entries |
| DurableFs.FileSystem.Mkdir | internal/durablefs/durablefs.go:103-111 | a new directory, synced in its parent; never over something else |
| DurableFs.FileSystem.SyncDir | internal/durablefs/durablefs.go:73-97 | after the sync of an existing directory the visible entries below it are final; nothing else changes |
| DurableFs.MkdirAll | internal/durablefs/durablefs.go:113-161 | walks up to the first existing directory and creates downward; the tree is exactly the old one with the missing directories, exactly the parents of created directories are synced and existing ancestors are not; it succeeds without faults exactly when nothing else is in the way |
| ManifestFile.AtomicWriteFile | internal/durablefs/durablefs.go:163-198 | at every moment a crash leaves what it could leave before or the complete new file; on success the new file is final in its directory |
| Disks.CrashSettles | internal/durablefs/durablefs.go:1-61 | after a crash nothing is in flight: every path shows one of the outcomes it had, which is now the only one |
| Disks.CrashLeavesOutcome | internal/durablefs/durablefs.go:1-61 | an entry that a crash leaves survived in its directory, or is absent because some directory above it was not there for good |
| Journal.MarkerClassification | internal/transaction/recover.go:705-714 | exactly the prefixes of the decision bytes are explained, and only the full bytes commit: every strict prefix classifies as not committed, everything else is an error |
| Journal.CrashKeepsSafe | internal/transaction/recover.go:163-184 | the protocol invariant, and the side every attempt is steered to, survive a crash at any moment, also one that takes directories with everything below them; once the journal is not pending all participants are on one side |
| Journal.DecisionIsStable | internal/transaction/recover.go:721-738 | at any moment of the write of the marker, every later attempt reads the visible decision if and only if the marker is not complete or is synced; otherwise both decisions can be read |
| Journal.RollBackIsFinal | internal/transaction/recover.go:721-738 | when recovery has read no decision, no later crash brings one back |
| Journal.MatchDetermines | internal/transaction/recover.go:437-476 | no path matches two captured states unless they are alike, so the side of a participant is unambiguous |
| JournalDir.EnsureTransactionRoot | internal/transaction/journal.go:824-852 | on success the transaction root has been synced into the data root and the current name of the journal is its only name; files and journal contents are untouched |
| JournalDir.RenameJournal | internal/transaction/recover.go:740-752 | renaming the journal directory and syncing its parent; a failure leaves the old name possible |
| JournalDir.RemoveJournal | internal/transaction/recover.go:754-762 | recursive removal in any order adds no name but absence, and touches no participant |
| JournalDir.WriteMarker | internal/transaction/journal.go:591-623 | whatever happens, the marker is at a moment of its write: absent, a prefix, or complete with earlier values still possible; it succeeds exactly when the complete marker is the only one a crash can leave |
| JournalDir.CreateMarker | internal/transaction/journal.go:601-610 | creates the marker and writes the decision: success means it is completely visible and not yet final, failure that it is not complete |
| JournalDir.SealMarker | internal/transaction/journal.go:611-623 | syncs the file and its directory: success is exactly that no earlier value can come back |
| JournalDir.MomentsAreExplained | internal/transaction/recover.go:705-738 | recovery explains every marker a crash may leave at such a moment, and a committing one is the visible one |
| JournalDir.SettledMayLeavePending | internal/transaction/recover.go:740-752 | the journal may leave the pending namespace once every participant is on one side for good, directories included, and then nothing is lost |
| JournalDir.FewerStagesKeepSafe | internal/transaction/journal.go:824-852 | making one of the possible names of the journal final keeps the invariant |
| EmptyParents.PruneRemovesOneChain | internal/transaction/recover.go:776-850 | the walk removes one contiguous chain of empty ancestors and stops below a kept directory, a file, or a directory with entries; nothing kept is in the chain |
| EmptyParents.RemoveEmptyParents | internal/transaction/recover.go:796-850 | terminates; whatever happens the data root, what lies directly in it, everything it lies in, the home, what lies directly in that, and what lies at the top are still there, and only empty directories above the path are gone; after success every other directory above the path that is left holds something |
| EmptyParents.PruneLeavesNoneEmpty | internal/transaction/recover.go:796-850 | after a complete walk no directory above the path that may be pruned is empty |
| Converge.MatchesState | internal/transaction/recover.go:437-476 | answers whether the path holds exactly the captured state: kind, mode, target and digest |
| Converge.RequireExpectedState | internal/transaction/recover.go:541-550 | passes only if the path still holds the expected state |
| Converge.VerifyStatePayload | internal/transaction/recover.go:478-501 | passes only if the journal holds the payload with its digest |
| Converge.PersistMatchedState | internal/transaction/recover.go:398-435 | makes the entry of a matching participant final without changing any visible entry, and syncs exactly its directory; without faults it fails exactly when the directory is missing |
| Converge.StageRegular | internal/transaction/recover.go:602-646 | the staged file is the payload with the recorded mode, and its data is synced; without faults it fails exactly when the payload is missing |
| Converge.Install | internal/transaction/recover.go:552-572 | a finished node with synced data is linked to a free name or renamed over the expected one; a crash leaves an earlier fate or the new node |
| Converge.ApplyAbsent | internal/transaction/recover.go:503-539 | the path is removed only in its expected state, then the empty directories above it; success is exactly the pruned tree with exactly the touched directories synced |
| Converge.ApplyState | internal/transaction/recover.go:503-539 | installs the verified payload, the link or the absence; nothing outside the path and the directories above it is touched; success is exactly the moved tree with exactly the touched directories synced |
| Recovery.MoveTo | internal/transaction/recover.go:344-372 | whatever happens, a crash leaves of the entry what it could leave before or the target; on success the target is final in its directory and exactly the touched directories are synced |
| Recovery.ConvergeMutation | internal/transaction/recover.go:319-372 | drift and read-only guards are never touched; a participant only ever moves from one captured state to the other; success is exactly one turn of the fold, and without faults it succeeds exactly when the turn does |
| Recovery.Classify | internal/transaction/recover.go:279-302 | success means that every participant matches a captured state and both payloads verify, before anything is touched |
| Recovery.ConvergeAll | internal/transaction/recover.go:304-312 | every intermediate disk holds captured states only; success is exactly the whole fold of turns, with every participant at its target; without faults it succeeds if and only if the fold completes |
| Recovery.RootedExactly | internal/transaction/recover.go:344-372 | when exactly some directories have been synced, the directories above the participants are there for good if and only if each existing one was before or lies in a synced directory |
| Recovery.BoundExactly | internal/transaction/recover.go:319-372 | after the whole fold the decided side is there for good if and only if the fold was supported |
| Recovery.MoveAll | internal/transaction/recover.go:279-317 | classification, moves and final check: without faults it succeeds if and only if every participant is known and the fold completes to a tree that matches |
| Recovery.CrashSupports | internal/durablefs/durablefs.go:135-142 | after a crash every run is supported, because what a crash leaves is there for good |
| Recovery.VerifyIntentTarget | internal/transaction/recover.go:374-392 | success means that every participant is on the chosen side |
| Recovery.FinalizeDirectory | internal/transaction/recover.go:740-752 | with every participant on one side for good, removing the journal keeps the invariant at every step |
| Recovery.RecoverLoaded | internal/transaction/recover.go:279-317 | drift anywhere stops recovery before it touches anything; success puts all participants on the decided side, for good exactly when the run was supported, and removes the journal; without faults it succeeds if and only if the run completes |
| Recovery.LoadPending | internal/transaction/recover.go:167-182 | the decision handed on is the one the visible marker spells, for a valid intent |
| Recovery.RecoverPending | internal/transaction/recover.go:163-184 | keeps the invariant and the steering while the journal is pending or the run is supported; without faults it succeeds if and only if the run completes |
| Recovery.Recover | internal/transaction/recover.go:82-184 | over every outcome, also when the process stops inside: the invariant and the steering are kept as long as the journal is pending or the run is supported; drift changes no participant and keeps the journal; success leaves no journal and every participant, with its digest, mode or link text, as captured after if the marker was the complete decision and as captured before otherwise, for good if and only if the run is supported; the data root and the home with what lies directly in them are never removed, and success leaves no other directory empty above what it removed; without faults it succeeds if and only if the run completes, in closed form `Completion.RecoverExactly` |
| Recovery.RunLeavesNoneEmpty | internal/transaction/recover.go:503-539 | over the whole fold, every directory that a removal empties and that may be pruned goes |
| Completion.ReplayExactly | internal/transaction/recover.go:304-312 | the first turns can all be taken if and only if every participant among them that is gone already still has its directory when its turn comes, and then every path and directory of the tree is known |
| Completion.CompletesExactly | internal/transaction/recover.go:279-317 | without faults recovery to one side succeeds if and only if every participant is known and each one that is gone already still has its directory when its turn comes: in terms of the disk before and the order of the participants, for links that lead to no participant |
| Completion.AnchoredSimply | internal/transaction/recover.go:428-431 | in particular when the directory of each one that is gone already is kept, or holds nothing that is removed before its turn |
| Completion.FinishedDirs | internal/transaction/recover.go:776-850 | the directories that a finished recovery leaves are those below which something has been installed and those in which something stays |
| Completion.RecoverExactly | internal/transaction/recover.go:163-184 | recovery of a pending transaction without faults: whether it succeeds, and which directories it leaves, is known before it starts |
| Attempts.Attempt | internal/transaction/recover.go:163-184 | recovery may stop at any step any number of times, with a crash between attempts or not; each attempt meets the disk that the one before left, or what a crash made of it. While every attempt is supported, which each one after a crash is, every intermediate participant is a captured state and the side does not change, and then any success has all participants on that side for good; without faults exactly the first attempt succeeds that meets a disk whose run completes, before or after a restart |
| Attempts.CommitSteers | internal/transaction/journal.go:591-623 | at any moment of Commit an open transaction can only be rolled back if and only if the marker is not complete, and only forward if and only if it is complete and synced |
| Attempts.StopBeforeSync | internal/transaction/journal.go:603-618 | a Commit that stops between write and sync leaves an open transaction from which one crash leads forward and another one back |
| Attempts.LostWithItsDirectory | internal/durablefs/durablefs.go:135-142 | on every disk whose run completes without being supported, recovery succeeds and removes the journal, and a crash then takes a participant off the decided side |
| Attempts.LostByCrash | internal/durablefs/durablefs.go:135-142 | whatever lies in directories that are not there for good can be lost |
| Attempts.UnsyncedDirectory | internal/durablefs/durablefs.go:135-142 | such a disk: making a missing directory stopped before the sync of its parent, and the transaction is still open and safe |
| Attempts.SiblingsCannotComplete | internal/transaction/recover.go:428-431 | two absent participants alone in one directory, one of them still there: the run cannot complete |
| Attempts.SiblingStrands | internal/transaction/recover.go:428-431 | recovery of such a safe disk fails without any fault, although both directories exist |
| Attempts.StrandedSiblings | internal/transaction/recover.go:428-431 | a safe disk of this kind exists for any two siblings below an unkept directory |
| Capture.PayloadNamesDiffer | internal/transaction/journal.go:488-492 | no two payloads of a journal share a file name |
| Capture.CapturePath | internal/transaction/journal.go:706-737 | the captured state is what the path holds: nothing, a file with its digest and mode, or a link with its text and the digest of what it leads to; the payload that backs it is in the journal; it succeeds on anything but a directory or a dangling link |
| Capture.MaterializeDesired | internal/transaction/journal.go:679-704 | a file is captured with the data and the mode of its source, given bytes with their mode or 0600, and both payloads are in the journal; an unchanged participant keeps its before state |
| Capture.CaptureNext | internal/transaction/journal.go:467-497 | capturing one more participant leaves the payloads of the earlier ones alone |
| Capture.CaptureAll | internal/transaction/journal.go:465-497 | success captures both states of every participant with payloads, unique roles and unique paths; without faults exactly the unreadable or duplicate participant stops it |
| Transactions.CreateBuilding | internal/transaction/journal.go:438-447 | an unpublished journal that recovery will discard |
| Transactions.Publish | internal/transaction/journal.go:499-513 | the intent is written and sealed before the journal gets its pending name, which is final on success |
| Transactions.Prepare | internal/transaction/journal.go:438-513 | a journal that a crash may leave pending is complete, undecided, and describes exactly the current files |
| Transactions.Begin | internal/transaction/journal.go:408-516 | touches no participant; success publishes exactly the captured states; failure leaves no pending journal or one that can only roll back to the same files, and without faults nothing at all of what it has built; an existing journal blocks it |
| Transactions.SealedIsSafe | internal/transaction/journal.go:408-516 | a sealed journal establishes the protocol invariant with everything on the before side |
| Transactions.Transaction.Lookup | internal/transaction/journal.go:670-677 | finds the participant with a role if there is one |
| Transactions.Transaction.Apply | internal/transaction/journal.go:539-548 | moves one participant by exactly one turn of the fold, leaves the others alone, and keeps the open transaction undecided; without faults it succeeds exactly when the turn does |
| Transactions.Transaction.Verify | internal/transaction/journal.go:553-573 | passes only if the participant is on the given side |
| Transactions.Transaction.Commit | internal/transaction/journal.go:591-623 | decides only when every participant is in its after state; it succeeds exactly when the full marker is the only one a crash can leave, and whatever happens the marker is at a moment of its write |
| Transactions.Transaction.Abort | internal/transaction/journal.go:628-647 | refuses once the decision has been made or cannot be told; drift changes nothing; success puts every participant back, for good exactly when the run is supported, and removes the journal; a failed abort can still only roll back; without faults it succeeds exactly when the run back completes |
| Transactions.Transaction.Finalize | internal/transaction/journal.go:652-668 | removes the journal of a decided transaction without touching a participant, and does nothing without the complete decision |
| ManifestFile.PutIsUndone | cmd/rollback.go:171-176 | putting the previous record back, or removing a new one, restores the manifest after a failed save |
| ManifestFile.Manifest.Get | internal/manifest/manifest.go:919-927 | the first record with the name, if any |
| ManifestFile.Manifest.Put | internal/manifest/manifest.go:932-942 | the new record takes the place of the first of its name or comes last; all other records keep their positions |
| ManifestFile.Manifest.Remove | internal/manifest/manifest.go:946-955 | takes out the first record of the name, and says whether there was one |
| ManifestFile.Manifest.Clone | internal/manifest/manifest.go:682-692 | an independent copy with the same records |
| ManifestFile.Manifest.Validate | internal/manifest/manifest.go:369-396 | accepts exactly the current schema version with non-empty, pairwise distinct names and paths |
| ManifestFile.Manifest.EncodeManifest | cmd/state_transaction.go:45-63 | on a normalised and validated copy: the document captured as the after state of the manifest, or nothing, the same that save writes |
| ManifestFile.Manifest.Save | internal/manifest/manifest.go:820-867 | writes the document that encodeManifest captures, of the current schema version and with mode 0600, or nothing when it cannot be encoded; refuses to replace what is not a manifest; at every moment a crash leaves the old or the whole new manifest; the previous one is kept under the name with .bak |
| ManifestFile.Manifest.Normalize | internal/manifest/manifest.go:660-680 | brings a supported schema version up to the current one and refuses every other, without touching the records |
| ManifestFile.KeepPrevious | internal/manifest/manifest.go:838-864 | what is at the manifest path is copied to the backup only when it decodes, and nothing else is touched |
| ManifestFile.EncodedIsDecoded | internal/manifest/manifest.go:820-835 | what is written is read back; writing what was read changes nothing but an old schema version; writing twice changes nothing |
| Managed.SettledSideIsHonest | internal/transaction/recover.go:374-392 | with every participant on one side for good, the manifest is there for good and agrees with every vouched tool, links followed through the tree |
| Managed.GuardedSettles | internal/transaction/recover.go:740-752 | when no crash can bring the journal back, an open transaction has become one of its two honest ends |
| Managed.CrashKeepsGuarded | internal/transaction/recover.go:163-184 | a crash inside a transaction leaves a transaction that recovers to the same two ends |
| Managed.CrashKeepsIdle | internal/durablefs/durablefs.go:163-213 | a crash at rest changes nothing that the manifest vouches for |
| Managed.RollBackIsSupported | cmd/upgrade.go:511-566 | rolling back a transaction that removes nothing is always supported: the directories of what was there are there for good all along |
| Views.ExtendedReads | cmd/adopt.go:359-363 | what can be read through links is read in the same way when more is there |
| Views.ReadsWithout | cmd/adopt.go:359-363 | reading without some paths succeeds exactly when it succeeds with them and does not come across them |
| Views.ReadsAt | cmd/adopt.go:359-363 | when one path on the way becomes a plain file and the rest stays, reading ends there |
| Additions.AddedForGood | internal/durablefs/durablefs.go:113-213 | what a command leaves there for good, apart from what it wrote, is exactly what syncing the touched directories alone would have made final |
| Additions.AddedFirm | internal/durablefs/durablefs.go:113-161 | the directories above a written file are there for good when those that existed were |
| Commands.RunChecks | cmd/state_transaction.go:72-89 | passes exactly when every check is satisfied by the captured participant with its role |
| Commands.PreparedTruth | internal/transaction/journal.go:408-516 | the before states of a freshly prepared journal tell the truth of the old manifest for every vouched tool |
| Commands.CheckedTruth | cmd/upgrade.go:515-532 | once the checks of captured digests pass, the after states tell the truth of the new manifest for every tool that stays vouched for |
| Commands.ApplyRole | internal/transaction/journal.go:539-548 | advances one role and keeps every other one in a position to advance |
| Commands.ApplyRoles | cmd/upgrade.go:537-548 | advances the roles in order, adding exactly their files and the missing directories, and leaves the others alone; without faults it succeeds when each can advance |
| Commands.SwitchManifest | cmd/upgrade.go:549-558 | the manifest is replaced only while it is still in its captured state, and by the document the journal holds; a failed save takes the entry back in memory |
| Activate.CrashKeepsConsistent | internal/transaction/recover.go:163-184 | the run invariant survives a crash at any moment |
| Activate.ConsistentAtRest | internal/transaction/recover.go:740-752 | whenever no journal is pending, the manifest is the whole old or the whole new document and every vouched record agrees with its live file |
| Activate.RecoverConsistently | internal/transaction/recover.go:82-184 | recovering from any state of a run keeps it consistent; success ends at rest with one of the two manifests and everything the journal names on the decided side, nothing else is touched, and without faults it succeeds exactly when the run completes |
| Activate.Open | internal/transaction/journal.go:408-516 | a started transaction is consistent whether or not it starts; without faults a refusal leaves the disk at rest, and a plan that can be taken back stays so |
| Activate.BegunIsReversible | internal/transaction/journal.go:408-516 | once published, a plan with its directories in place, links that do not lead to what it writes, and only its first new file in a directory that may be pruned can be taken back |
| Reversals.ReversibleStep | internal/transaction/journal.go:539-548 | and whatever it has moved since, it still can |
| Reversals.ReversibleCompletes | internal/transaction/journal.go:628-647 | then every participant is known and the run back completes |
| Reversals.ReversibleMatches | internal/transaction/recover.go:374-392 | and once every participant has its new entry, a reader finds the new states, links followed |
| Reversals.KeptDirIsThere | internal/transaction/recover.go:776-850 | a directory that is never pruned is there after everything has been taken back |
| Activate.UndoneIsReady | cmd/state_transaction.go:91-99 | when everything has been taken back the next command finds the manifest as this one did |
| Activate.UndoneIsWithdrawn | cmd/state_transaction.go:91-99 | and every participant has the entry it had before the transaction |
| Activate.Advance | cmd/upgrade.go:515-558 | check, move the participants, switch the manifest: any failure can still be rolled back, success has every participant as the plan asked for it, data and mode, and no other file is touched |
| Activate.CommitTransaction | cmd/state_transaction.go:104-113 | a failed commit recovers on the side the marker names; consistent on every outcome |
| Activate.Undo | cmd/state_transaction.go:91-99 | aborting keeps the run consistent even when the abort fails; a completed abort is at rest with the old manifest; without faults every transaction that can be taken back is |
| Activate.Clean | cmd/state_transaction.go:115-120 | a failed cleanup after the decision is only a warning: the new manifest is honest already; without faults the journal is gone |
| Activate.Conclude | cmd/state_transaction.go:104-120 | from all participants in their after state: consistent on every outcome, honest on success, never taken back by a later crash or recovery, and it succeeds without faults |
| Activate.Perform | cmd/upgrade.go:511-566 | an open transaction comes to its end, with every participant as the plan asked for it, or is taken back; no other file is touched, and without faults no journal is left and a refusal has every participant as before |
| Activate.Transact | cmd/upgrade.go:511-566 | one command as one transaction: consistent on every outcome and at every stop, and no file but the planned ones, the manifest and its backup is touched; success means every participant is as the plan asked for it, data and mode, and the new manifest and every vouched live file agree for good, whatever crashes later; without faults a plan whose checks the disk already satisfies succeeds and leaves no journal, and any other one that can be taken back leaves the disk at rest, with no journal and every participant as it was found |
| Activate.SmoothIsFavourable | cmd/upgrade.go:511-549 | what the disk says before the transaction decides whether the captured states will pass its checks |
| Tools.SwitchIsSound | cmd/upgrade.go:503-532 | the plan of an upgrade or rollback takes an honest old ledger to an honest new one, in which exactly the tools read through the switched file are no longer vouched for |
| Tools.AdoptIsSound | cmd/adopt.go:158-175 | so does the plan of an adoption, which only guards the live file; the new tool is vouched for exactly when its file is there for good |
| Tools.SwitchIsSmooth | cmd/rollback.go:139-169 | a live file with its recorded digest and an artifact with the expected one are all an activation needs |
| Tools.BackupIsSmooth | cmd/upgrade.go:503-539 | backing the original up on the way only needs a free place and the copy |
| Tools.AdoptIsSmooth | cmd/adopt.go:158-178 | an adoption needs a readable live file and a free place for its backup |
| Tools.SwitchIsRetractable | cmd/upgrade.go:503-539 | the plan of an upgrade or rollback can be taken back wherever the live file leads, as long as that is not the manifest |
| Tools.AdoptIsRetractable | cmd/adopt.go:158-175 | so can the plan of an adoption |
| Tools.SwitchInstalls | internal/transaction/journal.go:679-704 | a completed switch has the artifact, data and mode, in the place of the live file, and the copy of the original in the place of its backup, each with the digest that was checked and there for good |
| Tools.AdoptInstalls | cmd/adopt.go:158-178 | a completed adoption has the copy of the live file, data and mode, in the place of the backup, with the digest of the new record and there for good |
| Tools.Adopt | cmd/adopt.go:94-212 | appends exactly the new record, with the digest the live file has; the name and the path were free and nothing was in the place of the backup; the backup is its source, data and mode, with the digest of the new record, for good; consistent on every outcome, also for a file that has not reached the disk, and nothing but a new backup and the manifest is touched; on success the new record is true for good if and only if the file would be after syncing the two directories; without faults it succeeds when only the checks could stop it, and when it does not the disk is at rest as before |
| Tools.Register | cmd/adopt.go:149-205 | the transaction of an adoption: on success the backup is its source, data and mode |
| Tools.Upgrade | cmd/upgrade.go:403-570 | refuses a live file that is not what was recorded; on success the live file is the artifact, data and mode, with the expected digest, and unless a backup was there already the backup is the original, data and mode, with the recorded digest, both for good; it changes exactly the digest of the tool, and every other vouched tool reads the new content exactly when it was read through this file; consistent on every outcome, and nothing but the live file, a new backup and the manifest is touched; without faults it succeeds when only the checks could stop it, and when it does not the disk is at rest as before |
| Tools.Rollback | cmd/rollback.go:62-184 | refuses a live file or an artifact that is not what was recorded; on success the live file is the artifact, data and mode, for good; it changes exactly the digest of the tool, and every other vouched tool reads the new content exactly when it was read through this file; consistent on every outcome, and nothing but the live file and the manifest is touched; without faults it succeeds when only the checks could stop it, and when it does not the disk is at rest as before |
| Tools.OthersReadExactly | cmd/upgrade.go:537-548 | after a switch another vouched tool leads for good to the new content if and only if it was read through the switched file, and to its recorded content otherwise |
| Tools.NobodyIsLost | cmd/adopt.go:290-304 | a switch keeps vouching for every tool if and only if no other tool is read through the switched file, and tools that do not lead to each other stay that way |
| Tools.KnownExactly | cmd/adopt.go:158-175 | the file of a new tool is read for good if and only if everything that reading it comes across is there for good |
| Tools.AdoptedKeepsAllExactly | cmd/adopt.go:290-304 | an adoption keeps every tool vouched for and none read through the file of another if and only if all that reading the new file comes across has reached the disk and is neither the manifest nor a managed file, and no managed file leads to it |
| Tools.VouchedIsStraight | cmd/adopt.go:359-363 | the file of a vouched tool does not lead to the manifest |
| Tools.AdoptedAgreesExactly | cmd/adopt.go:158-205 | after an adoption the new record is true for good if and only if the live file would be there for good once the directories of the backup and of the manifest are synced |
| Limits.LinkedUpgrade | cmd/adopt.go:359-363 | a fault-free upgrade of a tool through whose file another one is read ends clean, at rest, with the other record false |
| Limits.LinkedToolsExist | cmd/adopt.go:290-304 | such a disk with two adopted tools, the second a link to the first |
| Limits.UnflushedAdoption | cmd/adopt.go:149-205 | a fault-free adoption of a file whose data has not reached the disk ends clean, and a crash then makes the record false |
| Limits.UnflushedCopyExists | cmd/adopt.go:149-205 | such a disk |
| Limits.StrandedUpgrade | cmd/upgrade.go:511-537 | an upgrade of a tool whose live file has not reached the disk stops after publishing its journal: a crash may tear the live file, and then recovery fails although nothing fails any more, keeps the journal, and does so every time |
| Limits.UnflushedToolExists | cmd/upgrade.go:511-537 | such a disk, as the adoption above leaves it |
| StoreDirs.ResolveStoreChild | internal/store/store.go:115-160 | finds one directory or makes it, and syncs its parent in both cases when asked to create; a look-up changes nothing; refuses anything but a directory and another spelling that is listed first |
| StoreDirs.StoreDir | internal/store/store.go:84-113 | the tree is the old one with the missing directories, every component names an entry of its directory and is a directory now, and every level below the root has been synced; without faults it succeeds if and only if nothing stands in the way at any level |
| StoreDirs.UnobstructedIsPavable | internal/store/store.go:84-160 | only a component that is no name, something that is no directory, or another spelling stands in the way |
| StoreDirs.PavedIsFirm | internal/store/store.go:137-143 | afterwards the directories are there for good if and only if what existed down to the root of the store was: levels left unsynced by an earlier attempt are made final |
| StoreDirs.PavedIsSettled | internal/store/transaction.go:51-66 | the place of the backup of an original is settled exactly when its own entry is final and the directories above the store were there for good |
| Originals.PrepareOriginalPath | internal/store/transaction.go:51-66 | makes the directories above the backup and nothing else; whatever happens the disk stays at rest with the same ledger, and without faults it succeeds if and only if nothing stands in the way |
| Originals.PlaceIsSettled | internal/store/transaction.go:51-66 | then the place of the backup is settled, however an earlier attempt left the directories below the store |
| Originals.SettledStays | internal/store/store.go:115-160 | every settled path stays settled: what is made on the way to it is final |
| Originals.IdleStays | internal/store/store.go:84-113 | making directories away from the manifest keeps every vouched tool vouched for |
| Tools.Switch | cmd/rollback.go:133-184 | the transaction of an upgrade or rollback: on success the live file is the artifact and a backup that was asked for is its copy, data and mode; without faults a refusal leaves the entries as they were |
| Session.Load | internal/manifest/manifest.go:159-172 | a missing file is an empty manifest, and what cannot be read as one is not taken for it; success returns exactly what the file says, an older schema version brought up to date |
| Session.Serve | cmd/upgrade.go:403-570 | does what was asked, changes nothing else in the manifest and touches no file but its targets; success finds what is recorded, leaves the artifact in the place of the live file and the original under store, tool, original, data and mode, and is never taken back; without faults a request that passes its checks is carried out, and any other one leaves the disk at rest |
| Session.Execute | cmd/upgrade.go:436-566 | prepare the place of the backup, then do what was asked: consistent on every outcome; a request for a tool that is not managed does nothing; without faults a request that passes its checks is carried out, and any other one leaves the disk at rest |
| Session.WhatIsPlacedMayBeAsked | cmd/upgrade.go:403-570 | the hypothesis of a run is one on each request where it is made: any placed request can be made in some sensible run |
| Session.VouchedIsPlaced | cmd/upgrade.go:403-570 | a vouched tool can always be rolled back, and upgraded if and only if its backup has room, a final entry and a store that is there for good |
| Session.Restore | cmd/helpers.go:136-148 | recovers and loads: the manifest in memory is that of the ledger the disk is at rest with; without faults recovery succeeds exactly when its run completes |
| Session.Command | cmd/helpers.go:136-148 | starts on the disk that is there; recovery changes only what a pending journal names, and nothing without one; then from rest with the old ledger if that holds, and otherwise the new one, it refuses and leaves the disk at rest, or prepares the place of the backup, touches nothing but its targets, and what it leaves is consistent; without faults a request that passes its checks is carried out, and a harmless one leaves the disk at rest whatever comes of it |
| Session.VouchedIsHarmless | cmd/upgrade.go:403-570 | every request for a vouched tool is harmless |
| Session.Run | cmd/upgrade.go:503-566 | end to end, over every sequence of adopt, upgrade and rollback requests with crashes anywhere: every command starts on the disk the one before it left, or on what a crash made of that, from the first disk to the last; each is explained by its own request, by where the run stood and by the disks it met and left, down to the data and the mode of the live file and of the backup; a success is never taken back, and at every moment the run leads to one of its two current ledgers; without faults, after harmless requests, carried out or refused, every request that passes its checks is carried out, and a refused one leaves its targets as they were |
| Session.StepKeepsAllExactly | cmd/upgrade.go:503-566 | a command keeps every tool vouched for and none read through the file of another if and only if what it adopts is independent of the others |
| Session.EveryToolAgrees | cmd/upgrade.go:503-566 | from a start at which every tool is vouched for and none is read through the file of another, that stays so at every moment of a run if and only if each adopted file, where it was adopted, had reached the disk with all that reading it comes across, led to no managed file, and no managed file led to it |
| Session.AllAgreeAtRest | cmd/upgrade.go:503-566 | and then, whenever no journal is pending, every live file has for good the digest in the manifest that is on the disk |
| Lineage.PastIsStable | internal/activation/activation.go:215-231 | appending events changes nothing below an existing one |
| Lineage.PastOfAncestor | internal/activation/activation.go:215-231 | below an ancestor lies its own past |
| Lineage.PastIsDistinct | internal/activation/activation.go:235-281 | following parents never meets an event twice |
| Lineage.AppendKeepsValid | internal/activation/activation.go:283-289 | appending a new event with earlier parent and reverted event and a free or agreeing tag keeps the lineage invariant |
| Lineage.UpgradeIsPush | internal/activation/activation.go:71-97 | recording an upgrade pushes onto the undo stack |
| Lineage.RollbackIsDrop | internal/activation/activation.go:136-179 | recording a rollback to the k-th ancestor drops everything above it |
| Lineage.RestoreIsReset | internal/activation/activation.go:186-212 | recording a restore starts a new stack |
| LineageChecks.LogIsSteps | internal/activation/activation.go:235-281 | one pass from the front checks every pair of events |
| LineageChecks.ValidLineExactly | internal/activation/activation.go:235-281 | the lineage invariant position by position: valid events, no id twice, parents and reverted events earlier, a tag keeps its digest up to letter case, the last event is the active one |
| LineageChecks.ValidateActivations | internal/activation/activation.go:235-281 | accepts exactly the lineages with the invariant: valid events, unique ids, strictly earlier parents and reverts, one digest per tag, the active event last and equal to the entry |
| LineageChecks.ValidateEntryLineage | internal/manifest/manifest.go:457-487 | the separately written validator before saving accepts exactly the same lineages |
| LineageChecks.ValidateDecodedActivation | internal/manifest/manifest.go:600-634 | one event is valid by itself and agrees with the digest its tag is bound to |
| LineageChecks.ValidateDecodedV2 | internal/manifest/manifest.go:554-598 | the separately written validator of a decoded document accepts exactly the same lineages, with a valid policy |
| Activation.Ancestors | internal/activation/activation.go:215-231 | the first `limit` rollback targets, nearest first; the walk over parent pointers terminates; refuses exactly negative limits and invalid lineages |
| Activation.Previous | internal/activation/activation.go:102-112 | the nearest rollback target |
| Activation.FindAncestorByTag | internal/activation/activation.go:116-130 | the nearest rollback target with the tag, or there is none |
| Activation.ValidateNewTagBinding | internal/activation/activation.go:312-320 | a tag may only be reused with the digest it had anywhere in the history |
| Entry.UpgradeStep | internal/activation/activation.go:71-97 | an upgrade of a valid lineage is a push and keeps it valid |
| Entry.RollbackStep | internal/activation/activation.go:136-179 | a rollback of a valid lineage pops down to its target and keeps it valid |
| Entry.RestoreStep | internal/activation/activation.go:186-212 | a restore of a valid lineage resets the stack and keeps it valid |
| Entry.AdoptStep | internal/activation/activation.go:39-67 | an adoption starts a valid lineage with one version |
| Entry.FindTarget | internal/activation/activation.go:136-160 | finds the rollback target with an id exactly when there is one |
| Entry.Entry.RecordAdopt | internal/activation/activation.go:39-67 | succeeds exactly on an empty lineage with valid input; then the stack is the adopted version |
| Entry.Entry.RecordUpgrade | internal/activation/activation.go:71-97 | succeeds exactly on a valid lineage, a new id and a free or agreeing tag; then it is a push, by the event spelled out; a refusal changes nothing |
| Entry.Entry.RecordRollback | internal/activation/activation.go:136-179 | succeeds exactly for the id of an ancestor; then the stack is dropped to that ancestor, by an event with its parent, tag and digest that names what it reverts; a refusal changes nothing |
| Entry.Entry.RecordRestoreOriginal | internal/activation/activation.go:186-212 | succeeds exactly when the original still agrees with its history; then the stack is the original alone, by an event without parent that names what it reverts |
| RollbackCommand.ChooseTarget | cmd/rollback.go:71-94 | the default is the previous activation, a tag means its nearest occurrence below, the reserved name the original, the active tag nothing |
| RollbackCommand.ActivateAncestor | cmd/rollback.go:112-128 | the artifact must have the digest recorded in the history |
| RollbackCommand.ActivateOriginal | cmd/rollback.go:112-128 | restoring the original succeeds exactly for a valid new event whose digest does not contradict the history, and resets the stack; a refusal changes nothing |
| RollbackCommand.Follow | cmd/rollback.go:97-128 | an ancestor is activated exactly when its artifact has the digest on record, the original only against its adoption anchor |
| RollbackCommand.Rollback | cmd/rollback.go:46-189 | every target but the original pops: the default by one, a tag to its nearest occurrence; it is completed if and only if there is such a target, its artifact has the recorded digest and the new event is valid; the event names what it went back from; a named tag is said to be there already exactly when it is the active one, and the default does nothing exactly when the next target carries the active tag |
| Drain.StepsReachTheBottom | cmd/rollback.go:74-94 | on any stack, repeated default rollback visits all of it if and only if no two neighbours share a tag |
| Drain.RollbackAll | cmd/rollback.go:46-189 | for any valid lineage, repeated default rollback visits the old stack in order, never oscillates, and stops after exactly the characterised number of steps |
| Drain.Live | cmd/upgrade.go:403-570 | over any life of a tool, adopted and then updated, rolled back and restored at will: each deed does what its decision says, an update pushes what the policy activates unless the record is refused, a rollback drops to its target or resets to the original; the final stack is the replay of these steps over the adopted version, the lineage stays valid and no two neighbours share a tag |
| Drain.DrainTool | cmd/rollback.go:46-189 | at any time of such a life the default rollback visits every version below the active one, in order, and ends at the bottom |
| Drain.Repeat | internal/activation/activation.go:71-97 | recording the active tag once more, past the commands, succeeds on every valid lineage and makes neighbours with one tag, where the default rollback does nothing |
| Policy.BestIsUnique | internal/versionpolicy/policy.go:167-222 | the best release of a list depends only on which releases are in it, not on their order |
| Policy.SelectSemver | internal/versionpolicy/policy.go:167-222 | the decision of the semantic policy, by which eligible release none is better than: activates it when it is higher or there is no semantic baseline, keeps an equal one, refuses a downgrade and an empty choice |
| Policy.JudgedSpelledOut | internal/versionpolicy/policy.go:205-222 | whatever is chosen, a lower version is never activated over a higher one, an equal one is kept |
| Policy.SelectLegacy | internal/versionpolicy/policy.go:143-165 | the first release that is no draft, has a name and is no unwanted pre-release decides: it is kept when it is the current one and activated otherwise |
| Policy.SelectPin | internal/versionpolicy/policy.go:115-141 | a pinned current tag is kept without looking; otherwise the first release of that name is activated wherever it stands in the order, unless it is a draft |
| Policy.Select | internal/versionpolicy/policy.go:101-113 | whatever the policy, only a listed release that is no draft and differs from the active tag is activated; a pin decides alone, and the semantic policy never activates a lower or equal version |
| Policy.DecisionIsUnique | internal/versionpolicy/policy.go:101-222 | policy, active tag and releases allow one decision |
| Versions.ToolStore.InstalledVersions | internal/store/store.go:868-907 | accepts exactly an orderly directory and then lists every version with the digest of its one file |
| Versions.ToolStore.Secure | internal/store/store.go:580-648 | succeeds exactly when the current version, the original and the retained ancestors are there with their recorded digests |
| Versions.ToolStore.PlanPrune | internal/store/store.go:576-665 | succeeds exactly when everything needed is there; protected is the current tag, the original, the installed pin and the retained ancestors, and deleted is what else is installed; each is listed with the digest on disk, and both lists are sorted |
| Versions.WhatIsNeeded | internal/store/store.go:609-636 | the needed tags are the current one, the original, the pin when it is installed and the first ancestors |
| Versions.PlanIsFaithful | internal/store/store.go:638-664 | the two lists are exactly the needed tags and the others, and such a plan can be applied |
| Versions.PlanIsUnique | internal/store/store.go:649-664 | the request and the disk determine the plan |
| Versions.ToolStore.Revalidate | internal/store/store.go:670-729 | accepts exactly plans that are consistent in themselves and true of the disk |
| Versions.ToolStore.RemoveAll | internal/durablefs/durablefs.go:235-255 | touches one version only; a failure may leave a part of it |
| Versions.ToolStore.ApplyPrunePlan | internal/store/store.go:670-741 | deletes nothing unless every listed artifact still has its bound digest; at every point only listed tags are touched, so versions the plan does not know are safe; a plan that still holds is carried out |
| Versions.ToolStore.PruneHistory | internal/store/store.go:746-752 | whatever fails, what is needed is intact, and nothing at all is deleted when a needed version is missing or altered; without faults exactly the current tag, the original, the installed pin and the retained ancestors stay |
| Versions.ToolStore.Put | internal/store/store.go:259-394 | a version is written once: the same file is confirmed, other content is refused, an interrupted attempt is completed, other versions are untouched; without faults only another content and an invalid tag are refused |
| Retention.PruneKeeps | cmd/upgrade.go:626-650 | pruning keeps every rollback target up to the retention depth |
| Retention.NeededSpelledOut | cmd/upgrade.go:626-650 | what a prune needs in terms of the stack: the active tag, the original, the pin, and the tags up to the retention depth |
| Retention.PrunableIsPlannable | cmd/upgrade.go:626-650 | a prune is planned if and only if the store is orderly, the pin, if any, is a valid version, and the original and the stack up to the depth are there with the recorded digests |
| Retention.Tool.StoreBoth | cmd/upgrade.go:403-435 | success leaves the store with exactly the new version and the one it replaces added, and loses none; without faults it succeeds when nothing in the store or the history speaks against it |
| Retention.WritableIsStoring | cmd/upgrade.go:403-435 | only a tag that is bound otherwise, another content in the store, or the active tag speaks against storing an upgrade |
| Retention.Tool.Upgrade | cmd/upgrade.go:403-570 | a push that leaves one more rollback target available, up to the retention depth; a failure leaves all of them; a tag keeps its digest over the whole history; after a clean commit the active tag, the original, the pin and the targets up to the depth are untouched, and without faults nothing else is left when all of them are in place; otherwise nothing goes |
| Retention.Tool.Prune | cmd/upgrade.go:626-650 | the active tag, the original, the pin and the targets up to the depth stay as they are, whatever fails; without faults nothing else stays, and nothing goes when something of that is missing |
| Retention.Tool.Rollback | cmd/rollback.go:97-128 | finds the target exactly when the store still has it with its recorded digest, and then the stack is dropped to it |
| Retention.Tool.RestoreOriginal | cmd/rollback.go:97-120 | succeeds exactly when the original is in the store, is what was adopted and does not contradict the history; then the stack is the original alone, with the digest of the adoption |
| Retention.Take | cmd/upgrade.go:403-570 | each step is explained by its action at that moment: an upgrade is pushed only for a binding that agrees, and without faults whenever it commits and can be stored; after a clean commit the store is trimmed to the active tag, the original, the pin and the targets up to the depth; a rollback happens if and only if its target is available with its digest, a restore if and only if the original can be; and it leaves as many available targets as it guarantees |
| Retention.Run | cmd/upgrade.go:403-434 | over any run of upgrades, rollbacks and restores, with a prune after each upgrade: the store, the history and the stack are followed from moment to moment, every step is explained by its action at its moment, staying without effect only for the stated reasons; the stack is the replay of the steps, and the guaranteed number of rollback targets is available with the recorded digests |
| Retention.UpgradesThenRollbacks | cmd/upgrade.go:626-650 | after any upgrades from an adoption, rollbacks one by one visit the stack that was built, from the top, each found with its recorded digest; they stop early only at the bottom or at a missing artifact, and never before the smaller of the depth and the number of upgrades; without faults every upgrade of a new tag counts |
| Retention.ClimbAll | cmd/upgrade.go:403-570 | after any upgrades from an adoption all targets up to the depth are available, and the stack is the replay of the pushes |
| Retention.Descend | cmd/rollback.go:97-128 | rolling back one by one visits the stack from the top while artifacts are there, and reaches at least the guaranteed depth |
| Residue.EveryEntryIsOneOfFour | internal/transaction/journal.go:358-403 | every entry of the transaction root is exactly one of container, journal, stray and unrecognised directory |
| Residue.TransactionRoot.Allocate | internal/transaction/recover.go:219-234 | a new container never takes a name that is there |
| Residue.SomeNameIsFree | internal/transaction/recover.go:219-234 | sixteen hexadecimal digits leave a name free below sixteen to the sixteenth entries |
| Residue.TransactionRoot.MoveAside | internal/transaction/recover.go:243-277 | the entry is preserved byte for byte under its name in a new container; every interruption leaves it where it was, or there, and at most recognisable debris |
| Residue.TransactionRoot.Sweep | internal/transaction/recover.go:189-207 | every stray among the entries is moved, all others stay, and the non-directories are reported |
| Residue.TransactionRoot.Isolate | internal/transaction/recover.go:92-147 | an unrecognised directory fails; otherwise only containers and journals remain |
| Residue.TransactionRoot.ClearJournals | internal/transaction/recover.go:149-183 | removes abandoned and completed journals and then the one pending; several pending ones are refused |
| Residue.TransactionRoot.Recover | internal/transaction/recover.go:82-184 | nothing but journals is ever lost or altered: whatever is no directory stays or is in quarantine with its bytes and its name, and exactly that is reported on success; a directory that is neither a journal nor a container, complete or interrupted, stops before any journal is changed, and recovery never leaves a new one; success leaves containers only; a second run is a no-op with an empty report; without faults it succeeds if and only if every directory is recognised, at most one journal is pending and that one resolves |
| Residue.TransactionRoot.RecoverAgain | internal/transaction/recover.go:877-910 | over any number of interrupted recoveries nothing is lost, and success is clean; without faults one attempt is enough when every directory is recognised and a pending journal can be resolved |
| Residue.MovedTransitive | internal/transaction/recover.go:877-910 | what is in quarantine stays there, and debris of an interrupted allocation is itself preserved |
| Residue.SettledTransitive | internal/transaction/recover.go:82-184 | the guarantee composes over recoveries |
| Repair.ValidateIntent | internal/transaction/journal.go:895-933 | the validator of the journal accepts exactly well-formed intents |
| Repair.LoadAndValidateIntent | internal/repair/repair.go:676-724 | the separately written validator accepts exactly the same intents, under the matching directory name |
| Repair.StateProblem | internal/repair/repair.go:726-744 | the separately written check of one state agrees with that of the journal |
| Repair.Compare | internal/repair/repair.go:784-814 | the separately written comparison confirms exactly the states recovery confirms, links followed through the tree |
| Repair.UnreadableMatchesNothing | internal/repair/repair.go:784-814 | what the comparison cannot read matches neither state, so giving up and finding drift are the same |
| Repair.EvaluateRecoverTransaction | internal/repair/repair.go:251-357 | the planner accepts exactly readable journals whose participants all match a captured state with matching payloads |
| Repair.AcceptedPassesExactly | internal/repair/repair.go:770-782 | an accepted journal passes the first phases of recovery if and only if none of its payloads is a link |
| Repair.PassingIsAccepted | internal/repair/repair.go:251-357 | whatever recovery would pass, the planner accepts |
| Repair.FirstPhases | internal/transaction/recover.go:167-302 | on a passing journal the decoding, commit and classification phases of recovery succeed without changing anything |
| Repair.LinkedPayloadIsRefused | internal/repair/repair.go:770-782 | journals the planner accepts and recovery refuses: the right bytes behind a link |
| Repair.BuildPlan | internal/repair/repair.go:92-113 | a plan exists exactly for accepted journals and records what was observed |
| Repair.Apply | internal/repair/repair.go:170-231 | acts exactly when the identity matches and the re-observed, re-evaluated state equals the planned one |
| Repair.ObservedAgain | internal/repair/repair.go:170-231 | what is found unchanged is the same journal with the same decision and payloads, and every participant has the entry and the content it had |
| Repair.AppliedPlanPasses | internal/repair/repair.go:170-231 | a plan made for a passing journal that is found unchanged still passes recovery |
| Repair.RestoreManifestBackup | internal/repair/repair.go:367-440 | acts only without a journal, on a missing or undecodable manifest with a valid backup that agrees with every live file; success copies exactly that backup, schema version included, with mode 0600; without faults it succeeds if and only if there is such a backup |
| Repair.EvaluateRestoreManifestBackup | internal/repair/repair.go:367-440 | the planner finds a backup to restore exactly when there is one |
| Repair.RecoverableIsRestorable | internal/repair/repair.go:367-440 | whenever there is no transaction and no readable manifest, and a readable backup agrees with every live file, there is one to restore |
| Doctor.Report.Finalize | internal/doctor/report.go:108-151 | the worst finding decides the status; healthy exactly when the audit is complete and found nothing beyond information |
| Doctor.ScanTransactions | internal/doctor/scanner.go:622-681 | without a finding exactly when the transaction root is absent or empty, and without an error exactly when it holds nothing but quarantine and journals that are not pending |
| Doctor.ScanManifest | internal/doctor/scanner.go:102-156 | without a finding exactly for a decodable manifest with good entries; a missing one is a warning |
| Doctor.ValidateEntries | internal/doctor/scanner.go:208-277 | without an error exactly when every entry has a valid name, tag and path and names and paths are unique; a path that does not end in the name is a warning |
| Doctor.ScanLive | internal/doctor/scanner.go:279-333 | without an error exactly when every live file is an executable file with the recorded digest; special mode bits are a warning |
| Doctor.ScanArtifact | internal/doctor/scanner.go:510-564 | without an error exactly for a directory with the one executable named like the tool |
| Doctor.ScanTool | internal/doctor/scanner.go:454-508 | without an error exactly when the original exists and matches its anchor and every version is a good artifact |
| Doctor.ScanStoreChild | internal/doctor/scanner.go:335-452 | without an error exactly for the staging directory or a good tool that is no other spelling of a known one; one the manifest does not know and a staging directory in use are warnings |
| Doctor.ScanStore | internal/doctor/scanner.go:335-429 | without a finding exactly when the store and the manifest name the same tools and all are good; without an error when the store has more |
| Doctor.CompareActive | internal/doctor/scanner.go:592-602 | compares the recorded digest with the active artifact |
| Doctor.CrossCheck | internal/doctor/scanner.go:566-590 | after an audit without an error, it finds none exactly when every active artifact, or the original without one, is what is recorded |
| Doctor.Scan | internal/doctor/scanner.go:44-100 | healthy if and only if no residue exists and manifest, live files, store and active artifacts are all good; broken if and only if they are not even apart from what is a mere warning; degraded otherwise |
| Doctor.UsableEntry | internal/doctor/scanner.go:44-100 | healthy or degraded means for every entry: an executable live file with the recorded digest, an original backup that matches its anchor, and an active artifact, or the original, equal to the live bytes |
| Doctor.NothingContested | internal/doctor/scanner.go:208-277 | and no two entries share a name or a path, and no transaction is pending |
| Doctor.BlemishesDoNotBreak | internal/doctor/scanner.go:44-100 | temporary names, journals that are not pending, entries in quarantine, special mode bits and a tool that nobody adopted do not break a healthy data root |
| AssetPick.Partition | internal/assetpick/pick.go:179-196 | one pass splits the assets into preferred and demoted ones, in order |
| AssetPick.DetectAsset | internal/assetpick/detect.go:197-216 | an exact base name wins at once, otherwise the single match, otherwise the matches |
| AssetPick.DetectSystem | internal/assetpick/detect.go:247-287 | priority, then system and architecture, then system, then anything usable: one of them is answered directly, several are handed on |
| AssetPick.BreakTies | internal/assetpick/pick.go:287-375 | keeps a part of the candidates that is empty only when they are; anything but the Rosetta note is noted only when some have been dropped, and that note exactly when only the other processor is on offer |
| AssetPick.Pick | internal/assetpick/pick.go:64-150 | an asset with exactly the name asked for comes first; unless the filter has decided, the choice has priority if any asset in question has, else it is for the system and architecture if any is, else for the system; whenever one asset in question is better than all others, in the order of preference spelled out as a lexicographic order, it is chosen, and otherwise nothing is; what is noted is what is wrong with the assets when none is clean |
| AssetPick.TiebreakIsBest | internal/assetpick/pick.go:287-375 | the tie-breaks leave exactly the candidates than which none is better by processor, width, archive format and C library, in this order |
| AssetPick.BySystemIsBest | internal/assetpick/detect.go:247-287 | the system match leaves exactly the usable assets of the best class: priority, system and architecture, system, any |
| AssetPick.RankIsBest | internal/assetpick/pick.go:64-150 | both together choose the one asset that is before all others in one lexicographic order, if there is one |
| AssetPick.ChoiceIsTheBest | internal/assetpick/pick.go:64-150 | without an exact name the choice is the only asset the filter leaves, or the one that wins among the assets in question, and nothing when there is neither |
| AssetPick.ExactIsChosen | internal/assetpick/detect.go:197-216 | an asset with exactly the name asked for is chosen whatever else is on offer |
| AssetPick.ChoiceByPreference | internal/assetpick/pick.go:64-150 | priority before system and architecture, these before the system alone |
| AssetPick.BaseIsLast | internal/assetpick/detect.go:197-216 | the base of a name has no slash, and only a directory comes before it |
| AssetPick.ContainsExactly | internal/assetpick/detect.go:197-216 | the filter looks for its text anywhere in the base |
| AssetPick.ChoiceIsInstallable | internal/assetpick/pick.go:64-150 | a choice is never demoted while a preferred asset exists; a fallback matches system and architecture and is never a likely source archive; nothing blacklisted is chosen |
| AssetPick.OrderDoesNotMatter | internal/assetpick/pick.go:64-150 | every permutation of the assets gives the same choice and notes, unless two of the pool compete for the name asked for |
| AssetPick.OrderMatters | internal/assetpick/detect.go:197-216 | when two do compete, two orders give different answers |
| AssetPick.PlainNamesAreNotAmbiguous | internal/assetpick/detect.go:197-216 | names without slashes never compete |
| TarSelect.Wrap | internal/archive/archive.go:213-286 | signed 64-bit addition is exact in range and stays in range out of it |
| TarSelect.FindTarTarget | internal/archive/archive.go:213-286 | the pass with its counters, its candidate overflow and its wrapping accumulator answers if and only if the whole archive is within its totals and one regular member answers: the only one with the name asked for, or without one the only one that looks executable; no wrap goes undetected |
| TarSelect.SelectAnswers | internal/archive/archive.go:213-286 | within the totals there is an answer if and only if a member answers, and it is that one |
| TarSelect.OrderDoesNotMatter | internal/archive/archive.go:213-286 | every reordering of the members gives the same answer |
| TarSelect.AnswerIsUnique | internal/archive/archive.go:213-286 | an exact base-name match is unique and wins over any number of candidates |
| SpeedMeter.Compact | internal/ghrelease/slowdownload.go:116-135 | compacting the buffer onto itself keeps exactly the chunks younger than the cutoff, in order and as often as they were there, and sums them |
| SpeedMeter.AfterMembers | internal/ghrelease/slowdownload.go:116-135 | the trailing window has exactly the chunks younger than the cutoff, as often as they were read |
| SpeedMeter.AfterTwice | internal/ghrelease/slowdownload.go:116-135 | evicting twice is evicting once at the later cutoff |
| SpeedMeter.LossExactly | internal/ghrelease/slowdownload.go:116-135 | a measurement misses bytes exactly when an earlier one evicted a chunk inside its window |
| SpeedMeter.Meter.Read | internal/ghrelease/slowdownload.go:137-145 | a read appends its chunk to the history the meter stands for |
| SpeedMeter.Meter.WindowSpeed | internal/ghrelease/slowdownload.go:116-135 | with non-decreasing times the speed is that of the full history over the trailing window, in bytes per second of the window, or of the age of a younger download |
| SpeedMeter.Meter.Tick | internal/ghrelease/slowdownload.go:83-110 | the watcher gives up exactly when the full-history speed is below the floor after the grace period |

## Left out

- The network client, release lookup, downloads, provenance, PATH scanning, the command line, menus, rendering, i18n and `hukou up`: input, output and list handling around the core.
- JSON, SHA-256, compression, tar and zip codecs, regular expressions and flock: foreign calls, taken as injective encodings, abstract predicates and an assumed exclusive lock holder.
- `internal/orchestrate/diff.go`, zip size accounting, archive extraction, live snapshots and the older name-ordered prune: keyed partitions and straight-line code that would only add easy members.
- Manifest entries in the files of older schema versions: migration fills an entry's fields, of which the model keeps name, path and digest; those it does not change.
- In the manifest of the end-to-end model a record is a name, a path and a digest. The lineage inside an entry is the subject of the lineage modules, which do not repeat the disk.
- Temporary files before their rename or link are anonymous: a crash or a failed clean-up may leave some behind, which nothing reads. Parent directories that are symbolic links and the creation of the data root are not modelled.
- The write of META in a quarantine container is one step. A crash inside it leaves a temporary file that relocateQuarantineResidue (internal/transaction/recover.go:886) does not recognise, and recovery then fails closed.
- Recovery.Recover: one journal directory with a matching name. Several journals, foreign names and quarantine are the subject of `Residue`, which keeps the participants abstract.
- Session.Run: the random transaction id is any valid one; the lock, the trust check of the data root and its creation come before and are left out.
- Transactions.Transaction.Commit: a marker that is already there is refused by the exclusive create, as in the source; who else could have made it is outside the model.
- Tools.Upgrade: the extra mode and namespace checks of the live file and the collection of abandoned staging files are left out; none of them changes a participant. The live file must have reached the disk; what a stop leaves otherwise is `Limits.StrandedUpgrade`.
- Activate.Transact: after a failed commit the source reads the manifest again; the model leaves the list in memory open then.
- Tools.Adopt: it starts on the prepared disk (`Session.Execute`); the inspection of the target, with its check for an executable file, the check that the original's directory holds one entry, and the renewed mode and namespace checks after the backup was made are left out.
- Tools.Rollback: the choice of the target is `RollbackCommand.Rollback`; here the artifact and its recorded digest are given.
- Versions.ToolStore.InstalledVersions: aliases of store directories that differ only in case are refused through the orderly-directory check; further case-folding rules of the file system are not modelled.
- ManifestFile.Manifest.Validate: the checks of an entry's fields (tags, digests, timestamps, policies) are left out; the lineage in an entry is checked in `LineageChecks`.
- ManifestFile.Manifest.Save: the second look at the identity of the current manifest while saving only matters when somebody else writes it.
- StoreDirs.ResolveStoreChild: the second attempt after somebody else made the directory needs a second process. Names are folded as ASCII.
- Retention.Tool.Upgrade: the outcome of the transaction is an input; that it is atomic is `Activate.Transact`.
- Residue.TransactionRoot.MoveAside: the rename into quarantine is one visible step; the syncs of its two directories, and with them what a crash may take back, are not part of the residue model.
- Residue.TransactionRoot.ClearJournals: whether a pending journal resolves is a flag of that journal. When it does is `Recovery.Recover`.
- Residue.TransactionRoot.Recover: the same flag decides its success; the durable layer is that of `Recovery`, for one journal.
- Repair.EvaluateRecoverTransaction: the transaction root holds the one pending journal; the refusal of unknown directories and of several journals is the same rule as in `Residue`. Digests are compared as values, so the two spellings of a hexadecimal digest are one.
- Repair.BuildPlan: the other entries of the root and the trust check of the data root come before and are left out.
- Repair.Apply: the fingerprint is an injective encoding of what is observed; like the source it covers the target of a link inside the journal and not what that leads to. The lock and the serialised plan file are left out.
- Doctor.ScanManifest: the size limit and the findings of the strict decoder beyond schema, entries and identity are left out.
- Doctor.ValidateEntries: repository names, timestamps and asset evidence are not audited.
- Doctor.Scan: read errors, which make an audit incomplete, and a missing data root, which is reported healthy, are outside the model. The manifest backup is not audited here; it adds findings of its own kind. Findings come in the order of the scan, where the source sorts them.
- AssetPick.Pick: unsupported target systems are refused before the model starts; notes are sets and steps, where the source renders them as text.
- TarSelect.FindTarTarget: headers are given; a stream that breaks off is an error without a position.
- SpeedMeter.Meter.Read: a read is later than the cutoff of every earlier measurement, which holds when times do not decrease and the window is positive; `SpeedMeter.LossExactly` says what is lost otherwise.
