# Verified model of the BDB bridge

This project models the durable core of the BDB bridge, the local service that takes command
documents from a Git branch and applies them to a workspace, and proves what its recovery and
queueing logic is for. `dafny verify dfyconfig.toml` checks every file.

## What is modelled

**The multi-file patch engine.** A patch is planned on a lazily loaded overlay, recorded as a
checkpoint of exact before and after images, applied write-first and delete-second through temp
files, judged by a test-profile run, and committed or rolled back. A `World` object holds the files,
the temp files and the journal rows. Each process life starts on the files it finds, which someone else may have
replaced, takes a bounded number of durable steps and then dies or meets an I/O error, possibly leaving arbitrary
bytes in a temp file. The main theorem, `PatchRuntime.Operate`, covers every schedule of such lives: a returned result
is either the operations run in order with the revision advanced by one, or the files the checkpoint was taken on with
the revision unchanged; those files have the journal's state hash, and a path that holds neither of its images is
never overwritten, and
a moved file is at its old or its new place at whatever point a process died.

**The command journal.** Sessions, manifests, commands, staged documents and ingestion issues are tables; every
transaction is an action, and `Journal.Journal` is the object whose methods extend the run by one action
each. The theorems range over all runs: mutual exclusion, gap-free claims in order, freezing after a
collision, order-independent ingestion.

**Single-file execution**, with its recovery decision, and **revision conservation** over both kinds of
execution, for the ledger's own transactions and for every schedule of the patch engine (`Accounting.LivesBalance`).

**Algorithms**: bounded breadth-first search and cycle detection, hint merging and budgeted selection for
context packs, EOL-preserving text replacement, patch document parsing and printing with canonical
Base64, and the incrementally updated snapshot cache.

## Where the code does not do what is expected of it

Each is stated exactly, with a counterexample or a condition a caller could check beforehand.

- The state hash predicted before a patch lists every planned path, the one computed afterwards only those
  Git lists. They agree exactly when every planned path ends different from HEAD and visible to Git
  (`Workspace.PredictionAgrees`). A successful patch that takes a path back to its HEAD content is therefore
  applied and then sent to manual reconciliation. `SingleFile.OverrideAgrees` is the same fact for one file; there
  no effect is ever recorded (`SingleFile.RunLives`).
- Exact replacement in a CRLF file commutes with LF normalisation, with the same verdict, exactly when the old text
  splits no break (neither begins with LF nor ends with CR), or matches nowhere directly, or matches several
  times directly while its LF form does not match exactly once (`ExactText.CommutesExactly`).
  Two kinds of failure follow: a single direct match that splits a break is always mishandled
  (`ExactText.SplitBreakFails`), and an ambiguous one may be refused although its LF form has one match
  (`ExactText.AmbiguousOnlyInCrlf`).
- Ingestion is order-independent exactly for document sets without a decodable command numbered 000000 in one of their
  sessions (`Ingestion.OrderIndependentExactly`). Such a document is accepted by the path pattern and by staging, but
  the commands table refuses it, so a manifest that arrives later can never be recorded (`Ingestion.BarredForever`).
- A staged document that does not decode stays in its slot when the manifest arrives; a later, different document
  then takes the slot without an issue. In every reachable state a conflict is overlooked exactly in that case, or when
  a command was recorded by hand before its manifest (`Ingestion.OverlookedExactly`, reached by the run in
  `Ingestion.OverlookedReachable`). The conflict becomes blocking when the manifest is seen again
  (`Scheduling.OverlookedConflict`).
- `git ls-tree` exit code 128 is read as an empty listing. On a faithful cache a successful fetch is the full listing
  exactly when it is not misled: the listing is asked for, ends with that code, and had something to show
  (`Transport.GitCommandTransport.FetchSnapshot`, over sequences `Transport.FetchAll`). The empty listing is cached, and
  later incremental fetches still lack every unchanged document (`Transport.EmptyListingPersists`).
- A path that is not valid UTF-8 in the way of a fast-forward diff makes every later fast-forward fetch fail, while
  a restarted process would succeed on the same tips (`Transport.UndecodableStuck`).
- After a change and its revert between two polls the cached document keeps the commit it was first seen with; a restarted
  process reports the commit of the revert (`Transport.RestartAfterRevert`). The same bytes under another commit are a
  differing document, so the queue freezes as soon as the journal takes them in (`Polling.RestartFreezes`).
- A finished rollback is re-checked on the planned paths only (`PatchRuntime.RecheckRolledBack`), and a recorded command
  not at all. A foreign change of another path between the rollback and the final transaction goes unnoticed, so
  the reply is about the files the checkpoint became final on; they are still there unless someone changed files since.
- docs/GHB2B_MULTI_FILE_PATCH.md says no operation creates directories; bdb_bridge/nested_create_hotfix.py lets a
  create bring its parents. The model follows the code: only a relocation needs an existing destination directory.

## Model

| member | source | states |
|---|---|---|
| Workspace.PredictionAgrees | bdb_bridge/multi_file_patch_executor.py:404-433 | the predicted and the recomputed state hash are equal if and only if every planned path ends in a state Git lists |
| Workspace.HashDeterminesFiles | bdb_bridge/workspace_manager.py:157-173 | equal state hashes mean equal bytes on every path the hash can see |
| Workspace.HashAgrees | bdb_bridge/workspace_manager.py:157-173 | two file maps have equal state hashes if and only if they agree on every visible path |
| Workspace.PredictionLeavesTrace | bdb_bridge/multi_file_patch_runtime.py:289-302 | a met prediction shows that every planned path ended in a state Git lists |
| Workspace.PredictionDeterminesFiles | bdb_bridge/multi_file_patch_executor.py:404-433 | a met prediction pins every visible path outside the patch to its old bytes |
| Workspace.DeletingUntrackedDisagrees | bdb_bridge/multi_file_patch_executor.py:411-415 | concrete input on which prediction and recomputation differ: deleting a file HEAD does not have |
| PatchPlanner.SimulateMeans | bdb_bridge/multi_file_patch_planner.py:149-255 | one simulated operation on the overlay refuses or writes exactly as the operation run on the real map |
| PatchPlanner.SimulateAll | bdb_bridge/multi_file_patch_planner.py:46-63 | the overlay loop ends in the map that running all operations one by one gives, and accepts exactly when that run succeeds within the limits |
| PatchPlanner.MakePlan | bdb_bridge/multi_file_patch_planner.py:42-95 | a plan exists if and only if the run succeeds, the limits hold and something changes; its net changes take the old map to the run's result, and refusals carry the first failing operation's code |
| PatchPlanner.OverlayPlanMeans | bdb_bridge/multi_file_patch_planner.py:65-95 | the rows in path order list every touched path with its images, and the changed ones are exactly the differences |
| PatchMeaning.RunOneMeans | bdb_bridge/multi_file_patch_planner.py:46-63 | an operation is accepted with a result if and only if the result has the stated content at the operation's paths and is unchanged elsewhere |
| PatchMeaning.RefusalMeans | bdb_bridge/multi_file_patch_planner.py:257-283 | a refused operation lacks its file, or finds other bytes or an occupied place, with the matching code |
| PatchMeaning.RunAllMeans | bdb_bridge/multi_file_patch_planner.py:46-63 | a list is accepted with a result exactly when its operations, in order, lead there map by map |
| PatchMeaning.ThereAndBack | bdb_bridge/multi_file_patch_planner.py:176-198 | moving a file away and back leaves every file as it was |
| PatchMeaning.CreateThenDelete | bdb_bridge/multi_file_patch_planner.py:149-175 | creating a file and deleting it leaves every file as it was |
| PatchMeaning.MoveConserves | bdb_bridge/multi_file_patch_planner.py:176-198 | a move keeps the number of files and the contents among them |
| PatchMeaning.IndependentCommute | bdb_bridge/multi_file_patch_planner.py:46-63 | operations on different paths give the same result in either order |
| PatchMeaning.ChangesExactly | bdb_bridge/multi_file_patch_planner.py:65-72 | the change list holds exactly the paths whose content differs, with both contents |
| PatchMeaning.MovePlan | bdb_bridge/multi_file_patch_planner.py:176-198 | a relocation alone is planned as exactly two changes: the old path goes, the new one comes with its bytes |
| PatchMeaning.AdmitsExactly | bdb_bridge/multi_file_patch_planner.py:200-255 | the limits as conditions on the set of named paths |
| Executor.Classify | bdb_bridge/multi_file_patch_executor.py:297-314 | unexpected exactly when the path holds neither image |
| Executor.WriteExact | bdb_bridge/multi_file_patch_executor.py:322-361 | a path without the expected bytes blocks and nothing is written; otherwise at every exit, crash or error included, the path holds its old bytes or the whole target; a foreign temp blocks |
| Executor.DeleteExact | bdb_bridge/multi_file_patch_executor.py:363-374 | refuses exactly a path with other bytes, and otherwise removes it or leaves it |
| Executor.CleanupTemps | bdb_bridge/multi_file_patch_executor.py:386-398 | removes only temps whose bytes are this checkpoint's images, otherwise blocks |
| Executor.WritePass | bdb_bridge/multi_file_patch_executor.py:122-142 | after the first loop every path with a target image holds it, and no path left its two images |
| Executor.DeletePass | bdb_bridge/multi_file_patch_executor.py:143-159 | the second loop removes the paths without target and keeps what was written |
| Executor.Recheck | bdb_bridge/multi_file_patch_executor.py:271-274 | passes only with all after images, keeps whole temps whole, blocks otherwise; an I/O error here leaves the row alone |
| Executor.Mark | bdb_bridge/multi_file_patch_journal.py:345-428 | a checkpoint moves only along the allowed transitions and nothing else of the row changes |
| Executor.Block | bdb_bridge/multi_file_patch_journal.py:431-446 | blocking keeps the whole row but its state |
| Executor.Apply | bdb_bridge/multi_file_patch_executor.py:99-167 | from planned or applying, an unlisted path never changes, a path with neither image is never overwritten, and completion means all after images and no temps; at every exit, crashes included, no path that is to go has changed before every image that is to come is there |
| Executor.Rollback | bdb_bridge/multi_file_patch_executor.py:169-238 | completion means all before images, no temps and the checkpoint's state hash; a blocked rollback with whole temps on mixed files means the hash differed; at every exit writes come before deletes |
| Executor.ConvergeApply | bdb_bridge/multi_file_patch_executor.py:262-283 | repeated interrupted apply from any mixed state reaches all-after and applied, with no temp left and writes before deletes throughout |
| Executor.ConvergeRollback | bdb_bridge/multi_file_patch_executor.py:262-283 | repeated interrupted rollback from any mixed state reaches all-before and rolled back, with no temp left and writes before deletes throughout |
| Executor.MovedContentStays | bdb_bridge/multi_file_patch_executor.py:122-159 | in the order of either pass a moved content is at its old place or at its new one |
| PatchRuntime.EnsureProfile | bdb_bridge/multi_file_patch_runtime.py:252-278 | the first recorded profile verdict is kept by every later life |
| PatchRuntime.Finalize | bdb_bridge/multi_file_patch_runtime_journal.py:241-342 | one transaction binds success to a commit with revision + 1, and anything else to a finished rollback with the revision unchanged; a recorded command is replayed without change; it is refused exactly when an executing command's failed verdict has no finished rollback |
| PatchRuntime.CompareHash | bdb_bridge/multi_file_patch_runtime.py:280-322 | committing needs the recomputed hash, which undisturbed is met exactly by traceable patches |
| PatchRuntime.FinishCheckpoint | bdb_bridge/multi_file_patch_runtime.py:280-322 | success commits, every other verdict rolls back, and left alone it ends accordingly |
| PatchRuntime.PushForward | bdb_bridge/multi_file_patch_runtime.py:218-250 | finishing or re-checking an apply leaves all after images, blocks, or ends the life with the row untouched |
| PatchRuntime.PushBackward | bdb_bridge/multi_file_patch_runtime.py:218-250 | finishing or re-checking a rollback reaches rolled back; undisturbed it never blocks |
| PatchRuntime.RecheckRolledBack | bdb_bridge/multi_file_patch_executor.py:277-279 | a finished rollback passes again exactly when every planned path holds its before image, whatever other paths hold |
| PatchRuntime.Gate | bdb_bridge/workspace_manager.py:434-472 | the claim gate passes exactly when disk, revision and hash are the expected ones, and each refusal has its own code |
| PatchRuntime.RecordCheckpoint | bdb_bridge/multi_file_patch_runtime.py:182-216 | the recorded checkpoint is the plan of this document on the files of that moment, or nothing durable changed; an acceptable document is recorded as soon as one durable step remains |
| PatchRuntime.Prepare | bdb_bridge/multi_file_patch_runtime.py:190-213 | gate, plan and temp check succeed for every acceptable document, and then yield its change list |
| PatchRuntime.InsertCheckpoint | bdb_bridge/multi_file_patch_journal.py:210-342 | the checkpoint row is inserted with the current revision and hashes, whole or not at all |
| PatchRuntime.StartClaimed | bdb_bridge/multi_file_patch_runtime_journal.py:220-238 | a claimed command starts executing only with a recorded checkpoint, and a ready one does start when two durable steps remain |
| PatchRuntime.ExecuteOrRecover | bdb_bridge/multi_file_patch_runtime.py:381-463 | one life keeps the coupling of command, checkpoint, profile, workspace and files; rows never go back; a finished reply is all or nothing; left alone it completes every ready command |
| PatchRuntime.RecordedMeans | bdb_bridge/multi_file_patch_runtime.py:324-379 | a recorded effect read off the rows is the whole patch, verified and traceable, or none of it, on the files the checkpoint became final on |
| PatchRuntime.RunLives | bdb_bridge/multi_file_patch_runtime.py:381-463 | over every schedule of lives, with files changed by others before and after the verdict, every result ever returned is true of the final world; rolling back implies a recorded non-success verdict, committed a success and a command no longer executing; the first verdict decides every later life; blocked, committed and rolled back are absorbing |
| PatchRuntime.Settle | bdb_bridge/multi_file_patch_runtime.py:381-463 | from the claim or any later point, after any clean crashes one quiet life completes the command; there is no result exactly when the recorded verdict is a success and the patch is not traceable |
| PatchRuntime.Accomplish | bdb_bridge/multi_file_patch_runtime.py:381-463 | an admissible, plannable patch freshly claimed is carried out: the operations in order with revision + 1, or the original files, by the recorded verdict |
| PatchRuntime.Operate | bdb_bridge/multi_file_patch_runtime.py:381-463 | end to end from the claim: success means the operations in order and revision + 1, any other status the original files and the same revision; the files started from have the journal's state hash and are the initial ones if nobody else changed them; over the whole schedule a path with neither image keeps the bytes last put there from outside, and undisturbed a moved file is always at its old or its new path |
| PatchRuntime.StrangeBytesStay | bdb_bridge/multi_file_patch_executor.py:297-374 | in every reachable state a path outside the plan, or one whose bytes as last given from outside are neither image, still holds those bytes |
| PatchRuntime.MovedFileStays | bdb_bridge/multi_file_patch_executor.py:122-159 | in every reachable undisturbed state a file that the patch moves is on disk at its old or its new path |
| PatchRuntime.EndsAre | bdb_bridge/multi_file_patch_runtime.py:398-419 | which final state each refusal of a claimed document leads to, and which errors leave it claimed |
| PatchRuntime.CommitAgrees | bdb_bridge/multi_file_patch_runtime.py:280-322 | after images and a met prediction determine the files on every planned or visible path |
| PatchRuntime.RestoredHash | bdb_bridge/multi_file_patch_executor.py:226-236 | an undisturbed rollback always passes its hash check |
| ExactText.ApplyExactTextReplacement | bdb_bridge/exact_text_edit.py:41-108 | guards and edit loop compute the specified text or the specified refusal |
| ExactText.EditCommutes | bdb_bridge/exact_text_edit.py:60-100 | one edit on a uniform file and on its LF form accept together and agree after normalisation, and the file's breaks are kept |
| ExactText.ReplacementCommutes | bdb_bridge/execution.py:107-139 | the same for whole edit lists, in both directions of acceptance |
| ExactText.UniformLineEndingMeaning | bdb_bridge/exact_text_edit.py:9-19 | a detected line ending is the spelling of every break |
| ExactText.CommutesExactly | bdb_bridge/exact_text_edit.py:60-100 | in CRLF text one edit commutes with normalisation if and only if it splits no break, matches nowhere directly, or is ambiguous in both forms |
| ExactText.SplitBreakFails | bdb_bridge/exact_text_edit.py:60-100 | an old text that begins or ends inside a break is always mishandled |
| ExactText.SeveralMatches | bdb_bridge/exact_text_edit.py:72-95 | with several direct matches the file is refused, and its LF form is refused as well exactly unless it matches once |
| ExactText.HarmlessListCommutes | bdb_bridge/execution.py:107-139 | a list whose edits are each harmless at their turn commutes, whatever the old texts look like |
| ExactText.AmbiguousOnlyInCrlf | bdb_bridge/exact_text_edit.py:72-95 | concrete input: refused as ambiguous in CRLF, accepted in LF form |
| ExactText.CountExpand | bdb_bridge/exact_text_edit.py:72-95 | occurrences of a text survive re-spelling of the line breaks |
| EditMeaning.CountsSeveral | bdb_bridge/exact_text_edit.py:64-70 | counting finds more than one exactly if two occurrences do not overlap |
| EditMeaning.EditExactly | bdb_bridge/exact_text_edit.py:63-99 | an edit is accepted with a result exactly when the old text is unambiguous, as it stands or normalised, and the result has the new text in its place under the file's ending, or verbatim if the file has none |
| EditMeaning.PlainEdit | bdb_bridge/exact_text_edit.py:72-78 | without one line ending an edit is refused exactly if its old text occurs twice apart, and otherwise puts the new text verbatim where the old one first stood |
| EditMeaning.ReplacementExactly | bdb_bridge/exact_text_edit.py:41-108 | the whole operation is accepted with a result exactly when the guards hold and the edits, one after the other, make that result |
| Scheduling.StepSafe | bdb_bridge/journal.py:188-256 | every transaction keeps one running session, one worker and the schema, and moves rows only along the transition tables |
| Scheduling.RunsAreSound | bdb_bridge/migrations.py:198-203 | the same in every reachable state; exactly the collision issues block |
| Scheduling.TableClosed | bdb_bridge/models.py:359-372 | the done states and the begun states are closed under the transition table |
| Scheduling.RunLater | bdb_bridge/models.py:126-174 | done stays done, terminal rows freeze, recorded identities never change, over any run |
| Scheduling.ClaimExcludes | bdb_bridge/journal_ingestion.py:975-1182 | a claim needs an idle, unblocked queue; afterwards its session is the only running one and its command the only worker |
| Scheduling.PredecessorsDone | bdb_bridge/journal_ingestion.py:1051-1070 | when n is claimed exactly 1 to n-1 exist below it and are done, then and in every later state |
| Scheduling.ClaimsIncrease | bdb_bridge/journal_ingestion.py:975-1182 | claims in one session strictly increase |
| Scheduling.EndedNeverClaimed | bdb_bridge/journal_ingestion.py:1000-1027 | no command of an ended session is ever claimed |
| Scheduling.BlockedNeverClaims | bdb_bridge/journal_ingestion.py:981-983 | once a blocking issue exists no run claims anything again |
| Scheduling.DifferingBlocks | bdb_bridge/journal_ingestion.py:694-863 | a document that differs from the holder the code looks at changes no row and leaves a blocking issue naming it |
| Scheduling.UnlookedPasses | bdb_bridge/journal_ingestion.py:694-863 | otherwise it adds no blocking issue |
| Scheduling.CollisionFreezes | bdb_bridge/journal_ingestion.py:774-863 | from such a document on no run claims anything |
| Scheduling.ManifestCollisionFreezes | bdb_bridge/journal_ingestion.py:552-575 | a second, different manifest freezes the queue too |
| Scheduling.OverlookedConflict | bdb_bridge/journal_ingestion.py:1325-1378 | an undecodable leftover lets a different document in, which blocks once the manifest is seen again |
| Ingestion.PartOfArrival | bdb_bridge/ingestion.py:160-293 | after any part of an arrival the tables are exactly those of the documents seen, whatever their order |
| Ingestion.ArrivalSettles | bdb_bridge/ingestion.py:160-293 | every arrival of a clean document set ends in the same sessions, commands, bytes and commits |
| Ingestion.OrderIndependentExactly | bdb_bridge/journal_ingestion.py:456-661 | order independence holds if and only if the document set is clean |
| Ingestion.BarredForever | bdb_bridge/migrations.py:69-83 | a staged decodable document numbered zero keeps its session without a manifest in every run |
| Ingestion.ZeroFirst | bdb_bridge/journal_ingestion.py:1379-1400 | an arrival that starts with such a document leaves its session unrecorded |
| Ingestion.ZeroDocumentDisagrees | bdb_bridge/migrations.py:166-178 | the two arrival orders of one manifest and one such document end differently |
| Ingestion.OverlookedExactly | bdb_bridge/journal_ingestion.py:1325-1378 | in every reachable state a conflict is overlooked exactly when an undecodable leftover holds the slot after its manifest, or a hand-recorded command stands before it with nothing else staged |
| Ingestion.OverlookedReachable | bdb_bridge/journal_ingestion.py:1325-1378 | a run of two arrivals reaches such a state, and a different document is then recorded without a blocking issue |
| Ingestion.RunsAreTidy | bdb_bridge/journal_ingestion.py:1310-1428 | in every run receipts follow their manifest, and what a manifest leaves staged without a command does not decode |
| Ingestion.RecommittedFreezes | bdb_bridge/journal_ingestion.py:774-820 | the same bytes under another commit end all claiming |
| JournalRows.DocumentBecomesRow | bdb_bridge/journal_ingestion.py:864-954 | an arriving decodable document becomes a discovered row with its own bytes and commit and a receipt of its hash; no other row changes |
| JournalRows.PromotionMakesCommands | bdb_bridge/journal_ingestion.py:1310-1428 | a manifest promotes exactly the decodable documents of free slots, each to a discovered row with its own bytes and commit |
| JournalRows.PromotionMakesReceipts | bdb_bridge/journal_ingestion.py:1310-1428 | promoted documents get receipts of their own hash and commit and leave the staging area, the others stay |
| JournalRows.ManifestClashes | bdb_bridge/journal_ingestion.py:456-540 | a manifest that differs from the recorded one or names another checkout changes no row and leaves a blocking issue |
| JournalRows.ManifestOpensSession | bdb_bridge/journal_ingestion.py:456-661 | a manifest opens a created session with its repository, base and time, or keeps the one there |
| JournalRows.ArrivedRows | bdb_bridge/ingestion.py:160-293 | after any part of an arrival the rows hold the bytes and commits of exactly the decodable documents whose manifest has come |
| JournalRows.ConflictIsNamed | bdb_bridge/journal_ingestion.py:703-739 | a conflict that is looked at leaves a blocking issue with the place and bytes of the document |
| JournalRows.ClaimExactly | bdb_bridge/journal_ingestion.py:975-1182 | in every run a claim takes a command if and only if the rows say it is its turn |
| JournalRows.OldestIsStarted | bdb_bridge/journal_ingestion.py:1010-1028 | a claim that starts a session starts the oldest waiting one, by creation time and then id, with its first command |
| JournalRows.NoOvertaking | bdb_bridge/journal_ingestion.py:1010-1028 | a younger session is never started while an older one still waits |
| JournalRows.ClaimChanges | bdb_bridge/journal_ingestion.py:1078-1182 | a claim changes the state of its command and of a created session, and nothing else |
| JournalRows.TransitionChanges | bdb_bridge/journal.py:391-470 | a command moves exactly when it is where the caller thinks and the table and the single worker allow it |
| JournalRows.ExpiryChanges | bdb_bridge/journal_ingestion.py:1441-1515 | expiry aborts a created session and expires exactly its discovered commands |
| Journal.Journal.PromoteStaged | bdb_bridge/journal_ingestion.py:1310-1428 | the promotion loop, in any row order, is the promotion of all rows at once, and fails exactly on a decodable row numbered zero |
| Journal.Journal.RecordSessionManifest | bdb_bridge/journal_ingestion.py:456-661 | a manifest arrival is its transaction, rolled back as a whole when promotion fails |
| Journal.Journal.RecordIngestedCommand | bdb_bridge/journal_ingestion.py:664-954 | a command document arrival is its transaction: staged, recorded, replayed or refused |
| Journal.Journal.IngestSnapshot | bdb_bridge/ingestion.py:160-293 | a snapshot is its manifests and then its commands, one transaction each; a document that cannot be parsed or placed leaves a non-blocking issue |
| Journal.Journal.ExpireSessionAndCommands | bdb_bridge/journal_ingestion.py:1441-1515 | aborts a session that never started and expires exactly its undecided commands |
| Journal.Journal.Select | bdb_bridge/journal_ingestion.py:981-1070 | the selection finds the claimable command, and none exactly when there is none |
| Journal.CountDecides | bdb_bridge/journal_ingestion.py:1051-1070 | counting the earlier rows and looking at their states decides whether 1 to n-1 all exist and are done |
| Journal.ClaimableUnique | bdb_bridge/journal_ingestion.py:1000-1049 | at most one command is claimable |
| Journal.Journal.ClaimNext | bdb_bridge/journal_ingestion.py:975-1182 | claims exactly the claimable command and starts its session if needed |
| Journal.Journal.ValidatePending | bdb_bridge/ingestion.py:295-395 | a command becomes validated only when all its predecessors are present; when the pass runs through, one still discovered has no manifest, a gap before it, or a started session whose manifest expired; missing ingestion metadata stops the pass |
| Journal.Journal.Decide | bdb_bridge/ingestion.py:302-385 | one discovered command gets exactly the transaction its verdict calls for, or none, and fails exactly without ingestion metadata |
| Journal.Journal.ExpireStaleSessions | bdb_bridge/journal_ingestion.py:1300-1307 | afterwards no session whose manifest has expired is waiting to start |
| Journal.StillWaits | bdb_bridge/ingestion.py:302-385 | deciding one command never takes away another's reason to wait |
| Journal.Journal.TransitionCommand | bdb_bridge/journal.py:391-470 | a command transition outside the scheduler succeeds exactly when the table and the one-worker rule allow it |
| Journal.Journal.TransitionSession | bdb_bridge/journal.py:188-256 | a session transition succeeds exactly when the table and the one-running rule allow it |
| Journal.Journal.MarkRecoveryBlocked | bdb_bridge/recovery_journal.py:131-182 | command and session go to manual reconciliation together, or neither does |
| SingleFile.OverrideAgrees | bdb_bridge/workspace_manager.py:175-197 | the one-path prediction matches the recomputed hash if and only if Git lists the written path |
| SingleFile.OverrideMeans | bdb_bridge/workspace_manager.py:175-197 | any files meet the prediction if and only if Git shows the written path and they agree with the predicted files on every visible path |
| SingleFile.AdmissibleMeans | bdb_bridge/execution.py:442-536 | a request is admissible exactly if files and journal are as it expects and its edits apply one after the other |
| SingleFile.Desk.Decide | bdb_bridge/execution.py:162-271 | for arbitrary files, temp and rows: execute if and only if the target holds the before bytes, every visible path is as planned and the temp is whole; recover if and only if the target holds the planned bytes, shown by Git, and every other visible path is as planned; replay if and only if the effect is verified; otherwise diverge |
| SingleFile.Desk.MakePlan | bdb_bridge/execution.py:442-536 | a plan is recorded exactly from an admissible request and pins its bytes and hashes |
| SingleFile.Desk.ApplyPlanned | bdb_bridge/workspace_manager.py:537-561 | the target is replaced as a whole or untouched; a temp with other bytes, or beside a changed target, is refused |
| SingleFile.Desk.RecordEffect | bdb_bridge/recovery_journal.py:244-338 | effect row, workspace row and command row change together by one compare-and-swap or not at all; a recorded effect is replayed, never repeated |
| SingleFile.Desk.FromExecuting | bdb_bridge/execution.py:417-441 | over arbitrary files an executing command records its effect if and only if the content shows in Git and the bytes are verified before or after; otherwise nothing is written and it goes to manual reconciliation |
| SingleFile.Desk.FromRecorded | bdb_bridge/execution.py:417-431 | a recorded effect is answered again exactly when the files still verify it |
| SingleFile.Desk.ExecuteOrRecover | bdb_bridge/execution.py:379-550 | one life, on whatever files it finds, never changes the plan, never repeats an effect and writes the target only from verified before bytes; undisturbed it records the effect exactly if the content shows in Git |
| SingleFile.RunLives | bdb_bridge/execution.py:379-550 | over every crash schedule without torn temps and foreign changes: exactly one effect, revision + 1, planned bytes, if and only if the content shows in Git |
| SingleFile.CrashingLives | bdb_bridge/execution.py:379-550 | even with torn temps and foreign file changes never a second effect, and the revision moves exactly with the effect; undisturbed never a half-written target |
| Ledger.RevisionIsConserved | bdb_bridge/journal.py:476-521 | a workspace stands at its registered revision plus its single-file effects plus its committed batches, and no command is both |
| Ledger.Ledger.RecordEffect | bdb_bridge/recovery_journal.py:244-338 | a new effect is one compare-and-swap of its own workspace; a replay changes nothing |
| Ledger.Ledger.CommitBatch | bdb_bridge/multi_file_patch_journal.py:449-503 | an applied batch commits by one compare-and-swap, exactly when the workspace stands at the before values; a replay changes nothing |
| Ledger.Ledger.Finalize | bdb_bridge/multi_file_patch_runtime_journal.py:241-342 | succeeds exactly when verdict, checkpoint, command and workspace rows fit; a failed profile contributes nothing, an applied batch one compare-and-swap, a committed batch never again |
| Ledger.Ledger.MarkCheckpoint | bdb_bridge/multi_file_patch_journal.py:345-446 | applying, rolling back and blocking contribute nothing, and a committed row never moves |
| Ledger.EffectAdvances | bdb_bridge/recovery_journal.py:287-325 | a new effect advances its own session by one and no other |
| Ledger.CheckpointAdvances | bdb_bridge/multi_file_patch_journal.py:467-489 | a batch advances its session exactly when it becomes committed |
| Accounting.FinalizeMirrored | bdb_bridge/multi_file_patch_runtime_journal.py:241-342 | on mirrored rows the coordinator's final transaction and the ledger's succeed together, and the rows are mirrored again |
| Accounting.LivesBalance | bdb_bridge/multi_file_patch_runtime.py:381-463 | books that balance before any schedule of process lives balance with the command's rows afterwards: the revision moves only by one commit |
| Accounting.CommitBalances | bdb_bridge/multi_file_patch_journal.py:467-489 | entering one commit of a command, or none, keeps every workspace at its registered revision plus its contributions |
| Graph.Dependencies | bdb_bridge/code_relationship_service.py:130-151 | depths are true shortest distances even at the node limit, the limit holds, truncated says exactly that a node within the depth is missing, and the edges are those between reported nodes, along source to target for outgoing and target to source for incoming |
| Graph.SearchExact | bdb_bridge/code_relationship_service.py:130-151 | the same for the search as a recursion |
| Graph.NewNodeNearest | bdb_bridge/code_relationship_service.py:134-151 | a node first met from the current layer is really one step further out |
| Graph.CycleFinder.Visit | bdb_bridge/code_relationship_service.py:188-195 | a finding is a cycle; without one the node and everything below it is closed |
| Graph.HasDirectedCycle | bdb_bridge/code_relationship_service.py:181-196 | the result is true if and only if the edges contain a directed cycle, self-loops included |
| Graph.RankedAcyclic | bdb_bridge/code_relationship_service.py:194-196 | closing order is a rank that every arc descends, so a closed graph has no cycle |
| ContextPack.NormalizeHints | bdb_bridge/context_pack_service.py:619-656 | the output covers exactly the lines of the clamped hints, in bounds and in order, and each range carries the union of its sources' reasons and their minimum priority; neighbours that could join have joined |
| ContextPack.ClampHolds | bdb_bridge/context_pack_service.py:627-628 | a clamped hint keeps the hint's lines as far as the file and the excerpt length reach |
| ContextPack.MergeSorted | bdb_bridge/context_pack_service.py:634-650 | the merge loop groups consecutive ranges without losing or adding a line |
| ContextPack.MaterializeFile | bdb_bridge/context_pack_service.py:501-553 | a file stays inside the remaining bytes and shows only its own lines: the normalised hints that fit one after the other, or its head; nothing at all only when not even the head fits |
| ContextPack.OmittedMeans | bdb_bridge/context_pack_service.py:501-519 | source is shown exactly for regular, small text files that are not sensitive, and otherwise the first reason is given |
| ContextPack.HintsMean | bdb_bridge/context_pack_service.py:527-533 | without hints a candidate shows its first symbols or its first lines |
| ContextPack.DroppedDidNotFit | bdb_bridge/context_pack_service.py:535-542 | an excerpt is missing only if it did not fit into the bytes left at its turn |
| ContextPack.Select | bdb_bridge/context_pack_service.py:118-146 | both budgets hold; candidates are considered in priority order, and given the bytes left at its turn one is passed over only when its head does not fit and otherwise selected with whatever fits; not truncated means every candidate of the snapshot is there, complete, and truncated that some candidate is missing or some excerpt was cut |
| ContextPack.EveryHintShown | bdb_bridge/context_pack_service.py:533-542 | in a complete file every line of every hint is inside some excerpt |
| Base64.DecodeEncode | bdb_bridge/edit_operation_parser.py:83-101 | decoding undoes encoding |
| Base64.CanonicalBijection | bdb_bridge/edit_operation_parser.py:83-101 | bytes and accepted spellings correspond one to one |
| Base64.GroupBits | bdb_bridge/edit_operation_parser.py:83-101 | four digits are the 24 bits of their three bytes (RFC 4648, section 4) |
| Base64.LooseBitsRejected | bdb_bridge/multi_file_patch_parser.py:74-81 | a spelling with loose trailing bits decodes but is refused |
| RepoPath.NormaliseIdempotent | bdb_bridge/protocol.py:39-45 | a normalised path is accepted again unchanged |
| RepoPath.NormaliseMeans | bdb_bridge/protocol.py:39-45 | exactly the relative, plain paths without a parent step are accepted, and the accepted spelling names the same parts |
| RepoPath.SplitExactly | bdb_bridge/protocol.py:39-45 | a path is cut exactly at its slashes |
| PatchCodec.ReadReplacements | bdb_bridge/multi_file_patch_parser.py:186-214 | the loop with its running set and byte count reads the list or reports its first error |
| PatchCodec.PrintThenParse | bdb_bridge/multi_file_patch_parser.py:238-245 | parsing the printed document of a well-formed operation gives it back |
| PatchCodec.ParserImage | bdb_bridge/edit_operation_parser.py:116-211 | the parser returns exactly the well-formed operations |
| PatchCodec.ValidatorExact | bdb_bridge/edit_operation_parser.py:257-263 | the structural validator accepts exactly what the parser can return |
| PatchCodec.PrintedReplacements | bdb_bridge/multi_file_patch_parser.py:142-154 | printed replacement lists parse back |
| PatchBatch.ReadOperations | bdb_bridge/multi_file_patch_parser.py:281-318 | the batch loop with its three running totals reads the operations or reports the first error |
| PatchBatch.PatchRoundTrip | bdb_bridge/multi_file_patch_parser.py:258-330 | parsing the printed document of a well-formed patch gives the patch back |
| PatchBatch.ParsePrintParse | bdb_bridge/multi_file_patch_parser.py:258-330 | printing what was parsed parses to the same patch |
| PatchBatch.ValidatePatchExact | bdb_bridge/multi_file_patch_parser.py:333-339 | the patch validator accepts exactly what the parser can return |
| DocumentMeaning.ParsedIsSaid | bdb_bridge/edit_operation_parser.py:116-211 | what is parsed is what the document says, key by key |
| DocumentMeaning.TotalsMean | bdb_bridge/multi_file_patch_parser.py:281-318 | what each operation adds to the three batch totals |
| DocumentMeaning.PatchSaid | bdb_bridge/multi_file_patch_parser.py:258-330 | a parsed patch has the operations of its document, in its order |
| Transport.GitCommandTransport.IncrementalSnapshot | bdb_bridge/git_command_transport.py:184-224 | paths the diff names are as in the new tree, all others as cached; it gives up exactly on an unreadable document, and fails exactly on an undecodable path reached before one |
| Transport.GitCommandTransport.FullSnapshot | bdb_bridge/git_command_transport.py:226-249 | it succeeds exactly when the listing does and everything listed can be read, and then has exactly the controlled documents of the tree |
| Transport.GitCommandTransport.FetchSnapshot | bdb_bridge/git_command_transport.py:128-175 | whether a fetch succeeds is determined by the cached commit and Git's answers; on a faithful cache a success is the full listing of the tip if and only if the fetch is not misled; a failure leaves the cache alone |
| Transport.FetchAll | bdb_bridge/git_command_transport.py:128-175 | over any sequence every success is the full listing if and only if no fetch is misled, and in any case up to the first misled one |
| Transport.CalmFetchSucceeds | bdb_bridge/git_command_transport.py:128-175 | when every step of Git works a fetch succeeds exactly if there is a tip |
| Transport.PatchedMatches | bdb_bridge/git_command_transport.py:206-224 | a cache of the old tree patched by the diff is the listing of the new tree |
| Transport.EmptyListingPersists | bdb_bridge/git_command_transport.py:227-236 | after a listing that exits 128, an incremental success lacks an unchanged document |
| Transport.UndecodableStuck | bdb_bridge/git_command_transport.py:208-211 | as long as an undecodable path keeps the tip different from the cached tree, every fast-forward fetch fails and a fresh process would succeed |
| Transport.RestartAfterRevert | bdb_bridge/git_command_transport.py:284-317 | after a change and its revert the polling process and a restarted one report the same bytes, each with the last touching commit it saw: different ones exactly if those commits differ |
| Polling.RestartFreezes | bdb_bridge/journal_ingestion.py:774-820 | once the polled document has its receipt and the journal takes in what the restarted process reports, no run claims anything any more |

## Left out

- Directories: creating parents and removing them, and symlink or reparse-point checks; rollback is about file bytes. The file map is flat.
- Other writers on the disk between a check and the following effect within one process life. The test-profile run may change any file, and between lives anyone may replace all files, for single-file execution (SingleFile.Desk.Disturb) as for the multi-file engine (PatchRuntime.Disturb).
- Direct-checkout mode: there `_ensure_direct_checkout` (bdb_bridge/workspace_manager.py:266-276) raises DIRTY_SOURCE_CHECKOUT as soon as a controlled path has changed, so recovery after a first write ends in manual reconciliation. The convergence results (PatchRuntime.Settle, PatchRuntime.Accomplish, SingleFile.RunLives) are about isolated worktrees.
- Contents that a patch moves away from a path it also writes anew: while a pass runs they may be only in the checkpoint's images. PatchRuntime.MovedFileStays is about paths that go.
- Scope filtering of the state hash: the workspace hashes only allowed paths; in the model every path is in scope for the hash.
- SHA-256 collisions: equal digests mean equal bytes.
- Lone surrogates in patch documents: in PatchCodec every string has a UTF-8 length, while the source's `.encode("utf-8")` raises on them.
- Text is handled as UTF-8 bytes; that counting on bytes and on characters agrees is a property of UTF-8 that is not proved here.
- The instance lock, the service life cycle, workspace attachment and registration, and worktree checks.
- PatchPlanner.MakePlan: the specification check it starts with is modelled separately, as PatchBatch.ValidatePatch.
- Roles and operation indices of checkpoint paths, event rows, timestamps other than creation order and expiry, and diagnostics.
- `MultiFilePatchPlanner.revalidate`: it plans again and compares, and planning is a function of its inputs.
- PatchRuntime.Finalize: the journal-conflict branches of the workspace compare-and-swap are not shown as outcomes, because the coupling invariant makes them unreachable; for the same reason an executing command whose checkpoint is already committed does not occur.
- PatchRuntime.InsertCheckpoint: the replay of an identical checkpoint row is modelled by Ledger.Ledger.RecordCheckpoint; the coordinator only inserts when there is none.
- SingleFile.Desk.MakePlan: leaves out the scope policy, the profile allow-list and the UTF-8 check of the target, which refuse before anything is durable.
- Journal.Journal.ValidatePending: what parsing an envelope says is an input, and the listing order of discovered commands is not modelled.
- Journal.Journal.TransitionCommand: does not move a command to Claimed; in the package only the scheduler does that.
- One ingestion source per journal; issue rows of several sources are not told apart.
- Session ids are ordered numbers. Command ids and document paths are identified with the pair of session and number.
- `mark_result_collision`, session finalisation and publishing act on the modelled rows through transitions that the model has as actions; their own rows are not modelled.
- Ledger: `update_workspace_state` has no caller in the package and is not an action; which runtime a command goes to is its kind.
- Graph: edge ids are taken to be unique, and the order of equal candidates does not appear in the results.
- Candidate discovery for context packs (search, symbol and dependency neighbours), rendering and the pack hash; the joined reason text is kept as a set.
- ContextPack.MaterializeFile: checksum and decoding failures of an indexed blob, which raise, are not modelled.
- Transport: the tuple order of a snapshot is not modelled; Git's diffs are taken to be diffs of its trees.
- Python's recursion limit, SQLite failures other than the modelled constraint, backoff timing, and the transport-failure bookkeeping.
- CLI modules, native host, heartbeat, mirrors, adapters, the AST relationship analyser, and record-to-dictionary conversions: plumbing or easy members.
