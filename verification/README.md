# Verification models of SinkDuce

Dafny models of the parts of SinkDuce whose correctness depends on state, order and
interleaving, with proofs about all inputs, all runs or all reachable states. `dafny verify
dfyconfig.toml` checks everything.

## What is modelled

**Attachment resources** (`ResourceTable`, `ProcessOwnership`, `ResourceTransactions`,
`ResourceLedgers`, `AttachmentRuns`, `AttachmentInvariant`, `AttachmentSteps`,
`AttachmentTheorems`, `ParseJobs`, `AttachmentConsistency`, `AttachmentFates`, `AttachmentStores`,
`AttachmentSharing`, `AttachmentActs`, `AttachmentBinding`, `AttachmentWitnesses`,
`BindingWitnesses`). Several server processes
share a table of leases, a directory of attachments and a directory of upload parts. The table
is a sequence of rows, every SQL statement an `Edit` of it. The classes `LeaseOwners`,
`ResourceLedger` and `AttachmentStore` run the operations statement by statement and are proved
equal to transaction functions; `AttachmentRuns` puts the transactions, the file operations
outside them, process starts, forks and exits, and crashes inside commit, abort, delete and reap
into one step relation with a record of what really happened (uploads open, workers running).
One invariant is kept by every step; quotas, exclusive slots, fencing, agreement with the disk
and the fate of deleted attachments follow for every run. `ParseJobs` follows one upload from its
admission to the end of its parse among everything others do. `AttachmentSharing` separates what a
process reads under its lock from what it writes or deletes later, which decides the fate of bound
attachments, and `AttachmentActs` ties the methods of the store to such acts. `AttachmentBinding`
runs `bind`, one update after the other, among acts of everybody else. `AttachmentWitnesses` and
`BindingWitnesses` hold runs from the empty directory for each shortcoming.

**Chat agent** (`ThinkTags`, `ToolMessages`, `TurnBudgets`). The incremental parser of inline
reasoning against a character-by-character reading; the two passes over the outgoing message
list; one user message as a loop over arbitrary model replies, tool results and user decisions.

**System audio** (`Resampling`, `RateControl`, `Mixing`). The streaming resampler against a
batch form, the delivery and level loops, and the two-leg mixer with its conservation laws, over
exact reals.

**Texts and evidence** (`Pager`, `Excerpts`, `Evidence`). The cursor arithmetic of the attachment
reader, the cutting of excerpts, and the evidence registry with its restore from history. A
record's identity stands for the hash of it.

**Roles and grants** (`Roles`, `Grants`). Custom roles in a file anybody may have edited, and
role creations, edits, deletions and re-roles by keys, each checked at one moment and written at
a later one.

**Secrets** (`Secrets`). Masking nested mappings and restoring what the client sends back.

Where the source changes state the model does: classes with the same fields, loops with the same
variables. Each method is proved against a function, and the theorems are about those functions.
What the functions compute is stated beside them in numbers and constructors, without their names.
`hide` statements in proofs only keep definitions away from the solver that a step does not need.

## What is assumed

- Ids, tokens and incarnations drawn from `uuid4` are new. `max_bytes` is a natural number.
- A `BEGIN IMMEDIATE` block is atomic; a process dies before, after or at the marked points of a
  transaction. Renaming succeeds or the process dies; removing a tree removes it, or the process
  dies half way. Removals by two processes do not overlap.
- The disk fails in publish() only; the process that sees it fail lives through the clean-up.
- An upload writes no more bytes than it reserved; the request parser sees to that.
- A lease is used by the process that obtained it. The ledger's commit may be tried with it any number
  of times; `commit_upload`, whose clean-up removes a directory, is called once for a lease. What a
  second call would do is stated separately.
- The processes use one data directory. It starts empty: adopting sources from before the ledger
  bypasses the quotas.
- Each process has one lock for its store. `update` passes `bound` only to set it, as `bind` does.
- Writes to the token store do not overlap: its routes run on one event loop without a pause
  between reading and writing. Role edits run on threads and do overlap with them.
- The uptime clock does not go back. Frame rates are real numbers.

## What the proofs found

- Committing one lease twice is refused, but the clean-up of the refusal removes the directory that
  the first commit stored, while the row stays charged (`AttachmentConsistency.SecondCommitLosesSource`).
- An upload part whose process dies inside `abort`, between the transaction and the removal of the
  file, is never reclaimed (`AttachmentConsistency.CrashedAbortIsNeverReclaimed`,
  `AttachmentWitnesses.LeakIsReachable`).
- The store's lock is one process's own. A second process that binds an attachment between the check of
  `remove` and its deletion, or between the two halves of an `update`, loses it or its flag
  (`AttachmentWitnesses.BoundCanBeLost`). It is safe exactly when no process acts on an older copy
  (`AttachmentSharing.BoundIsSafeIff`).
- `bind` is all or nothing in one uninterrupted call only. If its process dies between two updates, or
  another process removes an attachment whose turn has not come, some are bound and others not; in the
  second case the call even returns normally (`BindingWitnesses.HalfBoundIsReachable`). It binds all
  exactly when its process lives to the last update and no deletion has taken an attachment away before
  its flag was written (`AttachmentBinding.BindMarksAllIff`). A deletion that died half way counts when
  it took the directory, or the metadata and nobody wrote them back in time.
- A reap leaves the upload of a dead process exactly as long as a forked child that has not yet run its
  fork handler carries its lock (`AttachmentConsistency.ReapClearsExactlyDeadUploads`,
  `AttachmentWitnesses.CarriedLockDelaysReap`).
- The reach of the keys is bounded by its start, not by the step before: an edit that passed its check
  can be written after its author's demotion (`Grants.LateWriteWidensAgain`). `Grants.WriteWidensIff`
  says which single writes widen it.
- The documented ceiling on modules holds for re-roles but not for role edits
  (`Grants.EditsMayWidenModules`); `Grants.EditWidensModulesIff` says which edits open a module.
- The guard against duplicate notes remembers where a note was attempted, not where the user's card
  sent it, so a turn can write the same title twice into one collection
  (`TurnBudgets.RedirectionCanDuplicate`): exactly when a note stays where a card sent an earlier one, or
  a card sends it where any earlier one is (`TurnBudgets.NoteDuplicatesIff`).
- An evidence title that is empty is replaced when the registry is rebuilt, unless its sources give no
  title either (`Evidence.TitleSurvivesIff`).

## Model

| member | source | states |
|---|---|---|
| ResourceTable.EditedRow | src/chat_attachments/limits.py:105-230 | each UPDATE or DELETE leaves, for every id, exactly the edit of the one row it found, and creates none |
| ResourceTable.DistinctAfterEdit | src/chat_attachments/limits.py:63-70 | no statement breaks the primary key |
| ResourceTable.EditRaisesNothing | src/chat_attachments/limits.py:119-161 | a statement that raises no row's contribution to a quota does not raise its total |
| ResourceTable.EditRaisesOneRow | src/chat_attachments/limits.py:193-205 | a statement that changes one row raises a count by one at most |
| ResourceTable.ReclaimInTurn | src/chat_attachments/limits.py:111-117 | reclaiming dead owners one after another is reclaiming all of them at once, in any order |
| ResourceTable.FilesAreCounted | src/chat_attachments/limits.py:148-149 | the file counts of a session, an actor and the installation are the numbers of their rows that are retained or uploading |
| ResourceTable.UploadsAreCounted | src/chat_attachments/limits.py:152 | the upload counts are the numbers of their rows in the upload phase |
| ResourceTable.ParsesAreCounted | src/chat_attachments/limits.py:119-123 | the pending parses are the rows queued, running, or uploading with a parse wanted, in all and by the actor of the job; the running ones are the running rows |
| ResourceTable.BytesAreSummed | src/chat_attachments/limits.py:148-149 | the byte sums grow by the bytes of each row that counts, and start at nothing |
| ProcessOwnership.LeaseOwners.Identity | src/chat_attachments/ownership.py:31-46 | takes the lifetime lock on first use and answers with the same incarnation ever after |
| ProcessOwnership.LeaseOwners.Probe | src/chat_attachments/ownership.py:49-71 | the verdict, and that a probe leaves no trace but the removal of a dead owner's lock file |
| ProcessOwnership.LeaseOwners.AfterFork | src/chat_attachments/ownership.py:15-23 | the child drops the inherited lock and takes a new incarnation; no other process changes |
| ProcessOwnership.VerdictIsTheLock | src/chat_attachments/ownership.py:49-71 | every process reaches the same verdict: alive if and only if some process holds the lock |
| ProcessOwnership.JudgedDeadIffGone | src/chat_attachments/ownership.py:49-71 | a published incarnation is judged dead if and only if its process, and every child still carrying its descriptor, has gone |
| ResourceLedgers.ResourceLedger.FindDead | src/chat_attachments/limits.py:106-110 | probing owner after owner, which removes lock files on the way, finds exactly the owners dead at the start |
| ResourceLedgers.ResourceLedger.Reap | src/chat_attachments/limits.py:105-117 | the loop over dead owners does to rows, directories, parts and locks what one simultaneous reap does; and for every id, whether its row goes, turns idle without owner and token, or stays |
| ResourceLedgers.ResourceLedger.Reserve | src/chat_attachments/limits.py:130-161 | admission: granted if and only if the session id is valid, the check passes and nothing refuses; the order of the refusals, the row inserted column by column, and that a refusal rolls the table back but not the reaped files |
| ResourceLedgers.ResourceLedger.Commit | src/chat_attachments/limits.py:166-176 | when a commit is refused nothing is written; when publish() fails on the disk the table is as before and the files are as far as it came; otherwise directory, part and row change together, and for every id: this row gets the size and is queued if it wants a parse, idle if not, no other row changes |
| ResourceLedgers.ResourceLedger.Abort | src/chat_attachments/limits.py:178-181 | for every id: the row goes if and only if it is an upload this token still holds; every part but this one stays |
| ResourceLedgers.ResourceLedger.Queue | src/chat_attachments/limits.py:183-195 | the refusals in order and the row re-leased for parsing |
| ResourceLedgers.ResourceLedger.TryStart | src/chat_attachments/limits.py:197-206 | missing, wait or started, by token, phase and number of running parses |
| ResourceLedgers.ResourceLedger.FinishJob | src/chat_attachments/limits.py:208-212 | for every id: only the row the token holds changes, which goes if its source was deleted and turns idle, without owner and token, if it was queued or running |
| ResourceLedgers.ResourceLedger.Active | src/chat_attachments/limits.py:214-218 | true if and only if the row was queued or running in this session, its source not deleted and its owner alive |
| ResourceLedgers.ActiveIsAlive | src/chat_attachments/limits.py:105-117 | after a reap a parse at work is one whose owner was alive |
| ResourceLedgers.ResourceLedger.Delete | src/chat_attachments/limits.py:220-230 | for every directory and every id: covered directories go, covered rows of uploads stay with their bytes, of running parses without, both unretained, all other covered rows go, the rest is untouched |
| ResourceLedgers.ProbingKeepsVerdicts | src/chat_attachments/ownership.py:49-71 | removing lock files of owners found dead changes no later verdict of the same sweep |
| ResourceLedgers.UploadsLeft | src/chat_attachments/limits.py:111-117 | after some owners were reclaimed the uploads of the next are still all there |
| AttachmentInvariant.InitialInv | src/chat_attachments/limits.py:57-75 | an empty data directory satisfies the invariant |
| AttachmentInvariant.NewcomerKeeps | src/chat_attachments/ownership.py:10-28 | a process that starts, forks or leaves its fork handler owns no row |
| AttachmentInvariant.ExitKeeps | src/chat_attachments/ownership.py:49-71 | the death of a process at any moment keeps the invariant |
| AttachmentInvariant.OwnerUpIsNotDead | src/chat_attachments/limits.py:105-110 | no process that is up is ever judged dead |
| AttachmentInvariant.ReapKeeps | src/chat_attachments/limits.py:105-117 | a reap keeps rows, leases, files and locks in agreement |
| AttachmentInvariant.RollbackKeeps | src/chat_attachments/limits.py:97-101 | so does a reap whose table changes are rolled back |
| AttachmentSteps.ReserveKeeps | src/chat_attachments/limits.py:130-161 | admission, granted or refused, keeps the invariant |
| AttachmentSteps.OpenUpload | src/chat_attachments/limits.py:166-173 | the row of an open upload is its lease's own, and no directory exists for it yet |
| AttachmentSteps.OneHolder | src/chat_attachments/limits.py:166-212 | two leases never hold the same row at work |
| AttachmentSteps.RefusedCommitIsAbort | src/chat_attachments/store.py:76-81 | the clean-up of a refused commit of an open upload removes no directory and is the abort of the upload |
| AttachmentSteps.FailedPublishIsAbort | src/chat_attachments/store.py:67-81 | when publish() fails on the disk at any point, the clean-up leaves what an abort of the upload leaves |
| AttachmentSteps.CommitKeeps | src/chat_attachments/store.py:60-82 | a commit, accepted or refused, keeps the invariant |
| AttachmentSteps.OtherLeaseIsRefused | src/chat_attachments/limits.py:166-171 | a lease that is no open upload is refused by the ledger, however often its holder tries |
| AttachmentSteps.CommitCrashKeeps | src/chat_attachments/store.py:67-77 | so does a crash at any point between publishing the files and the commit of the row |
| AttachmentSteps.AbortCrashKeeps | src/chat_attachments/limits.py:178-181 | so does a crash between the deletion of the row and the removal of the part |
| AttachmentSteps.CancelKeeps | src/chat_attachments/limits.py:178-181 | an abort at any time, even after its commit, keeps the invariant |
| AttachmentSteps.QueueKeeps | src/chat_attachments/limits.py:183-195 | queueing keeps the invariant |
| AttachmentSteps.TryStartKeeps | src/chat_attachments/limits.py:197-206 | starting keeps the invariant |
| AttachmentSteps.FinishKeeps | src/chat_attachments/limits.py:208-212 | finishing keeps the invariant |
| AttachmentSteps.DeleteKeeps | src/chat_attachments/limits.py:220-230 | deletion that overlaps uploads and parses keeps the invariant |
| AttachmentSteps.FilesCrashKeeps | src/chat_attachments/limits.py:105-117 | a crash in the middle of removing files, in a reap or a deletion, keeps the invariant |
| AttachmentSteps.PutKeeps | src/chat_attachments/store.py:35-39 | metadata or a derived file written at any moment keeps the invariant |
| AttachmentSteps.StepKeeps | src/chat_attachments/limits.py:105-230 | every transaction, file operation, process event and crash keeps the invariant |
| AttachmentTheorems.AdmissionFits | src/chat_attachments/limits.py:140-160 | a row that passes every admission check fits all twelve limits at once |
| AttachmentTheorems.AdmissionInNumbers | src/chat_attachments/limits.py:140-156 | an upload is admitted if and only if the disk keeps 16 MiB beyond all open uploads and twelve counts and sums, each in its number, leave room |
| AttachmentTheorems.RefusalIsTrue | src/chat_attachments/limits.py:140-156 | the reason given for a refusal is true: with the new row that very limit would be broken |
| AttachmentTheorems.AdmissionLeavesRoom | src/chat_attachments/limits.py:140-142 | after an admission the disk has room for all that open uploads may write, and the reserve |
| AttachmentTheorems.OnlyAdmissionGrows | src/chat_attachments/limits.py:105-230 | no operation but reserve raises storage or uploads, none but reserve and queue the pending parses, none but a start the running ones |
| AttachmentTheorems.StepKeepsLimits | src/chat_attachments/limits.py:119-230 | every step of every process keeps every limit |
| AttachmentTheorems.RunKeeps | src/chat_attachments/limits.py:105-230 | every run of every number of processes keeps the invariant and the limits |
| AttachmentTheorems.QuotasHold | src/chat_attachments/limits.py:16-32 | in every reachable ledger every session, actor and the installation are within every limit |
| AttachmentTheorems.QuotasInNumbers | src/chat_attachments/limits.py:18-29 | the same as numbers of rows: at most 100, 500 and 2000 files, 5, 5 and 10 uploads, 25 and 10 pending parses, 5 running ones |
| AttachmentTheorems.WorkersOwnTheirSlots | src/chat_attachments/limits.py:197-212 | each worker really running owns its own running row, so at most five run, and no running row of a live process is without its worker |
| AttachmentTheorems.UploadsOwnTheirSlots | src/chat_attachments/limits.py:220-230 | each upload really open owns its own upload row, deleted conversation or not |
| AttachmentTheorems.SlotHeldUntilWorkEnds | src/chat_attachments/limits.py:220-230 | no delete, reap or death of another process frees a running worker's slot |
| AttachmentTheorems.JudgedDeadIsFinal | src/chat_attachments/ownership.py:49-71 | the owner of a row at work is judged dead if and only if it has gone, and stays dead for every process in every continuation |
| AttachmentTheorems.GoneForever | src/chat_attachments/ownership.py:10-28 | an incarnation that has gone never comes back |
| ParseJobs.LeasedRowStays | src/chat_attachments/limits.py:105-230 | whatever others do, a leased row at work stays exactly as it is until its holder acts on it or dies, or the attachment is deleted |
| ParseJobs.CommitIff | src/chat_attachments/limits.py:166-176 | an open upload can be committed if and only if it was not deleted, its size fits what was admitted, the check passes and the part is complete |
| ParseJobs.ParseFollowsCommit | src/chat_attachments/limits.py:172-176 | after an accepted commit a wanted parse starts when fewer than five run and waits otherwise, it is never missing; one not wanted can be queued by anybody unless parsing is busy |
| ParseJobs.StartsOrWaits | src/chat_attachments/limits.py:197-206 | a parse that waits is told to start if and only if fewer than five run after the reap, and to wait otherwise |
| ParseJobs.WaitingIsBusy | src/chat_attachments/limits.py:183-192 | while it waits nobody can queue the attachment again |
| ParseJobs.ParseIsNeverLost | src/api/routes/chat_attachments.py:54-57 | it stays so through every run, in which its holder may be told to wait or abort the committed upload, until it starts, its process dies or the attachment is deleted |
| ParseJobs.UploadGetsItsParse | src/api/routes/chat_attachments.py:115-139 | from admission to the end: an upload admitted with a parse gets it, one admitted without does not, whatever happens meanwhile |
| ParseJobs.QueueInNumbers | src/chat_attachments/limits.py:187-192 | a parse can be queued if and only if the attachment is there, retained and idle, fewer than 25 parses are pending and fewer than 10 of this actor |
| ParseJobs.QueuedParseWaits | src/chat_attachments/limits.py:183-195 | a parse queued again waits for its turn, in the name of the actor who asked |
| ParseJobs.FinishFreesThePlace | src/chat_attachments/limits.py:208-212 | the end of a parse takes exactly its own row off the running ones; the row turns idle, or goes if its source was deleted |
| AttachmentConsistency.DiskAgreesWithLedger | src/chat_attachments/limits.py:105-117 | with crashes anywhere, each directory has exactly one row and that is retained, and source bytes on disk never exceed what the ledger charges |
| AttachmentConsistency.UnretainedIsAtWork | src/chat_attachments/limits.py:220-230 | a row whose source was deleted is an upload or a running parse, with its lease and without a directory |
| AttachmentConsistency.PartsArePaidFor | src/chat_attachments/limits.py:163-181 | every upload part is within the bytes of its own upload row, or was orphaned by a crash inside abort |
| AttachmentConsistency.ReapSparesCommitted | src/chat_attachments/limits.py:105-117 | a reap removes no source whose upload was committed |
| AttachmentConsistency.ReapIsExact | src/chat_attachments/limits.py:105-117 | a row at work survives a reap if and only if the lock of its owner is held; otherwise an upload or unretained row goes and any other turns idle |
| AttachmentConsistency.ReapClearsExactlyDeadUploads | src/chat_attachments/limits.py:111-117 | row, directory and part of an upload are cleared by a reap if and only if nobody holds the lock of its owner |
| AttachmentConsistency.WhatReapLeaves | src/chat_attachments/ownership.py:15-28 | what a reap leaves of uploads is an open upload, or one whose dead owner's lock a child carries that has not run its fork handler |
| AttachmentConsistency.NoSlotIsLost | src/chat_attachments/limits.py:197-212 | after a reap the running rows are exactly as many as the workers, unless a child carries the lock of a running row's owner |
| AttachmentWitnesses.CarriedLockDelaysReap | src/chat_attachments/ownership.py:15-28 | a run from the start in which a reap leaves row and directory of a dead upload for that reason |
| AttachmentConsistency.StaleLeaseIsInert | src/chat_attachments/limits.py:166-212 | an operation with a token that is no longer the row's changes no row beyond reaping |
| AttachmentConsistency.CommittedTokenIsRefused | src/chat_attachments/limits.py:166-171 | in every reachable state the ledger refuses a token that was committed, whoever presents it in whatever lease |
| AttachmentConsistency.LeasesAreUsedOnce | src/chat_attachments/limits.py:166-206 | in every run, in which holders may commit any lease again and again, a lease is committed at most once and told started at most once |
| AttachmentConsistency.NoResurrection | src/chat_attachments/limits.py:220-230 | once a delete or purge covered an attachment, even one still uploading, no later order of events makes it readable again |
| AttachmentConsistency.RemovedStaysRemoved | src/chat_attachments/store.py:179-194 | its directory never exists again |
| AttachmentConsistency.CommittedForGood | src/chat_attachments/limits.py:166-176 | no event takes a committed row back to the upload phase |
| AttachmentConsistency.BoundSurvives | src/chat_attachments/store.py:170-194 | a bound attachment keeps its directory, its source and its flag in every event that neither deletes it nor writes the flag off |
| AttachmentFates.FateFollows | src/chat_attachments/limits.py:105-117 | whether a committed attachment is there and can be read is decided by deletions and writes of its metadata alone, in every step of every process |
| AttachmentSharing.ClusterRunsAreRuns | src/chat_attachments/store.py:84-194 | acts of processes that read metadata at one moment and write or delete at another, each under its own lock, form runs of the ledger |
| AttachmentSharing.NothingComesBack | src/chat_attachments/store.py:84-164 | so nothing deleted comes back, whatever a process that read it before still writes |
| AttachmentActs.UpdateIsTakeAndPut | src/chat_attachments/store.py:102-109 | update() is a read and a write with nothing in between |
| AttachmentActs.RemoveIsTakeAndDelete | src/chat_attachments/store.py:179-187 | remove() is a check and a deletion with nothing in between |
| AttachmentActs.FinishIsActs | src/chat_attachments/store.py:145-164 | finish() is a look, one write per file, a reading and a write of the metadata |
| AttachmentActs.ImageIsTakeAndStore | src/chat_attachments/store.py:138-143 | image_url() is a look and one file |
| AttachmentBinding.BindIsActs | src/chat_attachments/store.py:170-177 | bind() is a look at every attachment and an update of each |
| AttachmentBinding.BinderGoesOn | src/chat_attachments/store.py:177 | while its process lives nothing others do keeps bind() from its next step |
| AttachmentBinding.BinderRunsAreRuns | src/chat_attachments/store.py:170-177 | bind() among acts of other processes is a run of the cluster, hence of the ledger |
| AttachmentBinding.BindMarksAllIff | src/chat_attachments/store.py:170-177 | after a passed check all ids get their flag if and only if the process does not die before the last one and no deletion has taken an attachment away before its flag was written |
| AttachmentBinding.DeletionSplitsBind | src/chat_attachments/store.py:179-195 | one delete that covers an attachment whose turn has not come is enough |
| AttachmentBinding.BindIsWholeWithoutDeletions | src/chat_attachments/store.py:170-177 | without deletions of its attachments only the death of its process cuts bind() short |
| AttachmentBinding.MarkedIsBound | src/chat_attachments/store.py:102-109 | a flag that bind() writes makes the attachment a bound and committed one |
| AttachmentSharing.BoundIsSafeIff | src/chat_attachments/store.py:102-109 | a bound attachment is kept in every continuation without a purge if and only if no process acts on a copy of its metadata from before it was bound: a passed check of remove(), or what update() is about to write back |
| AttachmentSharing.StaleCopyLoses | src/chat_attachments/store.py:179-187 | with such a copy one act of its holder deletes the attachment or clears its flag |
| AttachmentSharing.BindingAloneIsSafe | src/chat_attachments/store.py:170-177 | binding makes safe when no other process is about to remove or write back the attachment, as when one process serves the conversation |
| AttachmentWitnesses.BoundCanBeLost | src/chat_attachments/store.py:179-187 | a run of two processes from the start that loses a bound attachment, either way |
| BindingWitnesses.BindCanBeHalf | src/chat_attachments/store.py:170-187 | from any two attachments: a death after the first update, or a remove of the second meanwhile, leaves one bound and the other not |
| BindingWitnesses.HalfBoundIsReachable | src/chat_attachments/store.py:170-187 | and such a state is reached from the empty directory |
| AttachmentConsistency.RefusedCommitRemovesDirectory | src/chat_attachments/store.py:76-81 | the clean-up of a refused commit removes the directory, and changes the disk if and only if there was one |
| AttachmentConsistency.SecondCommitLosesSource | src/chat_attachments/store.py:76-81 | so committing one lease twice loses the stored source while its row stays charged |
| AttachmentConsistency.AbortCrashLeaksPart | src/chat_attachments/limits.py:178-181 | a crash inside the abort of any open upload whose part exists orphans the part: no row and no lease is left for it |
| AttachmentConsistency.LeakedPartStays | src/chat_attachments/limits.py:178-181 | an orphaned part survives every later event |
| AttachmentConsistency.CrashedAbortIsNeverReclaimed | src/chat_attachments/limits.py:178-181 | so from every reachable open upload such a crash leaves a part for ever |
| AttachmentWitnesses.LeakIsReachable | src/chat_attachments/limits.py:178-181 | and a run from the start gets there |
| AttachmentStores.AttachmentStore.CommitUpload | src/chat_attachments/store.py:60-82 | commit with the clean-up of its exception handler, after a refusal and after a failure at any point of publish(); an accepted one moves the complete part into a new directory, marked as being parsed, and queues the row if it wants a parse |
| AttachmentStores.AttachmentStore.Lookup | src/chat_attachments/store.py:84-89 | what metadata.json says, nothing when it is missing, an error for an invalid session id |
| AttachmentStores.AttachmentStore.Update | src/chat_attachments/store.py:102-109 | changes exactly the named fields of an attachment that is there, field by field, and nothing otherwise |
| AttachmentStores.AttachmentStore.Finish | src/chat_attachments/store.py:145-164 | a parse that ends after the deletion writes nothing; otherwise text, index, images and status, in one directory only |
| AttachmentStores.AttachmentStore.ImageUrl | src/chat_attachments/store.py:123-143 | a stored image is answered unchanged; otherwise the rendered one is answered and is the one file that changes if the attachment is there, and nothing happens if not |
| AttachmentStores.AttachmentStore.Bind | src/chat_attachments/store.py:170-177 | in one uninterrupted call binds all its ids or none, and says exactly when |
| AttachmentStores.AttachmentStore.Remove | src/chat_attachments/store.py:179-187 | refuses the missing and the bound, otherwise removes directory and row |
| AttachmentStores.AttachmentStore.Purge | src/chat_attachments/store.py:189-194 | removes everything of the session, whatever its state |
| AttachmentStores.BindingMarksExactly | src/chat_attachments/store.py:170-177 | binding touches only the flag of the attachments it was given |
| AttachmentStores.Parsed | src/chat_attachments/store.py:145-164 | after a parse the attachment is ready without an error, with its text, index and images; source, bound flag and images not given again survive, and a text parse keeps the native text |
| AttachmentStores.SelectableOnceParsed | src/chat_attachments/store.py:170-177 | a committed attachment cannot be chosen before its parse is finished, and can be after |
| ThinkTags.ThinkTagStreamParser.Feed | src/chatbox/agent.py:3588-3616 | the loop of one feed against the recursive scan |
| ThinkTags.FindPartialTag | src/chatbox/agent.py:3619-3624 | the loop against the shortest delimiter prefix that ends the text |
| ThinkTags.FindIsFirst | src/chatbox/agent.py:3602-3603 | the first occurrence, or none at all |
| ThinkTags.PartialIsShortest | src/chatbox/agent.py:3619-3624 | which ending is found, and that there is none otherwise |
| ThinkTags.ThinkTagsAreBorderless | src/chatbox/agent.py:3600 | neither delimiter repeats its first character |
| ThinkTags.FeedIsSettled | src/chatbox/agent.py:3595-3616 | what a feed shows is final whatever follows, and what it withholds is a proper prefix of the delimiter waited for |
| ThinkTags.FinalFeedReadsAll | src/chatbox/agent.py:1817-1818 | the last feed withholds nothing |
| ThinkTags.ChunkingIsInvisible | src/chatbox/agent.py:3588-3616 | channel and character sequence are those of the whole text read at once, for every chunking |
| ThinkTags.ShownIsPrefix | src/chatbox/agent.py:3588-3616 | at any moment before the end what was shown is a prefix of the final reading |
| ThinkTags.RoundTrip | src/chatbox/agent.py:3588-3616 | rendered segments come back under every chunking when no segment contains the delimiter that would end it |
| ThinkTags.ReasoningIsBetweenTheTags | src/chatbox/agent.py:3595-3616 | for every chunking: what stands between the tags goes to the reasoning, what stands before and after to the answer |
| ToolMessages.Collapse | src/chatbox/agent.py:3667-3720 | the five loops of the pass against its specification, which CollapseInPlainTerms states in terms of the messages alone |
| ToolMessages.CollectLookups | src/chatbox/agent.py:3675-3689 | the lookup ids of the turn in order |
| ToolMessages.CollectAnswers | src/chatbox/agent.py:3692-3698 | the last answer of each lookup |
| ToolMessages.FindKeep | src/chatbox/agent.py:3699-3703 | the search from the end for an answer with excerpts |
| ToolMessages.CollapseChangesBodiesOnly | src/chatbox/agent.py:3706-3720 | roles, ids, calls and order stay; only excerpt-bearing lookup answers of the turn become stubs |
| ToolMessages.OneLookupRemains | src/chatbox/agent.py:3667-3720 | after the pass all excerpts of the turn's lookups belong to one call |
| ToolMessages.OneBodyRemains | src/chatbox/agent.py:3667-3720 | what is left is exactly the kept lookup's answers with excerpts: one body at most if and only if it was answered with excerpts at most once |
| ToolMessages.LatestLookupIsKept | src/chatbox/agent.py:3699-3704 | and that is the latest call answered with excerpts, with its answers untouched |
| ToolMessages.CollapseInPlainTerms | src/chatbox/agent.py:3690-3720 | with two lookups or more: the latest whose last answer says something (no blank, no stub, no payload without context) is kept as it is, every other lookup answer that says something becomes a stub, and no other message changes |
| ToolMessages.NothingToCollapse | src/chatbox/agent.py:3673-3691 | with fewer lookups, or without a user message, nothing changes |
| ToolMessages.LookupIffAsked | src/chatbox/agent.py:3675-3689 | the lookups of a turn are the calls of that name, with an id, of its assistant messages |
| ToolMessages.AnswerIsTheLast | src/chatbox/agent.py:3692-3698 | the answer of a lookup is the body of the last tool message with its id |
| ToolMessages.LastUserIsLast | src/chatbox/agent.py:3669-3672 | the turn begins after the last user message |
| ToolMessages.CollapseIsIdempotent | src/chatbox/agent.py:3667-3720 | a second pass changes nothing |
| ToolMessages.Sanitize | src/chatbox/agent.py:3828-3880 | the loop over out and pending against its specification |
| ToolMessages.CallIdsAppend | src/chatbox/agent.py:3866-3869 | what an assistant message is owed: the ids of its calls in order, without entries that are no calls or have no id |
| ToolMessages.ProjectedAt | src/chatbox/agent.py:3842-3848 | role, body, calls and answered call of every message stay, its private keys go |
| ToolMessages.SentAt | src/chatbox/agent.py:3850-3857 | a missing answer is sent as a tool message for its call that says that the result is not available |
| ToolMessages.FlushStubs | src/chatbox/agent.py:3849-3856 | one made-up answer per owed id, in order |
| ToolMessages.RepairAnswersAll | src/chatbox/agent.py:3828-3880 | every call is answered, with multiplicity, before the next message that is no tool message |
| ToolMessages.RepairAddsWhatIsMissing | src/chatbox/agent.py:3828-3880 | the made-up answers are exactly the missing ones, and erasing them gives the projected input in order |
| ToolMessages.RepairLeavesValidAlone | src/chatbox/agent.py:3828-3880 | nothing is added if and only if every call was answered already |
| ToolMessages.RepairIsIdempotent | src/chatbox/agent.py:3828-3880 | a second repair changes nothing |
| ToolMessages.OutgoingHistory | src/chatbox/agent.py:962-964 | both passes together: all answered, the collapsed history in order, excerpts of the latest lookup only |
| Resampling.Resampler.Reset | desktop/sysaudio/main.swift:64-69 | an empty stream at a rate of at least one |
| Resampling.Resampler.PushFloat | desktop/sysaudio/main.swift:71-89 | one push outputs the batch form of what is pending, for any step, and leaves the trimmed rest; no index leaves the buffer. What the batch form outputs, in numbers, is OutputIsOnTheLine |
| Resampling.BatchAt | desktop/sysaudio/main.swift:76-82 | output k is read at position p + k * step, and output stops exactly where that position has no right neighbour |
| Resampling.OutputIsOnTheLine | desktop/sysaudio/main.swift:76-82 | output k is s[i] + (q - i) * (s[i + 1] - s[i]) at its position q with whole part i, cut off at -1 and 1; at a whole position it is the sample itself |
| Resampling.OutputMovesOn | desktop/sysaudio/main.swift:77-80 | between two samples it lies between them and moves from the first to the second as the position grows |
| Resampling.LinesAreKept | desktop/sysaudio/main.swift:71-89 | samples on a line a + b * i within scale give outputs on that line |
| Resampling.SameRatePasses | desktop/sysaudio/main.swift:71-89 | at step 1 from position 0 the samples pass through, all but the last |
| Resampling.Resampler.OneSecond | desktop/sysaudio/main.swift:73 | 16000 outputs read on by the input rate times the adjustment |
| Resampling.MoreSamples | desktop/sysaudio/main.swift:71-89 | later samples change no earlier output |
| Resampling.TrimmingIsInvisible | desktop/sysaudio/main.swift:83-87 | dropping consumed samples changes nothing that is read later |
| Resampling.RunningAheadKeepsAll | desktop/sysaudio/main.swift:83-87 | nothing is dropped when the position has run past all samples |
| Resampling.StreamingRefinesBatch | desktop/sysaudio/main.swift:71-89 | at a fixed step every chunking outputs what one push of the whole input does, sample k the point at position k * step of the line through the whole input |
| Resampling.VaryingStepsReadTheWhole | desktop/sysaudio/main.swift:71-89 | when the step changes from push to push, every chunking still reads the whole input at positions that go on from 0 by the step of a push |
| RateControl.AdjustMovesSlowly | desktop/sysaudio/main.swift:954-988 | at most a quarter per callback, nothing unless it closes a healthy window |
| RateControl.WindowsInNumbers | desktop/sysaudio/main.swift:959-971 | a window closes after two seconds with samples in it and is healthy at 40 callbacks a second; its reading times its length is what was delivered |
| RateControl.MeasuredInSteps | desktop/sysaudio/main.swift:952-988 | what one callback does to window, estimate and adjustment: a quarter towards the target or onto it |
| RateControl.TargetIsTheRatio | desktop/sysaudio/main.swift:976 | the target times the nominal rate is the estimated one, between a quarter and two |
| RateControl.AdjustStaysInRange | desktop/sysaudio/main.swift:976-979 | over every stream of callbacks the delivery adjustment stays within [0.25, 2] |
| RateControl.EstimateStaysInHull | desktop/sysaudio/main.swift:969-971 | the rate estimate never leaves the interval of the readings |
| RateControl.EstimateClosesIn | desktop/sysaudio/main.swift:971 | each reading closes three tenths of the gap |
| RateControl.ReachedInSevenWindows | desktop/sysaudio/main.swift:975-980 | a constant target is met exactly after seven healthy windows |
| RateControl.ConstantRateIsConstantTarget | desktop/sysaudio/main.swift:969-979 | a source of constant rate is a constant target from the first window on |
| RateControl.LevelLoopPullsToTarget | desktop/sysaudio/main.swift:999-1010 | below the target level the resampler runs slower, above it faster, at it as measured; always positive and in range |
| RateControl.LevelLoopInNumbers | desktop/sysaudio/main.swift:1000-1009 | filling up at 2 % below until 3200 samples, cruising until below 1600, with 0.1 % for every 500 samples too many or too few, 0.15 % at most |
| RateControl.RateAdjustIsTheProduct | desktop/sysaudio/main.swift:1010 | both adjustments multiply, within a quarter and two |
| Mixing.Rounded | desktop/sysaudio/main.swift:679 | the nearest integer, halves away from zero |
| Mixing.Mixed | desktop/sysaudio/main.swift:677-679 | always a 16-bit sample |
| Mixing.EachOutputIsTheSum | desktop/sysaudio/main.swift:677-679 | for every batch: output k is, to the nearest, 32767 times microphone sample k plus the tap sample of its place, 32767 above full scale and -32767 below |
| Mixing.TapInNumbers | desktop/sysaudio/main.swift:661-676 | that tap sample: from 480 queued on the next one, below that the last one held for 1280 samples in all, then silence |
| Mixing.Capture.OnMicSamples | desktop/sysaudio/main.swift:641-714 | queue, output and payload of a batch; payload and rest are what was pending and what was made, in order, each new sample within half of 32767 times the sum of its microphone sample and its tap sample, and full scale beyond |
| Mixing.Capture.MixIn | desktop/sysaudio/main.swift:653-681 | the read-cursor loop refines taking samples off the queue one by one |
| Mixing.BatchInClosedForm | desktop/sysaudio/main.swift:658-681 | as many samples as the batch has, each made with the tap sample of its place; the oldest are used in order; never from 480 or more to below 479 |
| Mixing.BatchesJoin | desktop/sysaudio/main.swift:658-681 | two batches in a row are one batch |
| Mixing.Flushable | desktop/sysaudio/main.swift:706-710 | the largest whole number of chunks of 320, so fewer than 320 wait |
| Mixing.Excess | desktop/sysaudio/main.swift:1013-1015 | nothing up to 16000 samples, else exactly what leaves 16000 |
| Mixing.Capture.IngestTap | desktop/sysaudio/main.swift:948-1017 | rate change, measurement, resampling with the samples and position left over, level loop and queue of one tap callback |
| Mixing.Capture.QueueTap | desktop/sysaudio/main.swift:990-1016 | cruise mode, rate adjustment and the oldest samples dropped |
| Mixing.Capture.MeasureDelivery | desktop/sysaudio/main.swift:952-988 | the window logic against its specification |
| Mixing.Capture.ResetMixState | desktop/sysaudio/main.swift:524-544 | queue, held sample, window, adjustment and pending output are as at the start |
| Mixing.Capture.Attach | desktop/sysaudio/main.swift:546-550 | only the client changes |
| Mixing.Capture.Detach | desktop/sysaudio/main.swift:552-557 | no client, and a reset |
| Mixing.EverythingIsConserved | desktop/sysaudio/main.swift:641-714 | over every run: appended = played + dropped + queued in arrival order; made for a client = sent in whole chunks + waiting, in order; one sample out per microphone sample |
| Pager.LineCount | src/chat_attachments/service.py:263 | what was asked for between 1 and 200, and the nearer bound otherwise |
| Pager.Locate | src/chat_attachments/service.py:267-271 | counting newlines and measuring the last line names exactly the place reached |
| Pager.PageIsWindow | src/chat_attachments/service.py:262-273 | a page is the text from its cursor to the next one, which lies strictly further; a newline stands between only after a completed block |
| Pager.PageIsAsLongAsAllowed | src/chat_attachments/service.py:262-275 | a page ends for two reasons only: its block of lines, as many as asked for between 1 and 200, is shown to the end, or it has 16000 characters |
| Pager.PlacesBehind | src/chat_attachments/service.py:262-275 | a place behind the text or behind the characters of its block shows nothing, and behind the text there is no more |
| Pager.FollowIsText | src/chat_attachments/service.py:260-287 | for any sequence of line counts what was shown is a prefix of the rest, without gap or repetition |
| Pager.EverythingIsShownOnce | src/chat_attachments/service.py:260-287 | from (1, 0) until there is no more, all of the text; the end comes after at most one request per character and one more |
| Pager.AttachmentIsShownOnce | src/chat_attachments/service.py:253-287 | the same from the stored text, whatever line breaks it has |
| Pager.SplitLosesNothing | src/chat_attachments/service.py:253 | lines and breaks together are the stored text; no line holds a newline |
| Pager.SplitAtEveryBreak | src/chat_attachments/service.py:253 | and the text is split at every break: no line holds one of the ten, and a carriage return takes its newline with it |
| Pager.ShownIsStored | src/chat_attachments/service.py:265 | what is shown is the stored text if and only if every break is a newline and none ends it |
| Pager.OffsetIsExact | src/chat_attachments/service.py:296 | the offset in the reply is the place of the line if and only if no break before it has two characters |
| Pager.OffsetIsExactForFiles | src/chat_attachments/service.py:292-303 | which never happens for a stored file, since reading it turns carriage returns into newlines |
| Excerpts.Excerpted | src/chatbox/citations.py:23-36 | the loop against the recursive cutting |
| Excerpts.CutEndsWell | src/chatbox/citations.py:27-33 | at most 1600 characters, across no boundary, and why each piece ends where it does |
| Excerpts.PiecesPartition | src/chatbox/citations.py:23-36 | contiguous windows of the text that together are the text |
| Excerpts.EveryCharacterIsQuotable | src/chatbox/citations.py:34-36 | every character that is no white space lies in exactly one excerpt, at its exact offset |
| Evidence.EvidenceRegistry.Register | src/chatbox/citations.py:118-145 | records, active ids and answer of one registration; metadata with the same JSON forms get the same id |
| Evidence.EvidenceRegistry.constructor | src/chatbox/citations.py:101-116 | the restoring loop, and that its result is valid |
| Evidence.EvidenceRegistry.LiveRecords | src/chatbox/citations.py:150-151 | the records of the active ids that still have one, in that order |
| Evidence.EvidenceRegistry.Include | src/chatbox/citations.py:153-157 | the loop over the trusted records against its specification; the registry stays valid |
| Evidence.IncludedHasAll | src/chatbox/citations.py:153-157 | while there is room, what the registry had stays where it is and every record the history gives is there, the last one used last |
| Evidence.EvidenceRegistry.Used | src/chatbox/citations.py:159-164 | the cited records in order; strict mode refuses if and only if an id is unknown |
| Evidence.ListedInOrder | src/chatbox/citations.py:150-164 | exactly the known ids, as often and in the order in which they were cited |
| Evidence.KindOf | src/chatbox/citations.py:124-125 | a given kind is kept, and there always is one; which one is guessed is RecordSaysWhatItQuotes |
| Evidence.RecordSaysWhatItQuotes | src/chatbox/citations.py:118-144 | a new record holds the first 4000 characters, the metadata under the ten source keys and the eleven place keys, and the kind given, or the one that attachment, meeting or url gives away in this order |
| Evidence.SameIdIff | src/chatbox/citations.py:126-128 | two registrations get the same id if and only if session, kind, kept text and every source and place value, as JSON shows it, are the same |
| Evidence.RegisteredIsValid | src/chatbox/citations.py:118-145 | any registration keeps at most 2048 records and 256 active ids, distinct and content-addressed |
| Evidence.RegistrationKeepsTheRest | src/chatbox/citations.py:134-144 | the record registered is there and its id is the last of the active ones, whether it was there before or not; only the oldest of a full registry is lost |
| Evidence.TouchedIsValid | src/chatbox/citations.py:129-132 | the id just used is the last of the active ones |
| Evidence.TouchedInOrder | src/chatbox/citations.py:129-132 | the others keep their order, and only the oldest of 256 goes for a new one |
| Evidence.AnyHistoryRestoresValid | src/chatbox/citations.py:101-116 | so does restoring any history, however damaged; the last 32 records are active |
| Evidence.HistoryCannotForge | src/chatbox/citations.py:113-115 | every restored record stands in the history under the id its own contents give it |
| Evidence.RestoredOneIff | src/chatbox/citations.py:105-115 | a stored record comes back if and only if the id it claims is the one its contents have, or it was there before; nothing else changes while there is room |
| Evidence.RebuildingIsFaithful | src/chatbox/citations.py:101-116 | rebuilt from its own records: same identities, kinds, quotes, sources and locations in the same order |
| Evidence.TitlesSurvive | src/chatbox/citations.py:138-142 | every title that is not empty survives the rebuild; an empty one, which a label like "/" gives, need not |
| Evidence.TitleSurvivesIff | src/chatbox/citations.py:138-142 | a title survives if and only if it is not empty, or its sources give no title either |
| Evidence.TitleIsTheFirstName | src/chatbox/citations.py:138-142 | the title is the first of label, file name, title, source and url that counts, a path cut down to its name, 300 characters at most |
| Evidence.NameOfPath | src/chatbox/citations.py:140-141 | the name of a path is what follows its last slash, whatever stands before it |
| Roles.Stripped | ee/identity/roles.py:19 | no white space at either end |
| Roles.StrippedIsMiddle | ee/identity/roles.py:19 | and only white space is gone |
| Roles.LastEntryWins | ee/identity/roles.py:18-54 | under a custom id the last entry of the file says name, flags, and which known modules and capabilities the role has |
| Roles.OnlyNamedRoles | ee/identity/roles.py:42-54 | and no other custom roles exist |
| Roles.CustomsAreWellFormed | ee/identity/roles.py:18-54 | whatever the file says, custom roles stand under their own, non-built-in ids and hold known capabilities and modules only |
| Roles.BuiltinsAreFixed | ee/identity/roles.py:35-72 | no contents of the file change a built-in role; owner and admin have all five capabilities, member and visitor none, the visitor three modules, and only the owner cannot be given away |
| Roles.RoleStore.constructor | ee/identity/roles.py:35-54 | the reading loop against its specification |
| Roles.RoleStore.CreateCustomRole | ee/identity/roles.py:99-122 | an empty name is refused; otherwise one more role, with known switches only |
| Roles.RoleStore.UpdateCustomRole | ee/identity/roles.py:125-162 | built-in and unknown roles are refused; otherwise only this role changes |
| Roles.UpdatedSays | ee/identity/roles.py:139-159 | a name that is not blank counts as stripped, a blank one leaves the name, none strips the old one; modules and capabilities are replaced as a whole or left, unknown ones dropped |
| Roles.RoleStore.DeleteCustomRole | ee/identity/roles.py:165-179 | built-in and unknown roles are refused; otherwise only this role goes |
| Grants.AssertCapabilitiesGrantable | ee/api/identity.py:127-160 | passes if and only if the actor's role exists and has every capability switched on, key management being for the local machine only; a denial names the first offending switch and why |
| Grants.KeyStore.SetTokenRole | ee/pairing/service.py:47-94 | the search loop: which record changes, and every refusal in order |
| Grants.SetRoleIff | ee/pairing/service.py:6-94 | a key gets a role if and only if it is no local one and has it already, or neither role is the owner's, the new one can be given away, and the issuer is the local machine or manages keys and has all that the role has, which manages none |
| Grants.FirstWithIsFirst | ee/pairing/service.py:69-71 | the record found is the first with the id |
| Grants.PassedIsHarmless | ee/api/identity.py:68-160 | a change that passed its check asks for nothing beyond what keys can do, and never for key management |
| Grants.PassingNeedsPower | ee/api/identity.py:68-125 | whoever edits roles may manage access, whoever assigns one may manage keys, and a role that a key has is not deleted |
| Grants.WriteIsExact | ee/identity/roles.py:99-179 | what one write does to what every role may do and to every key: this and no more |
| Grants.WriteTames | ee/identity/roles.py:99-179 | a write gives no role anything beyond that bound |
| Grants.StepKeepsBound | ee/api/identity.py:68-160 | every check and every late write keeps the bound |
| Grants.ReachNeverGrows | ee/pairing/service.py:6-94 | over every run of overlapping role creations, edits, deletions and re-roles by non-local actors the capabilities reachable through keys never grow |
| Grants.ManagersNeverGrow | ee/pairing/service.py:42-44 | no step gives another key the power to manage keys |
| Grants.RunGainsNoManager | ee/pairing/service.py:42-44 | nor does any run |
| Grants.OneRequestAtATime | ee/api/identity.py:68-160 | without overlap the reach shrinks with every single request |
| Grants.WriteWidensIff | ee/identity/roles.py:99-179 | one write leaves the reach no larger if and only if it touches no key and no role of a key, or what it brings is within the reach already |
| Grants.LateWriteWidensAgain | ee/api/identity.py:86-101 | with overlap it need not: a checked edit written after its author's demotion widens what the keys then reach |
| Grants.AssignmentKeepsModules | ee/pairing/service.py:39-40 | a re-role stays within the actor's modules |
| Grants.EditWidensModulesIff | ee/identity/roles.py:125-162 | an edit opens no module that was closed to all keys if and only if it names none, no key has the role, or those it names are open already |
| Grants.EditsMayWidenModules | ee/api/identity.py:86-101 | an edit does not: a role that may edit roles can open every module to itself |
| TurnBudgets.TurnLoop.Run | src/chatbox/agent.py:1607-1611 | the round loop against its specification |
| TurnBudgets.TurnLoop.RunRound | src/chatbox/agent.py:1953-2030 | the loop over the calls of one round |
| TurnBudgets.TurnLoop.RunFanOut | src/chatbox/agent.py:1953-2027 | which lookups run together, against the same budget; which these are is FanOutIsGreedy |
| TurnBudgets.TurnLoop.LookUpTranscript | src/chatbox/agent.py:2263-2344 | one lookup: wasted, out of budget, merged from the fan-out or run; what ends the lookups of the turn is NothingNewEndsLookups and SomethingNewGoesOn |
| TurnBudgets.SearchKeeps | src/chatbox/agent.py:2981-3051 | a knowledge-base search keeps every budget |
| TurnBudgets.LookupKeeps | src/chatbox/agent.py:2263-2344 | so does a transcript lookup, run, merged or wasted |
| TurnBudgets.WebKeeps | src/chatbox/agent.py:2112-2243 | so does a web call: at most one confirmation in the turn, no search before an approval or after a refusal |
| TurnBudgets.NoteKeeps | src/chatbox/agent.py:2611-2846 | so does a note: at most three, of distinct attempts, under the title attempted |
| TurnBudgets.BudgetsHold | src/chatbox/agent.py:418-434 | whatever the model replies and the user decides: at most 15 rounds of the loop, 5 searches, 5 lookups with the fan-out, 3 notes of distinct attempts, one web confirmation, no unapproved web search, no round after two wasted lookups |
| TurnBudgets.DryTurnLooksUpNoMore | src/chatbox/agent.py:2296-2330 | in a turn that has run dry no lookup runs any more, whatever replies follow |
| TurnBudgets.NothingNewEndsLookups | src/chatbox/agent.py:2284-2332 | a lookup that finds nothing but what earlier ones found, or comes after five have run, is the last: no later call or reply adds one to the trace |
| TurnBudgets.SomethingNewGoesOn | src/chatbox/agent.py:2284-2332 | any other lookup is remembered and leaves the turn open: the next one runs if and only if fewer than five have |
| TurnBudgets.OtherLookupsRunNothing | src/chatbox/agent.py:2263-2296 | in a dry turn a lookup is only answered and counted as wasted; one out of scope, misdirected or not allowed does nothing |
| TurnBudgets.FanOutIsGreedy | src/chatbox/agent.py:1953-1992 | when a round asks for two lookups or more, those allowed run together in order as far as the budget goes, if these are two at least |
| TurnBudgets.FanOutIsCounted | src/chatbox/agent.py:2010-2012 | each of them counts against the budget of the turn |
| TurnBudgets.CallsInOrder | src/chatbox/agent.py:2029-2031 | the calls of a round are done one after the other, in order |
| TurnBudgets.SearchRunsWithinBudget | src/chatbox/agent.py:2981-3051 | a configured knowledge-base search runs if and only if fewer than five have |
| TurnBudgets.WebRunsWhenApproved | src/chatbox/agent.py:2112-2243 | the user is asked for the web at the first call only; after an approval every call searches, after a refusal none |
| TurnBudgets.NoteRunsWithinBudget | src/chatbox/agent.py:2655-2839 | a new attempt before the third note is written where the user leaves or sends it; declined or sent where no note can go it is not written, and not new any more |
| TurnBudgets.OtherNotesDoNothing | src/chatbox/agent.py:2655-2680 | an attempt made before, or after three notes, does nothing |
| TurnBudgets.CallsGoOn | src/chatbox/agent.py:1607-1612 | replies with calls are asked for one after the other, exactly up to fifteen |
| TurnBudgets.FinalReplyEnds | src/chatbox/agent.py:1607-1612 | a failure, or an answer that needs no other try, is the last reply asked for |
| TurnBudgets.UnsavedAnswersAreRetriedTwice | src/chatbox/agent.py:3236-3240 | an answer that a report review sends back is asked for again, twice at most |
| TurnBudgets.DuplicatesAreRedirected | src/chatbox/agent.py:2655-2720 | two notes of a turn meet in one collection under one title only if the user's card redirected one of them |
| TurnBudgets.NoteDuplicatesIff | src/chatbox/agent.py:2655-2839 | a note makes the first duplicate of a turn if and only if it stays where a card sent an earlier one, or its card sends it where an earlier one is |
| TurnBudgets.NoDuplicatesIff | src/chatbox/agent.py:2655-2839 | over a whole turn: no title is written twice into one collection if and only if no redirected note went where another note is |
| TurnBudgets.NoteAtHomeRepeatsIff | src/chatbox/agent.py:2655-2720 | a note written where it was attempted repeats an earlier one if and only if a card sent an earlier one there |
| TurnBudgets.RedirectionCanDuplicate | src/chatbox/agent.py:2752-2839 | and then they can: the turn remembers attempts, not destinations |
| Secrets.RedactMapping | src/secrets.py:50-63 | the loops against the recursive masking |
| Secrets.RestoreSecrets | src/secrets.py:66-84 | the loops against the recursive restoring |
| Secrets.MaskIsRecognised | src/secrets.py:12-17 | every mask is recognised as one, and only the empty text has an empty mask |
| Secrets.MaskHidesTheRest | src/secrets.py:12-17 | secrets with the same last four characters, and all short ones, have the same mask: four stars, and those four characters if there are more than eight |
| Secrets.SecretKeyIff | src/secrets.py:45-47 | secret are, in any case of letters, api_key, token, api_token and every name that ends in _api_key |
| Secrets.RestoreUndoesRedact | src/secrets.py:50-84 | a client that sends back what it was shown changes nothing, for every nested mapping |
| Secrets.RestoreAt | src/secrets.py:66-84 | at every place the result is what was sent there, completed from what is stored there |
| Secrets.NewSecretsSurvive | src/secrets.py:66-84 | a text sent anywhere survives unless it stands under a secret key, is empty or starts with four stars or bullets, and another text is stored there, which then takes its place |
| Secrets.OthersStayAsSent | src/secrets.py:66-84 | at every place the keys are those sent, other values stay as sent, and lists keep length, order and every item that is no mapping |
| Secrets.OnlyMasksAreShown | src/secrets.py:50-63 | wherever a text stands under a secret key only its mask is shown, every other text as it is |
| Secrets.OthersAreShown | src/secrets.py:50-63 | at every place a response has the keys that are stored, other values as they are, and lists of the same length and order |
| Secrets.FieldFunctionsAgree | src/secrets.py:20-41 | the single-field functions decide as the nested pass does; a null keeps what is stored |

## Left out

- Wiring: HTTP routes, event streams, prompts, model and search clients, the user interface, logging.
- SQL text and SQLite, real file locks and file descriptors; an inherited descriptor of a probe that
  runs while another thread forks is not modelled, nor are two removals of one tree at a time.
- The adoption of sources stored before the ledger existed, and changes of schema.
- `create` and `list` of the store: the first is reserve, write, commit and abort in a row, the second
  only sorts what `get` reads. File names, parser warnings and creation times are not part of metadata.
- `image_url` renders a page; the model takes the rendered text, or its failure, as given.
- Tool messages: ids that are no strings, contents that are lists, and the attachment and image
  hydration that runs between the two passes, which changes contents only.
- Tool messages without a call are passed through on purpose; nothing is claimed about them.
- The chat turn that does not stream (`chat`), which has a loop of its own.
- The rest of the chat turn: report reviews appear as a retry of the answer, the to-do tools, direct
  retrieval and other tools as calls that spend no budget. Whether a dispatched note is stored in the
  end is up to the note store.
- Floating-point rounding, sample formats, energy and gap statistics, device set-up, watchdogs, and the
  microphone's own resampler.
- Mixing.EverythingIsConserved: tap samples enter as the resampler delivers them; energies and the time
  of writing to the client are not recorded.
- The text search, the listing, image selection and OCR projection of the attachment tools; the pager
  theorems are about the window before the projection.
- Citation markers in markdown and the annotation of tool results (`citation_ids`, `capture`).
- Records drop out first in, first out, whatever was used last; so no claim is made that active ids have
  records.
- Issuing, revoking and expiring keys, and the local machine's own requests: only non-local actors on
  existing keys take part in the runs.
- Grants.ReachNeverGrows: about capabilities; modules are not bounded by role edits.
- Domain and collection access lists.
- Secrets.OnlyMasksAreShown: about texts in mappings and in mappings inside lists; lists inside lists are
  passed through by the program. Lower-casing is modelled as far as it can yield the letters compared with.
