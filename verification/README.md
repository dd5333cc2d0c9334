# Verified model of the worker core

The worker core of this repository keeps state that must survive crashes, interrupts and concurrency: a transaction log
over workspace files, a conversation thread that a model provider will only accept in good order, batches of tool calls
that stop for approval, connections that are swapped while in use. This project models those parts in Dafny and proves
what they promise, for all inputs, all runs and all interleavings. `dafny verify dfyconfig.toml` checks everything.

## Parts

**File mutations** (`Paths`, `FileTree`, `Snapshots`, `BlobStore`, `SnapshotOrder`, `Composition`, `MutationJournal`,
`CrashRecovery`, `UndoHistory`, `MutationService`, `ServiceRuns`, `ClockOrder`). The workspace is a map from paths (segment
sequences) to nodes, the journal a file of events that may end in the middle of a line, the blob store a map from digests to
contents that may be torn. `Service` and `Journal` are the source's classes; their methods are tied to functions on values,
about which crash atomicity, exact composition and exact undo are proved.

**Conversation thread and context governor** (`Messages`, `TokenEstimator`, `ThreadModel`, `ThreadProtocol`, `ThreadRuns`,
`ThreadState`, `ThreadHistory`, `Governance`, `ToolAging`, `CompactionCut`, `HardTruncation`, `ConversationThread`,
`ContextGovernor`). `ThreadProtocol` states the provider's rule as a scan over entries. Each operation keeps it exactly under a
condition its caller can check; runs, restores and all three governance stages keep it always.

**Tool batches and the bounded loop** (`CallGateway`, `ToolBatch`, `RuntimeToolLoop`, `ApprovalRuns`, `RunCheckpoint`,
`ToolSchedule`, `LoopMonitors`, `StreamingLoop`). Results of tools, answers of the model, approvals, failures and the moment
of an abort are arbitrary. `RuntimeToolLoop` works on the `ConversationThread` above, so the theorems speak of one thread throughout.

**Diffs** (`EditScript`, `DiffPreview`), **MCP transport and reload** (`Decimal`, `StdioFraming`, `PendingRequests`,
`ToolGateway`, `McpReload`), **lifecycle hooks** (`LifecycleHooks`), **Markdown chunks** (`Markdown`).

## Where code and documentation part

The model follows the code. Each of these is a theorem here, with the exact condition under which the promise does hold.

- `worker/core/src/hooks/lifecycleHooks.ts:49` speaks of a rolling one-second window. The window is fixed, and twice the
  limit can pass within two milliseconds (`LifecycleHooks.BoundIsReached`). `LimitHoldsExactly` says for which seconds the
  limit holds, `MostIsBound` and `MostIsReached` give the most that any second lets through.
- A `···` line in a diff marks a real gap unless more unchanged lines precede the first change than the context shows
  (`DiffPreview.FalseMarkerExactly`). A line limit below one leaves lines unaccounted for (`TruncationAccountsForEveryLine`).
- The two line counts agree exactly up to 200,000 table cells (`DiffPreview.CountsAgreeExactlyWithinLimit`).
- Restoring a list of roots is exact for every change exactly when outer roots come first
  (`Snapshots.RestoresExactlyWhenOuterFirst`); a mutation named with an inner root first can fail to roll back.
- `worker/core/src/mutations/mutationJournal.ts:160` keeps earlier history readable behind a malformed tail, but the next line
  is glued to it and lost (`CrashRecovery.RecoveryNeedsWholeTail`). A half-written settling line so costs recovery its own line,
  and a later commit over the same roots is taken back (`CrashRecovery.HalfLineReturns`). A last line that lacks only its
  newline is read and then lost with the next one, and a commit written so is rolled back later
  (`CrashRecovery.CommitNeedsItsNewline`).
- A blob half-written in a crash keeps its name and is never repaired. Recovery is exact exactly when no blob of the unfinished
  pre-image is torn (`CrashRecovery.CrashAnywhereIsRecovered`); `CrashRecovery.TornBlobReachesTheFile` is a run where one is.
- `worker/core/src/mutations/mutationService.ts:94` takes the selection to be in journal order. It is sorted by time, so that
  holds exactly while the clock does not run backwards (`MutationJournal.ListingKeepsJournalOrder`). When it did,
  `ClockOrder.UndoAgainstTheClock` says exactly when the undo is refused and when it ends wrong, and
  `ClockOrder.SwappedUndoGoesWrong` is such a run.
- Undo itself is not atomic under crashes: one that dies between two records is an undo of the later ones
  (`ServiceRuns.CallKeepsOrder`), one that dies inside a record's restore can be retried exactly when no selected root differs
  from what was recorded (`ServiceRuns.InterruptedUndoIsLeftAlone`).
- `abortTurn` keeps the provider's rule exactly when no call is pending (`ThreadRuns.AbortKeepsSoundExactly`); the failure path of
  a resumed run (`worker/core/src/runtime/toolLoop.ts:462`) uses it without cancelling calls, so a later batch that fails breaks
  the rule exactly when it leaves a call unanswered (`RuntimeToolLoop.FinishFailedResumedRun`, `RunCalls`).
- An error other than an abort in the batch that an approval resumes goes to the caller with the turn left open, waiting for
  calls that no session holds (`RuntimeToolLoop.ResolveToolApproval`, predicate `LeftOpen`).
- The governor's last stage ends because its notices are small; with oversized ones it would not
  (`HardTruncation.OversizedNoticesNeverEnd`).

## Model

| member | source | states |
|---|---|---|
| Paths.StringTestIsPrefixTest | worker/core/src/mutations/mutationService.ts:380-382 | the string test on slash-joined paths holds exactly for a path and the roots it lies within, segment by segment; `a/bc` is not within `a/b`, and `.` holds everything |
| Paths.SortNames | worker/core/src/mutations/mutationService.ts:162 | sorting directory entries by code unit gives the one strictly increasing listing of the set |
| Paths.SortedIsUnique | worker/core/src/mutations/mutationService.ts:360 | a strictly increasing listing of a set of names is the listing a capture uses, so two independent sorts agree |
| FileTree.CaptureLists | worker/core/src/mutations/mutationService.ts:135-170 | a capture of a root lists exactly the nodes at or below it, each with its own kind and content |
| FileTree.WalkIsLocal | worker/core/src/mutations/mutationService.ts:147-170 | a capture depends on nothing outside its root |
| FileTree.CaptureIsExact | worker/core/src/mutations/mutationService.ts:116-122 | two captures of a root are equal if and only if the two subtrees are, for any two workspaces |
| FileTree.RestoreRootIsExact | worker/core/src/mutations/mutationService.ts:172-194 | restoring a root from its capture succeeds on any workspace where the parent directory exists, puts the subtree back exactly and changes no other path |
| Snapshots.RestoreRootsIsExact | worker/core/src/mutations/mutationService.ts:172-194 | restoring overlapping roots in order puts every one of them back and changes nothing else, whatever the roots hold now |
| Snapshots.RestoreUndoesConfinedChange | worker/core/src/mutations/mutationService.ts:75-82 | after any change confined to the roots, restoring their pre-images gives the original workspace |
| Snapshots.RestoresExactlyWhenOuterFirst | worker/core/src/mutations/mutationService.ts:172-194 | a list of roots restores every confined change if and only if the first listed root covering each root is an outermost one |
| Snapshots.InnerFirstFails | worker/core/src/mutations/mutationService.ts:172-194 | with an inner root first there is a confined change (a file left where the outer directory was) that the restore cannot undo |
| Snapshots.CapturesAgree | worker/core/src/mutations/mutationService.ts:59-68 | workspaces that agree within the roots have equal captures, so a mutation that changed nothing is recognised |
| MutationJournal.Journal.constructor | worker/core/src/mutations/mutationJournal.ts:62-72 | loading a journal file gives the state its events replay to |
| MutationJournal.Journal.AppendPrepared | worker/core/src/mutations/mutationJournal.ts:89-92 | the line and the live state move together: what is in memory is what the file replays to |
| MutationJournal.Journal.AppendCommitted | worker/core/src/mutations/mutationJournal.ts:94-102 | an unknown id is refused and nothing is written; otherwise the prepared mutation becomes a record, in memory as on disk |
| MutationJournal.Journal.AppendRolledBack | worker/core/src/mutations/mutationJournal.ts:104-108 | the mutation is no longer incomplete and can never be listed, in memory as on disk |
| MutationJournal.Journal.AppendUndone | worker/core/src/mutations/mutationJournal.ts:110-117 | the record leaves the active list, in memory as on disk |
| MutationJournal.Journal.ListActive | worker/core/src/mutations/mutationJournal.ts:119-123 | a record is listed if and only if it is committed and not inactive; the list is ascending in time, and records of one time keep their order among the active ones |
| MutationJournal.ListingIsExact | worker/core/src/mutations/mutationJournal.ts:119-123 | no other list has these properties: ascending times and an unchanged order among equal times leave one list |
| MutationJournal.AppendKeepsExactly | worker/core/src/mutations/mutationJournal.ts:140-161 | an appended event is readable afterwards if and only if the file ended with a newline, and what was readable before stays so unless a last event lacked only its newline |
| MutationJournal.ByTimeSorts | worker/core/src/mutations/mutationJournal.ts:122 | the listing is a permutation of the active records in ascending time |
| MutationJournal.ListingKeepsJournalOrder | worker/core/src/mutations/mutationJournal.ts:119-123 | the listing is in journal order, which undo relies on, if and only if no record carries an earlier time than the one before it |
| CrashRecovery.StepKeepsSound | worker/core/src/mutations/mutationService.ts:49-83 | every step of a mutation, of its rollback, of a crash and of recovery keeps disk and journal consistent, a line or a blob cut short by the crash included, as long as no line is written behind an incomplete one |
| CrashRecovery.RunsAreSound | worker/core/src/mutations/mutationService.ts:49-83 | so does every run of such steps, with any number of crashes, also during recovery, inside a line and inside a blob |
| CrashRecovery.SoundRecovers | worker/core/src/mutations/mutationService.ts:196-201 | construction rolls back exactly the unfinished mutation, and does nothing when there is none |
| CrashRecovery.RollbackRestores | worker/core/src/mutations/mutationService.ts:172-194 | the restore of a rollback succeeds wherever the action left the workspace, gives the roots what the store holds of the pre-image, and restoring once more changes nothing |
| CrashRecovery.RecoveryIsARun | worker/core/src/mutations/mutationService.ts:196-201 | recovery is itself a run of these steps, so crashes during recovery are among the runs |
| CrashRecovery.CrashAnywhereIsRecovered | worker/core/src/mutations/mutationService.ts:196-201 | after any run and a crash at any point, inside a line or a blob too, recovery succeeds and touches nothing outside the unfinished mutation's roots; they are as prepared if and only if every blob the pre-image names is whole; nothing stays incomplete if and only if nothing was unfinished or the file did not end in half a line, and then recovering again changes nothing |
| CrashRecovery.WholeStaysWhole | worker/core/src/mutations/mutationJournal.ts:129-134 | over any run, torn blobs included, a stored pre-image stays whole if it was, and torn if it was |
| CrashRecovery.TornOnlyByCut | worker/core/src/mutations/mutationJournal.ts:129-134 | a store of whole blobs gets a torn one only by a crash inside a blob write |
| CrashRecovery.TornBlobReachesTheFile | worker/core/src/mutations/mutationJournal.ts:129-134 | the run in which recovery fails: a crash while the content of a file is stored, a second record of the same file, a crash at work; recovery writes the torn content into the file |
| CrashRecovery.RecordIsAtomic | worker/core/src/mutations/mutationService.ts:49-83 | wherever a record call dies (before its first line, at work, after the committed line, after either rolled-back line, inside any of these lines or a blob): recovery succeeds, nothing outside the roots changes, a mutation stays incomplete if and only if half a settling line was written, and the roots hold the post-image if and only if the committed line can be read, otherwise what the store has of the pre-image, which is the pre-image if and only if its blobs are whole |
| CrashRecovery.RecoveryNeedsWholeTail | worker/core/src/mutations/mutationJournal.ts:140-161 | a record begun behind an incomplete last line is recovered if and only if the file ended with a newline, whatever else is still incomplete: the next append is glued to it and lost |
| CrashRecovery.HalfLineReturns | worker/core/src/mutations/mutationJournal.ts:140-161 | a process that dies with half a settling line written: recovery puts the roots back, but its own line is glued to the half; the mutation stays incomplete, and the next commit over its roots is taken back at the start after it, if and only if that half line was there |
| CrashRecovery.CommitNeedsItsNewline | worker/core/src/mutations/mutationJournal.ts:140-161 | a committed mutation whose line is read but lacks its newline is rolled back at the start after the next record call, and only then: its roots lose their contents if and only if the newline was missing |
| UndoHistory.UndoIsExactFrom | worker/core/src/mutations/mutationService.ts:100-105 | from any workspace that agrees near the selected roots, restoring pre-images latest first brings back the history without the selection there and changes nothing else |
| UndoHistory.UndoEqualsNeverHappened | worker/core/src/mutations/mutationService.ts:100-105 | undoing a selection that no later unselected record overlaps gives the workspace in which the selected records never happened |
| UndoHistory.UndoneRootsAreAsBefore | worker/core/src/mutations/mutationService.ts:89-110 | undoing a run alone on its roots leaves each of them as before the run's first record, however often the run wrote it |
| UndoHistory.WithoutDiffersOnlyThere | worker/core/src/mutations/mutationService.ts:89-110 | paths outside the selected roots are as they were |
| UndoHistory.HistoryRemains | worker/core/src/mutations/mutationService.ts:89-110 | the records left active are again a history that ends in the new workspace, so further undos are as exact |
| Composition.TopLevelRootsPartition | worker/core/src/mutations/mutationService.ts:318-326 | the top-level roots are pairwise disjoint and cover exactly what the recorded roots cover |
| Composition.CompositionIsExact | worker/core/src/mutations/mutationService.ts:317-345 | replaying post-images of overlapping roots yields, entry for entry and in the same order, a fresh capture of every top-level root |
| Composition.ConflictsAreRealDifferences | worker/core/src/mutations/mutationService.ts:116-122 | a root is reported as a conflict if and only if its subtree differs from what the history left there |
| Composition.WayToRootsRemains | worker/core/src/mutations/mutationService.ts:172-194 | directories above the selected roots and outside them are still there when the undo begins |
| Composition.CheckedUndoIsExact | worker/core/src/mutations/mutationService.ts:89-110 | an undo whose check passes is exact on any workspace, whatever was edited elsewhere since |
| SnapshotOrder.SiblingsCompareByName | worker/core/src/mutations/mutationService.ts:360 | comparing whole sibling paths orders them as their last names do |
| SnapshotOrder.OrderSnapshotEntries | worker/core/src/mutations/mutationService.ts:347-373 | grouping by parent, sorting siblings and visiting depth first reproduces the order of a capture, for any entries within the root |
| SnapshotOrder.Visit | worker/core/src/mutations/mutationService.ts:363-371 | the visit from a path is the capture of that path |
| SnapshotOrder.ComposeRoots | worker/core/src/mutations/mutationService.ts:317-345 | the loops over records, roots and entry maps compute the composition the theorems are about |
| SnapshotOrder.AddPosts | worker/core/src/mutations/mutationService.ts:329-336 | each post-image replaces what the map held within its root, before the next is added |
| MutationService.Service.constructor | worker/core/src/mutations/mutationService.ts:41-47 | where recovery succeeds construction is recovery, for any end of the file and any blob store: workspace, live state and appended lines are those of the crash-recovery model, and live state and file agree if the file was whole; pre-images on record that were whole in the store can be restored exactly afterwards |
| MutationService.Service.RecoverIncomplete | worker/core/src/mutations/mutationService.ts:196-201 | the loop over incomplete mutations, each restore followed by its line, computes the recovery function wherever no restore is stopped |
| MutationService.LinesKeepBacking | worker/core/src/mutations/mutationJournal.ts:89-117 | no journal line takes away that every pre-image on record is whole in the store |
| MutationService.Service.CaptureEntry | worker/core/src/mutations/mutationService.ts:147-170 | the recursive walk collects the capture, and every content it refers to is in the blob store |
| MutationService.Service.CaptureRoot | worker/core/src/mutations/mutationService.ts:135-145 | a root that does not exist has an empty capture |
| MutationService.Service.RestoreRoot | worker/core/src/mutations/mutationService.ts:173-193 | removal, directories first, then leaves: fails exactly where a file stands in the way or a blob is missing |
| MutationService.Service.RestoreRoots | worker/core/src/mutations/mutationService.ts:172-194 | the roots are restored in order, or the first failure is passed on |
| BlobStore.RestoreNeedsWholeBlobs | worker/core/src/mutations/mutationJournal.ts:129-138 | roots put back through the blob store are as they were if and only if every blob their snapshots name is whole; a half-written blob keeps its name and is never rewritten |
| BlobStore.RestoreStoredIsExact | worker/core/src/mutations/mutationService.ts:172-194 | the restore through the store succeeds on any workspace with the directories above the roots, gives them what the store holds, and changes nothing else |
| BlobStore.StoringKeepsReading | worker/core/src/mutations/mutationJournal.ts:129-138 | whatever is stored later, also half, changes nothing of what a stored snapshot reads |
| BlobStore.CapturedAreWhole | worker/core/src/mutations/mutationJournal.ts:129-134 | a capture leaves all its contents whole in the store if and only if no torn blob had taken the name of one |
| MutationService.Service.Record | worker/core/src/mutations/mutationService.ts:49-83 | snapshots, prepared line, action, then a committed line, or a rollback of nothing or of every root when the action throws; duplicate roots count once; the recorded pre-image is whole in the store if and only if no torn blob had taken the name of one of its contents |
| MutationService.Service.FindConflicts | worker/core/src/mutations/mutationService.ts:116-122 | the paths reported are those of the conflict specification |
| MutationService.BackwardsOverSelection | worker/core/src/mutations/mutationService.ts:97-105 | restoring the selected records in reverse is undoing the selection within the whole list |
| MutationService.Service.Undo | worker/core/src/mutations/mutationService.ts:89-110 | nothing selected, a conflict and a failed restore are told apart; a refused undo changes neither files nor journal; a successful one restores from the store, marks every record undone and reports ids latest first and paths once; with the recorded pre-images whole that restore is undoing the selection |
| ServiceRuns.EqualCapturesMeanNoChange | worker/core/src/mutations/mutationService.ts:69-70 | when the captures before and after are equal, a confined action changed nothing at all |
| ServiceRuns.RecordKeepsCoherence | worker/core/src/mutations/mutationService.ts:49-83 | a record call whose action returns either adds one record to the active list and one workspace to the history or changes nothing; one whose action throws brings the workspace back and changes neither |
| ServiceRuns.RecordIsARun | worker/core/src/mutations/mutationService.ts:49-83 | the tree and the lines a record call leaves, returning or throwing, are where its steps in the crash model lead |
| ServiceRuns.UndoKeepsCoherence | worker/core/src/mutations/mutationService.ts:89-110 | for any selection that nothing left out overlaps later: the check passes on the live workspace, the result is the history without the selection, and what remains active is again a history |
| ServiceRuns.LaterPartComesFirst | worker/core/src/mutations/mutationService.ts:100-105 | an undo killed between two records has undone the later part of its selection |
| ServiceRuns.CallKeepsOrder | worker/core/src/mutations/mutationService.ts:41-110 | every record call, returning, throwing or killed, also while it captures, every undo, refused, finished or killed between two records, and every restart leaves a journal that is a history ending in the workspace |
| ServiceRuns.EveryLifeUndoesExactly | worker/core/src/mutations/mutationService.ts:41-110 | over every sequence of such calls, torn blobs of killed calls included, none gets stuck, the journal stays a history that ends in the workspace, and the next undo gives that history without what it undoes |
| ServiceRuns.UndoReadsWhatWasRecorded | worker/core/src/mutations/mutationService.ts:97-105 | reading pre-images back from the store restores what was recorded wherever they are whole |
| ServiceRuns.RecordRestartUndo | worker/core/src/mutations/mutationService.ts:41-110 | on the objects: a recorded change, a new service on the same journal and blobs, and an undo of the latest give the original workspace and the original active list |
| ServiceRuns.InterruptedUndoIsLeftAlone | worker/core/src/mutations/mutationService.ts:100-105 | an undo that dies half-way is neither finished nor reverted by recovery, and a retry is refused if and only if a selected root no longer holds what was recorded |
| ClockOrder.CheckFollowsListing | worker/core/src/mutations/mutationService.ts:116-122 | in any listing order and on any workspace the undo check passes if and only if every recorded path holds what the record listed last left there |
| ClockOrder.RestoreFollowsListing | worker/core/src/mutations/mutationService.ts:97-105 | and the restore leaves at every recorded path what the record listed first found there, and everything else alone |
| ClockOrder.UndoInAnyOrder | worker/core/src/mutations/mutationService.ts:89-110 | records undone in another order than they were made: refused if and only if somewhere the record listed last left something else than the record made last; let through, the result is the history without them if and only if everywhere the record listed first found what the record made first found |
| ClockOrder.UndoAgainstTheClock | worker/core/src/mutations/mutationJournal.ts:119-123 | the same for what the service selects from any journal, whatever its timestamps |
| ClockOrder.TwoSwapped | worker/core/src/mutations/mutationJournal.ts:119-123 | two records of one run, the later one stamped earlier: refused if and only if the later one changed something in the roots of both, exact if and only if the earlier one changed nothing there |
| ClockOrder.SwappedUndoGoesWrong | worker/core/src/mutations/mutationJournal.ts:119-123 | a run of two files in which such an undo is let through and leaves one of them changed |
| ThreadProtocol.ResultsFollowTheirCall | worker/core/src/context/conversationThread.ts:146-149 | under the provider's rule every result is preceded in its turn by the entry that asked for it, with only results in between |
| ThreadProtocol.CallsAreAnswered | worker/core/src/context/conversationThread.ts:146-149 | and every call of a finished turn is answered right after it |
| ThreadRuns.BeginKeepsSound | worker/core/src/context/conversationThread.ts:104-121 | a new turn may begin whenever none is open |
| ThreadRuns.AssistantKeepsSoundExactly | worker/core/src/context/conversationThread.ts:156-164 | an assistant entry keeps the rule if and only if nothing is pending and its call ids are distinct and new in the turn |
| ThreadRuns.ResultKeepsSoundExactly | worker/core/src/context/conversationThread.ts:166-189 | a result keeps the rule if and only if its call is pending, and it settles that call only |
| ThreadRuns.CommitKeepsSoundExactly | worker/core/src/context/conversationThread.ts:123-130 | a commit keeps the rule if and only if nothing is pending |
| ThreadRuns.AbortKeepsSoundExactly | worker/core/src/context/conversationThread.ts:132-144 | an abort keeps the rule if and only if nothing is pending: it cancels no call |
| ThreadRuns.InterruptKeepsSound | worker/core/src/context/conversationThread.ts:150-154 | an interrupt always keeps the rule and leaves nothing pending |
| ThreadRuns.NoticeKeepsSoundExactly | worker/core/src/context/conversationThread.ts:206-216 | a notice keeps the rule if and only if nothing is pending |
| ThreadProtocol.DroppingSettles | worker/core/src/context/conversationThread.ts:672-706 | removing the unanswered calls of the last turn leaves exactly its answered ones and nothing pending |
| ThreadRuns.OutlineKeepsSound | worker/core/src/context/conversationThread.ts:297-354 | eliding, truncating and re-estimating texts never changes what the rule sees |
| ThreadRuns.CutKeepsSound | worker/core/src/context/conversationThread.ts:268-295 | replacing a prefix by a summary keeps the rule and the pending calls whenever nothing of the open turn is cut off and the rest does not start with a result |
| ThreadRuns.TurnsInUseDistinct | worker/core/src/context/conversationThread.ts:274-280 | forgetting turns that lost all their entries leaves turn ids unique |
| ThreadHistory.MoveKeepsSound | worker/core/src/context/conversationThread.ts:104-354 | every allowed operation, a save and restore included, keeps the rule |
| ThreadHistory.EveryRunIsSound | worker/core/src/context/conversationThread.ts:104-433 | so does every run from an empty thread |
| ThreadHistory.SoundMeansPaired | worker/core/src/context/conversationThread.ts:146-149 | the rule in terms of entries: every result has its call, every call of a closed turn its result |
| ThreadHistory.PairingSurvivesEverything | worker/core/src/context/conversationThread.ts:123-189 | over every run of turns, interrupts, ageing, compaction, truncation and restores both halves of the pairing hold |
| ThreadHistory.EveryRunIsSettled | worker/core/src/context/conversationThread.ts:268-295 | a thread never holds more than one summary, it is the first entry and a closed turn of its own, and every entry counts tokens |
| ThreadState.ExportIsAccepted | worker/core/src/context/conversationThread.ts:356-372 | every thread in order exports a state that its own validator accepts |
| ThreadState.NamesDoNotMatter | worker/core/src/context/conversationThread.ts:387-398 | the rule does not depend on the ids of turns |
| ThreadState.RenamedIsCopy | worker/core/src/context/conversationThread.ts:387-418 | restoring renames the turns in order and keeps texts, kinds, marks, statuses and the order of entries |
| ThreadState.RestoringContinuesTheTurn | worker/core/src/context/conversationThread.ts:378-433 | restored with its open turn the thread is the exported one up to turn ids, sound, and waiting for the same calls; a negative iteration becomes zero |
| ThreadState.RestoringSettlesTheTurn | worker/core/src/context/conversationThread.ts:419-430 | restored without it the thread is the copy with the open turn aborted and its unanswered calls dropped, followed by one notice in a closed turn of its own; nothing is pending, and without an open turn only the names change |
| ConversationThread.ConversationThread.Begin | worker/core/src/context/conversationThread.ts:104-121 | refused while a turn is open, otherwise a new open turn with the user entry |
| ConversationThread.ConversationThread.Commit | worker/core/src/context/conversationThread.ts:123-130 | refused without an open turn, otherwise the turn is committed |
| ConversationThread.ConversationThread.Abort | worker/core/src/context/conversationThread.ts:132-144 | refused without an open turn, otherwise a notice and an aborted turn |
| ConversationThread.ConversationThread.Interrupt | worker/core/src/context/conversationThread.ts:150-154 | unanswered calls are removed before the abort |
| ConversationThread.ConversationThread.Say | worker/core/src/context/conversationThread.ts:156-164 | the assistant entry goes to the open turn |
| ConversationThread.ConversationThread.AddToolResult | worker/core/src/context/conversationThread.ts:166-189 | the result carries the given or the current iteration and its original estimate |
| ConversationThread.ConversationThread.Notify | worker/core/src/context/conversationThread.ts:206-216 | the notice goes to the open turn, or to a closed turn of its own |
| ConversationThread.ConversationThread.ReplacePrefixWithCompaction | worker/core/src/context/conversationThread.ts:268-295 | deleting the turns of removed entries one at a time keeps exactly those still in use, in order |
| ConversationThread.ConversationThread.ElideToolResult | worker/core/src/context/conversationThread.ts:297-316 | only a tool result with that id changes, and keeps its first original estimate |
| ConversationThread.ConversationThread.TruncateEntryText | worker/core/src/context/conversationThread.ts:318-339 | the text changes, role, calls and call identity do not |
| ConversationThread.ConversationThread.ReestimateTokens | worker/core/src/context/conversationThread.ts:347-354 | every entry is estimated anew; elided results keep their original estimate |
| ConversationThread.ConversationThread.RemoveUnmatchedToolCalls | worker/core/src/context/conversationThread.ts:672-706 | the loop over entries drops exactly the calls without a result in that turn |
| ConversationThread.ConversationThread.RestoreState | worker/core/src/context/conversationThread.ts:378-433 | an invalid state is refused and changes nothing; a valid one gives the restored thread of the theorems |
| ConversationThread.IsConversationThreadState | worker/core/src/context/conversationThread.ts:579-627 | the validator accepts exactly the states with at most one open turn, named as such, known turns and matching roles |
| TokenEstimator.EstimateTextTokens | worker/core/src/context/tokenEstimator.ts:20-29 | the rounded-up count of quarter tokens, four for a CJK character and one for any other |
| TokenEstimator.EstimateIsMonotone | worker/core/src/context/tokenEstimator.ts:82-87 | calibrated estimates grow with the text and with the factor |
| TokenEstimator.Estimator.Calibrate | worker/core/src/context/tokenEstimator.ts:99-107 | a moving average that never leaves its limits, unchanged by empty measurements |
| ToolAging.AgeingElides | worker/core/src/context/contextGovernor.ts:160-176 | ageing changes only results not elided before, each at most once |
| ToolAging.AgedResultsFitOrAreElided | worker/core/src/context/contextGovernor.ts:124-176 | afterwards the results fit their quota, or all outside the newest iterations are elided, and all of them if they were over the quota once capped |
| ToolAging.MaxIterationIsMax | worker/core/src/context/contextGovernor.ts:139-142 | the newest iteration is the largest among the tool results |
| ToolAging.StageKeepsSettled | worker/core/src/context/contextGovernor.ts:124-200 | the stage keeps every entry, its turn, kind and call, and the rule |
| ContextGovernor.ContextGovernor.CapToolResults | worker/core/src/context/contextGovernor.ts:147-158 | exactly the results over the per-result limit are shortened |
| ContextGovernor.ContextGovernor.AgeToolResults | worker/core/src/context/contextGovernor.ts:160-176 | the pass with its running total computes the ageing specification |
| ContextGovernor.ContextGovernor.GetCompactableRanges | worker/core/src/context/contextGovernor.ts:460-487 | the ranges are exactly the turns between the summary and the open turn, in order and without gaps, each with its token sum |
| CompactionCut.FindSafeSuffixStart | worker/core/src/context/contextGovernor.ts:489-507 | the first assistant entry after the start of the turn from which the rest fits |
| CompactionCut.ChooseBoundary | worker/core/src/context/contextGovernor.ts:430-455 | the boundary is the start of the longest suffix of whole turns within the budget; if not even the newest turn fits, of its longest fitting suffix from an assistant entry; failing that of the whole turn |
| Governance.BestCutIsSafe | worker/core/src/context/contextGovernor.ts:416-419 | that cut removes nothing of the open turn and never separates a result from its call |
| Governance.CutKeepsSettled | worker/core/src/context/conversationThread.ts:268-295 | after a cut there is again one summary, at the front |
| ContextGovernor.ContextGovernor.SelectAutomaticPrefix | worker/core/src/context/contextGovernor.ts:420-458 | a cut is chosen if and only if it removes something other than an empty summary |
| ContextGovernor.ContextGovernor.ApplyTurnCompaction | worker/core/src/context/contextGovernor.ts:202-235 | below the budget nothing happens; otherwise exactly the prefix before the best cut is summarized |
| HardTruncation.NoticesFitWithinLimits | worker/core/src/context/contextGovernor.ts:296 | the appended notices are below the smallest cap for every calibration factor up to two |
| HardTruncation.OversizedNoticesNeverEnd | worker/core/src/context/contextGovernor.ts:286-298 | were the notice about a notice over the cap, the walk would never reach the end of its own list |
| ContextGovernor.ContextGovernor.TruncateAll | worker/core/src/context/contextGovernor.ts:286-298 | the walk ends although it appends to the list it walks; each original entry over the cap is cut once, each with one notice, and no other entry changes |
| ContextGovernor.ContextGovernor.ApplyHardTruncation | worker/core/src/context/contextGovernor.ts:268-298 | the cap is an even share of the budget, at least 256 tokens |
| ContextGovernor.ContextGovernor.Govern | worker/core/src/context/contextGovernor.ts:78-122 | whatever stages apply: the open turn keeps all entries, order never changes, only a prefix of closed turns is replaced, by the best cut of the aged thread, and the thread is again in order |
| CallGateway.Gateway.Run | worker/core/src/tools/toolGateway.ts:243-290 | a denied call never runs, an asked one only when approved; after an error it is open whether the call had its effect |
| ToolBatch.LoggedOnce | worker/core/src/runtime/toolLoop.ts:496-709 | whatever an error cut off, no call of a batch has run more often than requested, and none that was neither allowed nor approved |
| ToolBatch.PickedAreDistinct | worker/core/src/runtime/toolLoop.ts:496-709 | with distinct ids that means at most once |
| ToolBatch.DecisionLogged | worker/core/src/runtime/toolLoop.ts:314-341 | the pending call has run if and only if it was approved |
| ToolBatch.StretchLogged | worker/core/src/runtime/toolLoop.ts:534-706 | a stretch without suspension adds exactly its allowed calls, in order |
| ToolBatch.LoggedAcross | worker/core/src/runtime/toolLoop.ts:204-213 | the log of a batch is the log of its first calls followed by that of the rest taken up as a batch of its own |
| ToolBatch.ResultAdvances | worker/core/src/runtime/toolLoop.ts:945-956 | results appended in batch order settle one call each, and the thread then waits for exactly the calls still to come |
| RuntimeToolLoop.RuntimeToolLoop.CollectPeers | worker/core/src/runtime/toolLoop.ts:547-569 | at most four calls, all but the first independent reads that the policy allows |
| RuntimeToolLoop.RuntimeToolLoop.NextGroup | worker/core/src/runtime/toolLoop.ts:541-629 | speculative peers are put back in place when the first call needs the policy |
| RuntimeToolLoop.RuntimeToolLoop.WorkOff | worker/core/src/runtime/toolLoop.ts:534-706 | messages are the results of a prefix of the calls, one each, in order; the checkpoint holds what is completed and what remains; after an abort or any other error the calls beyond the prefix ran at most once each and only if allowed |
| RuntimeToolLoop.RuntimeToolLoop.ExecuteToolBatch | worker/core/src/runtime/toolLoop.ts:496-709 | completed messages, the pending call and the remaining calls are together the batch; the session and the checkpoint hold the same; an abort brings the results so far, any other error none |
| RuntimeToolLoop.RuntimeToolLoop.RunCalls | worker/core/src/runtime/streamingToolLoop.ts:402-446 | a batch ends with every call answered in request order and the checkpoint holding these calls and all earlier ones, so the next batch may follow; or suspended at a call that asks for approval; or, after an error, with the turn closed: with nothing pending, unless the run was resumed and the error is no abort |
| RuntimeToolLoop.RuntimeToolLoop.FinishFailedRun | worker/core/src/runtime/agentRuntime.ts:431-451 | a failure other than an abort also cancels what is unanswered and closes the turn |
| RuntimeToolLoop.RuntimeToolLoop.FinishFailedResumedRun | worker/core/src/runtime/toolLoop.ts:444-464 | the failure of a resumed run cancels nothing: the closed thread keeps the provider's rule if and only if every call of the batch had been answered |
| RuntimeToolLoop.RuntimeToolLoop.ResolveToolApproval | worker/core/src/runtime/toolLoop.ts:294-358 | an unknown run is refused unchanged; a decision is about the pending call and moves the batch past it to its end or to the next call that asks, without running any call twice or unapproved; an abort closes the turn, any other error leaves it open |
| RuntimeToolLoop.RuntimeToolLoop.FinishInterruptedRun | worker/core/src/runtime/toolLoop.ts:958-986 | unanswered calls are cancelled, the turn is closed, session and checkpoint are gone |
| RuntimeToolLoop.RuntimeToolLoop.AnswerCancelled | worker/core/src/runtime/toolLoop.ts:997-1005 | the pending call and all remaining ones get their cancellation, in order |
| RuntimeToolLoop.RuntimeToolLoop.FinishPendingApprovalCancellation | worker/core/src/runtime/toolLoop.ts:988-1040 | the cancelled batch ends with one result per call, a closing text and a committed turn in order |
| RuntimeToolLoop.RuntimeToolLoop.InterruptPendingApproval | worker/core/src/runtime/toolLoop.ts:262-277 | an unknown run changes nothing; a known one is cancelled |
| RunCheckpoint.RestoreRunCheckpoint | worker/core/src/runtime/toolLoop.ts:139-215 | accepted exactly when the pending call is requested and unanswered in the open turn, completed calls have results, and the tool still needs the same approval; the calls left are then the batch at hand, and where the thread waits for them the run can be resumed; a running checkpoint is dropped |
| RunCheckpoint.PendingIsOpen | worker/core/src/runtime/toolLoop.ts:162-178 | a suspended call is requested in the open turn and has no result there |
| RunCheckpoint.SuspendedRunSurvives | worker/core/src/runtime/toolLoop.ts:139-215 | the checkpoint of a suspended batch is accepted on the thread restored with its open turn, rebuilds the same pending and remaining calls, iteration and counters, and the thread waits for exactly those calls |
| RunCheckpoint.Restart | worker/core/src/runtime/toolLoop.ts:133-215 | saving thread and checkpoint at a suspension and loading both into new objects gives a run suspended at the same call with the same calls after it |
| ApprovalRuns.RanIsExact | worker/core/src/runtime/toolLoop.ts:638-705 | the calls that ran are exactly those allowed, and those approved where approval is asked |
| ApprovalRuns.AllAnsweredMeans | worker/core/src/runtime/toolLoop.ts:352-367 | a batch worked off has one result per call in request order, and exactly the due calls have run, none twice |
| ApprovalRuns.ApprovalsAdvance | worker/core/src/runtime/toolLoop.ts:294-341 | the next decision is about the next call that asks, and about no other |
| ApprovalRuns.NoneRejectedRan | worker/core/src/runtime/toolLoop.ts:328-330 | a call that asks has run only if the decision of its own turn approves it |
| ApprovalRuns.Resume | worker/core/src/runtime/toolLoop.ts:294-367 | for any sequence of decisions a suspended batch ends after at most as many as it has calls; the calls approved are those whose decision, in order, approves them, so a rejected call never runs however the batch ends; unless an error stopped it every call is answered once and exactly the due calls have run, none twice |
| ApprovalRuns.ResumeAcrossRestarts | worker/core/src/runtime/toolLoop.ts:139-367 | a batch approved over any number of processes, each restored where the last one suspended: counted from the request of the batch, however it ends, the approved calls are those whose decision approves them and a rejected call never ran; it ends suspended again, with every call answered and exactly the due calls run once, closed, or left open |
| ApprovalRuns.RunRequests | worker/core/src/runtime/streamingToolLoop.ts:402-446 | batches follow one another within a turn until one suspends or stops; afterwards nothing is pending and the checkpoint holds the calls of all of them |
| ToolSchedule.RunTogether | worker/core/src/runtime/toolLoopShared.ts:93-105 | for every interleaving of their steps, reads started together give the results they give alone and leave the workspace alone |
| ToolSchedule.TakeReads | worker/core/src/runtime/toolLoopShared.ts:74-91 | the longest run of allowed independent reads within the limit |
| ToolSchedule.ExecuteScheduledToolCalls | worker/core/src/runtime/toolLoopShared.ts:53-118 | results and workspace are those of running the calls one at a time in order; every group of more than one call holds only allowed independent reads, at most max(1, limit) of them |
| ToolSchedule.ReadsKeepWorkspace | worker/core/src/runtime/toolLoopShared.ts:49-52 | reads in a row leave the workspace of the sequential run as it was |
| LoopMonitors.ToolLoopStallDetector.Observe | worker/core/src/runtime/toolLoopStallDetector.ts:44-82 | the counters say what the history of fingerprints says: recovery once at the threshold, stalled at the next repetition, everything reset by a change |
| LoopMonitors.TrailingCounts | worker/core/src/runtime/toolLoopStallDetector.ts:54-81 | the count is the length of the longest run of equal fingerprints at the end |
| LoopMonitors.RunProgressMonitor.Observe | worker/core/src/runtime/runProgressMonitor.ts:37-62 | the state depends exactly on how many batches at the end only read |
| LoopMonitors.IdleCounts | worker/core/src/runtime/runProgressMonitor.ts:50-55 | those batches read only, and the one before them did more |
| StreamingLoop.Finish | worker/core/src/runtime/streamingToolLoop.ts:329-380 | a text without calls is assessed if a gateway or the policy says so; one not refused ends the loop, a refused one gets a follow-up while one is left, and ends the run when none is |
| StreamingLoop.RunStreamingToolLoop | worker/core/src/runtime/streamingToolLoop.ts:160-602 | the loop ends whatever the model and the tools do; a segment that does not throw emits exactly one result, last; tool batches stay within what is left of the limit, model calls exceed that by at most two, and there is at most one soft landing and one follow-up, counted across resumes; a success means that the last text was not refused and that every refused one before it got its follow-up |
| StreamingLoop.NeverPastTheSixth | worker/core/src/runtime/streamingToolLoop.ts:490-506 | no segment gets past six consecutive batches that only read |
| StreamingLoop.NeverPastTheFourth | worker/core/src/runtime/streamingToolLoop.ts:525-544 | no segment runs five identical batches with identical results in a row |
| EditScript.FillTable | worker/core/src/tools/diffPreview.ts:405-418 | the full table holds longest common subsequence lengths of all prefixes |
| EditScript.BuildEditScript | worker/core/src/tools/diffPreview.ts:396-451 | keeping equal and deleted lines gives the old text, equal and added ones the new; line numbers count up on both sides; no script between the two changes fewer lines |
| EditScript.EveryScriptCostsAtLeast | worker/core/src/tools/diffPreview.ts:396-451 | no script can change fewer lines than those outside a longest common subsequence |
| EditScript.LongestCommonSubsequenceLength | worker/core/src/tools/builtin/fileChangeStats.ts:84-107 | the independent two-row computation gives the same length |
| DiffPreview.MarkShown | worker/core/src/tools/diffPreview.ts:355-367 | exactly the lines within reach of a change are kept |
| DiffPreview.LineDiffWithContext | worker/core/src/tools/diffPreview.ts:333-394 | the lines shown come from a minimal numbered script |
| DiffPreview.ContextKeepsCounts | worker/core/src/tools/diffPreview.ts:333-394 | additions and removals shown are those of the script at any context width |
| DiffPreview.FalseMarkerExactly | worker/core/src/tools/diffPreview.ts:369-379 | a gap marker between adjacent lines appears if and only if more unchanged lines precede the first change than the context shows |
| DiffPreview.CountStats | worker/core/src/tools/diffPreview.ts:236-250 | one count per added and per deleted line |
| DiffPreview.TruncationAccountsForEveryLine | worker/core/src/tools/diffPreview.ts:252-319 | lines shown plus the number announced as omitted are all lines, if and only if the limit is positive or nothing was cut; then the limit holds |
| DiffPreview.TruncationKeepsBothSides | worker/core/src/tools/diffPreview.ts:284-306 | a cut change without context still shows both sides |
| DiffPreview.BuildOverwriteDiffPreview | worker/core/src/tools/diffPreview.ts:169-213 | empty, too large and regular inputs; the statistics are those of the whole texts, whatever is truncated |
| DiffPreview.PreviewOfScript | worker/core/src/tools/diffPreview.ts:197-213 | a regular preview reports the additions and removals of a longest common subsequence |
| DiffPreview.LineDiffStats | worker/core/src/tools/builtin/fileChangeStats.ts:39-56 | line counts from the two-row computation, or net growth above 200,000 cells |
| DiffPreview.CountsAgreeExactlyWithinLimit | worker/core/src/tools/builtin/fileChangeStats.ts:39-56 | the two independent counts agree if and only if the table has at most 200,000 cells |
| StdioFraming.IndexOfHeaderEnd | worker/core/src/mcp/jsonRpcStdio.ts:376-389 | the position of the first blank line, or -1 |
| StdioFraming.Reader.OnStdout | worker/core/src/mcp/jsonRpcStdio.ts:267-277 | each chunk is drained completely, over any number of messages and skipped lines |
| StdioFraming.ReadIsStable | worker/core/src/mcp/jsonRpcStdio.ts:342-374 | a message that can be read is read the same way whatever follows |
| StdioFraming.ChunkingIsInvisible | worker/core/src/mcp/jsonRpcStdio.ts:267-277 | any byte stream, garbage included, cut anywhere, reads as if it had come in one piece |
| StdioFraming.FrameReadsBack | worker/core/src/mcp/jsonRpcStdio.ts:261-265 | a written message is read back first, with exactly what followed it left over |
| StdioFraming.FramingRoundTrip | worker/core/src/mcp/jsonRpcStdio.ts:261-277 | bodies of arbitrary bytes, blank lines included, come out exactly and in order with an empty buffer, however the stream is cut |
| PendingRequests.Client.Request | worker/core/src/mcp/jsonRpcStdio.ts:164-212 | ids are never reused; a request waits, or is rejected when writing it fails |
| PendingRequests.Client.Cancel | worker/core/src/mcp/jsonRpcStdio.ts:183-191 | a timeout or abort rejects and announces only a request that still waits |
| PendingRequests.Client.HandleMessage | worker/core/src/mcp/jsonRpcStdio.ts:279-305 | an answer settles its own request; late, repeated and unknown answers change nothing |
| PendingRequests.Client.FailAll | worker/core/src/mcp/jsonRpcStdio.ts:307-314 | everything that waited is rejected, nothing settled before changes |
| PendingRequests.Client.Close | worker/core/src/mcp/jsonRpcStdio.ts:231-236 | after closing nothing waits and nothing settled has changed |
| ToolGateway.Gateway.Register | worker/core/src/tools/toolGateway.ts:172-177 | a taken name is refused |
| ToolGateway.Gateway.ReplaceCategory | worker/core/src/tools/toolGateway.ts:183-210 | a duplicate or a collision outside the category is refused before anything changes |
| ToolGateway.ReplacementIsExact | worker/core/src/tools/toolGateway.ts:183-217 | after a replacement the category holds exactly the incoming tools and everything else is untouched |
| McpReload.OperationDrain.Begin | worker/core/src/mcp/register.ts:490-492 | no operation begins once closing, and none on closed resources |
| McpReload.OperationDrain.End | worker/core/src/mcp/register.ts:495-500 | the last operation of a closing generation wakes the waiting close |
| McpReload.OperationDrain.Close | worker/core/src/mcp/register.ts:503-507 | closing waits for active operations and is set up once |
| McpReload.OperationDrain.Release | worker/core/src/mcp/register.ts:505 | resources are closed with no operation active |
| McpReload.StepKeepsInvariant | worker/core/src/mcp/register.ts:246-336 | every step of operations, reloads and close keeps generations and registry consistent |
| McpReload.ReloadAndDrainAreSafe | worker/core/src/mcp/register.ts:246-336 | over every interleaving no operation runs on closed connections, each generation is closed at most once and only when idle, and the category holds exactly the current generation's tools, none after close |
| McpReload.SwapsTouchOnlyTheirCategory | worker/core/src/mcp/register.ts:294-299 | no step of the manager touches other tools, and a rejected reload leaves tools and generations unchanged |
| McpReload.ClosedStaysClosed | worker/core/src/mcp/register.ts:319-334 | after close no run brings tools of the category back |
| McpReload.SwapKeepsActiveOperations | worker/core/src/mcp/register.ts:300-302 | whatever happens after a swap, the connections of an operation begun before it stay open until it ends; the generation swapped out counts its operations down, and its one release is due if and only if the last of them has ended |
| McpReload.ClosingCountsDown | worker/core/src/mcp/register.ts:486-510 | over any run a closing generation takes no new operations and is released at most once, only after as many ends as it had operations |
| LifecycleHooks.Dispatcher.Notify | worker/core/src/hooks/lifecycleHooks.ts:86-107 | an event is ignored, dropped by rate, dropped by backlog or dispatched, in that order of checks; pending jobs never exceed their limit |
| LifecycleHooks.Dispatcher.AcceptRateLimit | worker/core/src/hooks/lifecycleHooks.ts:120-136 | a new window starts at the first event a second or more after the last start |
| LifecycleHooks.WindowBound | worker/core/src/hooks/lifecycleHooks.ts:120-136 | within one window no more than its rest, over two no more than one window on top |
| LifecycleHooks.MostIsBound | worker/core/src/hooks/lifecycleHooks.ts:120-136 | the most events any arrivals get through a span of up to a second: what the open window has left; that and a whole window when the span runs past its end; one window; or two less one event when a window opened before the span can end inside it |
| LifecycleHooks.MostIsReached | worker/core/src/hooks/lifecycleHooks.ts:120-136 | and some arrivals let through exactly as many |
| LifecycleHooks.LimitHoldsExactly | worker/core/src/hooks/lifecycleHooks.ts:49-50 | a span of up to a second is held to the documented limit, whatever arrives, if and only if the limit is zero, the span ends with the open window, that window is used up, no window opened later can end inside the span, or the limit is one |
| LifecycleHooks.AnySpanIsBounded | worker/core/src/hooks/lifecycleHooks.ts:120-136 | any span of up to a second lets through at most twice the per-second limit, for every non-decreasing clock |
| LifecycleHooks.BoundIsReached | worker/core/src/hooks/lifecycleHooks.ts:49-50 | for every positive limit some arrivals bring twice as many events through within two milliseconds |
| Markdown.SplitMarkdown | knowledge/parsers/markdown.py:5-20 | the loop over strings computes the greedy packing of the blocks |
| Markdown.GreedyIsGrouping | knowledge/parsers/markdown.py:12-19 | chunks hold all blocks in order, and each fits the limit or is a single block |
| Markdown.GreedyIsOptimal | knowledge/parsers/markdown.py:12-19 | no way of grouping consecutive blocks by that rule uses fewer chunks |
| Markdown.ResplittingChangesNothing | knowledge/parsers/markdown.py:5-20 | splitting the chunks joined by blank lines again gives the same chunks |

## Left out

- Hashing: taken as injective, so comparing hashes is comparing entries, contents and fingerprints.
- File system: symbolic links that lead through paths, dangling links as roots, permissions, and file names outside UTF-16 order; recorded roots have existing parents, and parents created implicitly are not removed by undo, as in the source.
- Concurrent `record` calls on one service: calls are serial, so at most one mutation is incomplete.
- Mutation coordinator over several workspaces: it only dispatches to services.
- Journal parsing: a line is an event or malformed; schema versions and `JSON.parse` are not modelled.
- `CrashRecovery.CrashAnywhereIsRecovered`: in its runs no line is written behind an incomplete one; what such a line does is `RecoveryNeedsWholeTail`, `HalfLineReturns` and `CommitNeedsItsNewline`.
- `ServiceRuns.EveryLifeUndoesExactly`: actions stay within their recorded roots, ids are new, the clock does not run backwards, lines are written whole and no torn blob has the name of a content that is recorded; nothing else writes to the workspace between calls, an undo killed inside one record's restore ends the run.
- `ClockOrder.UndoInAnyOrder`: for records none of which made or removed a directory that a root of another lies in; otherwise a restore out of order may also create directories.
- Text lengths: UTF-16 code units and code points are not told apart, neither in estimates nor in chunk lengths.
- Elided, shortened and summarized texts: arbitrary functions, since nothing proved depends on what they say; a summary stands for the trimmed one.
- Entry and turn counters: kept per thread, where the source shares them between threads; only their freshness matters.
- `restoreFromConversation`, `addCompaction` and `removeTurnEntries`: a one-way import of old dialogs and an operation without callers.
- Saved thread states: typed values; the checks that a JSON value has the right fields are not modelled, nor is rounding of a fractional iteration.
- Budget of the governor: that the thread fits it afterwards is not claimed, because the code does not give it; abort signals between stages are not modelled.
- `ContextGovernor.ContextGovernor.Govern`: assumes a thread between requests, a factor of at least one half and notices below the cap, which runs and the default limits give.
- Tool calls: with ids unique in their turn; a call unknown to the gateway or invalid counts as one that an error stops; retries, time limits and trace records inside one call are not modelled.
- Checkpoint limits (1000 completed ids, 200 remaining calls): taken as met; completed ids are a set.
- `RuntimeToolLoop.RuntimeToolLoop.WorkOff`: logs a group of reads in call order; that any interleaving gives the same is the subject of `ToolSchedule`.
- `ToolSchedule.ExecuteScheduledToolCalls`: assumes that calls the policy inspects as reads do not write.
- `StreamingLoop.RunStreamingToolLoop`: bounds one segment; there is no bound across approvals, since a resume starts at the same iteration. Prompts, thinking text and trace records are not modelled.
- `DiffPreview.BuildOverwriteDiffPreview`: the `hunks` field repeats the lines and is not modelled; edit, create and delete previews only wrap the same functions.
- `StdioFraming.Reader.OnStdout`: bodies stay bytes, `JSON.parse` of a body and buffers of 2^53 bytes and more are not modelled.
- Promises: an awaited continuation is one atomic step; process start, signals and timers of the MCP client are reduced to their calls.
- Reading resources and prompts through the reload manager: operations like any other.
- Hook execution: a dispatched event is one job that settles at some time.
- HTTP, WebSocket, embedding, document parsing, user interfaces and prompts: input and output without the state modelled here.
