# Verified model of remote-codex

This project models the parts of the repository whose correctness is hard to see
from one function, and proves properties of them for every input and every run:

- the resumable file transfer, as a machine of single file-system operations that
  may be stopped, torn or lose power anywhere (`transfer_*.dfy`), together with a
  class that performs the commands and whose every path is a run of that machine,
  and several processes that contend for one stage (`transfer_lock.dfy`);
- the open-file tabs with their late reads and the rename that merges tabs
  (`paths.dfy`, `tabs*.dfy`);
- the chat list: merging history pages, and what the reducer shows after any events,
  with its reverted turns (`chat_*.dfy`);
- streaming code that must equal a plain function of its whole input: newline
  framing, the backward log scan and the bounded directory page (`lines.dfy`,
  `codec.dfy`, `usage_history.dfy`, `directory_page.dfy`);
- the gateway loop, the configuration cache, the workspace tree, the math
  placeholders and the patch views (`gateway*.dfy`, `profiles.dfy`,
  `profile_calls.dfy`, `workspace_*.dfy`, `math_*.dfy`, `patch_view.dfy`).

`dafny verify dfyconfig.toml` checks everything.

Library calls are parameters: the hash, JSON decoding and encoding, the order of
strings, the collation of turn identifiers, directory keys, and the resolution of
a configuration. Where a proof needs a law of such a parameter, the law is a
`requires` of the theorem (a total order, an injective key, a decoder that undoes
its encoder).

## How the transfer is modelled

A world holds the published tree, one staging directory, the data files with their
flushed and latest contents, and the running command with its program counter.
Every file-system operation of prepare, write, commit, reconcile and cancel is one
step. Between any two steps the command may be stopped, a write may be torn, others
may change the tree, and power may be lost. After a loss of power the directory
structure is one of those since the last directory flush, and every file, staged or
published, holds, byte by byte, flushed or latest contents. `TransferEndpoint.Endpoint`
is the imperative form: its methods perform the operations of the source in order,
any of which may fail while `flaky` is set, and record the machine steps they are.

`TransferProtocol` has one process for each token. In `TransferLock` any number of
processes take these steps on one token; directories and lock files have identities,
a lock is taken on the opened file and not on its name, and a process that has opened
a file keeps it after the name is removed.

## Results that differ from what one may expect

- A cancel removes the lock file by its name while it holds the lock. A process that
  has opened that file and not yet locked it can lock it afterwards, while a third
  one creates and locks a new file in the same directory: both are past the lock of
  one stage. `TransferLock.RemovalBreaksIff` shows that this can follow a removal
  exactly if some other process has the lock file open at that moment;
  `TransferLock.EveryCancelIsExposed` that any cancel can meet with it. In all other
  runs at most one process is past the lock.
- A page item that belongs to a message submitted here (matched by client name, no
  turn yet) and that is neither complete nor longer leaves that message without a
  turn, so that it sorts behind its own answer.
  `ChatPageOrder.UnfinishedQuestionFallsBehind` gives the page;
  `ChatPageOrder.TurnlessPageOrderIff` says exactly when page order is kept.
- `relocate` can remove a tab that was protected only by a save in progress or by
  waiting for a place itself: a second tab with the same goal takes it over.
  `TabsRelocate.ContestedRemovesProtected` gives two tabs for which this happens;
  `TabsOutcome.OnlyUnprotectedRemovedIff` says for every rename exactly when it does.
  No unsaved draft is ever lost.
- `movedPath` is only right between places that are both the root or both not;
  `Paths.MovedPathSegments` gives the exact condition.
- A configure call that is dropped between the commit of its row and the publication
  leaves the cached profile behind the store; `ProfileCalls.AbandonedPublication`
  says exactly when, `ProfileCalls.CacheLeftBehind` gives a run for any two
  configurations.
- A discarded turn with an empty identifier is never filtered by the reducer, so the
  reducer's guarantee is for identifiers that are not empty.

## Model

| member | source | states |
|---|---|---|
| `TransferInvariant.NextKeeps` | `crates/transfer/src/staging.rs:11-195` | every step, stop, torn write, outside change and loss of power keeps the protocol invariant |
| `TransferInvariant.RunKeeps` | `crates/transfer/src/staging.rs:11-195` | the invariant holds in every reachable state |
| `TransferInvariant.LossKeeps` | `crates/transfer/src/journal.rs:30-48` | whatever structure and contents come back after a loss of power, every checkpointed block is still there |
| `TransferInvariant.SaveKeeps` | `crates/transfer/src/journal.rs:30-48` | saving the journal, stopped at any of its operations, never leaves a checkpoint that the data does not back |
| `TransferSafety.CheckpointFacts` | `crates/transfer/src/staging.rs:46-60` | a stage that holds its data has offset <= length <= source length and the checkpointed blocks as prefix; no stale tail at full offset; a digest implies a full offset and is that of the data; committed implies the data is gone |
| `TransferSafety.AcknowledgedIsCheckpointed` | `crates/transfer/src/staging.rs:92-98` | every block acknowledged to a client is in the checkpoint and in the data, whatever happened since |
| `TransferSafety.OnlyPublishingChangesFiles` | `crates/transfer/src/staging.rs:136-162` | commands change the tree in one step only, which puts a complete file of the announced length there, flushed, with the permissions and the modification time of its source and the digest already saved on disk, and never replaces a file when a new name is expected |
| `TransferSafety.RecordedDigestFreezesData` | `crates/transfer/src/staging.rs:74-98` | once a digest is recorded nothing, not even a loss of power, alters the staged file |
| `TransferSafety.PrepareNeverFindsShortData` | `crates/transfer/src/staging.rs:51-56` | the error for data shorter than its checkpoint is unreachable in prepare |
| `TransferSafety.AcknowledgementsGrow` | `crates/transfer/src/staging.rs:174-194` | only cancel takes back what was acknowledged |
| `TransferSafety.WriteReplyPromises` | `crates/transfer/src/staging.rs:66-99` | a Ready reply to write means exactly its block was appended and nothing is left unflushed |
| `TransferSafety.DoneIsDurable` | `crates/transfer/src/staging.rs:163-193` | Done means that every directory operation is flushed, the commit recorded, or the stage removed |
| `TransferSafety.FlushedBeforeRecorded` | `crates/transfer/src/staging.rs:163-170` | a publication is flushed before its commit is recorded, a new stage before anything is answered about it |
| `TransferRuns.DestinationNeverPartial` | `crates/transfer/src/staging.rs:116-173` | after any run every file was there before or was put there by others (or is what a loss of power left of such a file), or is complete and flushed, with a digest some client asked for and the permissions and time of an announced source |
| `TransferRuns.PublishedAtMostOnce` | `crates/transfer/src/staging.rs:116-173` | without cancel, any number of interrupted retries performs the publishing rename at most once, and at most once more for each loss of power, which may undo it |
| `TransferRecheck.EveryRenameRechecked` | `crates/transfer/src/staging.rs:140-147` | in every run a publishing rename follows a recheck that found the destination as expected, with no other step of the command between them |
| `TransferRecheck.PublishesOverExpected` | `crates/transfer/src/staging.rs:140-162` | a publication replaces exactly what the client expects unless somebody else touches the path between the two |
| `TransferProgress.RunOnTrack` | `crates/transfer/src/staging.rs:11-173` | stops, torn writes and losses of power in any number keep a transfer resumable |
| `TransferProgress.BootOnTrack` | `crates/transfer/src/staging.rs:11-65` | a transfer starts on track whenever its destination is what it expects |
| `TransferSystem.PublishesOnlyNewNames` | `crates/transfer/src/staging.rs:148-156` | in any interleaving of tokens a publication lands on a name that does not exist and changes nothing else |
| `TransferSystem.PublishedPerRemoval` | `crates/transfer/src/staging.rs:148-156` | a path is published at most once more often than somebody else removed it or power was lost |
| `TransferSystem.AtMostOneTransferPublishes` | `crates/transfer/src/staging.rs:141-156` | of all transfers that expect a new name at a path at most one publishes, and none if the name exists |
| `TransferSystem.NoTransferOverwrites` | `crates/transfer/src/staging.rs:141-156` | an existing file keeps its contents whatever the transfers do |
| `TransferSystem.AllStaySound` | `crates/transfer/src/journal.rs:53-57` | each token has a directory of its own: interleaved tokens, and losses of power, never break one another's stage |
| `TransferLock.OnePastTheLock` | `crates/transfer/src/journal.rs:79-81` | in every run of any number of processes in which no cancel removes the lock file while another process has it open, at most one process is past the lock (a cancel that only has the directory left to remove not counted), and the stage keeps the protocol invariant |
| `TransferLock.WithoutCancelOnePastTheLock` | `crates/transfer/src/journal.rs:79-81` | in particular whenever nobody cancels |
| `TransferLock.AtWorkSound` | `crates/transfer/src/journal.rs:71-116` | the process past the lock is in a state of the single-process protocol, so that what is proved of those holds of it |
| `TransferLock.OthersAreRefused` | `crates/transfer/src/journal.rs:80-81` | a process that tries the lock meanwhile is answered Busy and changes nothing |
| `TransferLock.RemovalBreaksIff` | `crates/transfer/src/staging.rs:184-191` | the removal of the lock file lets two processes past the lock of one stage exactly if another process has that file open |
| `TransferLock.EveryCancelIsExposed` | `crates/transfer/src/staging.rs:183-191` | from every state in which a cancel is about to remove the lock file, another process can get there in time |
| `TransferEndpoint.Endpoint.Save` | `crates/transfer/src/journal.rs:30-48` | performs the five operations of a save and leaves exactly the state the machine says |
| `TransferEndpoint.Endpoint.OpenStage` | `crates/transfer/src/journal.rs:59-130` | for the only process of its token: opens, locks and loads or initialises a stage; a missing checkpoint and another owner or path are refused with their errors, nothing is published |
| `TransferEndpoint.Endpoint.ReconcileStage` | `crates/transfer/src/staging.rs:100-115` | succeeds only if, and when undisturbed always if, the destination is the recorded file; then the commit is recorded |
| `TransferEndpoint.Endpoint.Prepare` | `crates/transfer/src/staging.rs:11-65` | its every path is a run of the machine; undisturbed it answers the checkpoint and cuts the data back to it, or refuses another source or a changed destination |
| `TransferEndpoint.Endpoint.Write` | `crates/transfer/src/staging.rs:66-99` | its every path is a run of the machine; Ready means the block is the end of the checkpointed data and has the digest announced; a block that is empty, too long, misplaced, behind the end or of another digest is refused |
| `TransferEndpoint.Endpoint.Commit` | `crates/transfer/src/staging.rs:116-173` | its every path is a run of the machine; Done means that the file is the recorded one and the commit recorded, and a staged file arrives with its bytes, permissions and time; other files are untouched; an incomplete transfer, a changed destination and a wrong digest are refused |
| `TransferEndpoint.Endpoint.Cancel` | `crates/transfer/src/staging.rs:174-194` | removes the stage in the order of the source and no published file; without a checkpoint it answers Missing |
| `TransferEndpoint.Endpoint.Complete` | `crates/transfer/src/staging.rs:11-173` | from every state an on-track transfer can be left in, prepare, the missing writes and commit publish exactly the source, with its permissions and time |
| `Paths.RemotePathSegments` | `apps/desktop/src/files/context.ts:3-5` | the path joins the segments of its parts and is normalised |
| `Paths.WithinIsPrefix` | `apps/desktop/src/files/context.ts:6-8` | containment of normalised paths is the prefix relation of segments |
| `Paths.RelativePathSegments` | `apps/desktop/src/files/context.ts:21-24` | a relative path exists exactly below the root, and joining it again gives the path back |
| `Paths.MovedPathSegments` | `apps/desktop/src/files/context.ts:25-27` | the moved path has the destination in place of the source, exactly if both or neither are the root or the whole path moves |
| `TabsRelocate.RelocateKeepsTabs` | `apps/desktop/src/files/tabs.ts:121-179` | keys stay distinct and correct, the order is kept, every tab left is untouched, bound or waiting, every tab removed holds no draft |
| `TabsRelocate.RelocateKeepsDrafts` | `apps/desktop/src/files/tabs.ts:121-179` | the unsaved drafts, text and original, are the same sequence before and after |
| `TabsRelocate.RelocatedReachesDestination` | `apps/desktop/src/files/tabs.ts:125-176` | a tab inside the source ends bound at its moved path or waits for exactly that path |
| `TabsRelocate.UncontestedRemovesOnlyUnprotected` | `apps/desktop/src/files/tabs.ts:33-38` | without a rival for its goal no protected tab is removed, whatever the rename |
| `TabsRelocate.ContestedRemovesProtected` | `apps/desktop/src/files/tabs.ts:141-163` | two tabs for which a move removes a protected one |
| `TabsOutcome.RelocateRemovesExactly` | `apps/desktop/src/files/tabs.ts:121-179` | which tabs disappear in any rename, as a condition on the tabs before it |
| `TabsOutcome.RelocateExact` | `apps/desktop/src/files/tabs.ts:121-179` | in any rename every tab that is left is untouched, bound, or waits because its goal is held |
| `TabsOutcome.OnlyUnprotectedRemovedIff` | `apps/desktop/src/files/tabs.ts:33-38` | for any rename: only unprotected tabs are removed exactly if no tab protected merely by a running save or by waiting is bound first and overtaken by another tab with the same goal |
| `TabsOutcome.NobodyWaitingOnlyUnprotectedRemoved` | `apps/desktop/src/files/tabs.ts:33-38` | a rename while no tab waits removes only unprotected tabs |
| `TabsTurns.FreeTurn` | `apps/desktop/src/files/tabs.ts:141-163` | a turn that finds its place free or yielding removes exactly who stands there |
| `TabsTurns.HeldTurn` | `apps/desktop/src/files/tabs.ts:147-158` | a turn that binds nobody, because the goal is held or the tab is gone, removes nobody |
| `TabsTurns.BlocksIff` | `apps/desktop/src/files/tabs.ts:141-147` | who blocks a turn, as told from the tabs before the move, is exactly who stands protected at its goal when the turn comes |
| `TabsReads.ReachableValid` | `apps/desktop/src/files/tabs.ts:180-224` | in every run the generations are exactly the keys of the loading tabs, each naming an unsettled read |
| `TabsReads.StaleForever` | `apps/desktop/src/files/tabs.ts:196-205` | a read no tab waits for is never waited for again |
| `TabsReads.StaleReadChangesNothing` | `apps/desktop/src/files/tabs.ts:196-205` | its late result changes no tab |
| `TabsReads.ClosingMakesStale` | `apps/desktop/src/files/tabs.ts:84-88` | after a close no tab waits for the read |
| `TabsReads.ClosedReadChangesNothing` | `apps/desktop/src/files/tabs.ts:84-88` | the result of a read whose tab was closed changes no tab, not even one opened again under the same key |
| `TabsReads.ReopenedWaitsForAnother` | `apps/desktop/src/files/tabs.ts:182-186` | a tab closed and opened again waits for another read |
| `TabsReads.SupersededIsStale` | `apps/desktop/src/files/tabs.ts:191-195` | after a further read under the same key no tab waits for the earlier one |
| `TabsReads.MovingMakesStale` | `apps/desktop/src/files/tabs.ts:135-136` | after a rename the read of a tab is still waited for exactly if the rename does not concern the tab and leaves it in the list |
| `TabsReads.MovedReadChangesNothing` | `apps/desktop/src/files/tabs.ts:135-163` | the result of a read whose tab was bound elsewhere, made to wait or removed changes no tab |
| `TabsContents.ReadFillsTab` | `apps/desktop/src/files/tabs.ts:196-215` | a current read fills the one tab that waits for it: text with the same original and nothing to save, a preview, or its error, for the file the read was started with |
| `TabsReads.ContextRetained` | `apps/desktop/src/files/tabs.ts:180-181` | the context of every unsettled read stays retained |
| `TabsStore.FileTabs.Load` | `apps/desktop/src/files/tabs.ts:191-224` | starts a read under a fresh token and keeps the place of an existing tab |
| `TabsStore.FileTabs.Settle` | `apps/desktop/src/files/tabs.ts:196-205` | applies a result only while its token is current |
| `TabsStore.FileTabs.Relocate` | `apps/desktop/src/files/tabs.ts:121-179` | the loop over the tabs computes the specified relocation, keeps the invariant and every draft |
| `TabsContents.OpenStartsRead` | `apps/desktop/src/files/tabs.ts:182-224` | opening a file that has no tab adds a loading one at the end and starts its read; otherwise nothing changes |
| `TabsContents.RetryReadsAgain` | `apps/desktop/src/files/tabs.ts:187-190` | a failed or previewed tab is read again in its place, any other is left alone |
| `TabsContents.CloseRemovesTab` | `apps/desktop/src/files/tabs.ts:84-88` | closing removes the tab and what it waits for, and nothing else |
| `TabsContents.AdoptShowsDraft` | `apps/desktop/src/files/tabs.ts:104-111` | an adopted draft is the last tab, with its text, original and conflict, in place of another under its key |
| `TabsContents.UpdateEdits` | `apps/desktop/src/files/tabs.ts:69-73` | the parts that are given are changed and no others; text that is being handed over is not edited |
| `TabsContents.TransferMarks` | `apps/desktop/src/files/tabs.ts:78-80` | only a ready tab is marked as being handed over |
| `TabsContents.BindSetsContext` | `apps/desktop/src/files/tabs.ts:89-95` | a tab that does not wait gets its context and loses its location error |
| `TabsContents.LocationFailedTells` | `apps/desktop/src/files/tabs.ts:96-98` | the tab shows the location error |
| `TabsContents.RelocateHolds` | `apps/desktop/src/files/tabs.ts:144-176` | a tab left by a rename is as it was, or bound with its text, original, transfer and conflict at the new place below its root or below `/`, or waits with its place kept and the message that names the new one |
| `TabsContents.RelocateReports` | `apps/desktop/src/files/tabs.ts:174-178` | the result names exactly the tabs that were bound, by their old keys with the new ones |
| `StableSorting.SortKeepsOrder` | `apps/desktop/src/chat/history.ts:90` | sorting keeps the order of elements that compare as equal |
| `ChatHistory.MergeHistory` | `apps/desktop/src/chat/history.ts:34-92` | the loops compute the specified merge, whose meaning the rows of `ChatContents` state |
| `ChatHistory.HistoryMessages` | `apps/desktop/src/chat/history.ts:5-33` | the loops over turns and items, with the flag for the first user message, compute the specified messages of a page |
| `ChatHistory.InsertHistory` | `apps/desktop/src/chat/history.ts:60-74` | inserting next to the next or previous item of the turn is the specified insertion |
| `ChatMerge.MergeIsCompleteAndSorted` | `apps/desktop/src/chat/history.ts:34-92` | every old message and every page item is in the result once, sorted by turn with turnless messages last |
| `ChatContents.MergedItem` | `apps/desktop/src/chat/history.ts:42-59` | a page item is in the result once under its identifier: with the text, completeness, role, turn and client name of the page if it is complete or longer, else the live ones, and the live time if there is one; without a live message it is unchanged |
| `ChatContents.MergedKeepsOthers` | `apps/desktop/src/chat/history.ts:57-59` | a live message that the page does not have stays as it was |
| `ChatContents.MergedHoldsNothingElse` | `apps/desktop/src/chat/history.ts:42-74` | nothing else is in the result |
| `ChatContents.MergedByTurn` | `apps/desktop/src/chat/history.ts:90` | turns stand in the order of their identifiers, messages without one at the end |
| `ChatContents.NewTurnAtEnd` | `apps/desktop/src/chat/history.ts:69-71` | the items of a turn that is new to the list go before the old messages of the same rank if the page is older, and behind them otherwise |
| `ChatMerge.MergeKeepsOldOrder` | `apps/desktop/src/chat/history.ts:57-74` | old messages keep their order as far as the turns they come out with do not decide it |
| `ChatMerge.MergeKeepsPageOrder` | `apps/desktop/src/chat/history.ts:63-73` | if the overlap was in page order and every item keeps its turn, all items of a turn come out in page order |
| `ChatPageOrder.PageOrderIff` | `apps/desktop/src/chat/history.ts:45-46` | page order is kept exactly if the turns the items come out with are not against it |
| `ChatPageOrder.TurnlessPageOrderIff` | `apps/desktop/src/chat/history.ts:45-46` | for live messages that have the turn of their item or none: exactly if, turn by turn, the items that neither complete nor extend a message without a turn come last |
| `ChatPageOrder.UnfinishedQuestionFallsBehind` | `apps/desktop/src/chat/useChats.ts:105-111` | a submitted message whose page item is not final ends up behind its answer |
| `ChatMerge.PageItemsGrouped` | `apps/desktop/src/chat/history.ts:5-33` | a page delivers its items turn by turn |
| `ChatContents.PageShowsItem` | `apps/desktop/src/chat/history.ts:9-32` | every item with something to show is on the page as a message with its identifier, client name, text, role and turn, finished with its turn, and dated by itself or by the start of a turn it opens |
| `ChatContents.PageShowsOnlyItems` | `apps/desktop/src/chat/history.ts:9-32` | and nothing else is |
| `ChatContents.TurnShown` | `apps/desktop/src/chat/history.ts:9-32` | the items of a turn keep their order |
| `ChatMerge.SlotBetween` | `apps/desktop/src/chat/history.ts:65-70` | the slot of a new item lies behind all earlier and before all later items of its turn |
| `ChatRevert.ReduceHides` | `apps/desktop/src/chat/state.ts:127-285` | no event brings a discarded turn back, not even one without a turn |
| `ChatRevert.SnapshotHides` | `apps/desktop/src/chat/state.ts:100-126` | a stale snapshot with its pending events does not either |
| `ChatRevert.MergeCleanIff` | `apps/desktop/src/chat/history.ts:75-91` | merging a page keeps a chat clean exactly if the page is free of discarded turns |
| `ChatRevert.ReplaceCleanIff` | `apps/desktop/src/chat/history.ts:95-114` | a revert cleans any chat exactly if the new page has none of the discarded turns |
| `ChatRevert.DiscardedNeverReturns` | `apps/desktop/src/chat/state.ts:100-285` | over every run a discarded turn is never again the current turn, the plan's, a known one or a message's |
| `ChatRevert.NewChatHidesDiscarded` | `apps/desktop/src/chat/state.ts:74-99` | a chat that starts empty never shows a turn it has discarded |
| `ChatState.CurrentTurnIff` | `apps/desktop/src/chat/state.ts:240-284` | after any events a turn is the current one exactly if it was started, or was current before, and since then no other was started, it was not completed and the chat not closed; discarded turns do not count |
| `ChatState.TurnStatus` | `apps/desktop/src/chat/state.ts:240-263` | the status of a turn is that of its last start or completion |
| `ChatState.TurnStart` | `apps/desktop/src/chat/state.ts:246-259` | so is its start, except that a completion without one leaves the earlier one |
| `ChatState.LastPlan` | `apps/desktop/src/chat/state.ts:151-152` | the plan is the last one announced unless a turn was started since |
| `ChatState.LastWarning` | `apps/desktop/src/chat/state.ts:236-283` | the warning is the last one given, until a turn starts |
| `ChatState.ClosedIff` | `apps/desktop/src/chat/state.ts:275-283` | a chat is closed exactly if it was or an event closes it |
| `ChatState.OpenQuestion` | `apps/desktop/src/chat/state.ts:226-239` | a request is open exactly if it was made and neither resolved nor closed since |
| `ChatState.QuestionsOnce` | `apps/desktop/src/chat/state.ts:226-239` | no request is shown twice, however often it is made |
| `ChatState.UserMessageShows` | `apps/desktop/src/chat/state.ts:153-173` | a user message stands where messages under its identifier or client name stood, or at the end, with its text, turn and time |
| `ChatState.AssistantMessageShows` | `apps/desktop/src/chat/state.ts:174-192` | a reply continues the message under its identifier or replaces its text, in the turn named, that message's or the current one |
| `ChatState.ToolShows` | `apps/desktop/src/chat/state.ts:193-203` | a tool's message has no text and the turn named or the current one |
| `ChatState.ToolOutputShows` | `apps/desktop/src/chat/state.ts:204-225` | so has its output, which keeps what else was known |
| `ChatState.SnapshotSets` | `apps/desktop/src/chat/state.ts:105-125` | a snapshot sets turn, plan, turns, questions and closing, leaves the messages alone, and brings no discarded turn |
| `ChatState.SnapshotReplays` | `apps/desktop/src/chat/state.ts:107` | its pending events are then received in order |
| `ChatState.PageSetsTurns` | `apps/desktop/src/chat/history.ts:79-89` | a page sets the states of its turns, but does not make a finished turn run again, and changes nothing else but messages |
| `ChatState.RevertLeavesThePage` | `apps/desktop/src/chat/history.ts:95-114` | a revert leaves the messages and turns of the page, nothing current, and the discarded turns of before and now |
| `ChatStream.StreamedText` | `apps/desktop/src/chat/state.ts:174-192` | the text shown is the parts in order, whatever else arrives in between |
| `ChatStream.FinalText` | `apps/desktop/src/chat/state.ts:174-192` | a final message replaces the parts |
| `UsageHistory.LastReportIff` | `crates/codex-adapter/src/usage_history.rs:43-74` | the specification means the last record with a report, the first record excepted |
| `UsageHistory.Scan` | `crates/codex-adapter/src/usage_history.rs:43-74` | for every chunk size the scan returns that report; its buffer never exceeds the bound |
| `UsageHistory.ReadFirst` | `crates/codex-adapter/src/usage_history.rs:28-34` | reads the first line if it is complete and short enough |
| `UsageHistory.ReadChecked` | `crates/codex-adapter/src/usage_history.rs:17-75` | reports only for a regular file below the session directories whose first line names the thread |
| `UsageHistory.UnfinishedTailIgnored` | `crates/codex-adapter/src/usage_history.rs:42` | a record without its newline is not seen |
| `UsageHistory.AppendedReportIsRead` | `crates/codex-adapter/src/usage_history.rs:48-74` | a report that was appended is the one read until another follows |
| `Lines.SplitUnique` | `crates/codex-adapter/src/usage_history.rs:53-63` | splitting at newlines is the only way to take a stream apart into records and a remainder |
| `Codec.Reader.Next` | `crates/protocol/src/codec.rs:31-59` | for every chunking the answer is a function of the undelivered stream; an abandoned call changes nothing |
| `Codec.AnswersOfRecords` | `crates/protocol/src/codec.rs:31-59` | the answers are the records in order, each decoded by itself, until one over the limit blocks for ever |
| `Codec.AnswersAtTheEnd` | `crates/protocol/src/codec.rs:33-40` | after the last record: the end, a truncated tail or an oversized one |
| `Codec.Writer.Write` | `crates/protocol/src/codec.rs:69-84` | a value over the limit is refused without a trace, any other is appended with a newline |
| `Codec.RoundTrip` | `crates/protocol/src/codec.rs:69-84` | what was written is read back unchanged and in order, then the stream ends |
| `DirectoryPage.NamesOf` | `crates/transfer/src/inspect.rs:44-67` | the specification lists each eligible name once, ascending |
| `DirectoryPage.OrderIrrelevant` | `crates/transfer/src/inspect.rs:43-45` | the order of enumeration does not matter |
| `DirectoryPage.List` | `crates/transfer/src/inspect.rs:41-82` | returns the smallest eligible names above the cursor while holding at most two more than a page; fails exactly on a name that is not UTF-8 |
| `DirectoryPage.FollowSeesAll` | `crates/transfer/src/inspect.rs:68-81` | following the cursor ends and visits each eligible name exactly once, ascending |
| `Gateway.Serve` | `crates/codex-adapter/src/gateway.rs:87-196` | the loop over local variables performs the specified steps, whose meaning the other rows state |
| `Gateway.StepSound` | `crates/codex-adapter/src/gateway.rs:106-195` | every branch keeps the connection and request bookkeeping |
| `Gateway.RepliesGoHomeOnce` | `crates/codex-adapter/src/gateway.rs:165-175` | over every run a reply goes only to the connection its request arrived on, at most once |
| `GatewayTraffic.EventsReachTheFrontend` | `crates/codex-adapter/src/gateway.rs:176-182` | over every run a connection is sent exactly the events notified while it is attached, each once and in order |
| `GatewayTraffic.RepliesAnswerRequests` | `crates/codex-adapter/src/gateway.rs:139-151` | every reply carries the identifier of a request that was received on its connection |
| `GatewayTraffic.PendingAsReceived` | `crates/codex-adapter/src/gateway.rs:139-151` | what is pending are requests as they were received, with connection, identifier and kind |
| `GatewayTraffic.AnswerSends` | `crates/codex-adapter/src/gateway.rs:165-175` | an answer sends nothing if its connection is gone, and otherwise the reply and, after a resume, every outstanding prompt behind it |
| `GatewayTraffic.EndsExactly` | `crates/codex-adapter/src/gateway.rs:106-193` | on which occasions the loop ends, and with which outcome |
| `GatewayTraffic.TimeOutTellsWhy` | `crates/codex-adapter/src/gateway.rs:109-114` | a loop that times out tells what went wrong since the last attachment |
| `Gateway.PendingBounded` | `crates/codex-adapter/src/gateway.rs:115-143` | at most 64 requests and one handshake are pending |
| `Gateway.AnsweredIffStillThere` | `crates/codex-adapter/src/gateway.rs:165-175` | an answer is sent exactly if its connection is still the frontend |
| `Gateway.RejectedCandidateHarmless` | `crates/codex-adapter/src/gateway.rs:120-130` | a failed candidate leaves a healthy frontend and its requests alone |
| `Gateway.DeadlineMoves` | `crates/codex-adapter/src/gateway.rs:155-192` | the deadline moves exactly when a frontend is lost |
| `Gateway.FrontendChanges` | `crates/codex-adapter/src/gateway.rs:120-192` | the frontend changes only when a candidate is accepted, which starts a new epoch, or when it is lost |
| `Gateway.WindowIsFixed` | `crates/codex-adapter/src/gateway.rs:111-114` | while nobody attaches nothing extends the window, and the time-out then ends the loop |
| `Profiles.Store.SaveConfig` | `crates/server/src/storage.rs:130-142` | writes a row exactly if it is new, has a newer revision or is the same configuration |
| `Profiles.Directory.Configure` | `crates/server/src/profiles.rs:31-42` | persists, then publishes to the cached runtime and its channel; cache and store agree afterwards |
| `Profiles.Directory.Snapshot` | `crates/server/src/profiles.rs:44-57` | forgets unwatched profiles, loads a missing one from the store, subscribes |
| `Profiles.ConfigureAnswers` | `crates/server/src/profiles.rs:31-42` | a configuration that does not resolve is invalid, a stale or conflicting revision a conflict, and both change nothing; otherwise row, cached runtime and channel follow |
| `Profiles.SnapshotAnswers` | `crates/server/src/profiles.rs:44-57` | hands out the runtime of the stored configuration and a channel that shows its settings, or says why not |
| `Profiles.SnapshotRetains` | `crates/server/src/profiles.rs:49` | forgets exactly the profiles nobody watches |
| `ProfileCalls.StepKeeps` | `crates/server/src/profiles.rs:31-57` | every step of interleaved calls keeps cache, store and subscribers consistent |
| `ProfileCalls.CachedIsStored` | `crates/server/src/profiles.rs:31-57` | over every run, whenever nobody is between commit and publication, each cached profile is the stored one and each subscriber sees its settings |
| `ProfileCalls.RevisionsGrow` | `crates/server/src/storage.rs:130-142` | over every run revisions never decrease and one revision never stands for two configurations |
| `ProfileCalls.AbandonedPublication` | `crates/server/src/profiles.rs:36-40` | a call dropped after its commit leaves the cache behind exactly if the profile is cached with another runtime |
| `ProfileCalls.CacheLeftBehind` | `crates/server/src/profiles.rs:31-42` | for any stored configuration and any newer one, a run after which nobody is at work, the newer one is stored, and cache and subscriber have the older one |
| `WorkspaceTree.GrownCount` | `apps/desktop/src/navigation/workspaceTree.ts:29-42` | for distinct normalised paths the trie holds every workspace once |
| `WorkspaceTree.Compact` | `apps/desktop/src/navigation/workspaceTree.ts:50-56` | the loop goes past single directories to the next workspace or branch |
| `WorkspaceTree.ProjectNode` | `apps/desktop/src/navigation/workspaceTree.ts:50-68` | goes past single directories, then projects the sorted children, as specified |
| `WorkspaceTree.BuildWorkspaceTree` | `apps/desktop/src/navigation/workspaceTree.ts:24-72` | builds the specified tree, without sessions, from the server's workspaces |
| `WorkspaceTree.WorkspaceAncestorKeys` | `apps/desktop/src/navigation/workspaceTree.ts:86-94` | collects the keys of all prefixes of a path in both roles |
| `WorkspaceProjection.EveryWorkspaceOnce` | `apps/desktop/src/navigation/workspaceTree.ts:24-72` | the tree shows each workspace of the server exactly once and no other |
| `WorkspaceProjection.TreeShapedAndJoined` | `apps/desktop/src/navigation/workspaceTree.ts:50-72` | a node that is no workspace branches or leads to one workspace; names join to paths |
| `WorkspaceProjection.TreeInOrder` | `apps/desktop/src/navigation/workspaceTree.ts:66-71` | siblings stand in the order of the directories where their ways part, everywhere in the tree |
| `WorkspaceProjection.KeysExactly` | `apps/desktop/src/navigation/workspaceTree.ts:86-94` | the keys of a path are those of exactly the directories on the way to it |
| `WorkspaceProjection.TreeRevealed` | `apps/desktop/src/navigation/workspaceTree.ts:84-94` | a node's key is among a workspace's ancestor keys exactly if it is on the way there |
| `MathDelimiters.Escaped` | `apps/desktop/src/chat/math.ts:24-28` | terminates with the parity of the backslashes in front |
| `MathDelimiters.FindClosing` | `apps/desktop/src/chat/math.ts:79-81` | skipping escaped closings two characters at a time finds the first unescaped one |
| `MathDelimiters.Scan` | `apps/desktop/src/chat/math.ts:73-90` | finds delimited formulas apart from one another and from protected ranges, and misses none |
| `MathDelimiters.Substitute` | `apps/desktop/src/chat/math.ts:92-107` | selects formulas from left to right; one is left out only if protected or inside a selected one |
| `MathDelimiters.RestoreIsSource` | `apps/desktop/src/chat/math.ts:92-107` | putting the source back at the recorded offsets gives exactly the source |
| `MathDelimiters.MarksStand` | `apps/desktop/src/chat/math.ts:102-105` | every recorded offset holds a placeholder, they do not touch, and each selected formula has one |
| `MathDelimiters.Normalise` | `apps/desktop/src/chat/math.ts:50-110` | the text for the second parse restores to the source |
| `MathLaws.EscapedMeans` | `apps/desktop/src/chat/math.ts:24-28` | a character is escaped exactly if the number of backslashes in front of it is odd |
| `MathLaws.FormulaMeans` | `apps/desktop/src/chat/math.ts:74-90` | a found formula runs from an unescaped opening to the first unescaped closing of its kind, outside everything protected |
| `MathLaws.ScanMissesNone` | `apps/desktop/src/chat/math.ts:74-90` | an unescaped opening with a closing outside everything protected is in a formula |
| `MathLaws.SelectedMeans` | `apps/desktop/src/chat/math.ts:96-101` | what is hidden is outside everything protected; what is not is protected or begins inside something hidden |
| `PatchView.ParseHunk` | `apps/desktop/src/files/patch.ts:20-52` | the unified view shows each line in order and numbered; both views show the same lines before and after with the same context rows; the split view is as short as it can be, with the sides of a block starting together; fails exactly on an unsupported line |
| `PatchView.Flush` | `apps/desktop/src/files/patch.ts:29-34` | pairs a block of changes in as many rows as its longer side |

## Left out

- TransferSystem.AtMostOneTransferPublishes: excludes losses of power, which may undo an unflushed rename so that it is made again (`TransferSystem.PublishedPerRemoval` counts them), and transfers that expect an existing destination, whose recheck and rename are two steps.
- TransferEndpoint.Endpoint.OpenStage: never answers Busy, because the class is the only process of its token; several processes are in `TransferLock`.
- TransferLock.OnePastTheLock: excludes a cancel that removes the lock file while another process has it open; `TransferLock.RemovalBreaksIff` says what follows then, and what two processes in one stage do to its contents is not pursued. A process whose stage directory was removed fails at its next operation.
- TransferEndpoint.Endpoint.Cancel: an interrupted cancel is not repeated, as in the source: once the checkpoint is gone it answers Missing until a prepare initialises the stage again.
- TabsRelocate.UncontestedRemovesOnlyUnprotected: one direction; the exact condition is `TabsOutcome.OnlyUnprotectedRemovedIff`.
- WorkspaceTree.BuildWorkspaceTree: the sessions attached to the nodes of workspaces, and their order by activity, are not built.
- ProfileCalls.CachedIsStored: excludes calls dropped between commit and publication; `ProfileCalls.AbandonedPublication` gives what happens then.
- Power loss assumes an ordered metadata journal: directory operations survive in the order they were made, and flushing any directory makes all earlier ones durable.
- Hashing a file, or reading the journal, is one step; cancellation flags and input or output errors are the abort of a command; file lengths are unbounded integers instead of 64 bits.
- Journals larger than 16384 bytes, which the source cannot read back, do not occur in the model.
- The abort signals, listeners, view state and preview contents of the tabs; object identity of tabs is their position in the original list.
- Tool states, questions, phases, edit marks, roles other than user and assistant, and usage figures of chat messages; a live client name that is missing and one that is undefined are the same (those of page items are always written).
- Restoring a closed chat from a reopened session, which copies discarded turns only after a snapshot was applied.
- A log file that is replaced while it is scanned, and the writer's time-out, which may leave part of a frame.
- The metadata of listed entries, and entries that vanish between enumeration and lookup.
- The backend and the socket of the gateway: what they deliver are the branches of the selection; 2^64 epochs are not reached.
- Runtime resolution, schema migration, operations, channels and jobs of the server store.
- The trie of workspaces grows by rebuilding values along a path instead of updating directories in place; the search filter of the tree is not part of it.
- Markdown parsing and the text of formulas (quote markers, trimming); labels, omitted ranges and file headers of patches.
- SSH, subprocesses, terminals, the command line and all drawing.
