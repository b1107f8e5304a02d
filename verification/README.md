# lark-remote: verified models of the bridge's protocols

lark-remote lets a chat client drive local coding agents. Between the chat and the
agents it keeps several hand-written protocols, whose invariants its comments call
load-bearing, and one tight piece of arithmetic. This project models them in Dafny and
proves what they promise, over all inputs and all interleavings.

An asynchronous class is modelled twice. A value-level state machine has one step for
each stretch of code between two awaits and one for each outside event (a timer that
fires, a download that settles, a responder that answers, a process that dies); its laws
are lemmas over every step and every run. A class with the source's own fields and
methods is then proved to make exactly those steps. Code that only computes is modelled
by functions, its loops by methods proved equal to them.

| module | what it models |
|---|---|
| `Texts` | UTF-16 texts, decimal numerals, whitespace |
| `TailMark` | the truncation marker that counts inside its own budget |
| `RunState`, `RunStateLaws`, `RunWindows`, `RunHistory`, `RunOutcome`, `RunStreams`, `RunAnswers` | the reducer that folds agent events into a bounded card state |
| `CardFlush`, `RunCardSession` | coalesced card updates and the terminal frame that must come last |
| `Lane`, `WorkspaceQueue` | the promise chain of one workspace, and the list, index and counters shown beside it |
| `InstanceLock` | several processes racing for one lock path |
| `TurnAssembler`, `TurnContents`, `InboundTurnAssembler` | quiet windows and downloads that decide when a turn is committed |
| `Approvals`, `ApprovalLaws`, `ApprovalEffects`, `ApprovalDelivery`, `ApprovalRedelivery`, `ApprovalCoordinator` | approval requests, their timers, nonces and failed deliveries |
| `RunnerOwnership`, `RunnerLaws`, `Bridge` | cached runners, stale marks and the run registered for each workspace |
| `MarkdownTables` | finding, counting and dropping markdown tables |
| `Truncate` | cutting a text to UTF-8 bytes |
| `CardBudget`, `CardBudgetLaws`, `CardBudgetOutcomes`, `CardBudgetPhases`, `CardTableLimit`, `CardTrimming` | the budget of a static card, phase by phase |

`dafny verify dfyconfig.toml` checks everything.

## Where code and comments differ

The models follow the code. Each of these is proved.

- **A marker that drops nothing is not charged.** A text that already begins with
  `…（前 0 字符已省略）` and fits is returned as it is, marker included
  (`TailMark.ZeroMarkerIsNotCharged`). The result is within `maxChars` exactly when a text
  returned as it is was so itself, or a text that is cut leaves room for the marker of its
  true length (`TailMark.WindowFitsIff`).
- **The lock is exclusive for two contenders, not for three.** A third process can create
  the lock between the rename of a live lock and its restore
  (`InstanceLock.ExclusiveIffAtMostTwo`).
- **A request delivered again can be answered twice.** Delivering it is safe in every
  continuation exactly when all calls made for it so far were refused
  (`ApprovalRedelivery.DeliveryIsSafeIff`); a request that is still pending and was never
  answered meets this.
- **The interrupt of a run-per-message runner evicts whatever is in the slot** when its
  stop returns. A registered run of such a runner keeps its instance throughout exactly
  when no interrupt of another run of its slot is awaited
  (`RunnerOwnership.KeepsInstanceThroughout`).
- **The table limit of a card fails exactly when more fields than allowed begin with a
  separator line on its own**: such a line is counted as a table but has no header, so it
  is never dropped (`MarkdownTables.CapKeepsTheLimit`).
- **`truncateUtf8` from the end may return one byte too many**: the line break after the
  suffix is not charged. It keeps the limit exactly when the text fits, the suffix alone
  fills the limit, or no run of whole code points at the end of the text fills what the
  suffix leaves (`Truncate.TailFitsIff`); plain ASCII too long for the limit never does.
- **Windowing twice can cut twice.** A second pass changes nothing exactly when the text
  fits or its true length leaves room for the marker (`TailMark.WindowIdempotent`).
- **One text can keep a table too many.** `truncateMarkdownTables` leaves at most the
  allowed number exactly when the text does not begin with a separator line, has fewer
  tables with a header than allowed, has a separator as its second line too, or has the
  oldest table to keep inside the last one to go (`MarkdownTables.TruncateKeepsTheLimit`).
- **A card of ninety or more elements besides its panels may be replaced as a whole.** The
  phase at `src/card/card-budget.ts:398-407` starts above ninety elements and stops at
  ninety, which leaves no place for the hint it then needs. With more than ninety elements
  besides the panels, the minimal card is returned exactly when no single drop from the
  front, three elements being left, comes from above ninety to below ninety with the rest
  within 28,000 bytes. With ninety or fewer, exactly when these elements have too many
  bytes as they are and with their texts cut, or when they are exactly ninety beside a
  panel, no table was dropped and the card has too many bytes
  (`CardBudgetOutcomes.MinimalIff`). No card whose elements are plain is saved
  (`CardBudgetOutcomes.FlatOverflowIsMinimal`); the snapshot of case D in
  `src/card/__snapshots__/structure-equivalence.test.ts.snap` records this outcome.
- **The number in the hint leaves out the panels dropped for their number**
  (`src/card/card-budget.ts:201-209`). There are such panels exactly when the card, its
  tables capped, has panels and more than ninety elements, and a table was dropped or its
  bytes are within the limit (`CardBudgetLaws.HintTellsAllBut`).

## Model

| member | source | states |
|---|---|---|
| Texts.ParsePrint | src/card/run-state.ts:1335-1405 | A count printed into the marker is read back as the same number. |
| TailMark.KeepTailMarked | src/card/run-state.ts:1382-1405 | The loop on digit counts ends, for every text and window, with the least count that covers itself, and returns that window of the text. |
| TailMark.LeastDropIsLeast | src/card/run-state.ts:1389-1400 | The fixpoint exists and is the least number at or above the prior count that covers the overrun and its own digits. |
| TailMark.MarkerParsesBack | src/card/run-state.ts:1335-1405 | A printed marker followed by any text is recognised as that marker with that count. |
| TailMark.HeadMarkOfAppend | src/card/run-state.ts:1335-1388 | Appending a chunk does not change what the head of a marked text reads as. |
| TailMark.TruncationIsExact | src/card/run-state.ts:1382-1405 | Count plus kept length is the true total, the kept text is the tail, the count never falls and the result fits. |
| TailMark.WindowFitsIff | src/card/run-state.ts:1382-1405 | The result is within the window exactly when a text returned as it is was so itself, or a text that is cut leaves room for the marker of its true length. |
| TailMark.WindowKept | src/card/run-state.ts:1382-1405 | What is stored exceeds the window only when it begins with a marker that reads zero or whose digits leave no room. |
| TailMark.ZeroMarkerIsNotCharged | src/card/run-state.ts:1382-1388 | A zero marker before any body that fills the window comes back longer than the window. |
| TailMark.WindowIdempotent | src/card/run-state.ts:1382-1405 | Windowing a windowed text changes nothing, exactly when the text fits or its true length leaves room for the marker. |
| TailMark.CutAgain | src/card/run-state.ts:1382-1405 | Cutting a marked text after more has been appended gives what one cut of the whole gives. |
| TailMark.ChunkInvariance | src/card/run-state.ts:1335-1405 | Feeding a text in two pieces stores what feeding it whole stores exactly when the first piece fits or its true length leaves room for the marker; only a marker typed across the seam is set apart. |
| TailMark.ChunkingDoesNotMatter | src/card/run-state.ts:1335-1405 | Appending and windowing chunk after chunk, in any chunking, stores what windowing the full text once stores; `RunStreams` ties the reducer to it. |
| RunState.UpsertSnapshotBlock | src/card/run-state.ts:715-734 | The backward search replaces the last match in place, or moves it to the end while it streams, and appends when nothing matches. |
| RunState.CapStaleTextBlocks | src/card/run-state.ts:1350-1372 | Every text block but the newest is windowed; all other blocks stay as they are. |
| RunStateLaws.CappedIsSuffix | src/card/run-state.ts:1321-1332 | Capping keeps the newest 24 blocks in order, and what leaves is the next stretch of the evicted history. |
| RunStateLaws.ContentKeepsBounds | src/card/run-state.ts:1040-1133 | Thinking, text and tool content keep the store bounded and tool ids unique. |
| RunStateLaws.ToolResultsKeepBounds | src/card/run-state.ts:1167-1193 | So do tool results. |
| RunStateLaws.PlanKeepsBounds | src/card/run-state.ts:1221-1232 | A plan event keeps the plan within its window and the store bounded. |
| RunStateLaws.TurnDiffKeepsBounds | src/card/run-state.ts:439-703 | The five fields of a snapshot diff, applied in order, keep the store bounded. |
| RunStateLaws.PromoteKeepsBounds | src/card/run-state.ts:834-865 | Moving the answer out of the blocks keeps the store bounded and superseded texts windowed. |
| RunStateLaws.CapWindowsStaleTexts | src/card/run-state.ts:1350-1372 | After the cap only the newest text can exceed the progress window. |
| RunStateLaws.ActKeepsBounds | src/card/run-state.ts:258-265 | One event or one finish keeps every bound. |
| RunStateLaws.StoreStaysBounded | src/card/run-state.ts:258-265 | In every reachable state: at most 24 blocks, no tool twice, thinking, plan and superseded texts within their windows unless what is stored begins with a marker that reads zero or leaves no room, the omitted count equal to the length of the history of evicted blocks. |
| RunWindows.WindowIsTame | src/card/run-state.ts:1382-1405 | A text that begins with no marker of its own, or with one that counts what was cut, is windowed strictly within the limit, and what is stored is such a text again. |
| RunWindows.CapIsTame | src/card/run-state.ts:1350-1370 | The cap on stale texts brings all but the newest strictly within the progress window. |
| RunWindows.WindowsHold | src/card/run-state.ts:258-265 | In every run whose streamed texts never begin with the unit a marker begins with, and whose total length leaves room for its marker, thinking, plan and superseded texts are strictly within their windows, and count plus length of each is no more than was streamed. |
| RunHistory.UpsertCount | src/card/run-state.ts:715-734 | An upsert loses no block of any key: it replaces, moves or adds. |
| RunHistory.NoBlockIsLost | src/card/run-state.ts:1321-1332 | Blocks of each key in the store or evicted never become fewer, but for plans a newer plan replaces and texts an answer replaces; what was evicted stays so. The omitted count therefore misses no block. |
| RunOutcome.EventsAreQuiet | src/card/run-state.ts:359-367 | Events other than results and init leave terminal, session, outcome, reason and end time alone, and all but a final answer of the protocol leave the answer alone; only an expired approval of an active run is noted. |
| RunOutcome.ResultCounts | src/card/run-state.ts:762-800 | A result counts only after init and before a finish; it makes the run finalizing, joins the subtype and keeps the first error message. |
| RunOutcome.FinishSettles | src/card/run-state.ts:1250-1287 | A finish makes an active run final and sets its end time; a final run keeps both. Subtype, message and reason told with it win over earlier ones, and an interrupted run of which an approval had expired timed out if no reason is told. |
| RunOutcome.OutcomeFollowsActs | src/card/run-state.ts:762-1287 | Over any mix of events and finishes the terminal, end time, subtype, message and reason are what the acts alone determine: the first finish decides; the worst result, the first error and an expired approval stand unless a finish tells otherwise. |
| RunOutcome.FinalIsFinal | src/card/run-state.ts:359-367 | After the first final state events change nothing, and finishes only the meta fields and the completion mark. |
| RunOutcome.AnswerStands | src/card/run-state.ts:834-843 | A complete answer stays as it is through every event and finish but another final answer of the protocol. |
| RunOutcome.StreamedAnswerIsWhole | src/card/run-state.ts:762-865 | An answer streamed in any chunks, however long, and followed by fewer than 24 other blocks is the final answer in full once a result or a finish settles it, or the full text the result brings along; whatever follows leaves it so, but for another final answer of the protocol. |
| RunStreams.StreamedThinkingIsWindowed | src/card/run-state.ts:1040-1068 | Thinking of one item, streamed in any chunks within one event or over several in a row, is stored as the window of the whole. |
| RunStreams.StreamedPlanIsWindowed | src/card/run-state.ts:1221-1232 | A plan told in any number of pieces, among whatever other events, is stored as the window of the whole, each piece after a line break. |
| RunStreams.PlanGrows | src/card/run-state.ts:1221-1232 | A plan event leaves one plan block, the newest, which shows the plan. |
| RunStreams.ResultsReachTheirTools | src/card/run-state.ts:1167-1193 | Each tool takes the last result told for it, output and outcome, and no other block changes. |
| RunStreams.ToolUseMerges | src/card/run-state.ts:1085-1133 | A call of a tool already shown keeps its place, its result and its name, if it has one. |
| RunStreams.ToolUseAdds | src/card/run-state.ts:1085-1133 | Any other call adds the tool as the newest block, running and without a result. |
| RunStreams.FileIsShown | src/card/run-state.ts:1235-1247 | A changed file is the newest block, and the others stay as they are, the oldest leaving a full store. |
| RunStreams.UpsertReplacesTheLast | src/card/run-state.ts:715-734 | Told on the sequence around the last match: it is replaced in place, or taken out and put at the end while it streams; nothing else moves. |
| RunStreams.UpsertAppends | src/card/run-state.ts:715-734 | Without a match it is appended. |
| RunStreams.ReasoningTakesItsPlace | src/card/run-state.ts:455-494 | A later reasoning snapshot of an item replaces the earlier, in place once complete and at the end until then. |
| RunStreams.PlanTakesItsPlace | src/card/run-state.ts:543-592 | So does a later plan snapshot. |
| RunStreams.TextTakesItsPlace | src/card/run-state.ts:439-452 | A later text snapshot of an item replaces the earlier, in place once complete and at the end until then, and ends the thinking of all other blocks. |
| RunStreams.ToolTakesItsPlace | src/card/run-state.ts:495-541 | A later tool snapshot replaces the earlier and keeps its name; the status changes only once complete. |
| RunStreams.SnapshotIsShown | src/card/run-state.ts:439-703 | After a snapshot each of its fields is shown as told, or has been and left for newer blocks: text, reasoning, tool, plan and every changed file. |
| RunAnswers.ProtocolAnswerWins | src/card/run-state.ts:803-843 | Over any mix of events and finishes: once the protocol has told a final answer, the answer is the last it told before the first finish, whole, whatever was streamed or promoted. |
| RunAnswers.CopiesGo | src/card/run-state.ts:803-825 | A final answer told for an item takes the place of the item's texts and of no other block. |
| RunAnswers.PromotionTakesTheNewest | src/card/run-state.ts:834-865 | The newest text that is not blank leaves the store and becomes the answer, unless the runner brings the full text; all other blocks stay in order. |
| RunAnswers.NothingToPromote | src/card/run-state.ts:834-865 | Without such a text only the full text the runner brings can become the answer. |
| RunAnswers.FinishEnds | src/card/run-state.ts:1250-1287 | After the first finish no thinking is active, the footer is clear and the answer is complete. |
| RunAnswers.ResultEnds | src/card/run-state.ts:762-800 | So after a result that counts. |
| RunAnswers.ThinkingEnds | src/card/run-state.ts:1085-1133 | Text and tool calls leave no thinking active. |
| RunAnswers.NewThinkingAlone | src/card/run-state.ts:1040-1068 | New thinking is active and leaves no other thinking active. |
| RunAnswers.ContentFooter | src/card/run-state.ts:1040-1133 | The footer tells the last content of an assistant event. |
| RunAnswers.DiffFooter | src/card/run-state.ts:439-703 | After a snapshot it tells the tool, else the reasoning, else the text, else what it told before. |
| RunAnswers.EventFooter | src/card/run-state.ts:359-377 | What it tells after every other event of an active run. |
| CardFlush.TerminalFrameSailsAlone | src/card/card-session.ts:311-314 | When a waiting finish may resume, no flush is in flight. |
| CardFlush.StepKeepsInv | src/card/card-session.ts:90-154 | Every step keeps the flags, the order of frames and the cover of unshown state. |
| CardFlush.TerminalFramesComeLast | src/card/card-session.ts:110-132 | In every run at most one flush is in flight, every frame after a terminal one is terminal, and nothing older is in flight then. |
| CardFlush.EveryChangeIsCovered | src/card/card-session.ts:90-100 | In every run a state not yet shown has a timer, a flush marked for another, or a finish under way. |
| CardFlush.InternalMovesWork | src/card/card-session.ts:90-132 | Every step that is no push and no call to finish uses up remaining work. |
| CardFlush.SettlesOnTheTruth | src/card/card-session.ts:90-342 | Left alone a session settles within its remaining work, whichever sends fail, and then the last frame sent is the state. |
| CardFlush.LatePushIsSilent | src/card/run-card-session.ts:57-73 | A push after the run has settled sends nothing, not even when its timer fires. |
| CardFlush.StepSends | src/card/card-session.ts:90-154 | Only a timer, a refusal and a finish send frames, one each: the timer the state of an active run, a refusal the same frame again, a finish its final state and once delivered the state as it is. |
| CardFlush.ShowsEveryAct | src/card/run-card-session.ts:57-84 | In every run of the session the state is the fold of the events pushed and the finishes called, each finish where it resumed. |
| CardFlush.SettledShowsEveryAct | src/card/run-card-session.ts:57-84 | When nothing is left to move, the last frame sent is that fold, and every finish called has resumed exactly once. |
| RunCardSession.CardSession.ScheduleFlush | src/card/card-session.ts:90-100 | One timer serves a window; during a flush the push is remembered. |
| RunCardSession.CardSession.Flush | src/card/card-session.ts:110-132 | One frame of the present state goes out unless one is in flight or the run has settled. |
| RunCardSession.CardSession.FireTimer | src/card/card-session.ts:96-99 | The timer is gone and a flush is attempted. |
| RunCardSession.CardSession.FallBack | src/card/card-session.ts:272-294 | A frame the stream refused goes out once more, the same frame, as a patch. |
| RunCardSession.CardSession.SettleFlush | src/card/card-session.ts:117-130 | The flags are cleared and a remembered push arms a new timer. |
| RunCardSession.CardSession.CancelPendingFlush | src/card/card-session.ts:146-154 | Timer and remembered push are gone; whether a timer was there is returned. |
| RunCardSession.CardSession.Push | src/card/run-card-session.ts:57-73 | The state is the source's reducer applied to the event at once, no frame is sent, and the card is due for a flush. |
| RunCardSession.CardSession.Finish | src/card/card-session.ts:311-314 | Nothing pending survives, and the flush in flight, if any, is waited for. |
| RunCardSession.CardSession.ResumeFinish | src/card/run-card-session.ts:75-85 | The terminal frame is the state finished as was asked, and goes out with no older frame in flight. |
| RunCardSession.CardSession.ConfirmTerminalFrame | src/card/card-session.ts:329-342 | The confirming patch carries the state as it is then. |
| Lane.StepKeepsInv | src/bridge/queue-manager.ts:295-338 | Every event keeps the chain serial, closures at their own slots, the counts and the cap of fifty. |
| Lane.EveryRunIsAccounted | src/bridge/queue-manager.ts:1076-1156 | In every run the interrupted set lies within the executing slot, the count is at most the unsettled slots not interrupted, and an executing slot not interrupted shows the lane as busy. |
| Lane.IdleLaneIsClean | src/bridge/queue-manager.ts:1076-1156 | When all slots have settled no count, no mark and no waiting task remains. |
| Lane.PlainRunsCountExactly | src/bridge/queue-manager.ts:351-396 | Without interrupts, and with metadata on every task, the count is the number of unsettled slots. |
| Lane.CancelledNeverRuns | src/bridge/queue-manager.ts:912-934 | A task cancelled before its slot begins never runs, and its edit is dropped. |
| Lane.LateInterruptIsHarmless | src/bridge/index.ts:1053-1117 | A reset for a slot that has settled changes nothing, whatever runs now. |
| Lane.RepeatedInterruptMarksOnce | src/bridge/queue-manager.ts:1121-1156 | Resetting the same execution again grants nothing more. |
| Lane.EveryMarkWasReset | src/bridge/queue-manager.ts:1076-1156 | A skipped decrement belongs to a slot that was reset at a moment when it was the one executing. |
| Lane.SerialAndAtMostOnce | src/bridge/queue-manager.ts:295-338 | Tasks begin in the order enqueued and one at a time; a closure, edited or not, runs at most once and only at its own slot. |
| Lane.LaneDrains | src/bridge/queue-manager.ts:295-338 | From every reachable state the lane can be brought to rest with all slots settled. |
| Lane.EditsAreTheLast | src/bridge/queue-manager.ts:538-636 | In every run, until a task has its turn, the edit registered for its key is the last one that no cancel of the key followed. |
| Lane.BeginsTheLastEdit | src/bridge/queue-manager.ts:447-535 | A waiting task that has its turn runs that edit, and its own closure exactly when there is none; and that stays what it ran. |
| Lane.EditIsUsedUp | src/bridge/queue-manager.ts:538-548 | The edit of a task that has begun is gone. |
| Lane.InterruptCountsAfresh | src/bridge/queue-manager.ts:1121-1156 | After an interrupt of the executing task the count is, until the next task begins, the number of tasks enqueued since. |
| Lane.RefusedIffFull | src/bridge/queue-manager.ts:347-396 | A task with metadata is refused exactly when fifty are waiting; nothing else keeps a task from the end of the chain. |
| WorkspaceQueue.QueueManager.constructor | src/bridge/queue-manager.ts:266-284 | A new queue agrees with the empty chain. |
| WorkspaceQueue.QueueManager.Enqueue | src/bridge/queue-manager.ts:295-338 | The task is chained and listed, or refused at fifty, and list, index and count agree with the chain. |
| WorkspaceQueue.QueueManager.RegisterQueuedTask | src/bridge/queue-manager.ts:347-414 | Acceptance, the list and index, and whether others wait. |
| WorkspaceQueue.QueueManager.BeginQueuedTask | src/bridge/queue-manager.ts:447-535 | The task leaves list and index, the slot becomes the occupant, and the closure returned is the edit registered for the key, its own when there is none, and none at all for a cancelled task. |
| WorkspaceQueue.QueueManager.TakeTaskReplacement | src/bridge/queue-manager.ts:538-548 | The edit of a key is handed out once. |
| WorkspaceQueue.QueueManager.SetTaskReplacement | src/bridge/queue-manager.ts:628-636 | The latest edit of a key replaces the earlier. |
| WorkspaceQueue.QueueManager.RemoveFromQueue | src/bridge/queue-manager.ts:912-934 | Only a waiting task is removed, from list and index together, and its edit goes. |
| WorkspaceQueue.QueueManager.DecrementExecutingCount | src/bridge/queue-manager.ts:1076-1093 | A settle takes one off the count, or the mark of an interrupted slot. |
| WorkspaceQueue.QueueManager.ResetExecutingCount | src/bridge/queue-manager.ts:1121-1156 | The reset takes effect only on the slot expected, while it executes. |
| WorkspaceQueue.QueueManager.PositionInQueue | src/bridge/queue-manager.ts:1034-1044 | The position shown is the number of waiting tasks ahead in the chain. |
| WorkspaceQueue.BacklogBegins | src/bridge/queue-manager.ts:463-482 | The task that begins is the first of the list. |
| WorkspaceQueue.CancelViews | src/bridge/queue-manager.ts:912-934 | Cancelling takes exactly one task out of the list and leaves the order of the others. |
| WorkspaceQueue.FoundIffListed | src/bridge/queue-manager.ts:266-284 | A key is in the index exactly while its slot waits in the chain. |
| InstanceLock.StepKeepsInv | src/instance-lock.ts:114-174 | Create, read, judge, rename, re-check, restore, release and crash keep what excludes a second owner. |
| InstanceLock.LiveLockInPlace | src/instance-lock.ts:263-278 | The lock of a live owner is in place, or in the hands of the one process about to restore it; a live owner never finds another's lock in its place. |
| InstanceLock.ThreeCanOverlap | src/instance-lock.ts:114-168 | A run of three contenders that ends with two live owners. |
| InstanceLock.ExclusiveIffAtMostTwo | src/instance-lock.ts:114-174 | Over all interleavings the lock is exclusive exactly for up to two contenders. |
| InstanceLock.LockDirectory.Acquire | src/instance-lock.ts:114-168 | The retry loop, run among any schedule of other processes, makes only moves of the machine and ends holding the lock or refused. It is refused only after it has judged a suspect that was live or in doubt, or in its last round, when others have moved in every round. Alone and without doubts it takes over any lock that is absent, malformed or names no live instance. |
| InstanceLock.LockDirectory.TryCreate | src/instance-lock.ts:220-256 | The lock is created exactly when the path was free. |
| InstanceLock.LockDirectory.RestoreQuarantine | src/instance-lock.ts:263-278 | What was taken goes back, unless the path was taken meanwhile. |
| InstanceLock.LockDirectory.IsHeldByLiveInstance | src/instance-lock.ts:307-314 | A suspect is judged to be held exactly when it is a live instance or its identity is in doubt at that moment. |
| InstanceLock.LockDirectory.ReleaseLock | src/instance-lock.ts:170-175 | Giving up removes the lock exactly when it names the process itself, if nobody else moves meanwhile. |
| TurnAssembler.StepKeepsInv | src/inbound/turn-assembler.ts:83-295 | Every event keeps: live buckets are open and awake, each pending download belongs to its bucket. |
| TurnAssembler.Conservation | src/inbound/turn-assembler.ts:83-263 | Texts committed and waiting are the texts brought in, in arrival order; likewise the attachments of settled downloads: nothing is lost or doubled. |
| TurnAssembler.CommitsAreQuietAndFinal | src/inbound/turn-assembler.ts:232-263 | A bucket commits only with no download pending, once, and never changes after. |
| TurnAssembler.NothingStuck | src/inbound/turn-assembler.ts:188-230 | Every open bucket has an armed timer or a download that can still settle. |
| TurnAssembler.InternalEventLessens | src/inbound/turn-assembler.ts:188-245 | A timer that fires, a download that settles or is struck off and a flush that goes on each use up remaining work. |
| TurnAssembler.EverythingCommits | src/inbound/turn-assembler.ts:188-245 | With nothing new arriving, every order of these events is bounded by the remaining work, and when none can happen any more all buckets have committed and no flush waits. |
| TurnAssembler.FlushStartsCovered | src/inbound/turn-assembler.ts:136-146 | A flush that has to wait waits for all downloads of its bucket. |
| TurnAssembler.FlushReturnsAfterCommit | src/inbound/turn-assembler.ts:136-146 | A flush during which nothing new arrives returns only after its bucket has committed. |
| TurnContents.EveryBucketOneTurn | src/inbound/turn-assembler.ts:232-295 | In every run each committed bucket was delivered as exactly one turn, with all its texts, files, message ids and refusals, no message and no refusal twice. |
| TurnContents.IngestIsRecorded | src/inbound/turn-assembler.ts:83-130 | A message and what it refuses are on record in the open bucket of its conversation, and its download is pending there. |
| TurnContents.OutcomeIsRecorded | src/inbound/turn-assembler.ts:203-222 | So is a download that failed, or the files of it that were refused. |
| TurnContents.StepGrows | src/inbound/turn-assembler.ts:83-263 | No event takes anything from a bucket or moves it. |
| TurnContents.MessageRestartsTheWindow | src/inbound/turn-assembler.ts:83-130 | After a message its turn is not committed, whatever downloads settle, before the timer of the window fires or a flush of the conversation starts or goes on. |
| TurnContents.ReasonIsTold | src/inbound/turn-assembler.ts:188-263 | The reason told is that there is no text, else that of the flush which asked for the turn, else that the window was over. |
| TurnContents.FlushIsRemembered | src/inbound/turn-assembler.ts:136-146 | A bucket remembers the last flush that asked for it, and no other event changes that. |
| InboundTurnAssembler.BucketObject.Take | src/inbound/turn-assembler.ts:83-130 | A message adds its text, download or refusal once and restarts the window. |
| InboundTurnAssembler.BucketObject.Merge | src/inbound/turn-assembler.ts:210-222 | A settled download adds its files or its refusal. |
| InboundTurnAssembler.Assembler.Ingest | src/inbound/turn-assembler.ts:83-130 | Makes the ingest step on the bucket of the conversation and on no other. |
| InboundTurnAssembler.Assembler.TimerFired | src/inbound/turn-assembler.ts:188-197 | The window is over; the turn is committed unless a download is pending. |
| InboundTurnAssembler.Assembler.OutcomeSettled | src/inbound/turn-assembler.ts:210-222 | The first callback merges the outcome and leaves the download pending. |
| InboundTurnAssembler.Assembler.OutcomeStruckOff | src/inbound/turn-assembler.ts:223-228 | The second strikes the download off, and the last one commits a turn whose window is over. |
| InboundTurnAssembler.Assembler.FlushStart | src/inbound/turn-assembler.ts:136-146 | Commits at once, or waits exactly when downloads are pending. |
| InboundTurnAssembler.Assembler.FlushResume | src/inbound/turn-assembler.ts:136-146 | Commits what is left uncommitted. |
| InboundTurnAssembler.Assembler.TryCommit | src/inbound/turn-assembler.ts:232-263 | Commits an open bucket without pending downloads, and nothing else. |
| ApprovalLaws.StepKeepsTimers | src/bridge/approval-coordinator.ts:430-445 | Every event keeps: a live timer is its request's own, and a pending request has one. |
| ApprovalLaws.StepKeepsRecord | src/bridge/approval-coordinator.ts:449-470 | Every event keeps: a used nonce never goes out, the cancelled flag is exact, answers are never blank. |
| ApprovalLaws.EveryRunKeepsItsPromises | src/bridge/approval-coordinator.ts:90-680 | In every run, redelivery included: one live timer for each pending request, no used nonce reaches the responder again, cancelled by the user exactly when such a cancel got through. |
| ApprovalEffects.RunRecords | src/bridge/approval-coordinator.ts:263-342 | In every run each question holds the last answer given to it: the option clicked, the options selected or the user's own text; nothing else touches it. |
| ApprovalEffects.AnswersAreSentWhenComplete | src/bridge/approval-coordinator.ts:588-626 | An answer given is followed by a call exactly when none is missing and the button is fresh; the call carries the answer on record for each question. |
| ApprovalEffects.DecisionIsSentIff | src/bridge/approval-coordinator.ts:147-195 | Exactly when a decision is sent, and with which text; otherwise nothing changes. |
| ApprovalEffects.FeedbackIsKept | src/bridge/approval-coordinator.ts:373-395 | Feedback on a plan is kept for the decision that needs it, and uses its button up. |
| ApprovalEffects.ToggleTurnsOne | src/bridge/approval-coordinator.ts:263-296 | A click on an option of a multiple choice takes it in or out and leaves the order of the others; nothing is sent. |
| ApprovalEffects.AnswerIsShown | src/bridge/approval-coordinator.ts:263-342 | The answer given is the choice shown. |
| ApprovalEffects.RequestIsShown | src/bridge/approval-coordinator.ts:90-119 | A request delivered again is pending on a new timer and shows the answers on record; a new one begins with none. |
| ApprovalEffects.ViewFollows | src/bridge/approval-coordinator.ts:402-408 | An update replaces the view of a pending request and of no other, and nothing else. |
| ApprovalEffects.StatusChangesOnlyBy | src/bridge/approval-coordinator.ts:90-680 | For every event and every request: exactly whether its status changes, and to what. |
| ApprovalEffects.InterruptsIff | src/bridge/approval-coordinator.ts:646-680 | The run is interrupted exactly when the cancel of an expired request fails. |
| ApprovalEffects.UsedUpIff | src/bridge/approval-coordinator.ts:449-470 | Exactly which events use a button up. |
| ApprovalDelivery.SingleDelivery | src/bridge/approval-coordinator.ts:147-223 | In every run whose deliveries and redeliveries find all calls of the request refused, at most one call of each request is in flight or was delivered, and live timers belong exactly to pending requests. |
| ApprovalDelivery.FailedDeliveryIsRetryable | src/bridge/approval-coordinator.ts:483-489 | A failed delivery leaves the request pending on a new timer with the failure shown, and the same decision is accepted again and sends the same. |
| ApprovalDelivery.FailedAnswersAreRetryable | src/bridge/approval-coordinator.ts:588-626 | Refused answers go out again, the same, at any click that repeats a recorded answer. |
| ApprovalDelivery.PendingAlwaysEnds | src/bridge/approval-coordinator.ts:646-680 | A pending request can always expire, and then its cancel is on its way. |
| ApprovalRedelivery.StepKeepsOne | src/bridge/approval-coordinator.ts:90-680 | For each request on its own, every event but an unsafe redelivery of it keeps its calls one after another. |
| ApprovalRedelivery.UnsafeRedeliveryAnswersTwice | src/bridge/approval-coordinator.ts:90-107 | Delivered while a call of it is in flight or delivered, a request takes a second call: declining is always open. |
| ApprovalRedelivery.DeliveryIsSafeIff | src/bridge/approval-coordinator.ts:90-107 | Delivering a request keeps single delivery in every continuation exactly when all calls made for it so far were refused. |
| ApprovalRedelivery.RedeliveryCanAnswerTwice | src/bridge/approval-coordinator.ts:90-107 | A run in which a request delivered again is answered twice, and both answers get through. |
| ApprovalCoordinator.Coordinator.OnRequested | src/bridge/approval-coordinator.ts:90-119 | A new request is tracked and timed; one delivered again is pending again with its recorded answers and a new timer. |
| ApprovalCoordinator.Coordinator.OnResolved | src/bridge/approval-coordinator.ts:124-130 | Resolved, its timer stopped. |
| ApprovalCoordinator.Coordinator.OnTurnEnded | src/bridge/approval-coordinator.ts:135-142 | Exactly the pending requests expire and lose their timers, in whatever order they are visited. |
| ApprovalCoordinator.Coordinator.Submit | src/bridge/approval-coordinator.ts:147-195 | Accepted or refused with the first failing check; accepted, the timer stops and one call goes out. |
| ApprovalCoordinator.Coordinator.ToggleAnswer | src/bridge/approval-coordinator.ts:263-296 | A single choice is recorded and, when it was the last, all answers go out; a multiple choice is toggled once for each button. |
| ApprovalCoordinator.Coordinator.SubmitAnswers | src/bridge/approval-coordinator.ts:302-318 | The toggled options are recorded, and the answers go out when none is missing. |
| ApprovalCoordinator.Coordinator.AnswerCustom | src/bridge/approval-coordinator.ts:324-342 | Free text answers a single choice. |
| ApprovalCoordinator.Coordinator.PlanFeedback | src/bridge/approval-coordinator.ts:373-395 | Feedback is taken for plan approvals only, once for each nonce. |
| ApprovalCoordinator.Coordinator.TimeoutFired | src/bridge/approval-coordinator.ts:438-443 | A pending request expires and its cancel goes out; any other is left alone. |
| ApprovalCoordinator.Coordinator.SubmissionDelivered | src/bridge/approval-coordinator.ts:200-213 | Resolved, the nonce used up, and a cancel noted as the user's. |
| ApprovalCoordinator.Coordinator.FailSubmission | src/bridge/approval-coordinator.ts:483-489 | Pending again with the failure shown and a new timer. |
| RunnerOwnership.GetRunnerKeeps | src/bridge/index.ts:454-519 | Whatever it evicts, a look at the cache keeps ownership and freshness; before a run it yields no instance older than the last change of configuration. |
| RunnerOwnership.StepKeepsInv | src/bridge/index.ts:454-648 | Start, interrupt, end, borrowing and change of configuration keep ownership, freshness and the exit dispatcher. |
| RunnerOwnership.RunnersAreOwnedAndFresh | src/bridge/index.ts:454-648 | In every interleaving a registered run with a workspace-lifetime runner has its instance in its slot, not disposed of; every run began on an instance newer than the last change; no ended run holds a workspace. |
| RunnerOwnership.RegisteredRunStays | src/bridge/index.ts:1084-1105 | Only its own end or its own interrupt takes a run off the register. |
| RunnerOwnership.LateEndIsHarmless | src/bridge/index.ts:2292-2308 | A run that ends after losing its place changes nothing its successor has. |
| RunnerOwnership.StartRegisters | src/bridge/index.ts:1397-1427 | A busy workspace drops the message; otherwise the run is registered on the instance then in its slot. |
| RunnerOwnership.ReclaimLeavesTheBusy | src/bridge/index.ts:486-498 | Reclaiming leaves fewer than ten workspaces, or only busy ones. |
| RunnerOwnership.KeepsInstanceIff | src/bridge/index.ts:1084-1105 | For a run-per-message runner, an event other than the run's own end or interrupt leaves its instance in the slot exactly when it is not the return of another run's interrupt of that slot. |
| RunnerOwnership.KeepsInstanceThroughout | src/bridge/index.ts:1084-1105 | Such a run keeps its instance until its own end or interrupt, in every continuation, exactly when no interrupt of another run of its slot is awaited. |
| RunnerOwnership.InterruptMayEvictSuccessor | src/bridge/index.ts:1084-1105 | For every agent whose runners end with their run, a run in which an interrupt evicts the successor's instance. |
| RunnerLaws.LeavesExactlyAtItsEnd | src/bridge/index.ts:1084-1105 | For every event: a registered run leaves the register exactly at its own end or the return of its own interrupt, and then the workspace is free. |
| RunnerLaws.FreedWorkspaceStarts | src/bridge/index.ts:1397-1427 | After that a message for the workspace starts and registers the next run. |
| RunnerLaws.InterruptFreesTheWorkspace | src/bridge/index.ts:1053-1105 | An interrupt stops the run registered when it began: whatever happens until its stop returns, that run is off the register then. |
| RunnerLaws.InterruptedInstanceIsRetired | src/bridge/index.ts:1084-1105 | After the interrupt of a registered run whose runner outlives its runs the slot is marked, and in every continuation no run begins on that instance again. |
| RunnerLaws.EndIsOnce | src/bridge/index.ts:2292-2308 | A run ends once. |
| RunnerLaws.UnmarkedIsUsedAgain | src/bridge/index.ts:454-519 | What is cached and not marked is used again by the next run, and nothing is made or disposed of. |
| RunnerLaws.LookTakesOutIff | src/bridge/index.ts:454-519 | A look at the cache takes out an instance exactly when it is the marked one to be replaced, or is idle while there is no room for a new workspace. |
| RunnerLaws.ReportedIsSpared | src/bridge/index.ts:486-498 | An instance that reports a run is not reclaimed. |
| RunnerLaws.EndDisposesIff | src/bridge/index.ts:2292-2308 | The end of a registered run disposes of its instance exactly when such runners end with their runs or it was marked. |
| RunnerLaws.InterruptDisposesIff | src/bridge/index.ts:1084-1105 | The return of an interrupt disposes of what is in the slot exactly for runners that end with their runs, and else marks the slot. |
| RunnerLaws.ClearLeavesTheBusy | src/bridge/index.ts:586-609 | A change of configuration marks the instances of busy workspaces and disposes of all others. |
| Bridge.Bridge.EvictRunnerSlot | src/bridge/index.ts:618-648 | Slot, stale mark and exit handler go together, and the workspace with its last slot. |
| Bridge.Bridge.GetRunner | src/bridge/index.ts:454-519 | Cached, replaced when stale before a run, or created after reclaiming idle slots. |
| Bridge.Bridge.Forward | src/bridge/index.ts:1397-1427 | Starts a run exactly when the workspace is free, and registers it. |
| Bridge.Bridge.InterruptReturned | src/bridge/index.ts:1084-1105 | Takes the run it stopped, and no other, off the register, and marks its slot or takes the instance out of it. |
| Bridge.Bridge.FinalizeRun | src/bridge/index.ts:2292-2308 | Releases the workspace only if the run still holds it, and uses up the stale mark. |
| Bridge.Bridge.ClearRunners | src/bridge/index.ts:586-609 | Marks the slots of busy workspaces, evicts all others. |
| MarkdownTables.JoinOfSplit | src/card/text-truncate.ts:36-146 | Splitting into lines and joining gives the text back. |
| MarkdownTables.SplitOfJoin | src/card/text-truncate.ts:101-130 | Joined lines are read back as the same lines. |
| MarkdownTables.CountMarkdownTables | src/card/text-truncate.ts:36-44 | The number of separator lines. |
| MarkdownTables.FindMarkdownTableBlocks | src/card/text-truncate.ts:60-93 | One block for each separator line with a line above: header, headings and blank lines above, rows below. |
| MarkdownTables.BlocksNest | src/card/text-truncate.ts:60-93 | Of two blocks the later begins after the earlier has ended, or lies in it to its end. |
| MarkdownTables.RemoveBlocks | src/card/text-truncate.ts:108-130 | The walk with its map removes exactly the lines the blocks cover, overlapping or not, and leaves one hint at most. |
| MarkdownTables.DropOldestMarkdownTables | src/card/text-truncate.ts:101-131 | Removes the first `maxDrop` blocks, or returns the text as it is. |
| MarkdownTables.TruncateMarkdownTables | src/card/text-truncate.ts:139-147 | Drops what exceeds the limit, oldest first. |
| MarkdownTables.DropLowersTheCount | src/card/text-truncate.ts:101-131 | The count falls by at least the smaller of `maxDrop` and the blocks found, even when they overlap. |
| MarkdownTables.OldestGoNewestStay | src/card/text-truncate.ts:101-131 | The output is a subsequence of the input lines with one hint, which is missing exactly where two blocks overlap, and everything after the last block removed is untouched. |
| MarkdownTables.TruncateKeepsTheLimit | src/card/text-truncate.ts:139-147 | One text keeps at most `maxTables` tables exactly under a condition on its first lines and on the overlap of two blocks, and never more than one above. |
| MarkdownTables.CapTables | src/card/card-budget.ts:531-546 | The walk over the fields of a card, and the number of tables it removed. |
| MarkdownTables.CapBounds | src/card/card-budget.ts:531-546 | The cap removes what is asked, down to the separator lines that cannot go. |
| MarkdownTables.OldestFieldsFirst | src/card/card-budget.ts:531-546 | The fields before one have given up all the tables they can, those after it none. |
| MarkdownTables.CapKeepsTheLimit | src/card/card-budget.ts:531-546 | The card keeps at most `maxTables` tables exactly when no more fields than that begin with a separator line on its own. |
| MarkdownTables.LoneSeparatorsDefeatTheCap | src/card/card-budget.ts:531-546 | Six fields from which the cap on five removes nothing. |
| Truncate.CharsOfHead | src/common/truncate.ts:41-51 | A cut between code points splits none. |
| Truncate.BytesOfConcat | src/common/truncate.ts:57-69 | Joining adds the byte lengths, less two where a surrogate pair is completed. |
| Truncate.FitUtf8 | src/common/truncate.ts:27-51 | The loops over code points, from either end. |
| Truncate.FitHeadIsLongest | src/common/truncate.ts:41-51 | The longest run of whole code points at the start that fits. |
| Truncate.FitTailIsLongest | src/common/truncate.ts:28-39 | The longest at the end. |
| Truncate.TruncateText | src/common/truncate.ts:57-69 | Unchanged when it fits, the suffix alone when there is room for no more, else the longest part and the suffix. |
| Truncate.HeadFits | src/common/truncate.ts:57-69 | A text cut at its end is within the limit unless the suffix alone is not. |
| Truncate.HeadOnlyOnce | src/common/truncate.ts:57-69 | Cutting again changes nothing. |
| Truncate.TailFitsButForTheBreak | src/common/truncate.ts:57-69 | A text cut at its start is over the limit by one byte at most. |
| Truncate.TailFitsIff | src/common/truncate.ts:57-69 | A text cut at its start keeps the limit exactly when it fits, when the suffix alone fills the limit, or when no run of whole code points at its end fills what the suffix leaves. |
| Truncate.AsciiTailIsOneOver | src/common/truncate.ts:57-69 | Every plain ASCII text too long for the limit comes back one byte over it. |
| CardBudgetLaws.RefillKeeps | src/card/card-budget.ts:494-546 | Putting capped texts back changes the texts, in document order, and nothing else of the tree. |
| CardBudgetLaws.CapChangesOrNot | src/card/card-budget.ts:531-546 | A card with five tables at most, or none that can go, is not touched by the cap. |
| CardBudgetLaws.HintTellsTheNumber | src/card/card-budget.ts:435-474 | In the byte budget the number in the hint is the number of elements that went. |
| CardBudgetLaws.HintTellsAllBut | src/card/card-budget.ts:120-219 | For every card the number in the hint is the number of elements that went, but for panels dropped one at a time for their number; exactly when there are such panels. |
| CardBudgetLaws.ByteBudgetSound | src/card/card-budget.ts:435-459 | The result fits and is what is left, or the minimal card. |
| CardBudgetLaws.ElementBudgetSound | src/card/card-budget.ts:177-217 | Likewise when panels went first for their number. |
| CardBudgetLaws.EveryCardIsSound | src/card/card-budget.ts:120-164 | Unless the minimal card is returned, surviving panels are a suffix of the original panels, and the other elements of the others, in order, each the original with its tables capped, whole or with its long texts cut. |
| CardBudgetLaws.EveryCardIsSmall | src/card/card-budget.ts:120-459 | Every result has at most 90 elements and 28,000 bytes, plus one hint. |
| CardBudgetLaws.UntouchedMeansWithin | src/card/card-budget.ts:120-164 | A card is reported untouched, and is, exactly when it is within both sizes and no table can go; five tables at most suffice. |
| CardBudgetOutcomes.ShiftSavesIff | src/card/card-budget.ts:394-408 | Dropping from the front ends within the budget exactly when one drop comes from above ninety elements to below ninety, three elements being left and the rest small enough. |
| CardBudgetOutcomes.ByteBudgetMinimalIff | src/card/card-budget.ts:435-459 | Exactly when the byte budget ends in the minimal card. |
| CardBudgetOutcomes.ElementBudgetMinimalIff | src/card/card-budget.ts:177-219 | Exactly when the way on which panels go one at a time ends in the minimal card. |
| CardBudgetOutcomes.MinimalIff | src/card/card-budget.ts:120-459 | For every card and all options: exactly when the minimal card is returned, told from the capped card without its panels. |
| CardBudgetOutcomes.SkeletonSurvives | src/card/card-budget.ts:367-375 | Nothing but panels is taken, and the other elements stay unchanged, exactly when the capped card without its panels is within both sizes and the hint has its place. |
| CardBudgetOutcomes.FlatOverflowIsMinimal | src/card/card-budget.ts:394-459 | More than ninety elements, none a panel or with anything in it, always end in the minimal card, whatever their texts. |
| CardBudgetPhases.NewestPanelsSurvive | src/card/card-budget.ts:358-365 | Whenever the newest panels, as many as allowed and with their texts cut, leave a card small enough, exactly these panels stay and all other elements unchanged, the hint telling the rest. |
| CardBudgetPhases.BareCardSurvives | src/card/card-budget.ts:367-392 | Otherwise the card without panels stays when it fits, and only else with its texts cut. |
| CardBudgetPhases.NewestElementsSurvive | src/card/card-budget.ts:394-408 | When dropping the oldest elements can save the card, exactly the elements from there on stay. |
| CardBudgetPhases.DropsTheFewest | src/card/card-budget.ts:201-209 | On the way for too many elements no more panels go than it takes. |
| CardBudgetPhases.PanelTextsAreCut | src/card/card-budget.ts:338-355 | Long texts of the divs in a panel are cut, shorter ones and other elements stay as they are. |
| CardBudgetPhases.CutKeepsTheHead | src/card/card-budget.ts:338-355 | A long text keeps the longest run of whole code points at its head that leaves room for the suffix. |
| CardTableLimit.TruncationAddsNoTable | src/card/card-budget.ts:340-390 | Cutting a text by bytes adds no table to it. |
| CardTableLimit.TableLimitHolds | src/card/card-budget.ts:120-164 | The result has five tables at most, unless more fields than that begin with a separator line on its own. |
| CardTableLimit.DefaultHintsArePlain | src/card/card-budget.ts:266-287 | The default hint holds no table. |
| CardTrimming.ByteBudgetContext.DropOldestPanels | src/card/card-budget.ts:321-327 | Splicing indices from the back removes exactly the first `count` panels and counts them. |
| CardTrimming.ByteBudgetContext.TruncatePanelContents | src/card/card-budget.ts:340-356 | Long texts of the divs in panels are cut and counted. |
| CardTrimming.ByteBudgetContext.TruncateTopLevelDivs | src/card/card-budget.ts:379-392 | Long texts of the top-level divs are cut and counted. |
| CardTrimming.ByteBudgetContext.DropExcessElements | src/card/card-budget.ts:398-407 | Shifting from the front stops at ninety elements or three members. |
| CardTrimming.ByteBudgetContext.TryFinish | src/card/card-budget.ts:330-337 | Finishes exactly when the card fits with its hint; else nothing changes. |
| CardTrimming.EnforceElementBudget | src/card/card-budget.ts:177-217 | Panels go one at a time while there are too many elements, then the byte budget takes over. |
| CardTrimming.EnforceCardBudget | src/card/card-budget.ts:120-164 | The whole guard, as the functions the laws are about. |

## Left out

- Reading and writing files, processes, the network, the chat SDK, logging, clocks and random ids: their outcomes are events or parameters.
- TailMark.ChunkingDoesNotMatter: for texts of which no prefix reads as a marker, and totals whose marker leaves room in the window; `ChunkInvariance` says when a single seam is safe without either.
- TailMark.TruncationIsExact: for totals whose marker leaves room in the window; `WindowFitsIff` decides the bound for every text.
- `RunState`: timestamps, tool input and its merging, notices, goals, background jobs, usage, run status and the list of open approvals; an event that touches only these is `Elsewhere`.
- `RunState`: whether a state is unchanged is decided by equality, where the source compares references; an event that rebuilds an equal state is not windowed again.
- RunStreams.StreamedThinkingIsWindowed: for thinking of which no prefix reads as a marker and whose total leaves room for its marker.
- RunStreams.StreamedPlanIsWindowed: for plans that start empty and are not replaced by snapshots meanwhile, and totals that leave room for the marker.
- RunWindows.WindowsHold: for streamed texts that do not begin with U+2026; for all others `StoreStaysBounded` holds.
- RunOutcome.StreamedAnswerIsWhole: for a run without a protocol answer whose last block is not text when the stream begins, and events between the stream and what settles the answer that stream no text; a result counts once the session is known, as in the code.
- `CardFlush`: `start`, `settle`, the throttle of the SDK and the mode without coalescing; a session begins once its stream has started. A finish that is ready resumes before the next timer fires, as microtasks do.
- `Lane`: one workspace; another one only takes slot ids. Queue keys are fresh for each enqueue, as the code requires.
- `WorkspaceQueue`: editing of previews, queue cards, run-start holds and `beganMessageIds`.
- `InstanceLock`: the prior lock names no contender and no live instance; contenders run the same program; a verdict of mismatch is given only for a process that is not a live instance. The way without hard links is not modelled.
- InstanceLock.LockDirectory.Acquire: the back-off between attempts is any schedule of the other process.
- TurnAssembler.Conservation: `dispose`, reply ids, placeholder texts and receipts of a commit that fails.
- `Approvals`: permission toggles, answer notes and the wording of plans; texts are taken trimmed. A request resolved elsewhere whose answer then fails becomes pending again, as in the code.
- RunnerOwnership.RunnersAreOwnedAndFresh: whether a runner outlives its runs is a property of its agent kind; compact runs, which await between taking a runner and registering, are not modelled.
- `Bridge`: runs and instances are numbers; disposal and orphan marks of an instance are its place in `evicted`.
- `CardBudget`: an element is its tag, text, children and the bytes of its own markup; cards hold markdown fields only where the table walk looks. A card without a body is one without elements. Reasons and byte counts in the result are not modelled.
- CardTableLimit.TableLimitHolds: for hints that hold no table, which the default does not.
- `Truncate`: the character-based `truncate`; `keepTail` is part of `RunState`.
- Session stores, runners, routers, readers, rendering, configuration and other small helpers, which would only add easy members.
