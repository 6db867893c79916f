# fakuiCode in Dafny

A model of the parts of fakuiCode whose correctness rests on state, order and
failure rather than on a library: the durable timeline and what a model is shown
of it, crash-safe storage, concurrent life cycles, and text transformations that
must be exact. To check the whole project, use `dafny verify dfyconfig.toml`
(Dafny 4.11).

The model follows the program's form. Objects with changing fields are classes,
loops are loops with invariants, each proved against a specification function;
what the program promises is then proved of that function or, for protocols, of
every run of a transition system whose steps are the program's atomic actions.

## Timeline, projection, compaction

`Timeline` is the append-only table of one conversation with the queries asked of
it. `Projection` rebuilds messages from rows and divides rows into groups.
`Selection` decides what a compaction keeps word for word. `Compaction` joins
them: a run is any order of appended rows, `/clear` and compactions (succeeding,
with nothing to do, failing, with rows appended while the summary is written),
and what is rebuilt from the log and its summary metadata is proved equal to what
was kept in memory, with nothing forgotten. `ContextManager` adds light
preparation, the breaker and the hard limit around it. `Turns` records one agent
stream into rows and history; `Agent` is the bounded loop that produces the stream;
`Sessions` puts turns and compactions together.

Three views of one history are thereby tied to each other: the loop's list, the
recorder's list and the projection of the log. Loop and recorder agree, also where an
error escapes from the loop, exactly if
in every round that records calls the provider's closing event adds nothing to the
response's state; recorder and log agree, up to durations, attached metadata and
argument errors, exactly if no attached metadata overrides a result's own fields and
the state recorded with responses consists of thinking blocks.

Beside these agreements stands what each operation does on its own, read off its inputs:
a run and each of its rounds off the script of provider, tools and user
(`Agent.RunIsReadOff`, `Agent.StreamIsReadOff`, `Agent.EachCallGetsItsDue`), every
recorded row off the stream (`Turns.StreamIsRecorded`), what a compaction keeps off the
groups (`Selection.OlderUsersSurviveIff`), and what each context call sends, records and
counts off the log and one table (`ContextManager.SentCarriesTheLog`,
`ContextManager.CallsAreTabled`).

## Storage

`MemoryTransactions` is the write-ahead transaction of a memory scope over an
abstract file system. Every rename, removal and manifest write is one step, a crash
may follow any of them, recovery included; whether the `.transactions` directory
exists is part of the disk, because recovery does nothing without it. `MemoryOperations` covers the batch
the transaction writes: what the parser accepts, independence from order, and the
optimistic digest. `Deletion` is the tombstone protocol that removes conversations
and their artifact directories across a file system and a database.

## Life cycles

`WorkerPool` and `TaskManager` take each block under a lock as one step and prove
inductive invariants over every interleaving.

## Text

`ToolMarkup` (streaming splitter against one-shot reading), `Glob` and
`Permissions` (what a pattern says and matches, escaping, when the layered decision
allows or asks, what one approval changes),
`CommandLine` (a printer with its parser), `Instructions` (a recursive renderer
under a byte budget), `Utf8`, `Preview` and `Offload` (bounded previews of tool
results).

## Where the code falls short

Some properties one would expect do not hold. Each comes with an input on which it
fails and with the exact condition under which it holds, for all inputs.

- A recovery that reports success may leave a stale MEMORY.md
  (`MemoryTransactions.StaleListingSurvives`): without a `.transactions` directory it
  does not look at that file. It lists the notes exactly if the directory was there or
  it listed them already (`RecoveryIsAtomic`); the reading that follows every recovery
  repairs it (`LoadRestoresListing`).
- A round over its cap may ask for previews too small for their own labels
  (`Offload.EqualSmallResultsCannotMakeRoom` gives such rounds); light preparation then
  refuses the request. A plan's previews are all built exactly if path, decimals and
  labels leave room in each budget (`Offload.LightenRound`).
- With two instruction documents of one scope the payload may exceed its limit by a
  copy of the lower one. The limit is safe exactly if no two layers share a scope
  (`Instructions.LimitHoldsIffScopesDiffer`); the loader keeps one document per scope
  (`src/fakuicode/instructions/loader.py:82-89`).
- A submitted item can wait for running work to end although another thread could be
  started (`WorkerPool.WorkCanWaitDespiteRoom`); when, says
  `WorkerPool.SubmittedItemWaitsIff`.
- A conversation that stays in the database can lose its artifacts
  (`Deletion.OthersMayBeLost`), exactly if it is not in the set cleanups are told to
  keep (`Deletion.LostIffNotKept`); the set the context manager passes holds main
  conversations only.
- Metadata a tool attaches may override a result's own fields in the log
  (`Turns.OverridingMetadataParts`, exactly: `Turns.TurnViewsAgreeIff`). The registry
  passes on whatever mapping a tool returns (`src/fakuicode/tools/registry.py:243-251`);
  the repository's own tools attach other keys only, so such a result would come from a
  tool added to it.
- An agent run can stop without a terminal event: when the user cancels while a request
  is being compacted automatically, which only the user interface notices
  (`src/fakuicode/context_manager.py:575-576`, `src/fakuicode/agent.py:256-270`,
  `src/fakuicode/tui/app.py:1757-1762`), when a response that calls tools has states of
  two protocols, and when a tool cannot store its output
  (`Agent.CancelledPreparationEscapes`, `Agent.OneCallEscapes`; exactly:
  `Agent.EscapesIff`).
- Such a turn, and one whose answer is blank, stays in the log while the controller
  forgets it, so that a restored session shows more than the running one
  (`Turns.TurnIsGainedIff`, exactly: `Turns.SessionReplaysIff` and
  `Agent.TurnIsKeptIff`).
- The result of another agent that arrives during a tool round is rebuilt between the
  round's calls and its results (`Sessions.AgentResultDuringTurn` says exactly when, and
  when the order differs from the controller's).
- State on a provider's closing event reaches the loop but no recorder
  (`Agent.ClosingStateIsKeptBack`, exactly: `Agent.RunnerAndRecorderAgreeIff`). The
  repository's two providers put none there.
- A compaction the user asked for can let a request through above the hard limit, and a
  hard-limit refusal can count as a failed summary (`ContextManager.FixedPartTooLong`;
  exactly when, say `ManualSendsAboveLimitIff` and `BreakerMovesIff`).

## Model

| member | source | states |
|---|---|---|
| Timeline.ConversationLog.AppendEvent | src/fakuicode/storage.py:333-360 | one row is added behind all others, numbered one more than the last; no earlier row changes |
| Timeline.ConversationLog.LoadEvents | src/fakuicode/storage.py:362-389 | exactly the rows in the window, in order; refused exactly for a negative or inverted window |
| Timeline.ConversationLog.LoadEventsBySequences | src/fakuicode/storage.py:391-419 | exactly the named rows in order, however the names are ordered or repeated; refused exactly if a name is below 1 |
| Timeline.ConversationLog.AppendClearBoundary | src/fakuicode/storage.py:421-429 | the new row becomes the boundary, and there is no summary after it |
| Timeline.ConversationLog.LatestClearSequence | src/fakuicode/storage.py:465-480 | the greatest sequence of a clear mark, 0 without one: no clear mark lies behind it |
| Timeline.ConversationLog.AppendContextSummary | src/fakuicode/storage.py:482-515 | refused exactly for metadata out of range, with nothing appended; otherwise the summary row carries that metadata |
| Timeline.ConversationLog.LoadLatestContextSummary | src/fakuicode/storage.py:517-530 | the last summary not followed by a clear mark |
| Timeline.LatestSummaryIsLastAfterClear | src/fakuicode/storage.py:517-530 | reading the log backwards until a summary or clear mark agrees with boundary lookup plus descending query |
| Timeline.LatestClearIsLastMarked | src/fakuicode/storage.py:465-480 | reading the log backwards finds the maximum the query over the whole table finds |
| Timeline.OrderIsUnique | src/fakuicode/context_manager.py:181-188 | rows in strictly ascending order are determined by which rows they are, so any sort of the same rows gives the same history |
| Timeline.SortOrders | src/fakuicode/context_manager.py:181-188 | sorting rows with distinct sequences keeps all of them and orders them |
| Projection.MessagesFromEvents | src/fakuicode/context.py:548-580 | the loop over pending results gives the messages of the recursive projection |
| Projection.MessagesSplit | src/fakuicode/context.py:548-580 | projection distributes over a cut before any event that opens a message, and over any cut where no result waits |
| Projection.MessagesSplitIff | src/fakuicode/context.py:548-580 | rebuilding splits at a cut exactly unless results wait before it and results come first after it; those make two messages apart and one together |
| Projection.FirstMessageOfResults | src/fakuicode/context.py:548-580 | a rest begins with a message of results exactly if a result comes before anything that opens a message, and that message holds exactly those |
| Projection.GroupContextEvents | src/fakuicode/context.py:261-279 | the two nested loops give the recursive division into groups |
| Projection.GroupsConcatenate | src/fakuicode/context.py:261-279 | the groups, none empty, concatenate to the timeline |
| Projection.GroupsKeepRounds | src/fakuicode/context.py:261-279 | a cut falls everywhere but before a tool event that follows an assistant or tool event: no round of tools is split and nothing else is joined |
| Projection.MessagesDistribute | src/fakuicode/context.py:261-279 | on every model-visible timeline the projection of the whole is the concatenation of the projections of the groups |
| Projection.MessagesNeedVisibleEvents | src/fakuicode/context.py:261-279 | with a note between two results it is not: one message against two |
| Selection.SelectCompactionHistory | src/fakuicode/context.py:324-376 | the five loops with their running counters give the selection of which `OlderUsersSurviveIff`, `RecentStart`, `SelectionFits` and `SelectionTrimsOnlyWhenForced` say what it keeps |
| Selection.TakeRecent | src/fakuicode/context.py:334-345 | the recent history starts at the last position whose suffix reaches both target and minimum, else at the start; the counter is its true token sum |
| Selection.RecentStart | src/fakuicode/context.py:336-343 | the position found satisfies the stopping rule and no later one does |
| Selection.RecentIsShortest | src/fakuicode/context.py:334-345 | the recent history is the shortest end of the groups that reaches both the token target and the minimum number, or all of them |
| Selection.KeepOlderUsers | src/fakuicode/context.py:347-360 | the users kept are those of `KeepNewestIff`, newest first, and the counter equals their true weight |
| Selection.KeepNewestAmong | src/fakuicode/context.py:354-359 | what is kept comes from the older users, without repetition, and stays within their target |
| Selection.KeepNewestIff | src/fakuicode/context.py:347-360 | an older user message is kept exactly if its weight and that of the kept ones after it are within the target |
| Selection.TrimPreserved | src/fakuicode/context.py:362-364 | the shortest run of oldest preserved events is dropped after which the rest fits, and the counter stays true |
| Selection.TrimRecent | src/fakuicode/context.py:365-368 | the shortest run of oldest recent groups is dropped after which the rest fits, and the counter stays true |
| Selection.SelectionFits | src/fakuicode/context.py:324-376 | summary groups followed by recent groups are the input; both counters are true sums; together they are within the budget, a negative one counting as 0 |
| Selection.SelectionTrimsOnlyWhenForced | src/fakuicode/context.py:362-368 | every dropped event and group was over budget when dropped, and no group is dropped while a preserved event is left |
| Selection.PreservedAreSummarisedUsers | src/fakuicode/context.py:347-360 | preserved events are user events of the summarised groups, in order |
| Selection.OlderUsersSurviveIff | src/fakuicode/context.py:347-366 | read off the groups: user messages before the recent groups fit exactly if each with the later ones that fit is within its target, and of those only the oldest are dropped, only while everything kept is over the budget |
| Compaction.ActiveEvents | src/fakuicode/context_manager.py:158-199 | the metadata-driven pair of loads, filtered, joined and sorted, gives exactly the visible rows after the boundary that the latest summary does not cover or does preserve |
| Compaction.ListSequences | src/fakuicode/context_manager.py:166-173 | exactly the listed whole numbers between boundary and covered end, booleans excluded |
| Compaction.MeasuredIs | src/fakuicode/context_manager.py:397-401 | every group is measured as a whole, in order |
| Compaction.CoverageWritten | src/fakuicode/storage.py:503-515 | metadata written by the store is read back by the rebuild as the same covered end and preserved sequences |
| Compaction.ChoiceCutsEvents | src/fakuicode/context_manager.py:397-401 | a selection cuts the prepared events in two; its covered end is the last summarised event |
| Compaction.RetainedIsInOrder | src/fakuicode/context_manager.py:442-448 | preserved events followed by recent ones are already in order, so sorting moves nothing |
| Compaction.RetainedAreActive | src/fakuicode/context_manager.py:442-448 | every retained event is an active one, and one that is not a user event comes after all that is summarised |
| Compaction.ActiveIsSummarisedOrRetained | src/fakuicode/context_manager.py:432-448 | an active event is given to the summary if it is not later than the covered end, else it is retained |
| Compaction.SurvivesIffRetained | src/fakuicode/context_manager.py:459-478 | a row of the old log is selected by the new metadata exactly if its sequence is a retained one |
| Compaction.KeptRowsReplay | src/fakuicode/context_manager.py:442-478 | the rows the new metadata selects from the old log are the retained events, in the same order |
| Compaction.OldActiveIsUser | src/fakuicode/context_manager.py:158-199 | of the rows the previous summary covers only user events are still active |
| Compaction.NewThroughBounds | src/fakuicode/context_manager.py:459-463 | the new covered end is neither before the old one nor beyond the log as it was read |
| Compaction.RowsKeepInv | src/fakuicode/context_manager.py:158-199 | rows appended by turns, tools and diagnostics keep the invariant, boundary and latest summary |
| Compaction.ClearKeepsInv | src/fakuicode/storage.py:421-429 | after a clear nothing is active and the invariant holds |
| Compaction.CompactKeepsInv | src/fakuicode/context_manager.py:347-478 | a compaction that succeeds, has nothing to do, or fails after others appended rows keeps the invariant |
| Compaction.RunKeepsInv | src/fakuicode/context_manager.py:158-478 | the invariant holds after every run of appends, compactions and clears |
| Compaction.RebuildEqualsMemory | src/fakuicode/context_manager.py:158-199 | over every run the sequences rebuilt from the log are those the last compaction retained in memory followed by every later visible row |
| Compaction.NothingForgotten | src/fakuicode/context_manager.py:432-478 | over every run each visible row since the last clear is active, or went into the latest summary directly or through the summaries that one was given |
| Compaction.ThroughNeverDecreases | src/fakuicode/context_manager.py:459-463 | after any run, whatever follows up to the next clear, the covered end never moves back |
| Compaction.EventsReplay | src/fakuicode/context_manager.py:442-478 | event by event, what a compaction kept in memory is rebuilt from the log later once the same previews are in place: the retained events, then what arrived while the summary was generated |
| Compaction.MessagesReplay | src/fakuicode/context_manager.py:449-452 | the messages sent after a compaction are the ones rebuilt later, followed by those of what arrived meanwhile if that opens a message of its own |
| ContextManager.ContextManager.constructor | src/fakuicode/context_manager.py:132-135 | a fresh manager has no failures, no anchor and an empty history |
| ContextManager.ContextManager.RebuildIsMemory | src/fakuicode/context_manager.py:158-199 | at any time a manager's log rebuilds to what its history of actions retained, and nothing is forgotten |
| ContextManager.ContextManager.ActiveMessages | src/fakuicode/context_manager.py:148-156 | the messages are the projection of the active rows |
| ContextManager.ContextManager.AppendDiagnostic | src/fakuicode/context_manager.py:850-900 | one diagnostic row is appended; active history and latest summary stay |
| ContextManager.ContextManager.EnsureHardLimit | src/fakuicode/context_manager.py:721-750 | safe exactly if the estimate is within the hard limit; otherwise one blocking note is recorded |
| ContextManager.ContextManager.PrepareLight | src/fakuicode/context_manager.py:207-297 | the request carries the projection of the active rows with previews in place; the anchor is dropped exactly if there were any; the active history stays |
| ContextManager.ContextManager.NextCoverage | src/fakuicode/context_manager.py:459-468 | covered end and preserved sequences are those the replay theorems speak about |
| ContextManager.ContextManager.WriteSummary | src/fakuicode/context_manager.py:469-478 | the log becomes that of the run extended by one successful compaction |
| ContextManager.ContextManager.Unfinished | src/fakuicode/context_manager.py:437-458 | a compaction that does not finish leaves only what others appended, and the old summary |
| ContextManager.ContextManager.CompactRequest | src/fakuicode/context_manager.py:347-509 | outcome, notes, failure counter and anchor for every generation outcome, with nothing to summarise, with too much and with a result too large; the log stays the log of the recorded run |
| ContextManager.ContextManager.FailedCompaction | src/fakuicode/context_manager.py:646-699 | the failure is counted once; the request goes on with the latest summary of the log, or is blocked if that is still too large and the user did not ask |
| ContextManager.ContextManager.PrepareRequest | src/fakuicode/context_manager.py:519-578 | light preparation, then trigger, breaker or automatic compaction, then hard check, with the recorded effects; what is sent carries the log as it then is, latest summary included |
| ContextManager.ContextManager.CompactManually | src/fakuicode/context_manager.py:580-596 | one attempt whatever the breaker says; what is sent carries the log as it then is, latest summary included |
| ContextManager.ContextManager.RecoverOverflow | src/fakuicode/context_manager.py:598-644 | one attempt whatever the breaker says; a failure is counted and reported; what is sent carries the log as it then is, latest summary included |
| ContextManager.ContextManager.ClearContext | src/fakuicode/session.py:551-564 | boundary written, estimates and failures forgotten, nothing active |
| ContextManager.ContextManager.ObserveUsage | src/fakuicode/context_manager.py:837-845 | the anchor changes only if the provider reported an input count |
| ContextManager.PreparedFits | src/fakuicode/context_manager.py:519-578 | every request that preparation lets out is estimated within the hard limit, from scratch whenever a compaction was tried |
| ContextManager.RecoveredFits | src/fakuicode/context_manager.py:598-644 | a request is sent after an overflow only within the hard limit |
| ContextManager.ManualSendsAboveLimitIff | src/fakuicode/context_manager.py:580-699 | a compaction the user asked for lets a request through above the limit exactly if previews were stored, the attempt fails (nothing to summarise and the request too large, no summary, or its result too large) and the request with the latest summary does not fit |
| ContextManager.BelowTriggerNeverBlocks | src/fakuicode/context_manager.py:529-535 | below the automatic trigger the hard check cannot fail, because a policy keeps its trigger under its limit |
| ContextManager.BreakerCounts | src/fakuicode/context_manager.py:519-578 | automatic compaction is tried only below the failure limit |
| ContextManager.BreakerMovesIff | src/fakuicode/context_manager.py:519-578 | the failure counter goes back to 0 exactly if a compaction was due and succeeded, up by one exactly if one was due and failed, hard-limit refusals included, and stays otherwise |
| ContextManager.FixedPartTooLong | src/fakuicode/context_manager.py:646-699 | an input for both: a conversation without history whose fixed part is over the limit is sent by a manual compaction, and counts as a failed summary although none was asked for when prepared automatically |
| ContextManager.FailuresStayWithinLimit | src/fakuicode/context_manager.py:536-578 | over any sequence of prepared requests the counter stays within the limit |
| ContextManager.CallsAreTabled | src/fakuicode/context_manager.py:347-699 | automatic, manual and emergency compaction, put together from shared parts, do exactly what one flat table over the inputs says: trigger, budget and limit in numbers, outcome, recorded attempt, notes, failure counter and anchor |
| ContextManager.SentCarriesTheLog | src/fakuicode/context_manager.py:207-316 | after every run and each of the three calls: a sent request holds the rows the log then shows, less what others appended meanwhile, as light preparation shows them, and behind the caller's supplement the latest summary between its tags, if the log has one |
| Turns.ResultReturnsIffOwnFieldsKept | src/fakuicode/context.py:639-646 | a recorded result comes back, less duration and metadata, exactly if its metadata leaves tool name, success and summary alone |
| Turns.CallsReturn | src/fakuicode/turns.py:188-192 | recorded calls come back in order, less the argument error |
| Turns.StateReturnsIffThinking | src/fakuicode/context.py:618-636 | recorded provider state comes back exactly if all its blocks are thinking blocks, and never altered |
| Turns.AssistantReturns | src/fakuicode/context.py:561-570 | an assistant row becomes one message with the calls and the state that come back |
| Turns.ConsumeReplays | src/fakuicode/turns.py:76-102 | each consumed event keeps the projection of the rows equal to what the recorder holds, flushed and waiting parts alike |
| Turns.TurnReplays | src/fakuicode/turns.py:76-181 | for every stream, projecting the user row and the recorded rows gives the recorder's history as the log restores it |
| Turns.HistoryReturnsIffRestorable | src/fakuicode/context.py:605-646 | a history comes back whole exactly if each of its messages does |
| Turns.StreamIsRead | src/fakuicode/turns.py:76-181 | which states a recorder keeps, and whether all it holds comes back, can be read off the stream |
| Turns.TurnViewsAgreeIff | src/fakuicode/turns.py:76-181 | for every stream recorded to its end log and recorder agree, up to durations, metadata and argument errors, exactly if on the stream no result's metadata overrides its own fields and the state that stands before the first result of each answered response is thinking blocks |
| Turns.OverridingMetadataParts | src/fakuicode/turns.py:144-160 | any result whose metadata overrides one of its own fields parts log and recorder |
| Turns.PartReplays | src/fakuicode/turns.py:76-181 | from any boundary between rounds on, the rows appended project to the history appended |
| Turns.SessionReplays | src/fakuicode/session.py:344-387 | over any number of turns, however each of them came to an end, the whole log projects to what their recorders recorded, as the log restores it |
| Turns.GainedOnce | src/fakuicode/session.py:352-383 | the controller takes a turn over once or not at all: with the recorder's history if some event ended the turn, even if a later one makes the recorder raise |
| Turns.SessionReplaysIff | src/fakuicode/session.py:344-387 | the log projects to the controller's history exactly if every turn was ended by some event |
| Turns.TurnIsGainedIff | src/fakuicode/session.py:344-387 | of a turn that was not ended the log restores at least the user's message, the controller keeps nothing |
| Turns.RaisedForGood | src/fakuicode/turns.py:76-102 | after it raised the recorder neither changes nor lets the controller gain anything |
| Turns.TurnRowsAreOrdinary | src/fakuicode/turns.py:108-174 | no recorded row is a summary, a clear mark or a user's message |
| Turns.StreamIsRecorded | src/fakuicode/turns.py:76-181 | for every stream, read off the stream alone: every row with its text, calls, state, ids and metadata, where the recorder raises, how the turn ends and its answer |
| Turns.CallsAndResultsAreRecorded | src/fakuicode/turns.py:104-157 | the tool-call rows are, in order, the calls announced before the first result of each answered round, with name, id and arguments; the result rows are one for each result taken |
| Turns.TurnRecorder.RecordToolResult | src/fakuicode/turns.py:108-157 | the first result of a round persists assistant, calls and result as `StreamIsRecorded` lists them; later ones only themselves; mixed provider state changes nothing |
| Turns.TurnRecorder.FinishTurn | src/fakuicode/turns.py:159-168 | waiting results are flushed; a blank answer is refused, any other becomes the last message and row |
| Turns.TurnRecorder.TerminateTurn | src/fakuicode/turns.py:170-174 | waiting results are flushed and the reason is recorded |
| Turns.TurnRecorder.ConsumeEvent | src/fakuicode/turns.py:76-102 | the new state and the rows appended are those of the step `StreamIsRecorded` reads off the stream; nothing is accepted after the end |
| Turns.AgentSession.EnqueueAgentResult | src/fakuicode/session.py:412-476 | the result of another agent is logged at once and waits for the next turn |
| Turns.AgentSession.Hear | src/fakuicode/session.py:352-387 | the loop over the runner's events leaves recorder and history as specified, whether it runs through or the recorder raises |
| Turns.AgentSession.Send | src/fakuicode/session.py:273-387 | waiting results join the history, the log gains the rows of the turn, the history what the turn gained; it raises exactly if the turn is not left ended |
| Sessions.RunAppends | src/fakuicode/session.py:590-606 | appending rows one by one is a run of append actions |
| Sessions.HiddenRowsFeedNothing | src/fakuicode/context.py:555-580 | rows a model may not see never change the projection |
| Sessions.RowsExtendActive | src/fakuicode/context_manager.py:158-199 | ordinary rows add themselves to the active history, as far as visible, and nothing else changes |
| Sessions.TurnExtendsActiveMessages | src/fakuicode/session.py:344-387 | after any run of turns, summaries and clears, a turn, ended or not, adds exactly what was recorded of it, restored, to the rebuilt messages |
| Sessions.PartExtendsActiveMessages | src/fakuicode/agent.py:229-275 | with compactions, diagnostics or anything else between the rounds of a turn: the part recorded from a boundary on adds exactly the history it recorded |
| Sessions.RoundsBeginAtBoundaries | src/fakuicode/agent.py:232-255 | every round begins at such a boundary before its request is prepared |
| Sessions.AgentResultStands | src/fakuicode/session.py:474 | whatever has been recorded by then, half a tool round included, the result of another agent is rebuilt as a user message between what is rebuilt from before it and from after it |
| Sessions.AgentResultDuringTurn | src/fakuicode/session.py:474-487 | arriving during a turn it leaves the turn's messages whole exactly unless results of one round come on both sides of it, stands right before results exactly if a result comes next, and agrees with the controller's order, which lists it behind the turn, exactly if no message of the turn follows |
| Agent.StreamWithRetries | src/fakuicode/agent.py:388-450 | the retry loop gives the specified stream |
| Agent.AtMostFourAttempts | src/fakuicode/agent.py:388-450 | at most four provider attempts a round, none after an attempt that passed on anything but usage, one only if retries are off |
| Agent.StreamIsReadOff | src/fakuicode/agent.py:388-450 | how often the provider is asked, how the stream ends and what is collected and passed on, read off the attempts: another one follows exactly after the first or second transient error or a first overflow that could be recovered, with retries on and nothing but usage passed on |
| Agent.ToolBatches | src/fakuicode/agent.py:573-584 | the loop with its waiting list gives the specified batches |
| Agent.BatchesPartitionCalls | src/fakuicode/agent.py:573-584 | batches concatenate to the calls in order; each is a single call or known read-only calls only |
| Agent.ExecuteBatch | src/fakuicode/agent.py:586-649 | results in call order, the first cancellation cancelling the rest; `EachCallGetsItsDue` says what each of them is |
| Agent.ExecuteIsComplete | src/fakuicode/agent.py:586-649 | a batch that does not lose its storage has one result per call |
| Agent.BatchResultsAllPass | src/fakuicode/agent.py:341-351 | the stop for unknown tools never drops a result of its batch |
| Agent.ToolPhase | src/fakuicode/agent.py:331-371 | batches, stop and fill-up loops give the results of `EachCallGetsItsDue` |
| Agent.EveryCallIsAnswered | src/fakuicode/agent.py:331-374 | with distinct ids and an echoing executor every announced call has exactly one result, in call order, on the normal, cancelled and repeated-unknown paths; exactly if no tool that cannot store its output is met before the phase stops |
| Agent.LostIff | src/fakuicode/agent.py:326-351 | the phase is lost exactly if, reading the calls in order, a tool that cannot store its output comes before a seen cancellation, an interrupted call and the second unknown name in a row; run through, it carries over only whether its last call was unknown |
| Agent.EachCallGetsItsDue | src/fakuicode/agent.py:326-374 | every result and the end of a phase, read off the tools call by call: the tool's own result or a failed one exactly if the phase arrives there, a cancelled one behind or at a seen cancellation, a skipped one behind the second unknown name in a row |
| Agent.RunLoop | src/fakuicode/agent.py:207-386 | the loop gives the specified events and history |
| Agent.LoopStaysWithinLimit | src/fakuicode/agent.py:229 | rounds beyond the limit are never asked for |
| Agent.RunIsReadOff | src/fakuicode/agent.py:207-386 | a whole run, read off its script: rounds go on up to the first whose verdict is another, the events are what each tells and its verdict says, the history is what they add, and that verdict, with its reason, is how the run ends |
| Agent.EscapesIff | src/fakuicode/agent.py:229-374 | an error escapes from a run exactly if a round it begins has its preparation cancelled, brings calls with states of two protocols, or meets a tool that cannot store its output; the loop's end names which |
| Agent.CancelledPreparationEscapes | src/fakuicode/agent.py:256-270 | a run cancelled while its first request is compacted passes on the start of the model's phase and nothing more |
| Agent.OneCallEscapes | src/fakuicode/agent.py:310-330 | runs of one call from which lost storage or mixed provider state escapes, without a terminal event |
| Agent.StreamEndsOnce | src/fakuicode/agent.py:207-386 | the stream ends with a terminal event unless an error escapes; the terminal events are this one, or none, exactly if no attempt the loop actually makes contains an error or cancellation event before an invalid call |
| Agent.OneTerminalEvent | src/fakuicode/agent.py:207-386 | with providers that raise their errors there is exactly one terminal event, the last, or none at all; none exactly if an error escapes |
| Agent.TakeKeepsStep | src/fakuicode/agent.py:100-113 | recorder and collector hold the same text, calls and state after every provider event |
| Agent.ResultsAreRecorded | src/fakuicode/agent.py:341-349 | consuming the results persists the response once and leaves the results waiting in order |
| Agent.RoundAgrees | src/fakuicode/agent.py:229-386 | every round keeps loop history and recorder history in agreement, however it ends, an error that escapes included |
| Agent.RunnerAndRecorderAgree | src/fakuicode/agent.py:310-386 | on every stream of well-behaved providers the recorder stops where the loop stops and its history is what the loop appended, plus the final answer of a completed turn; it raises exactly if the loop concludes on a blank answer, and waits exactly if an error escapes, then short of the response whose tools lost their output |
| Agent.RunnerAndRecorderAgreeIff | src/fakuicode/agent.py:276-322 | whatever state providers put on closing events and however the run ends, the histories agree exactly if in every round that records calls the closing event adds nothing to the response's state |
| Agent.TurnIsKeptIff | src/fakuicode/session.py:344-387 | with providers that raise their errors the controller takes a run's turn over exactly if no error escapes and it does not conclude on a blank answer |
| Agent.StrayMakesRecorderRaise | src/fakuicode/agent.py:276-280 | an error or cancellation event among those of an attempt makes the recorder raise, or leaves it stopped if an error escapes right after |
| Agent.ClosingStateIsKeptBack | src/fakuicode/agent.py:276-322 | a full run with state on its closing event in which the loop's history differs from the recorder's |
| Utf8.PrefixIsLongest | src/fakuicode/context.py:479-480 | the longest whole-character prefix within the byte limit, UTF-8 as in section 3 of RFC 3629 |
| Utf8.SuffixIsLongest | src/fakuicode/context.py:483-486 | the longest whole-character suffix within the byte limit |
| Utf8.DecodeEncoded | src/fakuicode/context.py:479-486 | decoding an encoded text gives the text |
| Preview.FirstPassFits | src/fakuicode/context.py:426-435 | shares of the bytes left over always fit the budget, so the first pass returns |
| Preview.ShrinkToBudget | src/fakuicode/context.py:429-438 | the loop ends for every pair of shares |
| Preview.BuildStored | src/fakuicode/context.py:402-438 | built exactly if labels and separators take fewer tokens than the budget; then labels, longest beginning and longest end within the first shares, within the budget |
| Preview.LabelsTakeTheirBytes | src/fakuicode/context.py:416-425 | labels and separators take 123 bytes, both decimals and the path; a preview can be built exactly if these bytes leave at least one token of its budget |
| Preview.LayoutShows | src/fakuicode/context.py:416-438 | a preview says how the tool ended, how much there was and where it is, and shows the longest beginning and the longest end of the result within half of the bytes left |
| Preview.DecimalReads | src/fakuicode/context.py:416-422 | the sizes are printed as decimals that read back as they are |
| Offload.ChooseOversized | src/fakuicode/context.py:295-300 | the loop gives the oversized results, largest first |
| Offload.ChooseForRound | src/fakuicode/context.py:310-320 | the loop with its running total gives the specified choices |
| Offload.PlanRound | src/fakuicode/context.py:292-320 | both passes give the specified plan |
| Offload.PlanEnforcesRoundCap | src/fakuicode/context.py:282-321 | every oversized result is chosen; further ones in order of size only while the round is over its cap; the round ends within the cap or with nothing left |
| Offload.LightenRound | src/fakuicode/context_manager.py:232-262 | the previews of a round's plan are all built exactly if every choice's path, decimals and labels leave room in its budget; then each shows its own result within that budget, and the round as shown fits its cap unless every result has left it |
| Offload.NeverPreviewedIff | src/fakuicode/context.py:441-462 | with the shipped policy no preview of a result can be built, wherever it is stored, exactly if it has under 330 tokens or its token count alone has more than 1872 digits |
| Offload.SmallResultsCannotMakeRoom | src/fakuicode/context.py:282-321 | a round over its cap made of results under 330 tokens plans only previews that can never be built |
| Offload.EqualSmallResultsCannotMakeRoom | src/fakuicode/context.py:282-321 | such rounds exist: any number of equal small results that together exceed the cap |
| Offload.PreviewBudgetIsShare | src/fakuicode/context.py:455-462 | a preview may take the share of its result, rounded down, at least one token and no more than the maximum |
| ToolMarkup.TrailingPrefixLength | src/fakuicode/providers/dsml.py:119-124 | the longest suffix that is a proper beginning of the marker |
| ToolMarkup.OneShotIsUnique | src/fakuicode/providers/dsml.py:30-44 | a text has one split into shown, held and markup |
| ToolMarkup.Accumulator.Append | src/fakuicode/providers/dsml.py:30-44 | after any chunk the state is the split of all text so far, and what is shown is only extended |
| ToolMarkup.Accumulator.Finish | src/fakuicode/providers/dsml.py:46-53 | if parsing fails no character is lost; if it succeeds only the block is withheld |
| ToolMarkup.AppendAll | src/fakuicode/providers/dsml.py:24-53 | every way of cutting a text into chunks ends in the split of the whole text |
| ToolMarkup.MarkerStartsInHeldText | src/fakuicode/providers/dsml.py:30-44 | a marker completed by later text starts in what was held back |
| Glob.Compile | src/fakuicode/matching.py:12-58 | the scan gives the specified pieces, exactness and errors |
| Glob.EscapeExactTarget | src/fakuicode/permissions/rules.py:67-77 | refused exactly for empty or control text; otherwise the escaped target |
| Glob.EscapedTargetIsExact | src/fakuicode/permissions/rules.py:67-77 | an escaped target compiles, is exact and matches that target and nothing else |
| Glob.ExactIffEscaped | src/fakuicode/matching.py:12-58 | a pattern is reported exact exactly if it is some non-empty text, escaped; it then matches that text alone |
| Glob.EscapeIsInjective | src/fakuicode/permissions/rules.py:67-77 | different targets never share an escaped form |
| Glob.LiteralsMatchOnlyThemselves | src/fakuicode/matching.py:12-58 | a sequence of literals matches its own text and nothing else |
| Glob.CompilesIff | src/fakuicode/matching.py:12-58 | a pattern compiles to given pieces exactly if it can be cut into texts that stand for them one by one: escapes, wildcards and sets with their ranges |
| Glob.MatchesIff | src/fakuicode/matching.py:12-58 | a target matches exactly if it can be cut into parts that the pieces stand for one by one |
| Permissions.SelectedIsBest | src/fakuicode/permissions/rules.py:80-84 | the rule selected matches, none that matches ranks before it, and earlier rules win ties |
| Permissions.ExactExpressionParses | src/fakuicode/permissions/rules.py:49-77 | the rule generated for a known tool and printable target parses back to that tool and that target alone |
| Permissions.ParseRuleIff | src/fakuicode/permissions/rules.py:49-64 | an expression parses to a rule exactly if it is tool and pattern in parentheses on one trimmed printable line, the tool is known and the pattern compiles to what the rule matches with |
| Permissions.DecisionIff | src/fakuicode/permissions/engine.py:25-90 | read off the inputs: when the answer is allowed and when it is asked, from plan mode, guard, the user's denials, the first layer with a rule that applies, the lock, grants and mode |
| Permissions.DecisionNamesItsReason | src/fakuicode/permissions/engine.py:25-90 | the layer named is the first that decides, and a rule is named exactly where one did |
| Permissions.ExtraRuleIsLocal | src/fakuicode/permissions/engine.py:25-90 | an extra session rule changes no decision where it does not apply |
| Permissions.SessionApprovalChangesOnePoint | src/fakuicode/permissions/engine.py:25-90 | a session rule for an asked point makes it allowed under the same flags and leaves every other point's decision alone |
| Permissions.AskedRuleIsNew | src/fakuicode/permissions/manager.py:345-348 | a point that is asked about has no session rule yet, so the generated one is never taken for a duplicate |
| Permissions.UnknownToolHasNoRule | src/fakuicode/permissions/rules.py:55-59 | a tool outside the grammar cannot be given a session rule |
| Permissions.PermissionManager.BeginRequest | src/fakuicode/permissions/manager.py:179-181 | refusals are forgotten with a new request |
| Permissions.PermissionManager.AddSessionRule | src/fakuicode/permissions/manager.py:345-348 | added at the end exactly if it parses and is not there |
| Permissions.PermissionManager.Prepare | src/fakuicode/permissions/manager.py:215-257 | nothing changes up to the question; nobody is asked unless the engine says so (when it does, says `DecisionIff`), the point was not refused and its rule can be written |
| Permissions.PermissionManager.Conclude | src/fakuicode/permissions/manager.py:259-278 | whatever came between question and answer, the answer changes what it should and no more; a second session answer about one point adds no second rule |
| Permissions.PermissionManager.Authorize | src/fakuicode/permissions/manager.py:215-278 | a request nothing comes between: decided as `DecisionIff` says, nobody asked unless needed; each answer changes what it should and no more, a session answer exactly one point |
| CommandLine.ReadSerialized | src/fakuicode/permissions/safety.py:34-37 | a printed argument, bare or quoted as a JSON string (section 7 of RFC 8259), reads back as itself |
| CommandLine.ParseSerialized | src/fakuicode/permissions/safety.py:28-37 | there is a parser that gives back every argument list from its printed form |
| CommandLine.CommandsDoNotCollide | src/fakuicode/permissions/safety.py:28-37 | two different argument lists never share a permission target |
| CommandLine.PrintedBareIff | src/fakuicode/permissions/safety.py:34-37 | an argument is printed as it is exactly if it is not empty and all its characters are safe ones; any other between quotation marks |
| Instructions.RenderDocument | src/fakuicode/instructions/render.py:72-127 | the recursive loop gives the specified rendering |
| Instructions.RenderStaysInBudget | src/fakuicode/instructions/render.py:72-127 | whatever the include tree, a rendering fits its budget and the final over-budget check never fires |
| Instructions.IncludeKeepsItsLines | src/fakuicode/instructions/render.py:82-110 | the walk over an include goes on to the end exactly if every text line of its own fits behind the lines before it, and has then kept all of them |
| Instructions.RenderedIncludeIsComplete | src/fakuicode/instructions/render.py:72-127 | an include is dropped exactly if its envelope or one of its own lines does not fit; otherwise it shows all its own lines in order and in the place of each nested include that one's rendering in the room left there, or nothing if that is dropped |
| Instructions.DocumentIsShown | src/fakuicode/instructions/render.py:72-135 | the rendering of any document, main or included, with its diagnostics, read off its nodes: a main document up to the first of its own lines that does not fit, the marker there if that fits, every include in the room the lines before leave; an include with all of its lines or not at all |
| Instructions.RenderLayers | src/fakuicode/instructions/render.py:36-69 | the loop from the highest priority down gives the specified payload |
| Instructions.LowerLayersDoNotMatter | src/fakuicode/instructions/render.py:42-58 | what a layer renders to does not depend on lower-priority layers |
| Instructions.LayersAddUp | src/fakuicode/instructions/render.py:42-58 | bytes used and bytes left add up to the limit |
| Instructions.PayloadWithinLimit | src/fakuicode/instructions/render.py:36-69 | with one document per scope the payload is within the limit |
| Instructions.LayersAreShown | src/fakuicode/instructions/render.py:36-69 | each layer is rendered in exactly the room the higher ones leave, those that come to something stand in the order given, each with its diagnostics |
| Instructions.LimitHoldsIffScopesDiffer | src/fakuicode/instructions/render.py:36-69 | for any number of layers, the limit is safe for every choice of documents and limit exactly if no two layers share a scope; otherwise documents are given that exceed it by a byte |
| Instructions.SharedScopePrintsTwice | src/fakuicode/instructions/render.py:60-62 | with two documents of one scope the lower one is charged once and printed twice |
| WorkerPool.StepInv | src/fakuicode/lifecycle.py:53-126 | no step of any thread breaks the invariant |
| WorkerPool.EveryInterleaving | src/fakuicode/lifecycle.py:53-126 | after every interleaving: threads within the maximum, accepted work dequeued once and in order, no worker gone while work is queued, and after closing as many sentinels as live workers |
| WorkerPool.ClosedForGood | src/fakuicode/lifecycle.py:61-63 | after closing nothing more is accepted, whatever follows |
| WorkerPool.SubmittedItemWaitsIff | src/fakuicode/lifecycle.py:61-73 | in every reachable open state a submit with room starts no thread exactly if some worker is counted idle, and its item can be taken without any work ending first exactly if fewer items are queued than workers are about to take one, a thread just started included |
| WorkerPool.WorkCanWaitDespiteRoom | src/fakuicode/lifecycle.py:66-67 | an interleaving in which an item waits behind a busy worker with room for a thread: the idle count is stale between dequeuing and locking |
| WorkerPool.Executor.SubmitWork | src/fakuicode/lifecycle.py:61-73 | refused exactly once closed; a thread is started exactly if none is counted idle and there is room |
| WorkerPool.Executor.CloseQueue | src/fakuicode/lifecycle.py:86-90 | only the first close owes sentinels, one per thread |
| WorkerPool.Executor.PutOneSentinel | src/fakuicode/lifecycle.py:93-95 | one owed sentinel goes behind everything queued |
| WorkerPool.Executor.BecomeIdle | src/fakuicode/lifecycle.py:110-112 | the worker is counted idle before it waits |
| WorkerPool.Executor.Take | src/fakuicode/lifecycle.py:113 | the oldest item leaves the queue |
| WorkerPool.Executor.StopIdling | src/fakuicode/lifecycle.py:114-117 | the count drops once the lock is back; a sentinel ends the worker |
| WorkerPool.Executor.EndWork | src/fakuicode/lifecycle.py:118-126 | the worker returns to its loop |
| TaskManager.StepQueues | src/fakuicode/subagents/tasks.py:232-425 | every locked block keeps each task on the done queue exactly if it has ended, and on the notification queue exactly if it has ended and was to notify |
| TaskManager.QueuedExactlyOnce | src/fakuicode/subagents/tasks.py:275-425 | over every interleaving, once if ended and never otherwise, whatever the race between detaching, cancelling and finishing |
| TaskManager.EndsAreFinal | src/fakuicode/subagents/tasks.py:232-419 | one step never undoes an end, turns cancelling into anything but cancelled, or withdraws a notification |
| TaskManager.EndsStayFinal | src/fakuicode/subagents/tasks.py:232-419 | nor does any continuation of any run |
| TaskManager.GoesOnAs | src/fakuicode/subagents/tasks.py:126-419 | what each action makes of a task that has not ended: when it waits, runs, is being cancelled, is to notify |
| TaskManager.EndsBecause | src/fakuicode/subagents/tasks.py:303-419 | a task completes or fails exactly by its run saying so before anyone asked to cancel it, and is cancelled exactly by its run, before its run, or queued by the end of the manager |
| TaskManager.EndedBecause | src/fakuicode/subagents/tasks.py:303-419 | over every interleaving a task has completed, failed or been cancelled exactly if some action ended it so |
| TaskManager.StepOwnership | src/fakuicode/subagents/tasks.py:137-168 | every locked block keeps one active task per session, its session registered and its name routed to it |
| TaskManager.OneOwnerPerName | src/fakuicode/subagents/tasks.py:137-168 | over every interleaving no two tasks that have not ended share a session or a name, and each one's name leads to its own session |
| TaskManager.NoRefusalAfterPop | src/fakuicode/subagents/tasks.py:141-158 | a launch never refuses once it has taken a superseded session out |
| TaskManager.LaunchIsAllOrNothing | src/fakuicode/subagents/tasks.py:137-158 | over every interleaving a refused launch leaves the sessions alone |
| TaskManager.LaunchIff | src/fakuicode/subagents/tasks.py:126-174 | which refusal a launch gets, exactly, and all that it leaves otherwise: a queued task, its session under its name, a session that had the name before taken out |
| TaskManager.SessionsCloseOnce | src/fakuicode/subagents/tasks.py:357-370 | over every interleaving a session is closed through the guard at most once |
| TaskManager.LatestActive | src/fakuicode/subagents/tasks.py:258-266 | the one found has not ended and carries the name; if none is found, none that has not ended carries it |
| TaskManager.Manager.LaunchTask | src/fakuicode/subagents/tasks.py:126-174 | answer and new state for every refusal and for success; refusals change nothing |
| TaskManager.Manager.StopTask | src/fakuicode/subagents/tasks.py:232-242 | stopped exactly if it had not ended |
| TaskManager.Manager.MarkWaitingApproval | src/fakuicode/subagents/tasks.py:256-273 | found exactly if a task of that name has not ended; only running and waiting trade places |
| TaskManager.Manager.Detach | src/fakuicode/subagents/tasks.py:275-285 | notified at once exactly if it had ended and was not to notify before |
| TaskManager.Manager.CloseAll | src/fakuicode/subagents/tasks.py:303-319 | one pass ends queued tasks and leaves every other unfinished one cancelling |
| TaskManager.Manager.BeginRun | src/fakuicode/subagents/tasks.py:372-385 | the run goes ahead exactly if it was still queued |
| TaskManager.Manager.CompleteRun | src/fakuicode/subagents/tasks.py:396-410 | cancelled if cancelling, else as the run reports; the session is to be closed exactly if the manager is closed |
| TaskManager.Manager.CloseSessionOnce | src/fakuicode/subagents/tasks.py:357-366 | closes exactly if it had not been closed |
| MemoryOperations.ParseOperationBatch | src/fakuicode/memory/content_policy.py:216-250 | accepted exactly if not empty, every id visible and named once in its operation, no two operations touch one id, and noop stands alone |
| MemoryOperations.HasDuplicates | src/fakuicode/memory/content_policy.py:469-470 | reports a repeated id exactly if there is one |
| MemoryOperations.AcceptedIsIndependent | src/fakuicode/memory/content_policy.py:233-250 | an accepted batch with new random ids is independent |
| MemoryOperations.ApplyOneIffGood | src/fakuicode/memory/repository.py:319-392 | in an independent batch an operation succeeds exactly if it would on the entries the batch started from |
| MemoryOperations.ApplyAllIsSpecified | src/fakuicode/memory/repository.py:319-392 | an independent batch succeeds exactly if every operation is good on its own, and what stands under each id afterwards can be read off the set of operations |
| MemoryOperations.OrderDoesNotMatter | src/fakuicode/memory/repository.py:319-392 | in any order it succeeds or fails alike and leaves the same entries |
| MemoryOperations.OthersAreUnchanged | src/fakuicode/memory/repository.py:319-392 | entries no operation touches are left as they were |
| MemoryOperations.EachTakesEffect | src/fakuicode/memory/repository.py:319-392 | what every operation of an applied batch leaves: a new entry as asked for, a changed one with new text and time and otherwise as it was, nothing of what was merged or deleted |
| MemoryOperations.FirstFailureDecides | src/fakuicode/memory/repository.py:319-392 | a batch that fails does so with the failure of its first bad operation, judged on the entries it started from |
| MemoryOperations.ReportsChanges | src/fakuicode/memory/repository.py:319-392 | the ids reported are those of new and changed entries, in the order of the operations |
| MemoryOperations.ApplyOperations | src/fakuicode/memory/repository.py:319-392 | the loop gives the specified entries and changed ids, and stops at the first failure |
| MemoryOperations.SortEntries | src/fakuicode/memory/repository.py:537-538 | the listing holds exactly the entries, by category, last change and id, in whatever order the dictionary gave them |
| MemoryOperations.ListingIsUnique | src/fakuicode/memory/repository.py:537-547 | a scope has one listing, so index and digest depend on its entries only |
| MemoryOperations.Judge | src/fakuicode/memory/repository.py:144-163 | stale exactly if the digest does not name the current entries; otherwise the outcome of applying; committed entries are listed and fit |
| MemoryOperations.StaleProposalsNeverOverwrite | src/fakuicode/memory/repository.py:145-152 | once anything has changed a proposal made before can no longer commit |
| MemoryTransactions.StepKeeps | src/fakuicode/memory/repository.py:399-534 | every file operation of a commit, of recovery and of cleanup, and a crash, keeps the invariant |
| MemoryTransactions.UndoSucceeds | src/fakuicode/memory/repository.py:510-534 | no line of a rollback ever fails, and each restores its note and touches no other |
| MemoryTransactions.ValueChangesOnlyAtTheMark | src/fakuicode/memory/repository.py:453-454 | the value of a scope changes at one operation only, the writing of the committed manifest |
| MemoryTransactions.RecoveryIsAtomic | src/fakuicode/memory/repository.py:399-534 | over every run of commits, crashes and recoveries that crash themselves, a recovery that reports success leaves exactly the notes of the last committed transaction and no transaction; MEMORY.md lists them exactly if .transactions existed when this recovery began or it listed them then |
| MemoryTransactions.LoadRestoresListing | src/fakuicode/memory/repository.py:90-119 | the reading that follows a recovery writes the listing of exactly those notes |
| MemoryTransactions.StaleListingSurvives | src/fakuicode/memory/repository.py:482-508 | two crashes after which a recovery reports success and MEMORY.md lists a note that was never committed |
| MemoryTransactions.CommitIsAtomic | src/fakuicode/memory/repository.py:399-457 | so does a commit that runs through |
| MemoryTransactions.RecoveryFailsOnlyWithoutManifest | src/fakuicode/memory/repository.py:482-508 | recovery gives up only on a transaction without a manifest, and then the notes are still those of the last committed transaction |
| MemoryTransactions.ScopeDirectory.Differences | src/fakuicode/memory/repository.py:414-436 | the lines name exactly the notes that differ, each once, with both payloads |
| MemoryTransactions.ScopeDirectory.CommitScope | src/fakuicode/memory/repository.py:399-461 | the notes become the final ones, listed, with no transaction left; dying anywhere leaves a state of the run |
| MemoryTransactions.ScopeDirectory.RollbackPrepared | src/fakuicode/memory/repository.py:510-534 | every line is undone |
| MemoryTransactions.ScopeDirectory.RecoverTransactions | src/fakuicode/memory/repository.py:482-508 | succeeds exactly if there is no transaction or its manifest is there; then the notes are those of the last committed transaction, and MEMORY.md lists them exactly if .transactions existed or it did before; without that directory, and on failure, nothing is changed |
| MemoryTransactions.ScopeDirectory.LoadScope | src/fakuicode/memory/repository.py:90-119 | after recovery the notes read are those of the last committed transaction, and MEMORY.md lists them if it can be written |
| MemoryTransactions.ScopeDirectory.RemoveTransaction | src/fakuicode/memory/repository.py:711-716 | removed file by file in any order; nothing else changes |
| MemoryTransactions.ScopeDirectory.EveryPrefixIsSafe | src/fakuicode/memory/repository.py:399-534 | after any prefix of the operations recovery finds the invariant |
| Deletion.KeptArtifactsSurvive | src/fakuicode/context_artifacts.py:304-359 | over every run of deletions, writes, crashes and cleanups: wherever a directory was ever hidden whose conversation is in the database and kept by cleanups, there is one still, in use or behind a tombstone, and such a tombstone is whole |
| Deletion.FinishedCleanupRestores | src/fakuicode/context_artifacts.py:329-359 | after any run, a cleanup that has come to its end leaves a directory in use in every such place of its workspace, and no tombstone that is not kept |
| Deletion.LostIffNotKept | src/fakuicode/context_manager.py:116-126 | some run loses the artifacts of a conversation that stays in the database exactly if cleanups are not told to keep it |
| Deletion.OthersMayBeLost | src/fakuicode/context_manager.py:116-126 | the run that does: a crash between hiding and deleting, then a cleanup |
| Deletion.RestoreLast | src/fakuicode/context_artifacts.py:315-321 | the last staged directory can always be put back, and then staging is as it was before it |
| Deletion.ArtifactStore.StageConversationDeletion | src/fakuicode/context_artifacts.py:304-313 | exactly this directory is hidden, if it exists |
| Deletion.ArtifactStore.StageAll | src/fakuicode/session.py:61-68 | exactly the directories of the subtree are hidden, up to the first failure |
| Deletion.ArtifactStore.RestoreStaged | src/fakuicode/session.py:69-72 | every staged directory is back and nothing else has moved |
| Deletion.ArtifactStore.PurgeStaged | src/fakuicode/session.py:81-88 | tombstones go one after the other up to the first that cannot; nothing else changes |
| Deletion.ArtifactStore.DeleteConversation | src/fakuicode/session.py:55-89 | if hiding or the database fails nothing has changed; otherwise rows and directories of the subtree are gone and no other tombstone is touched |
| Deletion.ArtifactStore.CleanupStaleTombstones | src/fakuicode/context_artifacts.py:329-359 | every kept tombstone of the workspace has a directory in its place, whole if it was brought back, a live one untouched; every other tombstone of the workspace is gone; other workspaces stay |

## Left out

Deliberate limits of the model, and what the program does beside it:

- Estimates: `estimate_request_tokens` and group costs are parameters; serialization of requests is not part of this model.
- Serializers and hashes: JSON text, YAML and SHA-256 are taken as injective, so metadata is the value written, a digest is the listing and a file hash is the payload; only the JSON strings of printed commands are modelled.
- Notes: files hold exactly the serialized form of their entry; invalid, linked or oversized files are not modelled.
- Lone surrogates: Python strings that no UTF-8 text can hold are not Dafny strings.
- Database: each write transaction is one atomic step on one conversation; timestamps, titles and the updates of `conversations` beside an event are not modelled.
- Diagnostics: their metadata is reduced to the result, and a diagnostic that cannot be written is not modelled.
- Context without a store: a manager without store or conversation only checks limits and is not modelled.
- Previews in a compaction: which results are moved out and their previews are in `Offload`; `ContextManager` is given the previews as a map; their artifact files are not modelled.
- Compaction.MessagesReplay: where what arrived during a compaction begins with a tool result the messages do not divide there; `Compaction.EventsReplay` covers that case event by event.
- Clear during a compaction: `/clear` while a summary is being generated is not among the rows that may arrive meanwhile.
- Summary text: the form of the eight headings, and `normalize_structured_summary`, are not modelled; a generated summary is any text.
- Compaction.NothingForgotten: speaks of what summaries were given, not of what their text says.
- Agent: hooks, skills, plan-mode texts, request envelopes and the order in which parallel read-only calls run are not modelled; results are taken in call order as the code does. A call whose arguments cannot be read is answered without a tool; that answer is one of the outcomes its step may have.
- Agent.RunIsReadOff: the reasons given are the code's, but for the number of rounds in the message of the safety limit and the details of a provider error, which are not modelled.
- Agent.RunnerAndRecorderAgree: providers that emit errors or cancellations as events make the recorder raise (`Agent.StrayMakesRecorderRaise`), and state on closing events is in `Agent.RunnerAndRecorderAgreeIff`.
- Agent.RunnerAndRecorderAgreeIff: excepts providers that emit errors or cancellations as events.
- Agent.EscapesIff: knows the errors the code lets through by design; an unexpected one, such as a database that fails during preparation or a tool registry that cannot list its tools, stops the stream likewise and is not modelled.
- Turns.AgentSession.Send: direct skill invocations, plan mode, memory context and usage totals are not modelled; another agent's result that arrives while a turn is sent is in `Sessions.AgentResultDuringTurn`.
- Cancelling futures: `cancel_futures` of the executor only marks futures, so that workers skip them; queue and threads are unaffected and futures themselves are not modelled.
- Joining: waiting for threads with a deadline, and reports of detached tasks, are not modelled.
- TaskManager.SessionsCloseOnce: covers closing through the guard only; a superseded session is closed outside it, and a run that finds its task already cancelling does not close the session at all.
- TaskManager: snapshots, waiting, results and error texts of tasks are not modelled; a session's name is fixed.
- Permissions.PermissionManager.Authorize: takes a request in one step; other requests, answers and settings may come between its question and its answer, which is why `Prepare` and `Conclude` are the program's two locked stretches and `Conclude` is proved from any state.
- Permissions: managers with a parent, permanent rules on disk, the approval broker's queue and the dangerous-command patterns (a parameter here) are not modelled.
- Tool-call markup: the regular expressions that read a complete block are a parameter.
- Instructions.SharedScopePrintsTwice: two layers only; for any number see `Instructions.LimitHoldsIffScopesDiffer`.
- Instruction loading: include resolution and metadata sanitizing happen before rendering; documents arrive as trees.
- MemoryTransactions.RecoverTransactions: fails closed on a transaction directory without a manifest; that it can never succeed there is how the code is, and no liveness is claimed.
- Unlocked readers: `load_scope` reads without the writer lock if it sees no transaction directory, and rewrites MEMORY.md; isolation of readers is not claimed.
- Failing file operations: one that fails leaves the disk as a crash does and is modelled as one, except where the code ignores the failure: removing `.transactions` and writing MEMORY.md while reading.
- Outcome of `apply`: a failure after the committed manifest is reported as a storage failure although the transaction is committed.
- Generation counter and lock: the registry's generation check and its SQLite lock are outside the model.
- Retained set: which conversations a cleanup is told to keep is a parameter.
- Ephemeral artifacts: leases, staging files and their cleanup are not modelled.
- Teams, worktrees, MCP, providers' wire formats, the terminal interface, configuration and installation of skills are not modelled.
