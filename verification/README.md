# Proofs about the stateful protocols of the repository

This project models the six pieces of the repository that hold state across steps, and proves what their designs
promise for every input, run or interleaving.

- **Frame decoder** (`packages/protocol`): `Framing`. Byte arrays filled in place, against a whole-stream reader.
- **Durable store** (`packages/durable`): `SortedIds`, `DurableTables`, `Visibility`, `Paging`, `MemoryStorage`. Every
  index against a filter of the tables, fork-aware visibility, and exact paging.
- **Agent loop and queues** (`packages/agent`): `AgentMessages`, `AgentTrace`, `AgentQueues`, `ToolDeclarations`,
  `ToolBatches`, `AgentRun` and `AgentRunLaws` (the reference run), `AgentLoop` (proved to follow it), `AgentLoopLaws`
  (the laws said of the loop), `Agent`. The event grammar, three copies of the transcript, tool declarations, tool
  batches and the conservation of queued messages.
- **Model-catalog refresh** (`packages/ai`): `ModelRefresh` (the protocol and its invariant), `ModelsImpl` (the class),
  `ProviderRefresh` (the phases of a provider made by `createProvider`).
- **RPC client** (`packages/client`): `Connection` and `ConnectionImpl` (the lifecycle, re-entrant at every callback),
  `ClientRequests` and `ClientRequestTable` (pending requests and cancellation), `Subscription` (the live stream).
- **Prewalk over Fast** (`packages/byz`): `Prewalk` and `PrewalkImpl`.

## How the models are built

A class of the source is a class with the same fields, changed in place. Where its code is cut by an `await` or by a
callback, each stretch between two cuts is one method, and its contract says that the fields afterwards are one `Step`
of a state machine over values. The theorems are about `Run`, any sequence of those steps in any order, so they hold of
every interleaving. Each such class keeps a ghost `history` of its events, its `Valid()` says that the fields are where
that history leads, and the contracts of its methods state of the object what the theorems give. In `Connections` the
code that waits for a callback is a stack of frames, so that a callback may call anything, itself included, before it
returns.

What the outside world decides is a parameter: what a store, a stream, a tool, a hook or a transport answers, whether a
signal is aborted, when a promise settles. The agent loop takes its answers from a finite script, and a run whose script
has ended is a prefix of a longer run; what holds at every turn of every script holds at every turn of every run. The
loops of the class are proved to leave every field, both queues and the records of requests, `turn_end` events and
transcripts as `AgentRuns.After` says, so the theorems about `After` are about the class;
`AgentLoopLaws.RunPrompts` states them of it.

Hypotheses that the source leaves to its callers are named where they are used:

- `Ancestry` and `ForkFloor` (packages/durable/src/types.ts:299-304): a fork's parent exists when the fork is committed,
  and its own entries are newer than the fork point. `Visibility.RunKeepsAncestry` shows that any run of commits by such
  a caller keeps both.
- Ids are integers. A limit of 0 with something to return has no last item: the page is an error there, and theorems
  about following cursors take limits of at least 1.
- A model stream starts at most once and resolves to an assistant message (`TurnScript.Obeys`).

## Where the code does less than it says

- `declareToolChanges` promises that replay always yields `context.tools` (packages/agent/src/agent-loop.ts:284-289).
  With two different tools of one name this holds for the first request and not for the second
  (`ConflictsOscillate`); `DeclareExact` gives the exact condition.
- A request that is aborted and answered while transport.send is still running is cancelled after its response
  (`CancelAfterResponse`); `LateCancelExactlyWhenOvertaken` gives the exact condition.
- An attempt begun inside a callback of the message loop is ended by what is left of the old chunk
  (`ReconnectInsideCallbackFails`); `NewAttemptSurvivesOnlyEmptyRest` gives the exact condition.
- An input that still carries its request id can be missing from the request index once two inputs shared the pair
  (`SharedPairCanVanish`); `CompleteExactlyWithoutSharing` gives the exact condition.
- A selection made while Fast is being switched on does not end an arm (`IgnoredSelectionIsHandedOff`), and an arm
  accepted during a switch is dropped with its end (`LaterArmIsLost`); `SelectionEndsArmUnlessInternal` and
  `ArmLostExactlyDuringSwitch` give the exact conditions.

## Model

| member | source | states |
|---|---|---|
| `Framing.HeaderOfDeclaredLength` | packages/protocol/src/framing.ts:33-36 | a four-byte header is determined by the length it announces: encoding the announced length gives the header back |
| `Framing.HeadersInOrder` | packages/protocol/src/framing.ts:33-36 | big-endian: the header of the smaller of two lengths comes first in the order of the bytes |
| `Framing.EncodeFrame` | packages/protocol/src/framing.ts:28-39 | fails exactly above the 32-bit limit; otherwise a fresh array of four bytes that announce the payload's length, most significant first, and the payload |
| `Framing.ResolveMaxFrameLength` | packages/protocol/src/framing.ts:19-25 | the default when absent; otherwise accepted exactly from 0 to 2^32-1 |
| `Framing.ParseSplits` | packages/protocol/src/framing.ts:59-130 | reading `a` and then `b` from what `a` left over is reading `a + b`; once an over-long header came, nothing later matters |
| `Framing.WireFormat` | packages/protocol/src/framing.ts:59-130 | four bytes announce a length: over the limit it fails the stream, and otherwise that many bytes are one frame, what is incomplete being kept |
| `Framing.ChunkingIndependent` | packages/protocol/src/framing.ts:59-130 | for every stream and every cut: failure depends on the bytes alone, frames already returned are a prefix of the stream's frames, and without failure they are all of them and what is held is the stream's tail |
| `Framing.SameBytesSameFrames` | packages/protocol/src/framing.ts:59-130 | two cuts of the same bytes cannot be told apart |
| `Framing.DecodeEncoded` | packages/protocol/src/framing.ts:28-39 | round trip: any cut of the concatenated encodings of payloads within the limit decodes to exactly those payloads with nothing left over |
| `Framing.FrameDecoder.Push` | packages/protocol/src/framing.ts:59-130 | the array-and-block decoder agrees with the whole-stream reader `Parse` on the held bytes plus the chunk: same frames, same rest, same failure; a failing push returns no frame and forgets everything; an ended or failed decoder refuses and keeps its state |
| `Framing.PushAll` | packages/protocol/src/framing.ts:59-130 | a fresh decoder fed any list of chunks returns the frames, the rest and the failure of `Feed`, so the three results above are about the object |
| `Framing.FrameDecoder.End` | packages/protocol/src/framing.ts:132-139 | succeeds exactly when nothing unfinished is held; otherwise the decoder fails |
| `Framing.FrameDecoder.CapacityBound` | packages/protocol/src/framing.ts:93-109 | the blocks of an unfinished payload hold at most 65536 bytes more than were received, and never more than was announced |
| `Framing.FrameDecoder.JoinBlocks` | packages/protocol/src/framing.ts:110-121 | the blocks copied one after the other into one array |
| `SortedIds.LowerBound` | packages/durable/src/memory-storage.ts:60-69 | the binary search finds the number of ids below the target |
| `SortedIds.UpperBound` | packages/durable/src/memory-storage.ts:71-80 | the binary search finds the number of ids up to the target |
| `SortedIds.InsertSorted` | packages/durable/src/memory-storage.ts:82-85 | keeps exactly one more id; the list stays ascending exactly when the id was new |
| `SortedIds.RemoveSorted` | packages/durable/src/memory-storage.ts:87-90 | keeps the list ascending with exactly that id gone |
| `DurableTables.RunKeepsConsistent` | packages/durable/src/memory-storage.ts:130-204 | after any run of accepted and rejected commits and minted ids: no id in two tables, records under their own id, every stored id below the next one, and the request index sound |
| `DurableTables.MintedIdsAreFresh` | packages/durable/src/memory-storage.ts:200-204 | minted ids ascend, differ from every id stored before and stay below the next id |
| `DurableTables.HoldsAfter` | packages/durable/src/memory-storage.ts:136-195 | after a batch a table holds the ids it held and those the batch wrote to it |
| `DurableTables.RunStores` | packages/durable/src/memory-storage.ts:136-195 | after any run each of the four tables holds, under each id, the last record that an accepted commit wrote there, and otherwise what it held before |
| `DurableTables.RunNumbers` | packages/durable/src/memory-storage.ts:142-198 | an entry keeps for ever the number that the commit that wrote it returned, whatever is committed later |
| `DurableTables.AcceptableByIds` | packages/durable/src/memory-storage.ts:349-367 | a batch is acceptable exactly if its conversations and entries have ids new to the store and the batch, and its tasks and inputs ids that no record of another table has |
| `DurableTables.RunExplainsIndex` | packages/durable/src/memory-storage.ts:173-192 | after any run a pair finds exactly the input written last with that pair, provided that input still carries it |
| `DurableTables.CompleteExactlyWithoutSharing` | packages/durable/src/memory-storage.ts:173-192 | a write keeps the index complete if and only if no other input carries the pair it brings |
| `DurableTables.IndexIsInverseWithoutSharing` | packages/durable/src/memory-storage.ts:313-318 | if at no write two inputs share a pair, the index is the exact inverse of the input table after any run |
| `DurableTables.SharedPairCanVanish` | packages/durable/src/memory-storage.ts:173-192 | concrete run of three accepted commits: after two inputs shared a pair, the index loses one that still carries it |
| `MemoryStorages.MemoryStorage.CheckImmutableIds` | packages/durable/src/memory-storage.ts:349-367 | accepts exactly the batches whose every write meets, at its turn, no other table owning its id and no immutable record; an error names the first offending write and why |
| `MemoryStorages.MemoryStorage.Commit` | packages/durable/src/memory-storage.ts:130-198 | succeeds exactly on an open store for a batch whose ids are free; then each table holds under each id the last record of the batch, or its old one, every entry written carries the number returned, the next id is just above all ids, and every sorted index equals its filter; a rejected batch changes nothing |
| `MemoryStorages.MemoryStorage.CommitConversation` | packages/durable/src/memory-storage.ts:138-141 | adds one conversation and keeps the ascending id list equal to the table's keys |
| `MemoryStorages.MemoryStorage.CommitEntry` | packages/durable/src/memory-storage.ts:142-160 | adds one entry and keeps each conversation's entry and head lists equal to the ascending filters of the entry table |
| `MemoryStorages.MemoryStorage.CommitTask` | packages/durable/src/memory-storage.ts:161-172 | rewrites one task record and keeps the list of all ids and the three status lists equal to the ascending filters of the records |
| `MemoryStorages.MemoryStorage.CommitInput` | packages/durable/src/memory-storage.ts:173-192 | rewrites one input and keeps the nested request index free of empty maps |
| `MemoryStorages.MemoryStorage.MintId` | packages/durable/src/memory-storage.ts:200-204 | hands out the next id while it is a safe integer, and refuses when closed or exhausted |
| `MemoryStorages.MemoryStorage.InputByRequest` | packages/durable/src/memory-storage.ts:313-318 | the nested maps find exactly the indexed input |
| `MemoryStorages.MemoryStorage.ScanConversations` | packages/durable/src/memory-storage.ts:212-224 | one page of the ascending conversation ids after the cursor |
| `MemoryStorages.MemoryStorage.ScanTasks` | packages/durable/src/memory-storage.ts:285-305 | one page of the ascending list of tasks that match every filter, after the cursor: what is on it meets every condition asked for, and whatever meets them is on it or after its cursor |
| `MemoryStorages.MemoryStorage.VisibleEntries` | packages/durable/src/memory-storage.ts:324-347 | the ancestry walk over the entry lists, cut at the limit, is a prefix of the reference walk |
| `MemoryStorages.MemoryStorage.ScanEntries` | packages/durable/src/memory-storage.ts:261-277 | one page of the visible entries between the bounds and below the cursor, newest first |
| `MemoryStorages.MemoryStorage.FindLatestHeadMarker` | packages/durable/src/memory-storage.ts:236-259 | the head index finds exactly the first entry with a head in the walk at the same cutoff; the walk terminates by insertion rank |
| `Visibility.CommitKeepsAncestry` | packages/durable/src/memory-storage.ts:130-198 | insertion ranks survive every commit, so ancestry stays well-founded and forks stay newer than their fork point |
| `Visibility.RunKeepsAncestry` | packages/durable/src/memory-storage.ts:130-204 | the same over any run of commits and minted ids |
| `Visibility.WalkIsNewestVisible` | packages/durable/src/memory-storage.ts:324-347 | the walk visits every entry of the recursive visible set once, strictly newest first |
| `Visibility.VisibleByLineage` | packages/durable/src/memory-storage.ts:324-347 | the visible entries are those at or below the cutoff in the conversations it descends from, as far as every fork on the way was made at that entry or later |
| `Visibility.FirstHeadIsNewestVisibleHead` | packages/durable/src/memory-storage.ts:236-259 | the first head of the walk is the newest visible entry with a head, and none is found exactly when there is none |
| `Paging.AscendingScanExact` | packages/durable/src/memory-storage.ts:212-224 | following cursors with any limits over a growing set: strictly ascending, nothing repeated, and everything present at the start is read |
| `Paging.ConversationScanExact` | packages/durable/src/memory-storage.ts:212-224 | the same for `scanConversations` with arbitrary runs of commits between the pages |
| `Paging.UnchangedScanExact` | packages/durable/src/memory-storage.ts:285-305 | on an unchanged store the pages concatenate to the ascending list of matches, and enough requests reach its end |
| `Paging.EntryRangeIsNewest` | packages/durable/src/memory-storage.ts:261-277 | what a continued scan walks is exactly the visible entries in range below the cursor, newest first |
| `Paging.ForkedScanExact` | packages/durable/src/memory-storage.ts:261-277 | following `scanEntries` cursors with any limits delivers, newest first, exactly the entries visible and in range at the first page, even if commits in between add entries above the cursors |
| `Paging.EntryScanExact` | packages/durable/src/memory-storage.ts:261-277 | the same for the store itself: any runs of commits by such a Session between the pages, as long as new entries get ids handed out after the scan began |
| `Paging.RunOnlyAdds` | packages/durable/src/memory-storage.ts:130-198 | any run of commits only adds conversations and entries |
| `Paging.GrowthIsInvisibleBelow` | packages/durable/src/memory-storage.ts:324-347 | entries added above a cutoff change nothing below it, in the conversation or any ancestor |
| `AgentQueues.PendingMessageQueue.Drain` | packages/agent/src/agent.ts:156-169 | hands out the oldest messages, all or one; accepted = delivered ++ still queued is kept |
| `Agents.Agent.Continue` | packages/agent/src/agent.ts:377-404 | the whole result by cases: refused while active, empty or system-only transcript, steering before follow-ups behind an assistant message, its error if both queues are empty, and otherwise the continuation; only the drained queue changes |
| `Agents.Agent.ProcessEvent` | packages/agent/src/agent.ts:559-597 | the fields after an event are the reducer applied to the fields before; outside a run an error is reported after reducing |
| `Agents.Agent.BeginRun` | packages/agent/src/agent.ts:501-515 | refused while a run is active; otherwise streaming begins with message and error cleared |
| `Agents.Agent.FinishRun` | packages/agent/src/agent.ts:544-550 | what the runtime owns is cleared |
| `Agents.Agent.Run` | packages/agent/src/agent.ts:501-524 | after a whole run of a finished trace the transcript has grown by exactly the completed messages, with nothing pending or streaming, and the error shown is that of the last turn that told of one |
| `AgentTrace.StartsMatchEnds` | packages/agent/src/agent-loop.ts:486-620 | in a good trace the starts of a call id are its ends and the calls of it still open, none of which is left at a turn boundary |
| `AgentTrace.ReportsAreRepeated` | packages/agent/src/agent-loop.ts:486-620 | in a good trace, by every turn boundary each result and error flag that an end reported was repeated by a result message of that call |
| `AgentTrace.TurnsCounted` | packages/agent/src/agent-loop.ts:162-279 | a finished trace has at least one turn and ends with `agent_end` |
| `AgentTrace.AgentFollowsTrace` | packages/agent/src/agent.ts:559-597 | over any good trace the reduced transcript is the old one followed by the completed messages, and pending calls are among the open ones |
| `AgentTrace.ErrorIsLatest` | packages/agent/src/agent.ts:588-592 | the error shown is what the last `turn_end` with an error told |
| `AgentTrace.PendingIsRunning` | packages/agent/src/agent.ts:559-597 | the pending calls are exactly those started and not ended since |
| `AgentTrace.StreamIsLatest` | packages/agent/src/agent.ts:559-597 | what the Agent shows as streaming is the message of the last start or update, if nothing has ended since |
| `ToolDeclarations.ChangesReachCurrent` | packages/agent/src/agent-loop.ts:305-308 | applying the computed changes to the previous tools gives the current ones if and only if no tool is shadowed by a different one of its name that is already declared |
| `ToolDeclarations.DeclareReplays` | packages/agent/src/agent-loop.ts:291-333 | after declaring, replaying the transcript is replaying the old one with the computed changes applied, whatever is pending |
| `ToolDeclarations.DeclareExact` | packages/agent/src/agent-loop.ts:291-321 | the transcript then declares exactly the executable tools, if and only if the shadowing condition holds |
| `ToolDeclarations.DeclareAgain` | packages/agent/src/agent-loop.ts:305-316 | declaring again with nothing pending adds nothing if and only if no two tools of one name differ |
| `ToolDeclarations.ConflictsOscillate` | packages/agent/src/agent-loop.ts:305-308 | with conflicting tools the first declaration is right and the second request goes out with the wrong tools |
| `ToolDeclarations.DeclarePreserves` | packages/agent/src/agent-loop.ts:311-320 | declaring changes at most the tool fields of the last pending system message, or adds one bare message in front |
| `ToolDeclarations.ReplayUnique` | packages/ai/src/types.ts:481-507 | replaying system messages never declares two tools of one name |
| `ToolDeclarations.DeclaredMeans` | packages/ai/src/utils/transcript.ts:58-66 | a transcript declares a tool exactly if some system message adds it, as the last of its name, and no later one removes or adds that name |
| `ToolBatches.ResultsAnswerCalls` | packages/agent/src/agent-loop.ts:486-620 | results answer a prefix of the calls in source order, all of them unless aborted |
| `ToolBatches.OutcomeByCause` | packages/agent/src/agent-loop.ts:671-824 | what a call comes to by its cause: no tool, invalid arguments, a hook that throws or blocks, an abort, or what the tool returned or threw with what the hook after it overrides |
| `ToolBatches.RefusedRunsNothing` | packages/agent/src/agent-loop.ts:671-735 | a call that is blocked, invalid or aborted is an error, and nothing its tool or the hook after it would have done shows |
| `ToolBatches.ResultsCarryOutcomes` | packages/agent/src/agent-loop.ts:486-620 | result i carries the content and error flag of its own call, and the batch lets the agent stop exactly if there is a result and every reached call asked for it |
| `ToolBatches.ModeByCause` | packages/agent/src/agent-loop.ts:473-480 | a batch runs sequentially exactly if configured so or if the first tool of some call's name asks for it |
| `ToolBatches.ModesAgree` | packages/agent/src/agent-loop.ts:486-620 | without an abort both executors produce the same results and the same decision to terminate |
| `ToolBatches.ModesDifferOnAbortedStart` | packages/agent/src/agent-loop.ts:579-588 | the outcomes of one call differ between the modes exactly when a prepared call meets the aborted signal at its start |
| `AgentLoops.AgentLoop.StreamAssistantResponse` | packages/agent/src/agent-loop.ts:339-425 | whatever a stream delivers, exactly one message starts and ends and the final message stands at the end of the context |
| `AgentLoops.AgentLoop.FailToolCallsFromTruncatedMessage` | packages/agent/src/agent-loop.ts:434-459 | every call of a truncated message gets an error result, in order, each reported by exactly one tool end with that result and flag; the batch does not terminate |
| `AgentLoops.AgentLoop.ExecuteToolCallsSequential` | packages/agent/src/agent-loop.ts:486-540 | produces the reference batch: its results are the completed messages, and each is reported by exactly one tool end of its call, with its result and flag |
| `AgentLoops.AgentLoop.ExecuteToolCallsParallel` | packages/agent/src/agent-loop.ts:542-620 | for every schedule of updates and completions: each completion fills its own call's slot, the messages gathered from the slots are the reference batch in source order, and each result is reported by exactly one tool end of its call |
| `AgentLoops.AgentLoop.Complete` | packages/agent/src/agent-loop.ts:579-600 | a completion reports its own call's outcome, error flag included, and fills that slot and no other |
| `AgentLoops.AgentLoop.AwaitAll` | packages/agent/src/agent-loop.ts:606-608 | whatever the order of completions, all slots end up holding their own call's outcome |
| `AgentLoops.AgentLoop.TakeTurn` | packages/agent/src/agent-loop.ts:208-249 | one turn: the run stands where the reference turn leaves it, its request, its `turn_end` and its transcript on record |
| `AgentLoops.AgentLoop.RunTurns` | packages/agent/src/agent-loop.ts:181-264 | the inner loop follows the reference run turn by turn, both queues included, and leaves when neither tool work nor a message is pending, when the run ends or when the script does |
| `AgentLoops.AgentLoop.RunLoop` | packages/agent/src/agent-loop.ts:162-279 | after both loops the whole state, queues and records included, is that of the reference run after its first poll; each queue accepted exactly what the turns' scripts enqueued |
| `AgentLoops.AgentLoop.RunAgentLoop` | packages/agent/src/agent-loop.ts:101-125 | a run from prompts is the reference run that begins with the declared prompts, with a trace in the event grammar; a finished one ends with `agent_end` carrying the new messages |
| `AgentLoops.AgentLoop.RunAgentLoopContinue` | packages/agent/src/agent-loop.ts:127-150 | refuses exactly an empty transcript and one that ends with an assistant message; otherwise it is the reference run from the transcript |
| `AgentRunLaws.RequestsDeclareTools` | packages/agent/src/agent-loop.ts:208-218 | every context handed to `streamAssistantResponse` declares exactly its tools if and only if no tool of the turn is shadowed by a different declared one of its name; always if no two conflict |
| `AgentRunLaws.TranscriptsAgree` | packages/agent/src/agent-loop.ts:209-249 | at every `turn_end` of the trace: the Agent's transcript is its old one followed by the messages of the turns so far, with nothing pending or streaming, and the loop's own transcript too if no context was replaced |
| `AgentRunLaws.EveryResultReported` | packages/agent/src/agent-loop.ts:228-249 | at every `turn_end` of the trace, the tool ends so far report exactly the results of the turns so far, each once, with its error flag |
| `AgentRunLaws.QueueConserved` | packages/agent/src/agent-loop.ts:174-215 | per queue and in order: what waited at the start and what was enqueued during the turns is what turns took, then what is pending, then what is still queued |
| `AgentRunLaws.FollowUpsComeLast` | packages/agent/src/agent-loop.ts:263-272 | what a turn took is exactly what one poll of one queue drained, in either mode; it takes follow-ups only after a turn without tool work, with the steering queue polled empty |
| `AgentRunLaws.RunEndsExactly` | packages/agent/src/agent-loop.ts:221-278 | a response that stopped with an error or was aborted executes nothing and ends the run, and so does the hook after a turn; any other turn ends it exactly if it left no tool work and both queues are empty |
| `AgentRunLaws.NothingPolledAfterEnd` | packages/agent/src/agent-loop.ts:221-259 | after a failed or aborted response, or on demand of the hook, no queue is polled: each holds all that no turn took |
| `AgentRunLaws.TurnIsPrepared` | packages/agent/src/agent-loop.ts:182-206 | a turn's prepared messages and context are what prepareNextTurn returned for it, and it is not asked before the first |
| `AgentRunLaws.ResultsAreTheBatch` | packages/agent/src/agent-loop.ts:228-247 | a turn's results, and whether tool work is left, are those of the batch its response asks for |
| `AgentRunLaws.BatchByResponse` | packages/agent/src/agent-loop.ts:227-241 | without calls no results; a response cut off by the token limit gives one error per call and goes on; any other gives the batch of the executors |
| `AgentRunLaws.RunIsRecorded` | packages/agent/src/agent-loop.ts:208-249 | one request, one `turn_end` and one transcript per turn, each that of its turn, and the new messages are those of the turns |
| `AgentRunLaws.ContextCarriesOn` | packages/agent/src/agent-loop.ts:182-222 | a turn is made in the context the turn before left behind, or in its replacement, and the model is asked with that and what the turn appends |
| `AgentRunLaws.RunIsContinuous` | packages/agent/src/agent-loop.ts:212-247 | as long as no context is replaced the transcript only grows, by the messages of the turns |
| `AgentRunLaws.TakenReachesTranscript` | packages/agent/src/agent-loop.ts:208-215 | what a turn prepared and took reaches its request, up to tool fields of the last system message |
| `AgentLoopLaws.RunIsLawful` | packages/agent/src/agent-loop.ts:162-279 | every reference run and every trace with its endings meet conservation, serving order, agreement of transcripts, reporting, declaration, the contexts and requests, the execution of each response and the exact ends at once |
| `AgentLoopLaws.RunPrompts` | packages/agent/src/agent-loop.ts:101-125 | the laws of the reference run hold of the object: a run from prompts begins with them declared behind its context and with what its first poll found, and its trace, turns, requests and queues meet all laws, whichever Agent reduces its events |
| `AgentLoopLaws.RunTranscript` | packages/agent/src/agent-loop.ts:127-150 | the same for a continuation of the transcript, refused exactly if that is empty or ends with an assistant message |
| `ModelRefresh.RunKeepsSound` | packages/ai/src/models.ts:332-377 | every interleaving of registrations, refreshes, aborts, publications and store answers keeps the whole invariant |
| `ModelRefresh.StoreMutationsNeverOverlap` | packages/ai/src/models.ts:356-376 | per provider at most one publication is in the store or on its way back |
| `ModelRefresh.FinishedUpdateSound` | packages/ai/src/models.ts:367-369 | an update runs in its own current generation, on the registered provider object, with its own catalog in the store |
| `ModelRefresh.SupersededNeverPublishes` | packages/ai/src/models.ts:332-341 | once superseded, a refresh starts no mutation and runs no update any more |
| `ModelRefresh.AbortedNeverPublishes` | packages/ai/src/models.ts:356-371 | once its signal is aborted a publication never publishes, and one that still waited never touches the store |
| `ModelRefresh.DynamicModelsWereStored` | packages/ai/src/models.ts:823-848 | if all publications are genuine, a provider shows only catalogs of its own that the store held at some point: whole, or exactly those of its models that belong to the provider, in their order |
| `ModelRefresh.RestoredIsOwnPart` | packages/ai/src/models.ts:826-828 | what a refresh restores are all models of the cached catalog that belong to the provider, no others, in their order |
| `ProviderRefreshes.PlayIsGenuine` | packages/ai/src/models.ts:379-396 | what the phases of createProvider's refreshes publish is what they read from the store or fetched, however they interleave with everything else |
| `ProviderRefreshes.PlayIsRun` | packages/ai/src/models.ts:379-396 | the phases and the protocol together are a run of the protocol |
| `ProviderRefreshes.CreatedProvidersShowStored` | packages/ai/src/models.ts:823-848 | hence a provider made by createProvider shows only such catalogs, with no assumption on what is published |
| `ProviderRefreshes.CachedIsShown` | packages/ai/src/models.ts:824-838 | a phase that read a catalog and that nothing disturbs shows its provider's own models of it, and goes on to the network exactly if that is allowed |
| `ProviderRefreshes.FetchedIsShown` | packages/ai/src/models.ts:839-848 | what a phase fetches that nothing disturbs is stored and shown by its provider object, and the phase is over |
| `ProviderRefreshes.OfflineComesFirst` | packages/ai/src/models.ts:425-434 | the network is tried only after the phase of the same refresh without it has ended |
| `ModelRefresh.ChainNeverStuck` | packages/ai/src/models.ts:356-376 | once everything queued before a waiting publication of its provider has settled, its turn has come |
| `ModelRefresh.EveryControllerAccountedFor` | packages/ai/src/models.ts:332-348 | every controller ever made is its provider's current one, aborted, or at the end of its own refresh |
| `ModelRefresh.ResumedIsReached` | packages/ai/src/models.ts:356-376 | a publication that goes on has every earlier one of its provider settled, though chains are cleaned up in between |
| `ModelCollections.ModelsImpl.SupersedeProviderRefresh` | packages/ai/src/models.ts:332-341 | the next generation, the controller gone and its signal aborted |
| `ModelCollections.ModelsImpl.SetProvider` | packages/ai/src/models.ts:281-284 | the provider is registered, its generation goes up and its controller is gone and aborted: the whole new state is the protocol step |
| `ModelCollections.ModelsImpl.DeleteProvider` | packages/ai/src/models.ts:286-289 | the provider is gone, its generation goes up and its controller is gone and aborted, also for an id that was not registered |
| `ModelCollections.ModelsImpl.ClearProviders` | packages/ai/src/models.ts:291-296 | nothing is registered any more, and the loop over the keys supersedes each provider and aborts each controller once, in any order |
| `ModelCollections.ModelsImpl.BeginProviderRefresh` | packages/ai/src/models.ts:343-348 | a new generation and a fresh controller, which are the current ones, owned by the registered provider object |
| `ModelCollections.ModelsImpl.BeginRefreshes` | packages/ai/src/models.ts:409-412 | the synchronous part of a refresh begins one generation per selected provider, in order |
| `ModelCollections.ModelsImpl.FinishRefresh` | packages/ai/src/models.ts:443-447 | only the controller of this very refresh is removed |
| `ModelCollections.ModelsImpl.PublishProviderModels` | packages/ai/src/models.ts:350-375 | queues behind the chain's current end and becomes its end |
| `ModelCollections.ModelsImpl.ResumePublication` | packages/ai/src/models.ts:357-365 | an aborted or superseded publication ends without store or update; otherwise one that persists goes to the store and any other to its update; everything queued before it for its provider has settled, and in the store it is the only one of its provider |
| `ModelCollections.ModelsImpl.RecheckPublication` | packages/ai/src/models.ts:367-369 | an aborted or superseded publication updates nothing; otherwise the update runs, which is that of the current generation, on the registered object, over its own catalog |
| `ModelCollections.ModelsImpl.CleanPublicationChain` | packages/ai/src/models.ts:373-375 | the chain goes unless something was queued behind |
| `ModelCollections.CurrentModels` | packages/ai/src/models.ts:788-796 | a look-up by id finds the newest dynamic model with the id, else the baseline's; baseline places stay |
| `Connections.RunKeeps` | packages/client/src/connection.ts:67-244 | every sequence of calls, callbacks and stale callbacks, however they nest, with a factory that throws at once or later, keeps the invariant between fields and log |
| `Connections.EveryAttemptInOrder` | packages/client/src/connection.ts:67-244 | no attempt shows anything out of order; every attempt but the current one has ended with its handshake settled |
| `Connections.SettlesAtMostOnce` | packages/client/src/connection.ts:163-240 | a handshake settles at most once |
| `Connections.DeliveredAfterOwnHello` | packages/client/src/connection.ts:163-213 | onMessage gets only the current attempt's own messages, after its hello |
| `Connections.ConnectsExactlyByHello` | packages/client/src/connection.ts:163-189 | over whole runs: a step connects if and only if the attempt with a transport gets a chunk of its own that begins with the hello of the expected server |
| `Connections.ConnectedWasGreeted` | packages/client/src/connection.ts:163-189 | a connection has been greeted: a chunk of its own began with the hello of the expected server while its transport was there |
| `Connections.FirstMessageDecides` | packages/client/src/connection.ts:143-213 | a chunk by its first message, in any state: before the transport or undecodable it ends the attempt; while connecting only the hello of the expected server connects; once connected only another message is delivered; anything else ends the attempt with its handshake rejected |
| `Connections.NoticesPerAttempt` | packages/client/src/connection.ts:67-240 | notices of an attempt spell connecting (connected)? disconnected |
| `Connections.EveryAttemptAsks` | packages/client/src/connection.ts:89-120 | the factory is called for every attempt, even one that its connecting callback ended |
| `Connections.NoTransportLeaks` | packages/client/src/connection.ts:120-141 | a transport that arrives, even for an ended attempt, is closed or gone once its attempt is over |
| `Connections.WholeChunkDelivered` | packages/client/src/connection.ts:143-161 | when onMessage only returns, a chunk is delivered whole and in order |
| `Connections.NewAttemptSurvivesOnlyEmptyRest` | packages/client/src/connection.ts:157-160 | an attempt begun inside a callback of the message loop survives the rest of the old chunk if and only if that rest is empty |
| `Connections.ReconnectInsideCallbackFails` | packages/client/src/connection.ts:157-160 | concrete run in which a leftover message ends the new attempt |
| `ConnectionClass.Connection.Connect` | packages/client/src/connection.ts:67-91 | refused exactly while not disconnected; otherwise a new attempt, of which the owner has been told exactly that it is connecting |
| `ConnectionClass.Connection.Send` | packages/client/src/connection.ts:102-118 | refused exactly while not connected; otherwise the frame goes to the current transport |
| `ConnectionClass.Connection.Fail` | packages/client/src/connection.ts:234-240 | the lifecycle ends, then the handshake is rejected if pending, then the owner is told |
| `ConnectionClass.Connection.HandleData` | packages/client/src/connection.ts:143-161 | stale chunks change nothing; data before the transport, or a chunk that does not decode, ends the attempt; otherwise its first message decides: only the expected hello connects, only a later message is delivered, and anything else ends the attempt |
| `ConnectionClass.Connection.HandleMessage` | packages/client/src/connection.ts:163-213 | only the hello of the expected server over a transport connects; once connected other messages are delivered; everything else ends the attempt with its handshake rejected if pending and the owner told |
| `ConnectionClass.Connection.HandleClose` | packages/client/src/connection.ts:215-225 | a close of the current attempt ends it without closing the transport; stale closes change nothing |
| `ConnectionClass.Connection.Resume` | packages/client/src/connection.ts:143-240 | what runs after each callback: a handshake goes on only if its attempt is still current and its callback did not throw, none settles twice, a new attempt survives the rest of an old chunk exactly if it is empty, and once no code is left every attempt asked for its transport and none of an ended one is open |
| `ConnectionClass.Connection.TransportOpened` | packages/client/src/connection.ts:127-140 | the transport goes to its attempt, or is closed |
| `ConnectionClass.Connection.SendFailed` | packages/client/src/connection.ts:112-117 | a late refusal ends the attempt only if its transport is still the current one |
| `ClientRequests.RunKeeps` | packages/client/src/client.ts:238-392 | the pending table is exactly what the server owes, and every request is settled exactly when aborted or out of the table |
| `ClientRequests.OwedMeans` | packages/client/src/client.ts:270-300 | owed: the frame went out and since then no response was taken and nothing was dropped |
| `ClientRequests.ViolationExactlyUnowed` | packages/client/src/client.ts:333-342 | a response is a protocol violation if and only if it is not owed; so never for an aborted request |
| `ClientRequests.SettledExactlyWhenOver` | packages/client/src/client.ts:238-302 | a request is settled exactly when it was aborted or left the table |
| `ClientRequests.OutcomeIsFinal` | packages/client/src/client.ts:238-302 | an outcome never changes |
| `ClientRequests.OutcomeByCause` | packages/client/src/client.ts:238-377 | until it is settled a request is owed an answer; a result resolves it, a server error rejects it, an unreadable result makes it invalid, its abort aborts it, a drop loses it, and nothing else settles it |
| `ClientRequests.OutcomeHasCause` | packages/client/src/client.ts:238-377 | over whole runs: resolved, failed and invalid come only from an owed response of that kind to a request nothing aborted, aborted only from its own abort, lost only from the end of the connection |
| `ClientRequests.CancelAtMostOnceAfterFrame` | packages/client/src/client.ts:252-300 | at most one cancel goes out, and only after the request frame |
| `ClientRequests.AbortedIsCancelledOnce` | packages/client/src/client.ts:252-300 | an aborted request whose frame is out and which is still owed has been cancelled exactly once, whether the abort came before or after its send returned |
| `ClientRequests.LateCancelExactlyWhenOvertaken` | packages/client/src/client.ts:298-300 | a cancel goes out after its request is over if and only if some transport.send was overtaken by both the abort and the end of the request |
| `ClientRequests.QuietTransportNeverCancelsLate` | packages/client/src/client.ts:298-300 | over a transport whose send never calls back, no cancel follows the response or the drop of its request |
| `ClientRequests.CancelAfterResponse` | packages/client/src/client.ts:298-300 | concrete run in which an answered request is cancelled |
| `ClientRequestTable.Client.BeginRequest` | packages/client/src/client.ts:238-298 | up to transport.send: refused exactly when disposed, not connected or aborted beforehand; rejected without an entry if it cannot be encoded; otherwise its frame is out and it is owed an answer |
| `ClientRequestTable.Client.ContinueRequest` | packages/client/src/client.ts:299-301 | after transport.send: marked as sent; if it was aborted meanwhile and is still owed, exactly one cancel is out |
| `ClientRequestTable.Client.TakePendingRequest` | packages/client/src/client.ts:361-368 | the entry leaves the table and its abort listener goes |
| `ClientRequestTable.Client.RejectPendingRequests` | packages/client/src/client.ts:370-377 | the loop rejects every pending request once and empties the table |
| `ClientRequestTable.Client.HandleResponse` | packages/client/src/client.ts:333-342 | a protocol violation exactly when nothing is owed for the id; otherwise a result resolves the request, a server error rejects it and an unreadable result makes it invalid, unless it was settled, and every other request is settled only by a drop |
| `ClientRequestTable.Client.OnAbort` | packages/client/src/client.ts:263-268 | rejects the request as aborted, keeps its entry, and exactly one cancel is out if its frame is |
| `ClientRequestTable.Client.Dispose` | packages/client/src/client.ts:379-392 | once: every request is settled and nothing is owed any more |
| `Subscriptions.RunKeeps` | packages/client/src/client.ts:172-236 | delivered ++ queued ++ queued undecoded is what arrived, whichever of hydration, start and arrivals comes first |
| `Subscriptions.DecodeRunMeans` | packages/client/src/client.ts:200-206 | the n-th update is the n-th message read after the snapshot and all messages before it, up to the first refused one |
| `Subscriptions.DeliveredFaithfully` | packages/client/src/client.ts:313-331 | what the listener got is a prefix of what arrived, decoded in order; once started and run dry it is all of it up to a refused message |
| `Subscriptions.DecoderFedInOrder` | packages/client/src/client.ts:198-206 | the decoder sees the snapshot first and every update at most once, in order of arrival |
| `Subscriptions.RegisteredMeans` | packages/client/src/client.ts:172-236 | every update that comes while registered counts as arrived, and the registration ends exactly with disposal, with the end of the connection or with the first refused message |
| `Subscriptions.OneDeliveryAtATime` | packages/client/src/client.ts:313-331 | deliveries run one after another: the listener is called again only after it has settled |
| `Subscriptions.ActiveServiceListener.HandleUpdate` | packages/client/src/client.ts:313-331 | an update waits undecoded, waits decoded, or is delivered; a refused one ends the registration |
| `Subscriptions.ActiveServiceListener.Hydrate` | packages/client/src/client.ts:198-206 | the snapshot is decoded first and then, in a loop, every update that waited for it, up to the first refused one |
| `Subscriptions.ActiveServiceListener.HandOut` | packages/client/src/client.ts:210-212 | the subscription is handed out exactly if it is still registered |
| `Subscriptions.ActiveServiceListener.StartDelivery` | packages/client/src/client.ts:218-222 | every decoded update that waited is delivered in order, once |
| `PrewalkProtocol.HandOffFollowsItsArm` | packages/byz/src/prewalk.js:97-126 | a hand-off goes to the target of the latest arm, and since that arm there was no other arm, hand-off, cancel, noticed selection or activation of Fast |
| `PrewalkProtocol.HandOffMeetsAllConditions` | packages/byz/src/prewalk.js:97-116 | behind every hand-off stands a result found relevant and trusted while armed, and then inside the workspace, trusted and with the tools as built in, with no other candidate in between |
| `PrewalkProtocol.StepShows` | packages/byz/src/prewalk.js:43-160 | every event shows exactly what it is to show: arms, cancels, hand-offs, losses and the going on and off of Fast, each by its conditions in any state |
| `PrewalkProtocol.ArmsAccountedFor` | packages/byz/src/prewalk.js:43-126 | every arm is handed off, canceled, lost or in force, and only one of these |
| `PrewalkProtocol.ArmLostExactlyDuringSwitch` | packages/byz/src/prewalk.js:113-117 | over whole runs: an accepted arm is lost if and only if it was given while a switch was in flight and was not canceled before that switch ended |
| `PrewalkProtocol.LaterArmIsLost` | packages/byz/src/prewalk.js:113-117 | concrete run in which an arm given during the switch is lost |
| `PrewalkProtocol.SwitchEndLosesLaterArm` | packages/byz/src/prewalk.js:113-117 | the end of a switch leaves Prewalk idle whatever came of it, and an arm is lost there exactly when it is in force |
| `PrewalkProtocol.SelectionEndsArmUnlessInternal` | packages/byz/src/prewalk.js:156-158 | an explicit selection ends an arm exactly when no transition of Fast's own is flagged |
| `PrewalkProtocol.IgnoredSelectionIsHandedOff` | packages/byz/src/fast-session.js:59-60 | concrete run: a selection made while Fast is being switched on goes unnoticed, and the hand-off happens |
| `PrewalkProtocol.ActiveExactlyWithSnapshot` | packages/byz/src/fast-session.js:196-237 | Fast is active exactly when it holds a snapshot, and never while Prewalk is armed |
| `PrewalkProtocol.OffUndoesMatchingOn` | packages/byz/src/fast-session.js:196-237 | with Fast commands one at a time, Fast is never switched on over an earlier snapshot and every off goes back to the snapshot of its on |
| `PrewalkProtocol.OnThenOffRestores` | packages/byz/src/fast-session.js:196-237 | on and off with nothing in between: the off asks for the model and the thinking level there were; the model is back, and the level is too or is where the session puts it when asked; a failed on leaves Fast off without a snapshot |
| `PrewalkClass.Session.Arm` | packages/byz/src/prewalk.js:69-95 | arms with the resolved target unless busy, untrusted, Fast is on, already armed or the tools are replaced |
| `PrewalkClass.Session.ConsiderToolResult` | packages/byz/src/prewalk.js:97-105 | up to the real path: an armed, trusted, relevant result goes on; lost trust cancels |
| `PrewalkClass.Session.ContinueToolResult` | packages/byz/src/prewalk.js:105-116 | from the real path to the switch: the switch begins exactly if the path is in the workspace, the session trusted and armed and the tools as built in; it applies the target of the latest arm, which is consumed and which nothing ended since |
| `PrewalkClass.Session.Resume` | packages/byz/src/fast-session.js:214-236 | what each caller of applyTarget does with its result: hand-off done with Prewalk idle, Fast on with its snapshot, or Fast off |
| `PrewalkClass.Session.Disable` | packages/byz/src/fast-session.js:221-232 | if Fast commands came one at a time, the target is the snapshot of the last on |
| `PrewalkClass.Session.ApplyTarget` | packages/byz/src/fast-session.js:168-194 | up to its first await or its return: it waits for the model exactly if that is another one that can be had, and the flag is up only then; its change of the level is begun in the ledger, or made and owed one excused report unless reported at once |
| `PrewalkClass.Session.ModelWasSet` | packages/byz/src/fast-session.js:116-194 | setModel came back: the change of level begun before it ends, a second one is made if the level is not the one asked for, and each is owed one excused report unless it was reported while it was made |
| `PrewalkClass.Session.ExitForExplicitSelection` | packages/byz/src/fast-session.js:59-67 | an arm ends exactly if the flag is down; otherwise Fast is left with its snapshot dropped, or the listeners are told |
| `PrewalkClass.Session.HandleThinkingSelection` | packages/byz/src/fast-session.js:69-86 | a report is an explicit selection exactly when it is not that of the change in progress on the session's own level and nothing like it is owed for a change of Fast's own; otherwise nothing happens |
| `PrewalkClass.ThinkingLedger.Report` | packages/byz/src/fast-session.js:69-86 | a report counts as the user's exactly when it is not that of the change in progress and nothing like it is still owed |
| `PrewalkClass.ThinkingLedger.FinishTransition` | packages/byz/src/fast-session.js:98-104 | a change that was not reported meanwhile is owed one excused report |
| `PrewalkClass.ThinkingLedger.SetThinkingInternally` | packages/byz/src/fast-session.js:106-114 | a change of the controller's own is never taken for the user's: reported at once it is its own, otherwise exactly one later report of it is owed |

## Left out

- Object identity and cloning of returned values, chunks and frames: values are detached by construction.
- CBOR, schema validation, the service-state decoder and transcript normalisation: a decoder is a function of its
  history, and a server message is what the lifecycle looks at.
- Rounding of large numbers and negative or fractional limits; the safe-integer check of `mintId` is kept.
- The exact look-ups `conversation`, `entry`, `task` and `input` of the store.
- Message array aliasing between a context that `prepareNextTurn` keeps and the loop's own.
- Replacement of the model or the thinking level between turns, timestamps, and the texts of error results beyond
  their kind.
- `handleRunFailure` and listeners or hooks that throw against their contract; observers of connection states
  that throw.
- Retries of providers made without `createProvider`, which may publish anything.
- Tools that never settle, and changes of a queue's mode during a run.
- Credentials, authentication and the network part of a refresh; only what a refresh publishes matters here.
- A store mutated by anything but publications, and an in-memory update that throws.
- Session attachments, service catalogues and disposal of transports inside one client.
- Listener errors of subscriptions, which are reported and do not stop the chain.
- AgentRunLaws.RequestsDeclareTools: speaks of the context handed to `streamAssistantResponse`; what `transformContext`
  and `convertToLlm` (packages/agent/src/agent-loop.ts:346-353) make of it before the model sees it is the caller's.
- AgentRunLaws.TranscriptsAgree: about transcripts and `turn_end` events; what partial messages, tool updates and
  `tool_batch_start` carry is not constrained.
- ModelRefresh.DynamicModelsWereStored: says which catalogs can be shown, not that the latest one is shown.
- ClientRequests.ViolationExactlyUnowed: takes the connection's own guarantee that only the current attempt delivers.
- ClientRequests.RunKeeps: a disconnection drops the pending requests in one step; `#setAttachment` calls the attachment
  listeners just before (packages/client/src/client.ts:347-349), and an abort by one of them is not among the sequences.
- Subscriptions.DeliveredFaithfully: an update counts as delivered when the listener is called, whatever it does
  with it.
- PrewalkProtocol.OffUndoesMatchingOn: says which snapshot an off goes back to; that the level then equals it depends
  on the session's own clamping of levels.
- Sockets, files, processes, timers, the proxy stream, catalogue generation, command-line and terminal code.
