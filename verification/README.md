# Verification model of the Pioneer Square backend

Pioneer Square runs a Foreman: a language model that plans work for a guild,
hands tasks to workers and answers humans. This project models the parts of its
backend whose correctness depends on state carried across many steps, and
proves what those steps keep. `dafny verify dfyconfig.toml` checks everything.

**The Foreman context pipeline.** A run loads the persisted turns of a
conversation, injects the live state into the newest human turn, and then, round
after round, trims the array to the budget, repairs it so that every tool call
is answered by the next message, puts one cache mark on it, sends it, and
appends the reply and the tool results to the array and to the log.
`Messages` is the message and its estimated size; `ContextBudget`,
`OrphanRepair` and `CacheMarks` are the three edits; `ConversationHistory` is
the two-query read and `LegacyWindows` the older read by human turns;
`ForemanRun` is the round loop. The results: the fast read equals the full read
followed by trimming; the repair accepts exactly the arrays the provider
accepts, fixes all others, and says what they say from their first usable
message on (`RepairedSpeech`); every request of every run is acceptable; the
array in memory agrees with the log; the human's words are in the first request
whatever the budget, and in every later one until a cut reaches them, after
which every request is empty (`ForemanRunProperties`, `RoundAgreement`,
`MemoryAgreement`, `HumanIsHeard`, `HumanStaysHeard`, `EmptyRequests`).
`RepairReading`, `RunLog` and `MessageText` read the repair, the log and the
sizes off their inputs.

**Translation to the OpenAI chat shape.** `OpenAiTranslation` is both
directions, `OpenAiPairing` says exactly when calls stay answered,
`OpenAiContent` what text and tool traffic survives, and `OpenAiRequests`
composes this with the round loop: over any series of runs, every request
translates to a chat with all calls answered.

**The run lock and the human queue.** `HumanQueue` is the bounded queue and its
closed form. `RunProtocol` is `run_foreman_ai` as a state machine whose steps
are the stretches between awaits, and `RunProtocolProperties` proves, for every
interleaving of any number of invocations, one run per key, first come first
served, and a single fate for every arrival; `RunProtocolReading` says of each
step who starts and who waits.

**Tasks and locks.** `LockService` is the lock table with an integer clock.
`TaskLifecycle` is finalization, the bounded descendant query and the closing of
an issue. `FinalizeRace` splits finalization into read, conditional update and
broadcast and lets any number of callers race. `TaskMachine` and
`TaskMachineProperties` put the websocket handlers, the watchdog, finalization
and follow-up claims into one machine; `TaskRows` says what each step does to
each row, and `FollowupQueue` follows the follow-ups queued behind a lock.

**Linkage, streams and settings.** `TaskLinkage` and `TaskLinkageProperties`
are the propagation fixpoint over parent links. `StreamFormat`, `StreamBuffer`
(with `StreamBufferProperties`) and `Chunking` take a terminal line to a drained
batch and its messages, whose text `StreamReading` reads off the entries;
`StreamPosts` gives each batch the coroutine that posts
it, and `PostOrder` and `PostDelivery` prove when the thread shows the stream:
in order and complete exactly if no post fails and none overtakes another.
`SpawnConfig` is the layered merge of spawn settings. `Sequences`, `Strings`,
`Iteration` and `Options` are helpers.

## How the model is set up

- Code that changes state step by step is a class or a method with loops, and
  its contract equates the new state with a specification function; the lemmas
  are about those functions. A table of the database is a map or a sequence.
- JSON text is abstract. `Sizes` gives the length of the JSON of a string and of
  one block, and the lengths of lists and messages are built from those as
  `json.dumps` builds them. The two length parameters are arbitrary.
- The model, the tools, the clock, generated identifiers and JSON reading and
  writing are parameters: arbitrary functions of what they are given.
- A step of a concurrent protocol is what runs between two awaits, or one
  committed transaction.
- Lemmas named `...ReadsOff` tie a specification function to its inputs in terms
  of their fields, blocks and rows, without the functions it is built from.

## Where the documentation and the code part ways

The model follows the code.

- `prune_history` promises "at most max_messages"; with a window of 0 it keeps
  everything (`PruneKeepsAtMostMax` is an if-and-only-if).
- `_load_turns` says that its legacy cutoff always lands on a human turn; with
  fewer than three human turns in reach it is 0. `WindowStartsAtHuman` is the
  exact condition, `FetchCanSplitPair` a log of 102 rows whose window starts at
  tool results, and `WindowKeepsPairs` says when the loaded turns need no repair.
- `truncate_tool_result` caps a result at 32 000 characters and then adds a
  notice, so the outcome is longer than the cap.
- `is_locked` and `acquire` are not complements: at the instant of expiry a key
  is neither locked nor free (`ExpiryInstant`).
- The comment in `flush_group` says that turn numbers may skip; they never do
  (`TurnsAreConsecutive`, `TurnsRunOn`).
- The linkage fixpoint is meant to stop "when stable". A staged issue number 0
  reads as unset and cannot be replaced, so next to a linked task the loop runs
  forever; `LoopStopsUnlessZeroIsReached` is the exact condition and
  `IssueZeroHangs` an instance.
- A worker's `task-update` with a non-terminal state reopens an ended task and
  keeps the lock of a task it takes out of `working` (`EndedTaskMoves`,
  `LeavingWorkFreesTheLock`).
- A follow-up refused because its task is locked is told that its instructions go
  to the Foreman when the current one completes. They are queued in a second
  transaction; `FollowupIsTold` is the exact condition for a hand-over to include
  them, and `LateFollowupWaits` a run in which they are left waiting though
  nobody holds the lock.
- `finalize_task` promises one winner; that needs terminal outcomes
  (`OpenOutcomeLetsTwoWin`).
- The descendant query is bounded at 20 links, so it is not the full closure it
  stands for; `FullClosure` is the exact condition and `DeepTaskIsMissed` the
  chain of 21 that shows it.
- Fitting and then repairing can leave an empty array, because tool results
  cannot open one. `SomethingIsSent` is the exact condition for one array and
  `HeardOrEmpty` for every request of every run. With the code's own limits: a
  run without a conversation keeps the human's words for ten requests, and then
  sends its wrap-up empty if and only if each of the first nine replies said
  something or had a call answered (`TenRequestsAreHeard`, `WrapUpIsEmpty`); in a
  conversation, fifteen parallel results of full length empty the next request
  (`NothingIsSent`, `OversizedRoundEndsSending`, `FifteenLongResults`); and a run
  that has sent nothing once sends nothing more (`EmptyStaysEmpty`).
- The drain of a stream buffer holds a lock, but the lock is released before the
  batch is posted. Two batches of one task can be under way at once, and then the
  later one can be shown first (`LaterBatchFirst`); a failed post loses its
  messages. `OrderIffUnharmed` is the exact condition for the thread to be in
  order.

## Model

| member | source | states |
|---|---|---|
| ContextBudget.FitTokenBudget | backend/foreman/message_utils.py:61-99 | the loop keeps the budgeted suffix, from its first user message on |
| ContextBudget.PruneHistory | backend/foreman/message_utils.py:38-44 | the message-count window, from its first user message on; a window of 0 keeps all |
| ContextBudget.WindowReadsOff | backend/foreman/message_utils.py:38-44 | the window is the end of the array, of the length that Python's slice gives for positive, zero and negative sizes |
| ContextBudget.PruneKeepsAtMostMax | backend/foreman/message_utils.py:38-44 | at most max messages are kept if and only if the window is positive or there is no user message to keep |
| ContextBudget.CutIsOptimal | backend/foreman/message_utils.py:78-88 | no longer suffix than the one kept fits the budget, unless it is the newest message alone |
| ContextBudget.CutIsUnique | backend/foreman/message_utils.py:82-86 | a suffix that fits, and whose next longer one does not, is the one the loop finds |
| ContextBudget.FitResult | backend/foreman/message_utils.py:61-99 | the result is a suffix, empty or headed by a user message, within budget unless it is one message |
| ContextBudget.FitIsIdempotent | backend/foreman/message_utils.py:61-99 | fitting twice is fitting once |
| ContextBudget.FitIsMonotone | backend/foreman/message_utils.py:61-99 | a larger budget keeps at least what a smaller one keeps |
| ContextBudget.CutIgnoresWhatItDrops | backend/foreman/message_utils.py:82-86 | messages that would be dropped can be left out beforehand |
| MessageText.TokensReadOff | backend/foreman/message_utils.py:57-58 | a message costs a quarter of the length of its JSON text, rounded down, and an array the sum of its messages |
| OrphanRepair.StripOrphanedToolResults | backend/foreman/message_utils.py:102-190 | the two in-place loops compute the local repair against the original neighbours and then the head trim |
| OrphanRepair.PruneUnpaired | backend/foreman/message_utils.py:109-169 | popping and rewriting while scanning equals repairing each message against its neighbours in the input |
| OrphanRepair.PopUnusableHead | backend/foreman/message_utils.py:175-190 | the head loop ends at a user message with something besides tool results |
| OrphanRepair.RepairedIsWellFormed | backend/foreman/message_utils.py:102-190 | for every input, the result is empty or user-headed, and each message answers exactly the calls of the one before |
| OrphanRepair.RepairedIffWellFormed | backend/foreman/message_utils.py:102-190 | the repair is the identity exactly on well-formed arrays |
| OrphanRepair.RepairIsIdempotent | backend/foreman/message_utils.py:102-190 | repairing twice is repairing once |
| RepairReading.RepairReadsOff | backend/foreman/message_utils.py:102-190 | exactly the blocks whose partner is missing from the neighbour go, messages that lose all their blocks go, and the array starts at its first user message with something besides tool results, without those |
| RepairedSpeech.RepairKeepsSpeech | backend/foreman/message_utils.py:171-190 | only an unusable head loses anything but tool blocks: what is said afterwards is a suffix of what was said, and all of it if the head says something |
| RepairedSpeech.RepairedSaysFromFirstOpener | backend/foreman/message_utils.py:102-190 | what a repaired array says is what the array says from its first user message with something besides tool results on, and it is empty if and only if there is no such message |
| CacheMarks.MessageArray.InjectStatePreamble | backend/foreman/message_utils.py:193-207 | the state block goes in front of the last message's content when that is a user's, and nothing else changes |
| CacheMarks.MessageArray.StampCacheBreakpoint | backend/foreman/message_utils.py:210-236 | all marks are cleared and the last block that can carry one gets it |
| CacheMarks.MessageArray.ClearMarks | backend/foreman/message_utils.py:217-222 | no message keeps a mark and nothing else changes |
| CacheMarks.StampLeavesOneMark | backend/foreman/message_utils.py:210-236 | after stamping any array has at most one mark, and exactly one if its last message can carry it |
| CacheMarks.StampKeepsContent | backend/foreman/message_utils.py:210-236 | stamping changes only marks and the spelling of a plain text |
| CacheMarks.MarkIsOnLastBlock | backend/foreman/message_utils.py:217-236 | a block is marked if and only if it is the last of the last message that can carry a mark |
| CacheMarks.StampKeepsWellFormed | backend/foreman/message_utils.py:210-236 | stamping an acceptable array leaves it acceptable |
| CacheMarks.InjectKeepsWellFormed | backend/foreman/message_utils.py:193-207 | injecting the state leaves an acceptable array acceptable |
| CacheMarks.InjectReadsOff | backend/foreman/message_utils.py:193-207 | the live state becomes the first block of a last user message, before what that had, and nothing else changes |
| ConversationHistory.FetchConversationTurns | backend/foreman/history.py:82-148 | the size scan and the second query return the rows from the oldest that can still fit |
| ConversationHistory.OldestThatFits | backend/foreman/history.py:114-128 | the scan finds the row where the next older one would overflow a non-empty reading |
| ConversationHistory.LoadConversation | backend/foreman/history.py:208-232 | the prefetched load returns what reading every row and trimming returns, for ordered logs of at most the row ceiling or cut to it |
| RunLog.LoadReadsOff | backend/foreman/history.py:208-232 | a conversation loads its newest 2000 rows without audit rows, fitted to the budget; a run without one loads the window over its owner's newest rows |
| RunLog.QueriesReadOff | backend/foreman/history.py:99-148 | the queries keep the rows of one conversation or owner, in order, and audit rows are no messages |
| ConversationHistory.CeilingIsHarmless | backend/foreman/history.py:99-109 | the row ceiling changes nothing either when the rows within it already overflow the budget |
| ConversationHistory.CeilingCuts | backend/foreman/history.py:99-109 | the row ceiling changes what is loaded if and only if a user message beyond it would have fitted the budget with all that follows |
| ConversationHistory.PrefetchLosesNothing | backend/foreman/history.py:99-148 | prefetching by raw characters and then trimming by tokens equals trimming the last rows, despite per-message rounding and skipped audit rows |
| ConversationHistory.EarlyStopIsHarmless | backend/foreman/history.py:119-128 | where the scan stops, the rows left behind would have been trimmed anyway |
| ConversationHistory.TokensCoverChars | backend/foreman/message_utils.py:57-58 | the characters of any rows are at most four times their token estimate, despite rounding down per message |
| ConversationHistory.PrefetchReadsNoMoreThanFits | backend/foreman/history.py:119-128 | the rows read hold no more characters than the budget unless a single row does |
| ConversationHistory.LegacyWindow | backend/foreman/history.py:178-206 | the backward scan cuts at the third human turn from the end, or not at all |
| LegacyWindows.WindowStartsAtHuman | backend/foreman/history.py:165-171 | the window starts at a human turn if and only if three are in reach or the oldest row read is one |
| LegacyWindows.WindowKeepsPairs | backend/foreman/history.py:150-232 | of any log whose calls are answered, the window and the array loaded from it are paired if and only if they do not start at an answer, wherever the fetch limit cuts |
| LegacyWindows.EnoughTurnsKeepPairs | backend/foreman/history.py:165-171 | with three human turns in reach that answer no calls, the array loaded is the whole window and is paired |
| LegacyWindows.FetchCanSplitPair | backend/foreman/history.py:168-171 | a paired log of 102 rows whose window starts at tool results, because the fetch limit cut their call off |
| ForemanRun.Run.Execute | backend/foreman/run.py:101-144 | a run appends the audit and human turns, loads, injects, does rounds up to the cap and a forced wrap-up, as the specification says of log and requests |
| ForemanRun.Run.LoadAndInject | backend/foreman/run.py:116-119 | the array sent first is the loaded history with the live state injected |
| ForemanRun.Run.OneRound | backend/foreman/run.py:159-239 | one round sends the trimmed, repaired, stamped array and extends array and log by the reply and the kept results |
| ForemanRun.Run.PrepareRequest | backend/foreman/run.py:167-169 | fit, repair and stamp, in that order |
| RunLog.RoundReadsOff | backend/foreman/run.py:159-239 | the model's reply to the request sent becomes a row and a message, the answers of the tools to its calls another, and a round follows exactly if it calls tools |
| RunLog.RunWrites | backend/foreman/run.py:112-144 | a run keeps the log and appends under consecutive ids the audit prompt, the human's message, and then only replies and tool responses, marked as such |
| RunLog.RunAddsOneHumanTurn | backend/foreman/runner.py:555-587 | so it adds exactly one turn that counts as human |
| ForemanRun.Run.AppendTurn | backend/foreman/runner.py:555-587 | a saved turn goes to the end of the log under the next id |
| ForemanRun.Run.CollectToolUses | backend/foreman/run.py:192-198 | the tool calls of a reply, in order |
| ForemanRun.Run.FilterResults | backend/foreman/run.py:215-223 | only results of the current calls are kept, long ones cut |
| ForemanRun.KeptResults | backend/foreman/run.py:213-223 | every result kept answers a call of this round |
| ForemanRun.ResultsAreKept | backend/foreman/run.py:213-223 | exactly the results of the current calls are kept, each once, in order, each cut on its own |
| ForemanRun.TruncationKeepsPrefix | backend/foreman/message_utils.py:30-35 | a cut result is its first characters and a notice whose number reads as the count of missing ones; within the cap exactly if nothing was cut |
| ForemanRunProperties.RepairIsShorter | backend/foreman/message_utils.py:102-190 | repairing never makes an array longer or costlier |
| ForemanRunProperties.TrimmedIsWithinLimit | backend/foreman/run.py:146-168 | what is about to be stamped is well formed and within the limit of its run |
| ForemanRunProperties.EveryRequestIsAcceptable | backend/foreman/run.py:121-144 | whatever the log, the model and the tools, every request is well formed, within the limit before its mark, has at most one mark, and there are at most max(max_rounds, 0) + 1 |
| MemoryAgreement.MemoryAgreesWithLog | backend/foreman/run.py:185-190 | in a conversation run where nothing is trimmed and calls are answered, the array in memory equals the reloaded log up to the state block and the mark |
| MemoryAgreement.FreshConversationAgrees | backend/foreman/run.py:112-134 | in particular after the first run of a conversation whose model calls no tools, for any budget and cap |
| MemoryAgreement.RoundsKeepAgreement | backend/foreman/run.py:121-126 | after any number of rounds memory and log agree |
| RoundAgreement.RoundKeepsAgreement | backend/foreman/run.py:213-239 | each such round keeps the agreement |
| HumanIsHeard.SomethingIsSent | backend/foreman/run.py:167-168 | the trimmed array is non-empty if and only if a user message with something besides tool results survives the cut |
| HumanIsHeard.NothingIsSent | backend/foreman/run.py:146-168 | in a conversation, whatever the budget, a final call and answer that together exceed it leave only the answer, and nothing if that is all tool results |
| HumanIsHeard.UtteranceIsSent | backend/foreman/run.py:167-168 | what the newest message says is sent last whenever it is a user message with something besides tool results, and the whole message if it answers nothing |
| HumanIsHeard.HumanIsAlwaysHeard | backend/foreman/run.py:114-123 | the first request of every run ends in the live state and the human's own words |
| HumanStaysHeard.HeardOrEmpty | backend/foreman/run.py:121-168 | every request of every run carries the human turn, with what the rounds have left behind it, exactly as long as no cut has reached it, and is empty from then on |
| EmptyRequests.EmptyBeyondWindow | backend/foreman/run.py:146-168 | without a conversation a request is empty if and only if the rounds before have left a full window of messages behind the human turn |
| EmptyRequests.TenRequestsAreHeard | backend/foreman/run.py:121-125 | without a conversation the first ten requests all carry the human's words |
| EmptyRequests.EleventhRequest | backend/foreman/run.py:121-168 | without a conversation, whatever the cap, the eleventh request is empty if and only if each of the first nine replies said something or had a call answered |
| EmptyRequests.WrapUpIsEmpty | backend/foreman/run.py:128-144 | a run without a conversation that uses up its ten rounds sends its wrap-up empty if and only if each of the first nine replies said something or had a call answered |
| EmptyRequests.AnsweredRunEndsEmpty | backend/foreman/run.py:128-144 | in particular if every call of the ten rounds is answered |
| EmptyRequests.EmptyStaysEmpty | backend/foreman/run.py:121-144 | a run that has sent nothing once sends nothing more |
| EmptyRequests.OversizedRoundEndsSending | backend/foreman/run.py:159-239 | in a conversation a round whose reply and results exceed the budget by themselves is followed by an empty request |
| EmptyRequests.FifteenLongResults | backend/foreman/constants.py:6-29 | at the real budget fifteen parallel results of full length are enough for that |
| OpenAiTranslation.AnthropicMessagesToOpenAi | backend/foreman/llm.py:579-650 | the conversion loop produces the system message and each message's translation in turn |
| OpenAiTranslation.ConvertCalls | backend/foreman/llm.py:603-616 | one call per tool_use block, in order, under its id or a made-up one |
| OpenAiTranslation.ConvertUserBlocks | backend/foreman/llm.py:626-646 | results become tool messages and the text between them user messages |
| OpenAiTranslation.OpenAiResponseToAnthropic | backend/foreman/llm.py:653-671 | a reply becomes an assistant message of its text and its calls |
| OpenAiPairing.TranslationKeepsPairing | backend/foreman/llm.py:587-650 | a paired conversation becomes a chat in which every assistant message is directly followed by tool messages answering exactly its calls, if and only if results lead each user message and no call has an empty id |
| OpenAiPairing.AnswersFirst | backend/foreman/llm.py:626-646 | without text before a result, the tool messages come first and one user message with the text follows |
| OpenAiPairing.CallsKeepIds | backend/foreman/llm.py:609-610 | the ids asked are those of the blocks exactly when every block has one |
| OpenAiContent.TrafficIsKept | backend/foreman/llm.py:592-646 | every call block, with its id if it has one, its name and its arguments, and every result goes out once, in order, for every conversation |
| OpenAiContent.TextIsKept | backend/foreman/llm.py:533-549 | the chat says the texts of the system prompt and of the messages, read off their blocks: the same non-empty ones in the same order |
| OpenAiContent.EachMessageKeepsRoleAndText | backend/foreman/llm.py:587-650 | each message becomes a part in its role with its texts, read off its blocks, in order; all but a user's blocks become one message |
| OpenAiContent.SystemIsSaidFirst | backend/foreman/llm.py:587-590 | the chat starts with the system prompt's texts as one message, or with none if there are none, and the parts of the messages follow |
| OpenAiContent.TextStaysBetweenResults | backend/foreman/llm.py:626-646 | a user's text between two results is one message between their tool messages |
| OpenAiContent.ReplyReadsOff | backend/foreman/llm.py:653-671 | a reply is read as its text, if any, and one call each with its arguments parsed, under a made-up id where it has none |
| OpenAiContent.ReplyRoundTrip | backend/foreman/llm.py:656-671 | a reply with identified calls, sent back, has its text and calls as received, the arguments re-serialized |
| OpenAiRequests.EveryRequestTranslates | backend/foreman/llm.py:724-728 | over any series of runs from an empty log, if models name their calls, every request translates to a chat with all calls answered |
| OpenAiRequests.RunIsTidy | backend/foreman/run.py:185-238 | a run keeps log, array and requests free of messages that mix tool results with other blocks |
| HumanQueue.Queue.EnqueueHumanTurn | backend/foreman/runner.py:1348-1382 | the queue and the dropped turn are those of the specification |
| HumanQueue.Queue.OldestGitHub | backend/foreman/runner.py:1350 | the position of the first GitHub turn |
| HumanQueue.QueueClosedForm | backend/foreman/runner.py:1348-1382 | after any arrivals the queue is the last min(h, max) human and the last min(g, max - min(h, max)) GitHub turns, in arrival order |
| HumanQueue.GitHubNeverEvictsHumans | backend/foreman/runner.py:1343-1346 | the human turns kept are those kept had no GitHub work come |
| HumanQueue.EnqueueDropsOne | backend/foreman/runner.py:1349-1369 | a full queue drops exactly one turn, a human one only for another human in an all-human queue |
| HumanQueue.EnqueueTakesOneOut | backend/foreman/runner.py:1349-1369 | a full queue afterwards is the old one and the newcomer with the dropped turn taken out, order kept |
| RunProtocol.Runner.RunForemanAi | backend/foreman/runner.py:1283-1303 | an invocation claims a free key, queues a human or GitHub turn on a busy one, and discards an automated one |
| RunProtocol.Runner.RunReturns | backend/foreman/runner.py:1316-1328 | the end of a run goes on with the drain, or with the notice of a failed queued turn |
| RunProtocol.Runner.NoticeReturns | backend/foreman/runner.py:1434-1440 | after the notice the drain goes on |
| RunProtocol.Runner.DrainHumanQueue | backend/foreman/runner.py:1405-1443 | the next pending turn starts, or a fresh snapshot is taken, or the key is released |
| RunProtocolReading.FreeKeyReadsOff | backend/foreman/runner.py:1283-1304 | an arrival on a free key starts at once and nothing else changes |
| RunProtocolReading.BusyKeyReadsOff | backend/foreman/runner.py:1285-1303 | on a busy key an automated arrival is discarded and any other joins the queue, of which one turn goes only when fifty wait |
| RunProtocolReading.ReturnReadsOff | backend/foreman/runner.py:1405-1443 | a failed queued turn goes on to its notice with the same line; otherwise the first in line starts or the key is given up |
| RunProtocolReading.NoticeReadsOff | backend/foreman/runner.py:1434-1443 | after the notice the first in line starts or the key is given up |
| RunProtocolProperties.RunKeepsInvariant | backend/foreman/runner.py:1283-1328 | the protocol's invariant holds after every interleaving |
| RunProtocolProperties.OneRunPerKey | backend/foreman/runner.py:1283-1304 | at most one invocation of a key is under way |
| RunProtocolProperties.NoTurnIsStranded | backend/foreman/runner.py:1316-1328 | a non-empty queue implies a busy key with a live owner |
| RunProtocolProperties.FirstComeFirstServed | backend/foreman/runner.py:1391-1443 | the runs of a key start in arrival order |
| RunProtocolProperties.EveryArrivalHasOneFate | backend/foreman/runner.py:1285-1303 | every arrival is finished, running, waiting, pushed out or discarded, exactly one of these, and only automated ones are discarded |
| RunProtocolProperties.IdleMeansServed | backend/foreman/runner.py:1326-1328 | when a key is idle nothing that came for it is still owed a run |
| LockService.Service.Acquire | backend/lock_service.py:30-56 | granted exactly when there is no row or an expired one, and then the row is the caller's |
| LockService.Service.Release | backend/lock_service.py:58-64 | the row goes if the caller may release it |
| LockService.Service.IsLocked | backend/lock_service.py:66-75 | true exactly for a row without expiry or with one in the future |
| LockService.Service.CleanupExpired | backend/lock_service.py:77-84 | exactly the expired rows go, and their number is returned |
| LockService.OperationReadsOff | backend/lock_service.py:30-84 | what an acquire, a release by anyone or by a named owner, and a clean-up do to each row |
| LockService.ExpiryInstant | backend/lock_service.py:36-75 | locked and acquirable exclude each other, and both fail exactly at the instant of expiry |
| LockService.TwoGrantsAreSeparated | backend/lock_service.py:30-64 | over any operations, two grants of a key have a release by or for the holder, or an expiry, between them |
| TaskLifecycle.DescendantsAreAncestry | backend/task_lifecycle.py:61-83 | the recursive query returns exactly the tasks 1 to 20 parent links below the root, on cyclic data too |
| TaskLifecycle.FullClosure | backend/task_lifecycle.py:67-83 | on any table the query returns every descendant if and only if each has a chain of at most 20 links to the root |
| TaskLifecycle.FewDescendantsAreFound | backend/task_lifecycle.py:67-83 | a root with at most 20 descendants has them all returned, whatever else the table holds |
| TaskLifecycle.DeepTaskIsMissed | backend/task_lifecycle.py:67-83 | the last of a chain of 21 tasks below the root is not returned |
| TaskLifecycle.Store.CascadeSoftDelete | backend/task_lifecycle.py:86-104 | exactly the finished, unstamped tasks among the given ones are stamped and reported |
| TaskLifecycle.Store.FinalizeTask | backend/task_lifecycle.py:107-183 | run alone, a finalize makes the transition with all that trails it, or changes nothing |
| TaskLifecycle.FinalizeReadsOff | backend/task_lifecycle.py:125-172 | what a finalize does to each row: outcome and stamp of the task, stamps of an issue row's finished descendants, by their fields |
| TaskLifecycle.FinalizeFreesAndTells | backend/task_lifecycle.py:145-183 | it frees the task's lock, purges its events and makes its two broadcasts, or changes nothing |
| TaskLifecycle.Store.FinalizeRoots | backend/task_lifecycle.py:210-218 | finalizing the open roots in any order gives the same tasks, frees their locks, purges their events, and broadcasts exactly the two notices of each root |
| TaskLifecycle.Store.FinalizeClosedIssue | backend/task_lifecycle.py:186-239 | the tasks afterwards and the ids reported are those of the closed form, the roots' locks and queued events are gone, and exactly their notices were broadcast |
| TaskLifecycle.ClosingReadsOff | backend/task_lifecycle.py:199-239 | what closing an issue does to each row and which rows it reports, by guild, repository, number, phase and state |
| TaskLifecycle.OtherIssuesAreSpared | backend/task_lifecycle.py:199-203 | a row of another guild, repository or number is not reported and keeps its state, and is stamped only below an open row of the issue |
| TaskLifecycle.OneMoreRoot | backend/task_lifecycle.py:208-218 | finalizing one more root extends the closed form by that root |
| TaskLifecycle.LinkedTasksAreSwept | backend/task_lifecycle.py:220-223 | every finished task linked to the issue is soft-deleted and no root stays open |
| TaskLifecycle.OpenWorkIsNotForced | backend/task_lifecycle.py:195-201 | only open roots change state; open work is left exactly as it is |
| TaskLifecycle.ClosingTwice | backend/task_lifecycle.py:186-239 | a second call reports and changes nothing |
| TaskLifecycle.StampsAreKept | backend/task_lifecycle.py:97-103 | a task already stamped is not stamped again |
| FinalizeRace.FirstFinalizerWins | backend/task_lifecycle.py:145-158 | of any number of racing callers exactly one returns finalized, the others already_terminal, and the task has the winner's outcome |
| FinalizeRace.OnlyTheWinnerWrites | backend/task_lifecycle.py:155-183 | only one caller of a task ever changes the database or broadcasts |
| FinalizeRace.EndIsBroadcastOnce | backend/task_lifecycle.py:174-183 | over any run the end of the task is broadcast once if some caller has returned finalized, and not at all before that |
| FinalizeRace.OpenOutcomeLetsTwoWin | backend/task_lifecycle.py:145-158 | of two callers in sequence the second wins too exactly when the first's outcome is not terminal |
| FinalizeRace.RaceInvariant | backend/task_lifecycle.py:118-123 | at every point the task has ended exactly when someone has won, with that caller's outcome |
| FinalizeRace.AloneIsFinalize | backend/task_lifecycle.py:107-183 | a caller that nobody comes between does what the finalize in one piece does |
| TaskMachine.Handlers.HandleAgentState | backend/ws_handlers.py:445-501 | the agent row takes state, task and activity, and the task it drops goes back to review with its lock released |
| TaskMachine.Handlers.HandleTaskRejected | backend/ws_handlers.py:761-799 | a valid rejection unassigns the task and frees its lock, any other changes nothing |
| TaskMachine.Handlers.HandleTaskUpdate | backend/ws_handlers.py:829-886 | a non-terminal report is written as is with its columns, a terminal one writes the columns and goes through finalize_task, and an error hands back what was queued |
| TaskMachine.Handlers.HandleTaskComplete | backend/ws_handlers.py:978-1016 | a working task moves to its next state and the lock is freed whatever the state |
| TaskMachine.Handlers.HandleTaskFollowupDone | backend/ws_handlers.py:1064-1101 | a task that has not ended moves to its next state and the lock is freed |
| TaskMachine.Handlers.HandOverFollowups | backend/ws_handlers.py:1113-1127 | the second transaction takes the follow-ups queued for the task, in order, and removes exactly those |
| TaskMachine.Handlers.SweepExpiredLocks | backend/main.py:230-234 | exactly the expired locks go |
| TaskMachine.Handlers.SweepStaleTasks | backend/main.py:236-281 | exactly the orphaned working tasks go back to review with their locks released |
| TaskMachine.Handlers.ClaimFollowup | backend/foreman/tools.py:2213-2214 | a follow-up is granted the task's lock exactly if it is acquirable, and then holds it |
| TaskMachine.Handlers.QueueForLater | backend/foreman/tools.py:2215-2235 | in a second transaction a refused follow-up goes to the end of the task's queue |
| FollowupQueue.FollowupsAreConserved | backend/foreman/tools.py:2217-2235 | over any run, the follow-ups of a task handed over or discarded at its end, then those still queued, are those queued at the start and since, each once, in order |
| FollowupQueue.QueueIsPending | backend/foreman/tools.py:2217-2235 | over any run a task's queue is what it held at the start, until emptied, then what was queued since it was last emptied, in order |
| FollowupQueue.WaitsUntilEmptied | backend/foreman/tools.py:2217-2235 | a follow-up waits if and only if it was queued and no step since has handed the queue over or ended the task |
| FollowupQueue.QueueIsNotEmpty | backend/foreman/tools.py:2217-2235 | a queue is non-empty if and only if something found at the start or queued since has not been emptied out |
| FollowupQueue.FollowupIsTold | backend/ws_handlers.py:1113-1127 | a hand-over or an error report tells the Foreman of a follow-up if and only if that was queued before it and the queue not emptied in between; for the next hand-over, if and only if queued before it with the task not ended in between |
| FollowupQueue.FollowupLeavesOnce | backend/ws_handlers.py:1113-1127 | every queued follow-up waits until one step empties the queue, and never after |
| FollowupQueue.LateFollowupWaits | backend/foreman/tools.py:2215-2240 | a refused follow-up whose second transaction comes after the current one has ended and handed its queue over waits with nobody holding the lock |
| TaskMachineProperties.StepStates | backend/ws_handlers.py:489-1098 | what each step does to the state of each task, by fields and reported states; a finished run leads to human review if that was reported, or if there is a pull request and no review state |
| TaskRows.StepRows | backend/ws_handlers.py:445-1098 | what each step does to every column of every task row, and that no step adds or removes a task |
| TaskRows.AgentReadsOff | backend/ws_handlers.py:450-484 | an agent's row changes only by its own report from its guild: state, activity and task, cleared when idle or offline |
| TaskRows.ClaimReadsOff | backend/foreman/tools.py:2213-2214 | a claim leaves a lock in force and takes a free one for half an hour |
| TaskRows.EventsReadOff | backend/ws_handlers.py:1113-1127 | a hand-over takes exactly the task's pending follow-ups, and a refused one adds its own |
| TaskMachineProperties.EndedTaskMoves | backend/ws_handlers.py:862-871 | an ended task changes state if and only if a non-terminal task-update or a dispatch hits it |
| TaskMachineProperties.EndedTasksStayEnded | backend/task_lifecycle.py:145-157 | over any run without those two, an ended task keeps its state |
| TaskMachineProperties.StepLocks | backend/ws_handlers.py:500-1098 | a step takes a task's lock row away exactly when it gives it up, and leaves it as it is otherwise |
| TaskMachineProperties.LeavingWorkFreesTheLock | backend/ws_handlers.py:489-501 | a step that takes a task out of working leaves its lock free, except a non-terminal task-update, which keeps it exactly if it was held |
| TaskMachineProperties.WorkEndsUnlocked | backend/ws_handlers.py:434-442 | over any run without non-terminal reports for it, a task that stopped working had its lock free right after |
| TaskMachineProperties.ClaimsAreSeparated | backend/foreman/tools.py:2210-2235 | between two granted follow-up claims of a task some step gave the first claim's lock up |
| TaskLinkage.Propagate | scripts/backfill_task_linkage.py:113-129 | the loop ends, after some number of passes, in a state where a pass changes nothing |
| TaskLinkage.VisitAll | scripts/backfill_task_linkage.py:117-129 | one pass, which links a task whenever it reports a change |
| TaskLinkage.VisitTask | scripts/backfill_task_linkage.py:118-129 | parent to task, then task to parent |
| TaskLinkageProperties.LoopStopsUnlessZeroIsReached | scripts/backfill_task_linkage.py:113-129 | the loop stops if and only if no task with a staged 0 has a neighbour connected over open tasks to a linked one |
| TaskLinkageProperties.LinkedIffReached | scripts/backfill_task_linkage.py:116-129 | when it stops the linked tasks are exactly those reached from a linked one over open tasks |
| TaskLinkageProperties.ComponentsAreWhole | scripts/backfill_task_linkage.py:113-129 | without zero issue numbers it stops with every connected component wholly linked or wholly not, cycles included |
| TaskLinkageProperties.LinkComesFromComponent | scripts/backfill_task_linkage.py:122-128 | every number in force comes from a task joined by parent links, and with its repository when no repository stood alone |
| TaskLinkageProperties.NothingIsOverwritten | scripts/backfill_task_linkage.py:61-68 | no stored or staged value is ever replaced, even if the loop never stops |
| TaskLinkageProperties.ForceReadsOff | scripts/backfill_task_linkage.py:67-68 | a staged value is in force unless it is 0 or empty, and the stored one otherwise |
| TaskLinkageProperties.AdjacencyReadsOff | scripts/backfill_task_linkage.py:118-121 | tasks are adjacent if one names the other, of the same guild, as its parent |
| TaskLinkageProperties.IssueZeroHangs | scripts/backfill_task_linkage.py:66-68 | a sub-task with a staged 0 under a linked parent keeps the loop going forever |
| StreamFormat.FormatStreamEntries | backend/discord_notifier.py:1233-1297 | the loop computes the text of the specified lines and the turn number to carry |
| StreamReading.TextReadsOff | backend/discord_notifier.py:1233-1297 | the text read off the entries: ordinary lines, the line of a run's only call, and for more calls the turn's number and each tool with its count in order of first call |
| StreamReading.RunReads | backend/discord_notifier.py:1255-1287 | what one run adds to the text and to the turn number |
| StreamFormat.FlushGroup | backend/discord_notifier.py:1255-1287 | a run with at most one call passes its call line, a longer one becomes a numbered summary |
| StreamFormat.BatchesAgreeWithOneShot | backend/discord_notifier.py:1247-1249 | two batches read like one exactly when the cut does not have calls of one run on both sides |
| StreamFormat.OrdinaryLinesSurvive | backend/discord_notifier.py:1289-1295 | over any batches all ordinary lines survive unchanged and in order |
| StreamFormat.TurnsAreConsecutive | backend/discord_notifier.py:1284-1286 | over any batches summaries are numbered without gap or repeat |
| StreamFormat.ToolCallsAreConserved | backend/discord_notifier.py:1259-1286 | over any batches every call of every tool is shown or counted once |
| StreamFormat.SummaryAddsUp | backend/discord_notifier.py:1260-1268 | a summary names each tool once, in order of first call, and its counts add up |
| StreamBuffer.StreamHub.NotifyTaskStream | backend/discord_notifier.py:1354-1389 | an accepted line is appended and a timer or an early flush is due; others change nothing |
| StreamBuffer.StreamHub.DrainRegistered | backend/discord_notifier.py:1323-1330 | the buffer is emptied into one drained batch with its turn number carried |
| StreamBuffer.StreamHub.DelayedFlush | backend/discord_notifier.py:1342-1351 | the timer is cleared and the buffer drained |
| StreamBuffer.StreamHub.RunEarlyFlush | backend/discord_notifier.py:1334-1339 | a scheduled flush drains the buffer if it is still registered |
| StreamBuffer.StreamHub.FlushTaskStream | backend/discord_notifier.py:1392-1405 | the buffer is drained and dropped |
| StreamBufferProperties.NothingIsLost | backend/discord_notifier.py:1323-1405 | over any interleaving, drained batches followed by buffered lines are the accepted lines, in order and once |
| StreamBufferProperties.NothingStalls | backend/discord_notifier.py:1379-1389 | sizes are right, a buffer with lines has a timer or an early flush outstanding, and a full one an early flush |
| StreamBufferProperties.IdleMeansDrained | backend/discord_notifier.py:1334-1351 | with no flush outstanding everything accepted has been drained |
| StreamBufferProperties.DrainsKeepOrdinaryOutput | backend/discord_notifier.py:1323-1330 | ordinary output is drained whole and in order, however it is batched |
| StreamBufferProperties.DrainsCountEveryCall | backend/discord_notifier.py:1323-1330 | every tool call is shown or counted once in the drained batches, or waits |
| StreamBufferProperties.TurnsRunOn | backend/discord_notifier.py:1147-1149 | between two ends of a stream the turns drained are numbered 1, 2, 3, ... across batches |
| StreamBufferProperties.WantedIsAccepted | backend/discord_notifier.py:1369-1372 | a line is accepted if and only if streaming is on, the task is named, and some character is not white space |
| StreamBufferProperties.BatchesGoToTheirGuild | backend/discord_notifier.py:1374-1377 | a task streamed from one guild has all its batches drained for that guild |
| StreamPosts.Poster.PostTaskStream | backend/discord_notifier.py:1300-1320 | a drained batch gets a coroutine with its chunks to send, in order |
| StreamPosts.Poster.AwaitReturns | backend/discord_notifier.py:1302-1320 | a lookup finds the thread or drops the whole post; a send delivers the next chunk or loses it |
| PostOrder.OrderIffUnharmed | backend/discord_notifier.py:1323-1331 | over any interleaving, what has arrived of a task followed by what is still to be sent is everything cut from its batches, in order, if and only if no post of it failed and none was sent while an older one had messages left |
| PostDelivery.OnePostAtATimeIsInOrder | backend/discord_notifier.py:1323-1331 | in particular if at most one post of the task is under way at a time and none fails |
| PostDelivery.EverythingArrives | backend/discord_notifier.py:1300-1331 | once nothing is due or left to send, such a run has shown exactly the messages of the drained batches, in order, made of exactly the lines accepted, and read without line breaks they are the lines read off those batches |
| PostDelivery.MessagesFit | backend/discord_notifier.py:1308-1310 | every message of a batch has between 1 and 2000 characters |
| PostDelivery.NothingArrivesTwice | backend/discord_notifier.py:1308-1320 | whatever fails or overlaps, no message arrives more often than it was cut |
| PostDelivery.LaterBatchFirst | backend/discord_notifier.py:1331 | two lines flushed one after the other arrive in the wrong order though no post failed |
| Chunking.ChunkContent | backend/discord_notifier.py:1218-1230 | the loop computes the specified pieces and ends |
| Chunking.ChunksFit | backend/discord_notifier.py:1222-1229 | every piece has between 1 and size characters |
| Chunking.TextIsChunksAndNewlines | backend/discord_notifier.py:1222-1230 | the text is the pieces in order with newline-only gaps between them |
| Chunking.InkIsKept | backend/discord_notifier.py:1226-1227 | every other character is sent once, in order |
| Chunking.CutsAtLastNewline | backend/discord_notifier.py:1223-1225 | a short piece ends at the last newline that leaves it non-empty |
| Chunking.ChunksStartWithText | backend/discord_notifier.py:1227 | no piece but the first starts with a newline |
| Chunking.ChunksAreStable | backend/discord_notifier.py:1218-1230 | a piece is not split again |
| SpawnConfig.MergeEnv | backend/spawn_config.py:51-58 | the overlay loop computes the key-by-key merge |
| SpawnConfig.MergeTools | backend/spawn_config.py:79-84 | the per-tool loops compute the tool-by-tool merge |
| SpawnConfig.MergeLayers | backend/spawn_config.py:61-85 | folding the layers computes the specified settings |
| SpawnConfig.EnvClosedForm | backend/spawn_config.py:51-58 | a variable is the last non-empty value of any layer, else empty if mentioned |
| SpawnConfig.ToolClosedForm | backend/spawn_config.py:79-84 | the same for each key of each tool, and a tool is there exactly if mentioned |
| SpawnConfig.ListClosedForm | backend/spawn_config.py:67-70 | a list is the last non-empty one, whole |
| SpawnConfig.ScalarClosedForm | backend/spawn_config.py:71-76 | a scalar is the last one set |
| SpawnConfig.LastSetMeans | backend/spawn_config.py:71-76 | the last scalar set is followed only by layers that set none, and is missing only if none does |
| SpawnConfig.LastRealMeans | backend/spawn_config.py:55-57 | the last non-empty value is followed only by empty ones, and is missing only without mention |
| SpawnConfig.GroupingIsIrrelevant | backend/spawn_config.py:61-85 | resolving consecutive groups first, however cut, resolves the same settings |

## Left out

- The language model, Discord, GitHub, HTTP, Docker and ECS: their answers are arbitrary inputs.
- The SQL engine, sessions and migrations: a transaction is one step on maps; the unique index on lock keys is the map itself.
- JSON text: only its length is modelled, and a stored turn's length is taken to be its content's length in the array.
- Content blocks with missing ids or types, tool results that are no tool_result blocks, and results whose content is a list: blocks are well typed and a result's content is one string.
- Messages with roles other than user, assistant and system.
- Sharing and copying of message objects: arrays are values except for the two edits in place, which a class models.
- Narration of a run (message rows, broadcasts, the cap note) and the annotation of GitHub URLs in the human's message.
- Turns appended by others between the two queries of the fast read.
- `load_for_debug`, the task summary and the serializer fallbacks for SDK objects.
- ForemanRun.Run.AppendTurn: keeps owner, conversation, role, content and the tool-response flag of a row; parents, API log ids, task ids and times are left out, and the guild and user of the legacy read are one owner.
- RunProtocol.Runner.RunForemanAi: does not model cancellation, which skips the drain, nor the queue's loss on restart; the text of a queued turn keeps no annotation.
- TaskMachine.Handlers.HandleTaskUpdate: the parsing of pull request URLs and the linking of the task's context are left out, as are the handlers' own broadcasts, logs and triggers; an explicit null state is refused by the state column and is not a step.
- TaskMachine.Handlers.SweepStaleTasks: marking workers and agents offline is an arbitrary change of the agent table; the clock and the patience are integers.
- The dispatch and redirect tools are steps without their validation, and `stop_agent_run`, task creation and the websocket disconnect are not steps.
- TaskLifecycle.Store.FinalizeClosedIssue: the order of the roots' broadcasts is left open, because the query promises none; one clock reading stands for the several that one call takes, as in TaskLifecycle.Store.FinalizeRoots.
- TaskLinkage.Propagate: starts from what steps 1 to 4 staged; their regular expressions and caches are left out. Its precondition is the exact condition under which the loop ends.
- StreamFormat.FormatStreamEntries: tool names come in lower-cased, and a missing one as `tool`.
- StreamBuffer.StreamHub.DrainRegistered: a buffer is a value in the hub's map, so a popped buffer cannot be shared; its lock is never contended, because no await lies inside it, and is left out.
- StreamPosts.Poster.AwaitReturns: finding the channel and finding or creating the thread are one await that succeeds or fails, and a send with its retries on rate limits is one that does; the messages of all threads are one list, told apart by task.
- Chunking.ChunkContent: needs a size of at least 1; with 0 the code does not end, and it is only called with Discord's limit.
- SpawnConfig.MergeLayers: the result is a value instead of an object filled in place, and null values inside a variable map are left out.
- Worker-side code, the frontend, permissions, prompts, metrics, reconnects, idle sweeps, slugs and caches: plumbing or short guards.
