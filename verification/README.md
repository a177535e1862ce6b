# Verified models of the agent, its terminal interface and its tooling

A Dafny 4.11 project that models the core algorithms of the coding agent and
proves what they keep. `dafny verify dfyconfig.toml` checks all of it.

## What is modelled

**The agent loop** (`agent_loop.dfy`, `waypoints.dfy`, `agent.dfy`,
`agent_runs.dfy`, `pending_queue.dfy`, `tool_batch.dfy`, `tool_answers.dfy`,
`race.dfy`, `pending_calls.dfy`). `Loop` and `Agent` are
classes whose methods follow the source's functions. The environment is
arbitrary: at every await the host may queue, clear and sweep batches, change
queue modes and abort; what providers stream, what tools and hooks answer and
how they fail is chosen freely. The run's events, provider calls, polls, hook
answers, router choices and awaits are kept in a ghost log, and a monitor
(`protocol.dfy`) reads the log and breaks on the first entry out of place: it
knows at each point which hook is to be asked, which source to be polled, and
whether the run may go on, end or throw. The methods prove that no run breaks
it (`waypoints.dfy` says where the monitor stands at the points they pass);
`protocol_laws.dfy`, `turn_laws.dfy` and `conservation.dfy` then prove, of
every log that does not break it, the safety of whole runs: alternating turns,
one end and last, tool results before the next provider call, agreement of the
three transcripts, the ceiling on reflexes, hooks asked and sources polled in
their order between turns, and the delivery of queued batches. The
monitor can break in one case only, a provider stream that announces its start
more than once, and `strays` counts exactly that. A run takes `steps`: it
bounds how much of a stream, a batch or a run is looked at, and an outcome of
`Suspended` says that the run is still going on, so that every prefix of every
run is covered. A tool batch is a state machine of its own (`tool_batch.dfy`):
one automaton per call, one step per await, under any scheduler;
`tool_answers.dfy` says, from what happened to a call alone, when it may run
and what it is answered with.

**The benchmark display** (`display.dfy`, `query_scan.dfy`): answering terminal
queries in a stream that may be cut anywhere.

**The fullscreen viewport** (`fullscreen.dfy`, `screen.dfy`,
`click_targets.dfy`): geometry, click targets, and a painter proved against a
terminal that executes the cursor-position, erase-in-display and erase-in-line
controls of ECMA-48 (sections 8.3.21, 8.3.39 and 8.3.41).

**Billing and replay** (`stable_json.dfy`, `stable_json_laws.dfy`,
`stable_json_text.dfy`, `billing.dfy`): canonical JSON text over UTF-16 code units, with strings
escaped as section 7 of RFC 8259 allows and `JSON.stringify` does, and the
accounting of a prefix cache over whole runs.

**The proxy stream** (`proxy_stream.dfy`, `proxy_events.dfy`,
`proxy_laws.dfy`): lines, events and the message rebuilt from them.

**Migrations** (`session_migration.dfy`, `auth_migration.dfy`): a directory
tree as a map, with arbitrary listing orders, failing renames and crashes.

**LaTeX and fuzzy matching** (`latex.dfy`, `latex_reading.dfy`,
`latex_text.dfy`, `fuzzy.dfy`, `fuzzy_scores.dfy`): the parser as a class over
abstract symbol tables, how far it reads, what its commands render as, and the
matcher with its scores and ranking.

## What does not hold

Each of these is proved with an input that shows it and with the exact
condition under which the property does hold.

- Tool arguments are not always the parse of all deltas: after
  `toolcall_end` the gathered text is deleted, and a later delta is appended to
  the word `undefined` (`ProxyEvents.DeltaAfterEnd`,
  `ProxyEvents.ToolArgumentsAreItsDeltas`).
- The credential migration removes its sources without writing auth.json when
  they are readable but nothing is chosen (`AuthMigration.SafeExactly`), and it
  drops the key of a provider named like a property that every object inherits
  (`AuthMigration.EveryCredentialIsChosen`). `EmptyLoginIsCleanedUp` and
  `InheritedNameLosesItsKey` there are such directories.
- A legacy session stays behind when the file that has its name in the root
  differs in bytes but has the same size and decodes to the same text
  (`SessionMigration.ShadowedSessionStays`, `SessionMigration.StaysByOrder`,
  `SessionMigration.BytesArriveByOrder`).
- The LaTeX parser drops everything from the first closing brace on that closes
  nothing and is not taken as an argument or a delimiter, and so does the
  parser started on the inside of an optional bracket, which drops the rest of
  that inside only (`Latex.UnmatchedBraceCuts`, `LatexReading.BracketDropsText`).
  Everything is read just when no pass over tokens meets such a brace
  (`LatexReading.AllReadExactly`, and by counting for sources without commands
  `LatexReading.BracesDecide`); behind a caret it is read
  (`LatexReading.CaretTakesTheBrace`).
- A stream that starts twice leaves a message in the loop's context that no
  event ended (`AgentLoop.SecondStartBreaks`,
  `AgentLoop.Loop.StreamAssistantResponse`).

## Model

| member | source | states |
|---|---|---|
| `ToolBatch.EveryCallHasOneLife` | packages/agent/src/agent-loop.ts:759-818 | Under every schedule of the awaits of a batch and every abort instant, each call has one start, then only updates, then one end, and the end carries the outcome that the call is later answered with. |
| `ToolBatch.ResultsAnswerInOrder` | packages/agent/src/agent-loop.ts:806-818 | However the calls finish, the results of a batch come back one per call, in the order of the calls. |
| `ToolBatch.PendingIsInFlight` | packages/agent/src/agent.ts:576-588 | With distinct ids, the pending set rebuilt from the events is, after every step, exactly the ids of the calls started and not ended. |
| `ToolBatch.NothingPendingAtTheEnd` | packages/agent/src/agent.ts:576-588 | When every call of a batch has ended, the rebuilt pending set is empty. |
| `ToolBatch.CallsDoNotInterfere` | packages/agent/src/agent-loop.ts:864-1021 | In any batch a call goes through exactly the states and signals it would go through alone, given the same answers and the same view of the abort flag. |
| `ToolBatch.InterleavingDoesNotMatter` | packages/agent/src/agent-loop.ts:759-848 | Two schedules that give each call the same experience give the same results, the same verdict on terminating, and per call the same signals, however the calls interleave. |
| `ToolBatch.NeverStuck` | packages/agent/src/agent-loop.ts:864-1021 | While a call is unfinished some await can be taken that brings a call nearer to its end. |
| `ToolAnswers.AnsweredAsItFared` | packages/agent/src/agent-loop.ts:864-1021 | Under every schedule a call that has ended is answered as its own story says: why it was barred, or what its tool returned or failed with unless an abort came first, as the hook after calls left it. |
| `ToolAnswers.BarredCallsNeverRun` | packages/agent/src/agent-loop.ts:864-917 | A call whose tool is unknown, whose arguments are invalid, or that the hook before calls blocked, failed on or was cut short in, ends there as an error that says why, and is at no point of any schedule ready to run or running. |
| `ToolAnswers.OnlyClearedCallsRun` | packages/agent/src/agent-loop.ts:864-917 | A call that is ready or running was let pass by its preparation. |
| `ToolAnswers.SettlementIsTheAnswer` | packages/agent/src/agent-loop.ts:919-1021 | A tool that settled before any abort is answered with just the value it returned, or with its failure as an error, but for what the hook after calls changes: exactly the fields it gives, an error when it fails or is aborted. |
| `ToolAnswers.PreparedInOrder` | packages/agent/src/agent-loop.ts:769-805 | Calls are begun in their order, each when the one before has been prepared, and none runs before all are prepared. |
| `ToolAnswers.AbortIsHeard` | packages/agent/src/agent-loop.ts:919-949 | A move is told of an abort just when the abort came before it in the schedule. |
| `RacingAbort.Race.Abort` | packages/agent/src/agent-loop.ts:51-95 | After the signal fires a race is settled by the first callback of its whole history; the listener is gone and the abort handler has run at most once. |
| `RacingAbort.Race.Fulfil` | packages/agent/src/agent-loop.ts:51-95 | A result that arrives after the race was settled changes nothing; otherwise it settles it. |
| `RacingAbort.Race.Fail` | packages/agent/src/agent-loop.ts:51-95 | The same for a failure of the operation. |
| `AgentLoop.Loop.Race` | packages/agent/src/agent-loop.ts:51-95 | An awaited operation settles as that race says: refused by the abort when the signal had fired before, else by whichever came first, while the host is free to act; the log says how, and whether the run was aborted by then. |
| `PendingQueue.PendingMessageQueue.Enqueue` | packages/agent/src/agent.ts:126-131 | A non-empty batch joins the end under the next ticket; an empty one leaves the queue as it was; the books stay balanced. |
| `PendingQueue.PendingMessageQueue.Drain` | packages/agent/src/agent.ts:137-150 | Hands out the oldest batch, or all of them by mode, in order and whole; what was queued is exactly what was handed out followed by what is still queued. |
| `PendingQueue.PendingMessageQueue.Clear` | packages/agent/src/agent.ts:152-154 | Empties the queue and books every queued ticket as removed. |
| `PendingQueue.PendingMessageQueue.RemoveWhere` | packages/agent/src/agent.ts:156-168 | Removes exactly the batches that hold a matching message, returns their messages in order, and keeps the others in order. |
| `PendingQueue.BalancedDrain` | packages/agent/src/agent.ts:137-150 | Draining keeps the ledger: every batch ever queued is drained, queued or removed, in exactly one of these, in the order of issue. |
| `PendingQueue.BalancedSweepAll` | packages/agent/src/agent.ts:156-168 | So does sweeping the queue with any predicate. |
| `AgentState.Agent.ProcessEvents` | packages/agent/src/agent.ts:561-598 | The new state is the reduction of the old one by the event; afterwards the rebuilt transcript is still what the log of the run says. |
| `AgentState.ReduceMirrors` | packages/agent/src/agent.ts:561-598 | Whatever event comes, the transcript rebuilt by assignment is the one the events tell of, and the pending set lies within the ids of the running calls; it equals them when the calls of the turn have distinct ids. |
| `PendingCalls.PendingIsRunning` | packages/agent/src/agent.ts:576-588 | At every point of every run the pending set rebuilt from its events is, when the calls of the turn have distinct ids, exactly the ids of the calls started and not ended. |
| `PendingCalls.NothingPendingAtTurnEnds` | packages/agent/src/agent.ts:576-588 | At every turn end and run end nothing is pending, whatever the ids. |
| `PendingCalls.StreamingIsTheLast` | packages/agent/src/agent.ts:561-598 | While a message is open the agent shows the last that was told of it, and at no other time does it show one. |
| `PendingCalls.ErrorIsTheLast` | packages/agent/src/agent.ts:590-594 | The error shown is that of the last turn that reported one. |
| `AgentState.Agent.HostActs` | packages/agent/src/agent.ts:289-344 | Queueing, clearing, sweeping, changing modes and aborting at any await, in any number, keep everything the run relies on. |
| `AgentState.Agent.PollSteering` | packages/agent/src/agent.ts:486-489 | A poll takes what the queue hands out and logs its tickets; one at a time it takes at most one batch. |
| `AgentState.Agent.HandleRunFailure` | packages/agent/src/agent.ts:525-544 | A run that threw ends with a failed message in the transcript, the error recorded, and exactly one more end event, which is last. |
| `AgentState.Agent.FinishRun` | packages/agent/src/agent.ts:546-552 | Nothing is streaming or pending afterwards. |
| `AgentLoop.Loop.StreamAssistantResponse` | packages/agent/src/agent-loop.ts:543-675 | Whatever happens at whichever await, the listeners hear the stream as it came and then the final message, which is added to the context once, with one start and one end, provided the stream announced its start at most once; the surplus is counted exactly otherwise. A response that an abort cuts short is the aborted message over what had been streamed; it throws only at an await that is refused otherwise than by an abort. |
| `AgentLoop.Loop.AwaitStream` | packages/agent/src/agent-loop.ts:669-673 | One await of the response: it goes on when resolved; refused by an abort error of an aborted run it ends the response with what had been streamed; refused otherwise, and only then, it throws. |
| `AgentLoop.Loop.TakeEvent` | packages/agent/src/agent-loop.ts:600-651 | A start opens the message, deltas update it once it is open, and the terminal event ends the response with the result, or with its own message when an abort cuts the wait for the result short. |
| `AgentLoop.AbortKeepsTheLast` | packages/agent/src/agent-loop.ts:135-151 | An aborted response says so and holds the content that the stream had brought last, or the empty text when it had brought nothing. |
| `AgentLoop.StreamIsTold` | packages/agent/src/agent-loop.ts:606-631 | A stream that starts and then brings deltas is told as one start and its updates, in order. |
| `AgentLoop.SecondStartBreaks` | packages/agent/src/agent-loop.ts:607-612 | The second start of a stream is the event that breaks the agreement: the first message it opened is never ended. |
| `AgentLoop.Loop.FinishMessage` | packages/agent/src/agent-loop.ts:646-668 | Replaces the streamed message or announces a new one, so that the context ends with the final message either way. |
| `AgentLoop.Loop.DriveBatch` | packages/agent/src/agent-loop.ts:759-818 | Running a batch under an arbitrary schedule, with the host free to act and abort before every await: what the listeners hear is the trace of the batch under that schedule, the outcome is that of the schedule, and an abort before it is the first thing the batch is told. |
| `AgentLoop.Loop.ExecuteToolCallsSequential` | packages/agent/src/agent-loop.ts:699-757 | Each call runs alone under a schedule of its own and its result is announced before the next begins; the results answer a prefix of the calls in order, proper only after an abort, and empty when the run was aborted before. |
| `AgentLoop.Loop.ExecuteToolCallsParallel` | packages/agent/src/agent-loop.ts:759-844 | All calls run under one schedule, and then their results are announced in the order of the calls, one for each. |
| `AgentLoop.Loop.ExecuteToolCalls` | packages/agent/src/agent-loop.ts:677-697 | One by one just when the configuration or a called tool wants it so, else all at once: results in order, complete unless aborted, and the verdict on terminating is that of the results. |
| `AgentLoop.Loop.FinishTurn` | packages/agent/src/agent-loop.ts:430-459 | The listeners hear the batch of the message's calls and then the turn's end with its message and the results; both transcripts hold them, and another turn is wanted just when there were calls and not all results ask to terminate. |
| `AgentLoop.Loop.ReflexTurn` | packages/agent/src/agent-loop.ts:381-413 | A reflex turn keeps the same discipline as a provider turn and counts against the ceiling. |
| `AgentLoop.Loop.TakeIn` | packages/agent/src/agent-loop.ts:421-429 | Inputs enter the transcript whole and in order before the provider is asked. |
| `AgentLoop.Loop.Poll` | packages/agent/src/agent-loop.ts:170-182 | Unless the run is aborted, a poll drains its queue and waits; what it took is what comes back, an abort that wins the race discards it and ends the run, and any other refusal fails the run. The first poll of a run from steering takes nothing. |
| `AgentLoop.Loop.AfterTurn` | packages/agent/src/agent-loop.ts:460-501 | After a provider turn that is not aborted both hooks are asked, then steering is polled, and without any the second hook is asked again: only so does the run go on to where another round may begin; it ends when a hook stops it or it is aborted, and throws at an await refused otherwise. |
| `AgentLoop.Loop.StopHook` | packages/agent/src/agent-loop.ts:367 | A hook is asked when it is its turn; its answer decides whether the run may end there or what comes next. |
| `AgentLoop.Loop.WindDown` | packages/agent/src/agent-loop.ts:503-538 | With nothing left for the tools: the hook, follow-ups, the hook, and continuations if the provider was ever called; the run ends only when none came, a hook stopped it, or it was aborted. |
| `AgentLoop.Loop.RunLoop` | packages/agent/src/agent-loop.ts:352-541 | The nested loop keeps the protocol for every script of the environment and every abort instant: it returns only with the run ended once and last; it throws only at an await refused otherwise than by an abort, or aborted at the head of a round, and at once when aborted before; and until then the log is one the monitor accepts. |
| `AgentLoop.Loop.RunAgentLoop` | packages/agent/src/agent-loop.ts:250-273 | The same for a run that starts with prompts; whether it is over, thrown or still going on, the prompts stand first in what it has said. |
| `AgentLoop.Loop.RunAgentLoopContinue` | packages/agent/src/agent-loop.ts:275-298 | The same for a run that continues; it throws without emitting anything when the transcript is empty or ends with an assistant message. |
| `AgentRuns.RunWithLifecycle` | packages/agent/src/agent.ts:500-523 | Every run that is over, thrown or not, announced its end exactly once and last and left nothing pending. When no stream started twice, the transcript is the old one, then what the run said, its prompts first, then the failure if it threw, which it did for one of the reasons above; and while a run goes on, the old one and what it has said, its prompts first. |
| `AgentRuns.Prompt` | packages/agent/src/agent.ts:348-357 | Refused without effect just when a run is active; otherwise the given messages are the prompts of a run as above, and the queues hand out nothing but to its polls. |
| `AgentRuns.RunQueuedMessages` | packages/agent/src/agent.ts:364-376 | Gives nothing and changes nothing just when both queues are empty; otherwise the head of the steering queue, or else of the follow-up queue, become the prompts of a run as above, and nothing else was handed out. |
| `AgentRuns.SteeringLeads` | packages/agent/src/agent.ts:364-376 | The prompts taken from the queues are all of the steering batches or the oldest one, by mode, and the same of the follow-ups just when no steering is queued. |
| `AgentRuns.Continue` | packages/agent/src/agent.ts:359-409 | Refuses, changing nothing, just when a run is active or the transcript is empty or ends with an assistant message and both queues are empty; otherwise a run as above, from what is queued when the transcript is empty or ends with an assistant or custom message, else from the transcript as it is. |
| `ProtocolLaws.RunHasItsShape` | packages/agent/src/agent-loop.ts:264-271 | Every log the loop can produce starts with its start event and has no other, opens and closes turns in strict alternation, and announces its end only as its last entry, outside turns. |
| `ProtocolLaws.SpeechInTurns` | packages/agent/src/agent-loop.ts:396-459 | Message and tool events come only inside turns. |
| `TurnLaws.BetweenTurns` | packages/agent/src/agent-loop.ts:454-541 | Between a turn that neither failed nor was aborted and the next turn, or an unaborted end, the hooks are asked and the sources polled in just this order: after a provider turn both hooks, then steering, without any the second hook again; when the tools want nothing more, the hook, follow-ups, the hook, continuations if the provider was ever called. Another turn comes only with inputs found or wanted by the tools, and the end only by a stop or with nothing found anywhere. |
| `TurnLaws.TurnMeans` | packages/agent/src/agent-loop.ts:443-454 | What that goes by, told from the log: whether the provider was called in the turn, whether ever, and whether the tools want another turn, which they do when calls were made and of those that ended not all ask to terminate. |
| `TurnLaws.StopIsFinal` | packages/agent/src/agent-loop.ts:438-501 | After a hook has stopped the run, a turn has ended with a failed message or aborted, or an abort has cut short what follows a turn, nothing is said, called, polled or asked any more: the run can only end. |
| `TurnLaws.FailsExactly` | packages/agent/src/agent-loop.ts:111-121 | A run has failed just when its last entry is an await refused otherwise than by an abort of an aborted run (at the first poll, at all), and waits just when its last entry says so. |
| `TurnLaws.SteeringPolledFirst` | packages/agent/src/agent-loop.ts:365 | Unless its prompts came from steering, a run polls steering before it calls the provider. |
| `TurnLaws.RouterComesFirst` | packages/agent/src/agent-loop.ts:376-379 | A run with a router calls the provider only when the router had nothing for this turn, inputs came in for it, or the reflexes in a row are at their ceiling. |
| `TurnLaws.ReflexesAreRouted` | packages/agent/src/agent-loop.ts:380-387 | A reflex is what the router chose for this turn. |
| `ProtocolLaws.ProviderSeesAnswers` | packages/agent/src/agent-loop.ts:396-459 | At every provider call each turn that ended before stands in the context: its message, the model's or a reflex, followed by results answering all its calls in order; so no provider call follows a batch cut short. |
| `ProtocolLaws.EveryMessageHasItsPlace` | packages/agent/src/agent-loop.ts:396-459 | Every settled message of a run is one of its prompts or polled inputs, or lies in the message and results of a turn that ended. |
| `ProtocolLaws.NothingUnanswered` | packages/agent/src/agent-loop.ts:396-459 | At every provider call each message that the run has put into the context is such an input, or lies in a turn standing there with all its calls answered in order. |
| `ProtocolLaws.TranscriptsAgree` | packages/agent/src/agent-loop.ts:396-453 | At every provider call, turn end and run end the loop's context is the initial one plus the messages ended by events, and the messages handed to the end event are those. |
| `ProtocolLaws.EndedGrows` | packages/agent/src/agent-loop.ts:396-453 | Messages once in the transcript stay there in place. |
| `ProtocolLaws.ReflexesBounded` | packages/agent/src/agent-loop.ts:357-392 | Between two provider calls there are at most as many reflex turns as the configured ceiling. |
| `ProtocolLaws.SteeringOncePerCall` | packages/agent/src/agent-loop.ts:489-500 | Between two polls that bring steering in there is a provider call; one at a time each of them brings one batch. |
| `ProtocolLaws.SteeredPromptCounts` | packages/agent/src/agent.ts:365-369 | When the prompts came from the steering queue, a provider call comes before any more steering. |
| `ProtocolLaws.PromptsDelivered` | packages/agent/src/agent-loop.ts:258-271 | What a run starts with goes to the transcript first, whole and in order. |
| `ProtocolLaws.PromptsBeforeAnyCall` | packages/agent/src/agent-loop.ts:258-271 | Every provider call has the prompts right behind the transcript before the run. |
| `ProtocolLaws.InputsDelivered` | packages/agent/src/agent-loop.ts:420-429 | What a poll brought in goes into the transcript next, whole, contiguous and in order. |
| `ProtocolLaws.PolledBeforeNextCall` | packages/agent/src/agent-loop.ts:420-431 | Each batch a poll took stands in the context of the next provider call, right after what was there at the poll. |
| `ProtocolLaws.PollsInOrder` | packages/agent/src/agent-loop.ts:484-535 | Polls deliver in the order in which they were made, without overlap. |
| `ProtocolLaws.NothingLeftBehind` | packages/agent/src/agent-loop.ts:484-541 | A run that ends without an abort has delivered all that its polls took. |
| `Conservation.EveryBatchIsAccountedFor` | packages/agent/src/agent.ts:121-169 | After an unaborted run that the loop ended, every batch ever queued is still queued, was removed, had been handed out before the run was asked for, or was taken in by the run, as one of its prompts or by a poll, and stands in the transcript, whole, at the place that belongs to that intake. |
| `Conservation.FirstInFirstOut` | packages/agent/src/agent.ts:121-169 | A batch is taken in at most once, and two batches of one queue are taken in, and stand in the transcript without overlap, in the order in which they were queued. |
| `Conservation.PlacesInOrder` | packages/agent/src/agent-loop.ts:484-535 | Prompts before polls, earlier polls before later ones, of one queue or of both: the places in the transcript follow that order and do not overlap. |
| `QueryScan.ScanResumes` | scripts/benchmarks/terminal.py:42-66 | Scanning a text in two parts gives the output of the first followed by that of the held-back tail with the second. |
| `QueryScan.ChunksDoNotMatter` | scripts/benchmarks/terminal.py:42-66 | However a text is cut into chunks, feeding them does what feeding the whole does: same characters and answers in the same order, same pending tail. |
| `QueryScan.AnyTwoCutsAgree` | scripts/benchmarks/terminal.py:42-66 | Any two cuts of one text agree. |
| `QueryScan.ScanConserves` | scripts/benchmarks/terminal.py:42-66 | What was shown, what was answered and what is held back make up the input, nothing lost, repeated or moved. |
| `QueryScan.AnswersAreOccurrences` | scripts/benchmarks/terminal.py:42-66 | A query is answered at an offset just when it occurs there in the input. |
| `QueryScan.MatchesApart` | scripts/benchmarks/terminal.py:42-66 | Two occurrences never share a character. |
| `QueryScan.HeldExactly` | scripts/benchmarks/terminal.py:52-66 | What is held back is the longest tail of the text that is the beginning of a query, and nothing more. |
| `Display.QueriesUnambiguous` | scripts/benchmarks/terminal.py:17-32 | The table meets the condition all this rests on: no query occurs inside or overlaps another. |
| `Display.Display.Feed` | scripts/benchmarks/terminal.py:42-66 | One call of the reader does to the screen, the program and the pending text exactly what the specification says. |
| `Display.FirstQuery` | scripts/benchmarks/terminal.py:45-48 | Finds the leftmost occurrence of any query, or says truly that there is none. |
| `Display.LongestHeld` | scripts/benchmarks/terminal.py:52-60 | Finds the longest suffix that is a proper prefix of a query. |
| `ClickTargets.SubtractExact` | packages/tui/src/fullscreen.ts:245-261 | For all integers, after a subtraction a cell inside the removed span finds nothing and every other cell finds the region and anchor it found before. |
| `ClickTargets.HistoryExact` | packages/tui/src/fullscreen.ts:221-271 | Over any sequence of additions and subtractions a click finds the first addition that covers its cell and was not painted over since. |
| `ClickTargets.RemnantsExact` | packages/tui/src/fullscreen.ts:245-261 | The left and right remnants of one target cover exactly its cells outside the span. |
| `Fullscreen.FullscreenViewport.SetFrameClickRegions` | packages/tui/src/fullscreen.ts:221-230 | After registering entries a click finds the owner of its cell among them. |
| `Fullscreen.FullscreenViewport.SubtractFrameClickCoverage` | packages/tui/src/fullscreen.ts:245-261 | The backward in-place splicing is the subtraction above. |
| `Fullscreen.FullscreenViewport.ClickTargetAt` | packages/tui/src/fullscreen.ts:263-271 | Returns the first target covering the cell, and nothing for negative coordinates. |
| `Fullscreen.LayoutFor` | packages/tui/src/fullscreen.ts:133-170 | Header, window and dock share out exactly the height; the window keeps its minimum, and the header is given up before the dock. |
| `Fullscreen.FullscreenViewport.ComposeFrame` | packages/tui/src/fullscreen.ts:133-186 | The frame has exactly the given height and is the bottom of the header, the window at the scroll position, and the bottom of the dock; following puts the window at the end and the scroll position stays within bounds. |
| `Fullscreen.AppendsDoNotMove` | packages/tui/src/fullscreen.ts:155-186 | While not following, appending lines at unchanged sizes changes neither the scroll position nor any shown transcript row. |
| `Fullscreen.FollowingShowsTheEnd` | packages/tui/src/fullscreen.ts:155-186 | While following, the last window row that shows a line shows the last line. |
| `Fullscreen.StaysNear` | packages/tui/src/fullscreen.ts:155-186 | While not following, the window stays as near to where it was as the transcript allows. |
| `Fullscreen.FullscreenViewport.ScrollBy` | packages/tui/src/fullscreen.ts:824-828 | Scrolling moves by the delta, clamped, and following holds just at the bottom. |
| `Fullscreen.FullscreenViewport.ScrollToTop` | packages/tui/src/fullscreen.ts:830-833 | The top, and following just when that is the bottom too. |
| `Fullscreen.FullscreenViewport.ScrollToBottom` | packages/tui/src/fullscreen.ts:835-838 | The bottom, following. |
| `Fullscreen.ProjectRows` | packages/tui/src/fullscreen.ts:188-200 | The projected rows are exactly the rows of the region inside the band. |
| `Fullscreen.FullscreenViewport.HeaderRowsShow` | packages/tui/src/fullscreen.ts:201-205 | The rows that a header region is projected on are just those of the frame that show its lines. |
| `Fullscreen.FullscreenViewport.TranscriptRowsShow` | packages/tui/src/fullscreen.ts:207-211 | So are those of a transcript region. |
| `Fullscreen.FullscreenViewport.DockRowsShow` | packages/tui/src/fullscreen.ts:213-218 | So are those of a dock region. |
| `Fullscreen.FullscreenViewport.RowsAndLinesInverse` | packages/tui/src/fullscreen.ts:520-529 | Once the frame is registered, the line of a screen row and the row of a transcript line are inverse on the rows of the window. |
| `Fullscreen.FullscreenViewport.ClampedIsNearest` | packages/tui/src/fullscreen.ts:520-529 | A clamped lookup gives the line of the nearest row that shows the transcript. |
| `Fullscreen.FullscreenViewport.BandsDisjoint` | packages/tui/src/fullscreen.ts:202-219 | Regions projected into different bands never share a row. |
| `Fullscreen.FullscreenViewport.ApplyFrameSelection` | packages/tui/src/fullscreen.ts:404-412 | The visible part of a registered frame is its bottom, cut to the height. |
| `Fullscreen.FullscreenViewport.Paint` | packages/tui/src/fullscreen.ts:784-817 | Executing the emitted controls leaves the terminal showing the frame, bottom-sliced to the height, clipped and padded, whether rows were diffed or all repainted; the cursor is where it was asked for, and no row that is as in the last frame is erased or written. |
| `Fullscreen.FullscreenViewport.Reset` | packages/tui/src/fullscreen.ts:819-822 | After a reset the next paint repaints everything, so the guarantee survives whatever the terminal shows. |
| `Screen.RowPainted` | packages/tui/src/fullscreen.ts:796-808 | Addressing a row, erasing it and writing a fitting line shows exactly that line there and leaves the other rows alone. |
| `StableJsonLaws.StableStringifyCanonical` | benchmarks/lib/billing.ts:42-50 | Two values print alike just when they are equal up to undefined fields, undefined array slots and key order. |
| `StableJsonLaws.TextUnique` | benchmarks/lib/billing.ts:42-50 | A printed value can be read back from the front of any text in only one way. |
| `StableJsonLaws.TextCanonical` | benchmarks/lib/billing.ts:42-50 | Values with one meaning print the same text. |
| `StableJsonText.StringReads` | benchmarks/lib/billing.ts:44 | A printed string is its quotation marks and an inside that a reader of section 7 of RFC 8259 reads as the string. |
| `StableJsonText.EscapesAreShortest` | benchmarks/lib/billing.ts:44 | Escapes are the shortest there are, in lower-case hexadecimal where it comes to that. |
| `StableJsonText.ArraySays` | benchmarks/lib/billing.ts:45 | An array is its items' texts with commas between them, in brackets. |
| `StableJsonText.ObjectSays` | benchmarks/lib/billing.ts:46-49 | An object is the texts of its entries with a defined value, with commas between them, in braces, the keys in lexicographic order of their code units. |
| `Billing.PrefixBillingCache.Bill` | benchmarks/lib/billing.ts:75-107 | The loop and the bookkeeping bill a turn against the transcript billed before it as the law below says, and remember the turn. |
| `Billing.TurnCosts` | benchmarks/lib/billing.ts:75-107 | With k the number of leading messages that mean the same in both transcripts: a turn reads exactly the tokens of the first k from the cache; when the earlier transcript had no more it writes exactly the tokens of the rest, else it is broken and writes the tokens of all; the hash is over the first k texts. |
| `Billing.FirstTurnCosts` | benchmarks/lib/billing.ts:89-93 | The first turn reads nothing and writes everything. |
| `Billing.Shared` | benchmarks/lib/billing.ts:80-86 | The longest common prefix: equal up to there and not further. |
| `Billing.BilledTokensIdentity` | benchmarks/lib/billing.ts:75-125 | Over any run the total billed is the sum of the turn totals plus the prefix tokens of exactly the turns that broke the prefix. |
| `Billing.BreakMeansRewrite` | benchmarks/lib/billing.ts:75-107 | A turn breaks the prefix just when an earlier message was dropped or changed in a way JSON can express. |
| `Billing.AppendOnlyRun` | benchmarks/lib/billing.ts:75-125 | A run that only appends never breaks the prefix, writes each token of the final context once, and reads at each turn what the turn before left. |
| `Billing.RunReplay` | benchmarks/replay.ts:72-166 | The replay loop bills, turn by turn, the views of the transcripts that its additions build; totals are the sums. |
| `Billing.ReplayWithoutEviction` | benchmarks/replay.ts:92-134 | Every replay with the image time-to-live off has no prefix break and writes exactly the tokens of the final context, whatever the cap does to messages as they are added. |
| `Billing.CapPassesTheGates` | benchmarks/replay.ts:177-193 | A cap that never makes a message cost more passes all token gates of the comparison with the raw replay. |
| `ProxyStream.CutsDoNotMatter` | packages/agent/src/proxy.ts:163-191 | However the response text is cut into chunks, reading gives the same pushed events, partial message and held-back line, or the same failure, as reading it whole. |
| `ProxyStream.AnyTwoCutsAgree` | packages/agent/src/proxy.ts:163-191 | Any two cuts of one text agree. |
| `ProxyStream.SplitAppend` | packages/agent/src/proxy.ts:175-177 | Text that arrives later only ever continues the last piece between newlines. |
| `ProxyStream.LinesRebuild` | packages/agent/src/proxy.ts:179-190 | Reading fails just when a payload does not decode or the script of events throws; otherwise the partial message is what the script rebuilds. |
| `ProxyLaws.LinesAnnounce` | packages/agent/src/proxy.ts:179-190 | A reading that lives has pushed what the script on its lines announces, in that order, and nothing else. |
| `ProxyLaws.PayloadExactly` | packages/agent/src/proxy.ts:180-182 | A line carries a payload just when it is the prefix and, between blanks, that payload, which is not empty. |
| `ProxyStream.StreamProxy` | packages/agent/src/proxy.ts:163-213 | For every sequence of chunks, every abort and every failure to read, what is left is the reading of the text received, closed with the failure if there is one. |
| `ProxyEvents.ProxyMessage.ProcessProxyEvent` | packages/agent/src/proxy.ts:219-348 | One event changes the message and is announced as specified, or throws and changes nothing. |
| `ProxyLaws.EventsAreAnnounced` | packages/agent/src/proxy.ts:219-348 | A start is announced over an empty block of its kind, a delta with its text, which is the block's new end, an end with the whole block, the last words with their reason; only a tool call's end that finds none, and what nobody handles, go unannounced. |
| `ProxyLaws.EventsKeepApart` | packages/agent/src/proxy.ts:219-348 | An event changes the block at its own index alone, and only the last words change how the message stands, to what they say. |
| `ProxyLaws.LastWord` | packages/agent/src/proxy.ts:330-341 | The last done or error of a script decides the reason and the usage, and an error the message. |
| `ProxyEvents.IndicesAreApart` | packages/agent/src/proxy.ts:219-348 | A script goes through just when its events at every index do, and leaves at each index what its own events make there. |
| `ProxyEvents.ThrowsUnlessOrderly` | packages/agent/src/proxy.ts:219-348 | A script does not throw just when every delta, and every end of text or thinking, finds as the last start of its index one of its own kind. |
| `ProxyEvents.BlocksHoldTheirDeltas` | packages/agent/src/proxy.ts:227-289 | A text or thinking block holds the deltas since its last start, joined, and the signature of its last end. |
| `ProxyEvents.EndsAnnounceTheText` | packages/agent/src/proxy.ts:245-289 | The end of a text or thinking block is announced with all deltas since its last start, joined. |
| `ProxyEvents.ToolArgumentsAreItsDeltas` | packages/agent/src/proxy.ts:291-329 | The arguments of a tool call are parsed from all its deltas joined just when no delta follows an end (or what was forgotten happened to read `undefined`); otherwise the forgotten text is replaced by that word. |
| `ProxyEvents.ForgottenUnlessEndsLast` | packages/agent/src/proxy.ts:301-329 | Text is forgotten just when a delta follows an end. |
| `ProxyEvents.DeltaAfterEnd` | packages/agent/src/proxy.ts:301-329 | A concrete script for which the arguments are not parsed from the joined deltas. |
| `SessionMigration.SessionRoot.MigrateFile` | packages/coding-agent/src/migrations.ts:213-233 | A legacy session stays just when its rename was refused or the file that has its name in the root is of its size and text; else its bytes are now a new file of the root. |
| `SessionMigration.SessionRoot.MigrateLegacySessionDirs` | packages/coding-agent/src/migrations.ts:189-243 | For every tree, every listing order and every failing rename: the result is that of coming to the sessions one by one in that order; the contents are kept, no root file changes, only legacy sessions move, all that were not refused end up with a twin in the root, and a settled tree is left as it is; only legacy directories are removed, and none that holds a file. |
| `SessionMigration.EverySessionIsInTheRoot` | packages/coding-agent/src/migrations.ts:189-254 | A legacy session that was not refused is in the root afterwards, byte for byte or as the equal text of the file that has its name. |
| `SessionMigration.StaysExactly` | packages/coding-agent/src/migrations.ts:213-233 | Over a whole migration, a legacy session whose name a root file has from the start stays just when it was refused or that file is of its size and text. |
| `SessionMigration.LegacyMeans` | packages/coding-agent/src/migrations.ts:178-218 | What counts as a legacy session: a directory name between double dashes, the suffix of sessions, and the content of one. |
| `SessionMigration.StaysByOrder` | packages/coding-agent/src/migrations.ts:213-233 | From the tree before, the listing order and the refusals: a session stays just when it is refused or those before it leave a root file of its name, size and text. |
| `SessionMigration.FirstListedWins` | packages/coding-agent/src/migrations.ts:213-233 | Of two sessions of one name, size and text in different directories, the one listed first gets the name in the root and the other stays where it is, if nobody has or claims the name before. |
| `SessionMigration.BytesArriveExactly` | packages/coding-agent/src/migrations.ts:213-254 | A content that only one legacy session has reaches the root just when the session was not refused and the root file with its name afterwards is not another content of the same size and text. |
| `SessionMigration.BytesArriveByOrder` | packages/coding-agent/src/migrations.ts:213-254 | The same decided beforehand, from the tree, the listing order and the refusals. |
| `SessionMigration.ShadowedSessionStays` | packages/coding-agent/src/migrations.ts:219-222 | A tree in which a session is shadowed: nothing is left to do, and its bytes are in no file of the root. |
| `SessionMigration.NoSessionIsLost` | packages/coding-agent/src/migrations.ts:245-254 | When no other content of the tree passes for that of a session, it is in the root byte for byte. |
| `SessionMigration.MoveKeeps` | packages/coding-agent/src/migrations.ts:228-232 | Moving a file to a free name keeps the multiset of contents and every other file. |
| `SessionMigration.SessionRoot.UniqueSessionRootPath` | packages/coding-agent/src/migrations.ts:256-264 | The search ends with the first numbered name that is free. |
| `SessionMigration.CandidateMeans` | packages/coding-agent/src/migrations.ts:256-264 | A numbered name is the name without its suffix, a dash, the number in decimal, and the suffix. |
| `SessionMigration.TakenBounds` | packages/coding-agent/src/migrations.ts:256-264 | Only as many numbered names can be taken as there are names taken, for no two numbers give one name. |
| `AuthMigration.AgentDir.MigrateAuthToAuthJson` | packages/coding-agent/src/migrations.ts:34-111 | One run, wherever it dies and whichever write fails, does to the directory what the specification says and names exactly the providers chosen. |
| `AuthMigration.CrashSafe` | packages/coding-agent/src/migrations.ts:81-108 | With a credential to write: through any number of runs that crash or fail anywhere, auth.json is absent and nothing has changed, or holds exactly the credentials first chosen; it is there as soon as one run lived to write it. |
| `AuthMigration.SafeExactly` | packages/coding-agent/src/migrations.ts:81-108 | That safety holds in general just when there is a credential to write or no readable source: with nothing chosen, sources are cleaned up although auth.json is never written. |
| `AuthMigration.EmptyLoginIsCleanedUp` | packages/coding-agent/src/migrations.ts:81-96 | A directory in which a source is cleaned up and auth.json is not written. |
| `AuthMigration.UninterruptedRun` | packages/coding-agent/src/migrations.ts:81-108 | A run that nothing interrupts leaves the chosen credentials in auth.json, a readable oauth.json set aside under its other name, and settings that held keys printed without them. |
| `AuthMigration.UnreadableStays` | packages/coding-agent/src/migrations.ts:46-96 | A source that cannot be read is left as it is through any number of runs, whatever happens. |
| `AuthMigration.ChosenExactly` | packages/coding-agent/src/migrations.ts:46-79 | A provider's OAuth login is chosen over its key; a key alone is chosen unless the provider bears the name of something every object inherits. |
| `AuthMigration.EveryCredentialIsChosen` | packages/coding-agent/src/migrations.ts:66-72 | No credential is left behind just when no key stands alone under such a name. |
| `AuthMigration.InheritedNameLosesItsKey` | packages/coding-agent/src/migrations.ts:66-108 | A directory in which a key is in neither file afterwards. |
| `Latex.LatexParser.ParseSequence` | packages/tui/src/latex.ts:593-617 | Terminates on every input, stops only at the end or at a closing brace, restores the text mode, and renders what the specification renders. |
| `Latex.LatexParser.ParseAtom` | packages/tui/src/latex.ts:619-633 | Advances strictly unless at the end. |
| `Latex.LatexParser.ParseOptionalBracket` | packages/tui/src/latex.ts:645-657 | Parses the bracketed slice with a fresh parser, noting on what it was started, or leaves everything in place. |
| `Latex.LatexParser.ParseCommand` | packages/tui/src/latex.ts:681-798 | Advances strictly; every command renders its arguments in their order. |
| `Latex.Sequence` | packages/tui/src/latex.ts:593-617 | The recursion over remaining source and call rank ends, at the end of the source or at a closing brace. |
| `Latex.MapScript` | packages/tui/src/latex.ts:558-569 | Maps every code point through the table, or nothing. |
| `Latex.MappedExactly` | packages/tui/src/latex.ts:558-569 | Succeeds just when every code point has a form. |
| `Latex.PlainParses` | packages/tui/src/latex.ts:589-617 | Text without special characters parses to itself. |
| `Latex.PlainGroup` | packages/tui/src/latex.ts:635-643 | A plain group renders as its inside and is read to its brace. |
| `Latex.PlainFraction` | packages/tui/src/latex.ts:740-751 | A fraction of plain groups is the form the table has for it, or else the first, a slash and the second, each in parentheses unless it is one code point or word-like. |
| `LatexText.FractionSays` | packages/tui/src/latex.ts:740-751 | The same for a whole source of any of the four fraction commands. |
| `LatexText.BinomialSays` | packages/tui/src/latex.ts:752-756 | A binomial is C( and the two groups with a comma between them. |
| `LatexText.RootSays` | packages/tui/src/latex.ts:757-764 | A root without index is the root sign before its operand, parenthesized as in a fraction. |
| `LatexText.IndexedRootSays` | packages/tui/src/latex.ts:757-771 | With index 3 or 4 it is the cube or fourth root sign; with any other, the index as superscripts, or behind a caret, before the root sign. |
| `LatexText.OversetSays` | packages/tui/src/latex.ts:781-787 | The base, then what stands above it as superscripts, or in braces behind a caret. |
| `LatexText.UndersetSays` | packages/tui/src/latex.ts:788-793 | The base, then what stands below it as subscripts, or in braces behind an underscore. |
| `LatexText.AccentSays` | packages/tui/src/latex.ts:734-738 | An accent goes behind each code point that is no white space. |
| `LatexText.ScriptSays` | packages/tui/src/latex.ts:659-669 | A script behind a base is its code points' forms from the table of its operator, or else the operator and the script as written, in braces unless it is one code point. |
| `LatexText.NotSays` | packages/tui/src/latex.ts:772-775 | A struck-out atom is the atom and the combining stroke. |
| `LatexText.TextSays` | packages/tui/src/latex.ts:720-726 | A text command shows its argument as written, carets and underscores included. |
| `LatexText.FontsSay` | packages/tui/src/latex.ts:727-733 | A font command shows its argument as it renders, an alphabet restyles it, an environment's name disappears. |
| `LatexText.SymbolSays` | packages/tui/src/latex.ts:702-711 | A command that stands for a text is that text. |
| `LatexText.EscapeSays` | packages/tui/src/latex.ts:687-692 | A backslash before anything but a letter gives its escape, or the character itself. |
| `LatexText.DelimiterSays` | packages/tui/src/latex.ts:801-818 | A delimiter shows as it is, but a dot is invisible. |
| `LatexText.AlignmentSays` | packages/tui/src/latex.ts:606-613 | An alignment mark is a space, unless one stands before it. |
| `LatexText.NamesMean` | packages/tui/src/latex.ts:739-798 | The names that these commands answer to; any other that no table knows stands for itself. |
| `LatexText.MappedJoins` | packages/tui/src/latex.ts:558-569 | Mapping goes piece by piece and succeeds when both pieces do. |
| `LatexText.AccentedJoins` | packages/tui/src/latex.ts:734-738 | So do accents. |
| `Latex.UnmatchedBraceCuts` | packages/tui/src/latex.ts:589-599 | Behind plain text, everything from a closing brace on is left out of the result. |
| `Latex.SequenceCut` | packages/tui/src/latex.ts:580-819 | Text beyond the point where reading stopped, cut off anywhere, makes no difference to what was read. |
| `Latex.StopsForGood` | packages/tui/src/latex.ts:589-599 | Dropping all from the stopping brace on leaves the result as it was. |
| `Latex.BracketLooksBeyond` | packages/tui/src/latex.ts:645-657 | Putting text behind that brace can change the result, because an optional bracket looks beyond it. |
| `LatexReading.ReadsUpToTheStrayBrace` | packages/tui/src/latex.ts:589-819 | For every source the parser stops just where one pass over its tokens, with a stack of what is still wanted, stops: at the end, or at the first closing brace that comes when nothing is wanted but further items. It starts parsers of its own on just the insides of brackets that this pass meets. |
| `LatexReading.AllReadExactly` | packages/tui/src/latex.ts:589-819 | For every source the parser, and each parser it starts, and each that those start, reach the end of their sources just when the passes over the tokens of the source and of the insides of its brackets, nested ones too, meet no stray brace. |
| `LatexReading.BracketDropsText` | packages/tui/src/latex.ts:645-657 | A source whose outer pass reaches the end while text inside its optional bracket is rendered nowhere. |
| `LatexReading.BracesDecide` | packages/tui/src/latex.ts:593-657 | Nothing of a source without commands is left unread just when no prefix of it closes more groups than it opens, braces taken by a script operator as its argument aside; else rendering stops right before the first prefix that does. |
| `LatexReading.DepthCounts` | packages/tui/src/latex.ts:593-633 | Without script operators either, that depth is the number of opening braces minus that of closing ones. |
| `LatexReading.CaretTakesTheBrace` | packages/tui/src/latex.ts:660-669 | A closing brace behind a caret is the argument, and what follows is rendered. |
| `LatexReading.LeftTakesTheBrace` | packages/tui/src/latex.ts:801-818 | A closing brace behind `\left` is the delimiter, and what follows is rendered. |
| `Fuzzy.MatchQuery` | packages/tui/src/fuzzy.ts:16-64 | The loop over the text finds the greedy positions and their score. |
| `Fuzzy.GreedyIsComplete` | packages/tui/src/fuzzy.ts:25-58 | The greedy walk succeeds just when the query is a subsequence of the text, and is then the leftmost embedding, position by position. |
| `FuzzyScores.MatchScores` | packages/tui/src/fuzzy.ts:25-64 | What is found scores a tenth for every matched position and two for every character skipped between the first match and the last, ten off for every match at a word start, five off for every match in a row counted over again, and a hundred off when the query is the whole text; what is not found scores nothing. |
| `FuzzyScores.StreakCounts` | packages/tui/src/fuzzy.ts:33-42 | A match counts those in a row before it, and itself when the row starts the text. |
| `FuzzyScores.StartScores` | packages/tui/src/fuzzy.ts:25-64 | The score of a query that starts the text, or is all of it, in closed form. |
| `FuzzyScores.SwapCosts` | packages/tui/src/fuzzy.ts:66-89 | The swapped query costs five more. |
| `Fuzzy.FoundExactly` | packages/tui/src/fuzzy.ts:12-89 | A match is found just when the lowercased query, or its letters and digits the other way round, is a subsequence of the lowercased text. |
| `Fuzzy.SwappedExactly` | packages/tui/src/fuzzy.ts:71-77 | The swap applies just to letters followed by digits or digits followed by letters. |
| `Fuzzy.Narrows` | packages/tui/src/fuzzy.ts:16-64 | A query found in a longer query is found wherever that is. |
| `Fuzzy.FuzzyFilterScored` | packages/tui/src/fuzzy.ts:101-135 | Returns the stable ranking of exactly the items that all words match; without words, all items unranked. |
| `Fuzzy.WordFirst` | packages/tui/src/fuzzy.ts:102-105 | Leading white space goes unnoticed, and a word before white space is the first of the words: with the word alone this determines the splitting of every query. |
| `Fuzzy.KeptExactly` | packages/tui/src/fuzzy.ts:113-131 | A result is an item all words match, with the sum of its scores, and every such item is one. |
| `Fuzzy.SortRanks` | packages/tui/src/fuzzy.ts:133-134 | The ranking is sorted and a permutation. |
| `Fuzzy.SortIsStable` | packages/tui/src/fuzzy.ts:133-134 | Equally good results keep their order. |
| `Fuzzy.OneStableRanking` | packages/tui/src/fuzzy.ts:133-134 | There is only one such ranking. |

## Left out

- Providers, `EventStream`, `validateToolArguments`, `fetch`, timers and hooks: their outcomes are arbitrary values chosen at each await.
- Model, thinking level, tools and system prompt of the agent state, timestamps, usage and identifiers: no step of the loop depends on them.
- Host calls that replace the agent's messages or `reset` it in the middle of a run, and listeners that throw.
- Delivery of batches in aborted runs: a batch that a poll has drained can be discarded when the abort wins the race or the next check throws.
- AgentLoop.Loop.RunLoop: does not state that a run ends, because the environment may keep it going; `Suspended` stands for a run still under way.
- TurnLaws.BetweenTurns: where an abort interferes after a turn, only what TurnLaws.StopIsFinal and AgentLoop.Loop.AfterTurn say holds; which hooks an aborted run still asks is not told.
- ToolBatch.InterleavingDoesNotMatter: the order in which tools are started after preparation is over-approximated, any prepared call may start next.
- RacingAbort.Race.Abort: registering and removing the listener is a flag; the signal object itself is not modelled.
- Selection, table selection, highlighting, hyperlink lookup and tips of the viewport; `visibleWidth`, `sliceByColumn` and image detection are functions about which only clipping to a width is assumed.
- Fullscreen.FullscreenViewport.Paint: assumes that the terminal has the size it is painted for; a terminal resized and resized back between two paints is covered only after `reset`.
- Screen.RowPainted: the terminal fills one cell per unit of drawn text; wide and combining characters are the metrics' business.
- Fullscreen.FullscreenViewport.ComposeFrame: does not state the table regions and the transcript kept for selection.
- LatexReading.BracesDecide: counts braces for sources without commands only; with commands the condition is that of LatexReading.AllReadExactly.
- Billing.PrefixBillingCache.Bill: the token estimate and the prefix hash are functions about which nothing is assumed.
- Billing.RunReplay: byte sizes, cap opportunities, image counts and the two ratio gates of the comparison are not modelled; `planImageEviction` and `capToolOutput` are arbitrary functions.
- StableJsonLaws.StableStringifyCanonical: a number is the text that prints it; finiteness is its only other property.
- StableJson.StableStringify: arrays have no holes. A hole prints nothing, so that in the source an array of one hole and an empty array print alike.
- Cyclic values and objects with their own `toJSON`, which `stableStringify` is not given.
- ProxyStream.StreamProxy: bytes are already decoded, the response was accepted, and events pushed after the final one are kept, where the stream class may ignore them.
- The shared `partial` message inside pushed events, which shows later changes to those who hold it.
- SessionMigration.SessionRoot.MigrateLegacySessionDirs: reading a file does not fail; a directory that cannot be listed counts as refused; other processes are not at work in the tree.
- `migrateSessionsFromAgentRoot`, which moves session files by a single existence check, and the migrations that rename the commands directory, tool binaries and keybindings.
- AuthMigration.AgentDir.MigrateAuthToAuthJson: a write to a file is one step, done or not done; file modes and symbolic links are not modelled, nor an OAuth entry named `__proto__`.
- Latex.LatexParser.ParseCommand: the symbol tables, code-point splitting and character classes are arbitrary functions; the clean-up of spaces around the parser is not modelled.
- Latex.Lookup: the tables answer to their own names only. In the source they are plain objects, so that `\constructor`, `\toString` or `\valueOf` finds an inherited function, whose text is printed, or which throws where its characters are listed, as behind a caret.
- Fuzzy.MatchQuery: scores are exact reals, where the source rounds to floating point; lower-casing and the character classes are arbitrary functions.
- Redaction by regular expressions, the model and keybinding catalogues, the undo and kill rings, and the reading of configuration files.
