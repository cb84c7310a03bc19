# A model of the XiaoAI voice agent

Dafny models of the stateful cores of the voice agent for a smart speaker, with
proofs of what they keep over every run. `dafny verify dfyconfig.toml` checks the
whole project; every claim below is a verified contract.

Code that the source writes by changing things step by step is written that way:
classes whose methods update their fields, and methods with loops. Each such method is
proved equal to one step of a specification function, each object's `RunEvents` to a
whole run of it, and the theorems are about that function over all runs.

## What is modelled

**The tool-call protocol of one realtime session** (`SessionMachine.dfy`,
`ToolProtocol.dfy`, `ToolSafety.dfy`, `ToolTheorems.dfy`, `DrainSafety.dfy`,
`ToolOutcomes.dfy`, `ToolArms.dfy`, `EventLoop.dfy`, `Reconnect.dfy`,
`SessionOutcomes.dfy`, `SessionRun.dfy`). One step is one arm of the event
loop's `select!` or one server event, run to the next loop head. The server, the
timers, the tools and the user are arbitrary. A history records which call ids were
received, executed, refused, dropped, answered and had an effect. The outer attempt
loop runs over it.

**The fail-closed MCP client** (`McpCalls.dfy`, `McpSafety.dfy`, `McpAnswers.dfy`, `McpClient.dfy`): any
number of callers and call workers, a poison flag, a broadcast cancel, a close-once
service. One step is one poll segment, what a task does between two awaits.

**Tool-list refresh and routing** (`McpRefresh.dfy`, `McpRouting.dfy`,
`McpNotices.dfy`, `McpHandler.dfy`): any number of notification handlers, the idle/running/pending cell,
the start-up pass beside them, and the replacement of the tools at every await. At this
grain a compare-exchange and the guard's store that follows it are one step, and so are
the two compare-exchanges of a notification that finds a refresh running.

**Session supervision and the wake loop** (`Supervision.dfy`, `SupervisedEnds.dfy`,
`WakeLoop.dfy`, `WakeTurns.dfy`, `VoiceService.dfy`): sessions by id, the active slot, worker and supervisor, waiters that
may be dropped, and the loop that moves turns between the warm and the active place,
composed with the sessions it drives.

**Playback** (`Player.dfy`, `Playing.dfy`, `PcmPlayers.dfy`): accepting (in one piece, or with other
tasks between the check and the send), interrupting, finishing, the bounded queue and the
player process that is restarted on a clear.

**Streams and codecs**: VAD segmentation (`VadSettings.dfy`, `Vad.dfy`,
`VadSegments.dfy`, `SpeechCollector.dfy`), the 16k to 48k upsampler and the bounded
writer (`Upsampler.dfy`, `OpusWriter.dfy`), the protobuf wire codec of the probe
(`Wire.dfy`, `WireTheorems.dfy`, `WireErrors.dfy`, `Downlink.dfy`, `WireCodec.dfy`; Protocol Buffers
encoding, sections "Base 128 Varints" and "Message Structure"), the JSON-Schema
normaliser (`Schema.dfy`, `SchemaTheorems.dfy`, `SchemaErrors.dfy`,
`SchemaNormalizer.dfy`) and the
reasoning-block stripper (`ThinkBlocks.dfy`).

`Options.dfy`, `Histories.dfy` and `Chunks.dfy` hold what several of them share.

## What turned out false, and exactly when

- The move to Ready when a playback drain elapses can be refused. It is refused exactly
  when a canceled `response.done` met an armed drain that nothing has re-armed or ended
  since, and no end of conversation is pending (`RefusedExactlyOnStaleDrain`, with a run
  that does it in `StaleDrainExists`).
- Routing does not always cover the registered proxies: a replacement that ended early
  leaves proxies that the managed list no longer names, and the next one publishes a
  table without them. A replacement that takes the lock keeps every later state covered
  exactly if those leftovers are among its new names (`CoveredIffFit`), every run whose
  replacements all do is covered throughout (`AlwaysCovered`), and `CoverageCanBeLost` is
  a run that loses coverage.
- A list pass can begin after a failure. It can exactly if the refresh cell is marked
  pending when the start-up pass fails (`LatePassIffPending`), then at most once
  (`AtMostOneLatePass`); after a failed refresh none ever begins (`NoPassAfterFailure`).
- A block accepted after `begin_response` can be thrown away by the interrupt before it.
  A clear takes a block of the current generation exactly if it was accepted while that
  clear was still unseen (`ClearedIff`; a run in `OlderInterruptDiscards`).
- Not every block written follows the latest interrupt: `try_audio` reads the accepting
  flag and then sends, and an interrupt can fall between. The stale block is written
  exactly if the player saw that interrupt before the send (`StaleWriteIff`; a run in
  `StaleWriteExists`). While no call is split, none is (`WritesFollowBegin`).
- A poisoned client's service need not ever be closed: a caller that closes it itself and
  is dropped meanwhile leaves it closing for good (`DroppedCloserNeverCloses`). A close
  that has begun can be finished exactly while somebody owns it (`CanCloseIff`).
- A field number of 2^61 or more does not survive the wire: the key loses its top bits
  (`MessageRoundTrip` is an equivalence). A decoded varint is the canonical encoding
  exactly under the condition of `CanonicalIff`.
- A process receives blocks from both sides of an interrupt in some run exactly if the
  player does not restart it on a clear (`NeverMixesIff`; a run in `KeptProcessMixes`).
  Production restarts it.
- Stripping reasoning blocks is not idempotent. A second pass changes nothing exactly
  when, where a block was taken out, the texts before it and the one after do not join to
  an opening tag (`StripIsIdempotentIff`; a string in `StripCanLeaveATag`).

## Single steps

The theorems of the table below are about runs and reachable states. Beside them stand
lemmas that say outright what one segment does: for the player
`Playing.ClearComesFirst`, `ControlComesNext`, `AudioComesLast`, `WritesAreAwaited`,
`DrainTakesAll` and `SentIff`; for the event loop `ToolArms.FatalEndsHarmlessStays` and
`OtherDoneIsViolation`; for the MCP client `McpAnswers.DroppedCallerIsGone` and
`ReturnedIsSafe`; for a refresh `McpNotices.ListedWaits`, `FailureCloses`, `ServedIs`,
`ReplacementBegins` and `ReplacementGoesOn`; for sessions
`SupervisedEnds.SupervisorNotices`, `UnstartedTurnsFinish`, `DroppedStaysDropped` and
`DropsAndInterrupts`; for the wake loop `WakeTurns.StartsWarm`, `TasksMoveOn` and
`TickLeavesTheActiveTurn`; for the writer `OpusWriters.StopsIff`; `Vad.CoolsDownIff`;
and for the session machine `SessionStates.EnteredFrom`, its table read by target.

## Model

| member | source | states |
|---|---|---|
| `SessionStates.SessionMachine.Transition` | xiaoai-agent/src/qwen_voice.rs:124-158 | a move is taken exactly when the transition table allows it; a refused move leaves the state |
| `SessionStates.ShutdownIsFinal` | xiaoai-agent/src/qwen_voice.rs:131-148 | once shutting down, whatever is asked for, the machine can only close, and closes exactly when asked to |
| `ToolSafety.StepKeeps` | xiaoai-agent/src/qwen_voice/webrtc_session.rs:1070-1342 | every arm and server event keeps the protocol invariant: ids, budgets, ordering of outputs and requests, session states |
| `ToolTheorems.SeenIdsSplit` | xiaoai-agent/src/qwen_voice/webrtc_session.rs:1053-1056 | at every loop head a seen call id is in exactly one of received, pending, answered, refused, dropped; only answered and refused ones have an output |
| `ToolTheorems.WaitsForTools` | xiaoai-agent/src/qwen_voice/webrtc_session.rs:1152-1170 | the loop waits exactly while tools are pending, then no received call is left over, and pending ids are distinct |
| `ToolTheorems.CallIdsUsedOnce` | xiaoai-agent/src/qwen_voice/webrtc_session.rs:1186-1200 | over any run, ended or not, an id is received, acted on, answered and effective at most once, and an effect raises the flag |
| `ToolTheorems.BudgetsHold` | xiaoai-agent/src/qwen_voice/webrtc_session.rs:49-60 | executions, outputs and response requests of one connection are bounded however long the server asks; the iteration check of the tool arm never fails |
| `ToolTheorems.RequestsFollowOutputs` | xiaoai-agent/src/qwen_voice/webrtc_session.rs:1260-1275 | when a response is requested every executed or refused call before it has been answered |
| `ToolTheorems.MatchesIsBijection` | xiaoai-agent/src/qwen_voice/webrtc_session.rs:1235-1244 | the length, distinctness and per-item checks pass exactly when the listed calls are the received ones, each once, none left out |
| `ToolTheorems.DoneCallsListed` | xiaoai-agent/src/qwen_voice/webrtc_session.rs:1221-1224 | the calls read off a response.done are its function-call items with their positions, no more and no fewer |
| `ToolTheorems.DoneCallsInOrder` | xiaoai-agent/src/qwen_voice/webrtc_session.rs:1221-1224 | they keep the order of the output |
| `ToolTheorems.DispatchedCallsAreListed` | xiaoai-agent/src/qwen_voice/webrtc_session.rs:1280-1286 | the tool futures started are exactly one per listed call, with its item, position, name and arguments |
| `ToolOutcomes.BatchDecided` | xiaoai-agent/src/qwen_voice/webrtc_session.rs:1235-1287 | in every reachable state a completed response's calls are executed if they are the received ones, fewer batches than the limit were executed, and they fit into what is left of the call budget; else the first two such batches are refused and answered, the third ends the loop, and a list that does not match is a violation |
| `ToolOutcomes.ExecutedIff` | xiaoai-agent/src/qwen_voice/webrtc_session.rs:1245-1286 | a listed batch is executed if and only if it is the received one and within both limits, counted in the history |
| `ToolArms.ReceivedIff` | xiaoai-agent/src/qwen_voice/webrtc_session.rs:1186-1201 | a call is received exactly if no tool runs, no other response is followed, its id is new to the connection and its sizes fit; otherwise a violation and nothing recorded |
| `ToolArms.RoutedCallsGoToMcp` | xiaoai-agent/src/qwen_voice/webrtc_session.rs:1284-1286 | the tools started are one per listed call, and each goes to MCP exactly if its arguments are an object and its name is routed there |
| `ToolArms.EffectsAreRecorded` | xiaoai-agent/src/qwen_voice/webrtc_session.rs:1284-1286 | at every loop head each running tool is recorded as effective exactly if its work may have begun, which raises the flag that forbids a reconnect |
| `ToolArms.FinishedCallIsAnswered` | xiaoai-agent/src/qwen_voice/webrtc_session.rs:1152-1170 | a finished call is answered, and exactly the last of its batch asks for the next response; a failing send ends the loop |
| `ToolArms.InterruptStopsTheResponse` | xiaoai-agent/src/qwen_voice/webrtc_session.rs:1087-1110 | an accepted interrupt stops playback, gives up the response under way, tells the server if it is known, drops exactly the calls received for it, and leaves running tools alone |
| `ToolArms.CanceledIsForgotten` | xiaoai-agent/src/qwen_voice/webrtc_session.rs:1208-1218 | a canceled response is forgotten with exactly the calls received for it; somebody else's is ignored |
| `ToolArms.CancelEnds` | xiaoai-agent/src/qwen_voice/webrtc_session.rs:1074-1086 | a cancelled session always ends in order, the response under way cancelled first |
| `ToolArms.CreatedIsFollowed` | xiaoai-agent/src/qwen_voice/webrtc_session.rs:1294-1309 | a response that begins is followed and its deadline runs; no move is refused |
| `ToolArms.SpeechIsCaptured` | xiaoai-agent/src/qwen_voice/webrtc_session.rs:1310-1323 | speech stops playback and every timer, and the session captures; no move is refused |
| `ToolArms.EmptyResponsePlaysOut` | xiaoai-agent/src/qwen_voice/webrtc_session.rs:1225-1234 | a response without calls is played out, with the drain armed; a received call left over is a violation |
| `ToolArms.EndsWhenAsked` | xiaoai-agent/src/qwen_voice/webrtc_session.rs:1116-1140 | when playback has drained the session ends in order exactly if some response before asked for it by calling end_conversation; otherwise it is ready again, or the stale drain is refused |
| `DrainSafety.RefusedExactlyOnStaleDrain` | xiaoai-agent/src/qwen_voice/webrtc_session.rs:1116-1130 | a session move is refused exactly when the drain elapses stale and no end of conversation is pending; loop-head states are Capturing, Responding or Ready |
| `DrainSafety.AllMovesAccepted` | xiaoai-agent/src/qwen_voice/webrtc_session.rs:1208-1217 | if no canceled response.done met an armed drain, every attempted move is accepted |
| `DrainSafety.CanceledDrainIsRefused` | xiaoai-agent/src/qwen_voice/webrtc_session.rs:1208-1217 | after one, the drain's elapsing is refused unless the conversation is ending |
| `DrainSafety.StaleDrainExists` | xiaoai-agent/src/qwen_voice/webrtc_session.rs:1225-1234 | a server can bring it about with three events |
| `EventLoops.EventLoop.Handle` | xiaoai-agent/src/qwen_voice/webrtc_session.rs:1072-1341 | the loop's own field updates make exactly the protocol's step |
| `EventLoops.EventLoop.RunEvents` | xiaoai-agent/src/qwen_voice/webrtc_session.rs:1070-1343 | the loop over any events is the protocol's run |
| `EventLoops.EventLoop.FinishCalls` | xiaoai-agent/src/qwen_voice/webrtc_session.rs:1235-1287 | match, refuse or dispatch, in the source's order of checks |
| `Reconnect.SessionSafety` | xiaoai-agent/src/qwen_voice/webrtc_session.rs:183-235 | over a whole session at most three attempts start, only the last can have had an effect, no id has an effect twice, no mandatory move is refused |
| `Reconnect.NoAttemptAfterEffect` | xiaoai-agent/src/qwen_voice/webrtc_session.rs:203-208 | once a tool may have had an effect nothing the environment does starts another attempt |
| `SessionOutcomes.RetriesIff` | xiaoai-agent/src/qwen_voice/webrtc_session.rs:201-234 | after an attempt that failed another one starts exactly if it was the first or the second, no attempt had a tool effect, the machine was not shutting down, and nobody cancelled during the backoff; else how the session ends |
| `SessionOutcomes.ThreeAttempts` | xiaoai-agent/src/qwen_voice/webrtc_session.rs:183-234 | however many attempts would fail without effect, exactly three are made and the session has failed; fewer leave it trying |
| `SessionOutcomes.AttemptEnds` | xiaoai-agent/src/qwen_voice/webrtc_session.rs:237-412 | when one attempt ends well, is still live, or has failed |
| `SessionOutcomes.AttemptLeaves` | xiaoai-agent/src/qwen_voice/webrtc_session.rs:237-412 | the history and the machine's state that an attempt leaves: closed exactly after an orderly loop, idle tools and a clean teardown |
| `SessionOutcomes.OtherwiseEnds` | xiaoai-agent/src/qwen_voice/webrtc_session.rs:184-200 | cancelled between attempts the session closes; an attempt that did not fail ends it as it ended |
| `SessionRuns.RunAttempt` | xiaoai-agent/src/qwen_voice/webrtc_session.rs:340-412 | one attempt moves the machine and reports as specified, on every way out |
| `SessionRuns.RunPass` | xiaoai-agent/src/qwen_voice/webrtc_session.rs:183-230 | one turn of the attempt loop, with its cancellation, failure and backoff exits, is the specified pass |
| `SessionRuns.RunSession` | xiaoai-agent/src/qwen_voice/webrtc_session.rs:172-235 | the attempt loop is the specified passes |
| `McpSafety.StepKeeps` | xiaoai-agent/src/mcp.rs:538-669 | every poll segment of every caller and worker keeps the client's invariant |
| `McpSafety.FailsClosed` | xiaoai-agent/src/mcp.rs:599-605 | a poisoned client stays poisoned and cancelled, and from then on no request is sent and no success reported |
| `McpSafety.AmbiguityIsFinal` | xiaoai-agent/src/mcp.rs:528-605 | a call that times out or is dropped in flight poisons and cancels in that very segment, whatever follows keeps it so, and no worker sends or reports success later |
| `McpSafety.ClosesOnce` | xiaoai-agent/src/mcp.rs:614-645 | the service is taken and closed at most once, and whoever takes it finds it there |
| `McpSafety.AnswersAreEarned` | xiaoai-agent/src/mcp.rs:569-597 | only a worker answers success, and a timeout is answered only once the service is closed |
| `McpAnswers.ResponseIsTheAnswer` | xiaoai-agent/src/mcp.rs:575-597 | the response decides the answer: success, tool error, unexpected response or failed request, each exactly for its own kind, and a success is recorded exactly then |
| `McpAnswers.SuccessIff` | xiaoai-agent/src/mcp.rs:575-597 | over any run a call has succeeded exactly if its successful response arrived while it listened, its caller was there and nobody had given up |
| `McpAnswers.AskedOnce` | xiaoai-agent/src/mcp.rs:549-574 | a call sends its request at most once, and answers what only a response can say after sending it |
| `McpAnswers.CallStartsIff` | xiaoai-agent/src/mcp.rs:441-477 | a call is started exactly if routing never failed, the client is not poisoned and the arguments are an object; else how it is refused |
| `McpAnswers.FirstPollIff` | xiaoai-agent/src/mcp.rs:545-548 | a started call asks for its request unless somebody gave up before its first poll |
| `McpAnswers.GivesUpIff` | xiaoai-agent/src/mcp.rs:559-597 | a call gives up exactly if its caller is gone, another has given up, or its deadline passed; with which reason, and that this poisons and cancels all |
| `McpAnswers.CleanupIsTheAnswer` | xiaoai-agent/src/mcp.rs:599-668 | who gave up answers its reason exactly if the service is closed by then, and otherwise that closing failed or took too long |
| `McpAnswers.FirstToGiveUpCloses` | xiaoai-agent/src/mcp.rs:604-641 | the first to give up tells the server, takes the service, closes it and answers |
| `McpAnswers.LookTellsIff` | xiaoai-agent/src/mcp.rs:482-492 | a look finds the client idle exactly if no call is live and a poisoned service is closed; a failed close is told apart |
| `McpAnswers.CanCloseIff` | xiaoai-agent/src/mcp.rs:612-641 | a close that has begun can still be finished exactly if somebody owns it |
| `McpAnswers.DroppedCloserNeverCloses` | xiaoai-agent/src/mcp.rs:447-450 | a caller that closes the service itself and is dropped meanwhile abandons it: it is never closed and no look finds the client idle |
| `McpSafety.ActiveCallsAreLive` | xiaoai-agent/src/mcp.rs:502-509 | the call counter is the number of live workers |
| `McpSafety.IdleMeansClosed` | xiaoai-agent/src/mcp.rs:479-499 | an idle answer means no live worker, and on a poisoned client a closed service |
| `McpClients.NativeMcpState.RunEvents` | xiaoai-agent/src/mcp.rs:441-669 | the flags, counter and close-once state changed in place by callers, workers and drops in any order make exactly the protocol's run |
| `McpRefresh.SingleFlight` | xiaoai-agent/src/mcp.rs:235-256 | however many handlers there are at most one is inside a refresh, and the cell is idle exactly when none is |
| `McpRefresh.NoNotificationLost` | xiaoai-agent/src/mcp.rs:246-253 | idle without failure, the last list pass began no earlier than the last accepted notification |
| `McpRefresh.OneFollowUp` | xiaoai-agent/src/mcp.rs:280-296 | notifications accepted during a pass, any number of them and only those, cause exactly one further pass that sees them all |
| `McpRefresh.PassesBeginHere` | xiaoai-agent/src/mcp.rs:239-257 | nothing else begins a pass, apart from the notification that finds the cell idle |
| `McpRefresh.NoPassAfterFailure` | xiaoai-agent/src/mcp.rs:257-279 | after a failed refresh no pass ever begins |
| `McpRefresh.AtMostOneLatePass` | xiaoai-agent/src/mcp.rs:847-877 | however long the client runs after the start-up pass failed, at most one pass begins |
| `McpRefresh.LatePassIff` | xiaoai-agent/src/mcp.rs:239-257 | after any failure a further pass can begin exactly while the cell is pending |
| `McpRefresh.LatePassIffPending` | xiaoai-agent/src/mcp.rs:847-891 | when the start-up pass fails, by its list, its replacement or its deadline, a later pass can begin exactly if the cell is pending at that moment |
| `McpRefresh.LatePassExists` | xiaoai-agent/src/mcp.rs:294-296 | a five-event run that begins one |
| `McpNotices.AcceptedAreHeard` | xiaoai-agent/src/mcp.rs:235-256 | the notifications accepted are exactly those before any failure |
| `McpNotices.NotifyStartsIff` | xiaoai-agent/src/mcp.rs:235-257 | a notification starts a refresh exactly if none runs and nothing has failed; otherwise it marks the cell or is ignored, and its handler is done |
| `McpNotices.CompletedPassIs` | xiaoai-agent/src/mcp.rs:280-297 | a completed pass is over, or lists again exactly if the cell was marked |
| `McpRouting.AlwaysCovered` | xiaoai-agent/src/mcp.rs:194-219 | at every await, early exits included, every registered proxy is in the routing table, in every run whose replacements find the leftovers of earlier ones among their names |
| `McpRouting.CompletionIsClean` | xiaoai-agent/src/mcp.rs:193-219 | a replacement completed in such a run, by its last call or at once because there was nothing to remove or add, leaves table, managed list and proxies equal, leftovers included |
| `McpRouting.CoveredIffFit` | xiaoai-agent/src/mcp.rs:194-219 | a replacement that takes the lock keeps every later state covered exactly if its leftovers fit; otherwise a continuation loses a route |
| `McpRouting.PublishingCovers` | xiaoai-agent/src/mcp.rs:200-211 | from any state, publishing covers the proxies exactly when those missing from the managed list are among the new names |
| `McpRouting.CoverageCanBeLost` | xiaoai-agent/src/mcp.rs:858-877 | a concrete run: a start-up replacement dropped by its deadline, then a refresh, leaves a proxy without a route |
| `McpHandlers.ReplacementCoversIff` | xiaoai-agent/src/mcp.rs:194-219 | a replacement stays covered under all answers and deadlines exactly if the leftovers it found are among its names, and completion then leaves exactly the new tools everywhere |
| `McpHandlers.ReplacementCompletesIff` | xiaoai-agent/src/mcp.rs:194-219 | a replacement completes exactly if the tool server confirms one call for each tool to remove and one for each to add |
| `McpHandlers.RefusalLeaves` | xiaoai-agent/src/mcp.rs:194-219 | a refused call leaves what the deadline would, apart from the proxy it touched if it took effect |
| `McpHandlers.NativeMcpHandler.ReplaceTools` | xiaoai-agent/src/mcp.rs:194-219 | the two loops do what the specified replacement does on the same answers |
| `McpHandlers.NativeMcpHandler.RunEvents` | xiaoai-agent/src/mcp.rs:194-297 | the cell, the routing set and the managed list changed in place by handlers, start-up pass and tool server in any order make exactly the protocol's run |
| `Supervision.OneLiveWorker` | xiaoai-agent/src/qwen_voice.rs:1014-1053 | for any prepares, cancels and dropped waiters at most one worker is live, and it owns the slot |
| `Supervision.ReleaseClearsOwnSlot` | xiaoai-agent/src/qwen_voice.rs:842-847 | a stale id never clears a newer session's slot; only the owner's release empties it |
| `Supervision.TerminalMeansReleased` | xiaoai-agent/src/qwen_voice.rs:1086-1088 | an outcome appears only after the worker ended and the slot was released, and is the worker's own or a forced timeout of a cancelled session |
| `Supervision.RefusedIffSupervised` | xiaoai-agent/src/qwen_voice.rs:1038-1049 | a newcomer is refused exactly while another session is supervised; replacing a completed session in the slot never happens |
| `Supervision.DroppedWaiterCancels` | xiaoai-agent/src/qwen_voice.rs:860-866 | dropping the waiter of a running session cancels it and its supervisor stays to release the slot |
| `Supervision.NoSetUpAfterCancel` | xiaoai-agent/src/qwen_voice.rs:825-840 | once a cancel was requested the worker sets up no resources |
| `SupervisedEnds.OutcomeIff` | xiaoai-agent/src/qwen_voice.rs:1055-1106 | over any run an outcome is a forced timeout exactly if the deadline passed while the cancelled worker was at work, and otherwise clean exactly if the worker ended well |
| `SupervisedEnds.EndedIsReleased` | xiaoai-agent/src/qwen_voice.rs:1055-1106 | when a worker ends, its supervisor's next two segments free the slot and publish the outcome, and the waiter then learns of it and is done |
| `SupervisedEnds.EnteringIs` | xiaoai-agent/src/qwen_voice.rs:1038-1053 | a turn that finds the slot free takes it and its worker starts; one that finds it taken is cancelled and changes nothing else |
| `SupervisedEnds.CancelledIff` | xiaoai-agent/src/qwen_voice.rs:849-866 | a session is cancelled exactly if it was told to, its waiter was dropped, or it was refused |
| `SupervisedEnds.SetsUpIff` | xiaoai-agent/src/qwen_voice.rs:825-840 | a worker sets its resources up exactly if nobody has asked its session to stop |
| `VoiceServices.QwenVoiceService.RunEvents` | xiaoai-agent/src/qwen_voice.rs:776-1106 | slot, gates, workers, supervisors and waiters changed in place in any order make exactly the protocol's run |
| `WakeLoops.NeverWarmAndActive` | xiaoai-agent/src/main.rs:287-514 | the loop never holds a warm and an active turn together, and only one session task is unfinished |
| `WakeLoops.JoinsBeforePreparing` | xiaoai-agent/src/main.rs:327-366 | whenever a turn is prepared every earlier task has ended and the slot is free of it |
| `WakeLoops.NeverAlreadyActive` | xiaoai-agent/src/main.rs:411-514 | the refusal of a second active session cannot happen from this loop |
| `WakeLoops.WakeInterrupts` | xiaoai-agent/src/main.rs:92-101 | a wake word during an unfinished conversation interrupts it and changes nothing else |
| `WakeLoops.NeverWaitsUnasked` | xiaoai-agent/src/main.rs:112-130 | the loop waits for a native task only when it has ended or its session was told to cancel |
| `WakeLoops.WarmTurnIsQuiet` | xiaoai-agent/src/main.rs:103-110 | a warm turn was never activated or interrupted |
| `WakeTurns.WakeGreetsTheWarmTurn` | xiaoai-agent/src/main.rs:327-405 | a wake word with a warm turn ready activates it and makes it the active one |
| `WakeTurns.WakeWithoutWarmTurn` | xiaoai-agent/src/main.rs:347-455 | without one a new turn is prepared and greeted if that works, or a legacy turn is started |
| `WakeTurns.WakeJoinsAStaleWarmTurn` | xiaoai-agent/src/main.rs:330-346 | a warm turn that has ended is joined first, then as without one |
| `WakeTurns.WakeReplacesTheActiveTurn` | xiaoai-agent/src/main.rs:313-325 | an active turn that cannot be interrupted is cancelled, waited for and replaced |
| `WakeTurns.TickReplacesTheFinishedTurn` | xiaoai-agent/src/main.rs:412-444 | an ended active turn is joined; a native one is followed by a new warm turn if one can be prepared |
| `WakeTurns.TickRetiresTheWarmTurn` | xiaoai-agent/src/main.rs:459-491 | a warm turn to be rotated or too old is cancelled and waited for; an ended one is joined; any other is left alone |
| `WakeTurns.TickRespawns` | xiaoai-agent/src/main.rs:492-518 | with no turn left a tick prepares a warm one exactly if the loop is native, it is time, and it works |
| `VoiceServices.WakeLoop.RunEvents` | xiaoai-agent/src/main.rs:287-514 | the loop's own places and timers, branch by branch among the tasks it spawned, make exactly the protocol's run |
| `Player.WritesFollowBegin` | xiaoai-agent/src/qwen_voice.rs:540-661 | as long as no call of try_audio is split, every block the player starts writing, drain included, was accepted under a begin_response that follows the latest interrupt |
| `Player.StaleWriteIff` | xiaoai-agent/src/qwen_voice.rs:223-266 | when anything may come between its check and its send, a block checked before the latest interrupt is written exactly if the interrupt fell between the two and the player had seen it before the send |
| `Player.StaleWriteExists` | xiaoai-agent/src/qwen_voice.rs:223-266 | a concrete run writes such a block |
| `Player.HalvesMakeTheCall` | xiaoai-agent/src/qwen_voice.rs:223-247 | in any reachable state that accepts audio, the two halves with nothing between them are the whole call |
| `Player.EveryBlockAccountedFor` | xiaoai-agent/src/qwen_voice.rs:223-247 | over every run each accepted block is in order exactly one of written, discarded by a clear, left without a process, or still queued; at most 40 are queued |
| `Player.ClearedIff` | xiaoai-agent/src/qwen_voice.rs:563-568 | a block was discarded by a clear exactly if it was accepted before the latest interrupt or before the player saw it |
| `Player.OlderInterruptDiscards` | xiaoai-agent/src/qwen_voice.rs:257-276 | a concrete run in which the older interrupt throws away a block of the new response |
| `Player.ProcessesNeverMix` | xiaoai-agent/src/qwen_voice.rs:563-578 | in production no process gets blocks sent on both sides of an interrupt, drain and split calls included |
| `Player.NothingWrittenAfterStop` | xiaoai-agent/src/qwen_voice.rs:248-255 | after a stop nothing more is written, unless the player was already draining |
| `Player.NeverMixesIff` | xiaoai-agent/src/qwen_voice.rs:569-577 | no run mixes sides in one process exactly if the player restarts it on a clear |
| `Player.KeptProcessMixes` | xiaoai-agent/src/qwen_voice.rs:569-577 | without the restart a concrete run does |
| `Playing.FinishPlaysTheQueue` | xiaoai-agent/src/qwen_voice.rs:579-662 | finishing plays what is queued: with a process and no unseen clear, whatever else happens short of a stop, an abort or a failing write, the player writes only to that process, enough finished polls end it, and every queued block has then been written, in order |
| `Playing.QueuedBlocksArePlayed` | xiaoai-agent/src/qwen_voice.rs:588-649 | an undisturbed player discards nothing and writes each queued block, in order, within two finished polls each |
| `Playing.LeftoversMeanTrouble` | xiaoai-agent/src/qwen_voice.rs:560-662 | an ended player has blocks left only if it was stopped, aborted, refused a process or had a write fail |
| `Playing.AnswersOfTryAudio` | xiaoai-agent/src/qwen_voice.rs:223-247 | what try_audio answers, by what came last: accepted, suppressed, full or closed, and that it queues the block exactly when it says so |
| `Playing.AbortIsFinal` | xiaoai-agent/src/qwen_voice.rs:513-538 | an aborted player writes nothing more, and once set-up was cancelled no process is spawned |
| `PcmPlayers.PcmPlayer.RunEvents` | xiaoai-agent/src/qwen_voice.rs:223-287 | handle calls and polls on the shared flags, the queue and the process, in any order, make exactly the model's run |
| `VadSettings.BlockMsAtLeastFive` | xiaoai-agent/src/vad.rs:39-42 | the recomputed block length is at least 5 ms and at least about half the configured one for every positive sample rate |
| `VadSettings.ConfigureIsSound` | xiaoai-agent/src/vad.rs:39-52 | every configuration with a positive sample rate meets what the segmentation theorems ask for |
| `VadSettings.SettingsAre` | xiaoai-agent/src/vad.rs:39-52 | every setting by what it means: whole samples per block, whole milliseconds, the fewest pre-roll blocks that cover their time, at least a second per utterance |
| `VadSegments.ChunksDoNotMatter` | xiaoai-agent/src/vad.rs:67-77 | events and state depend only on the concatenated bytes |
| `VadSegments.SegmentsAreRight` | xiaoai-agent/src/vad.rs:79-143 | the events are a start and one verdict per segment; each opens at the first voiced block out of cooldown with its pre-roll, closes at the first block that stops it, and its utterance is exactly that slice of the gained stream |
| `VadSegments.SlicesAreDisjoint` | xiaoai-agent/src/vad.rs:100-116 | successive slices are disjoint and in order |
| `VadSegments.SegmentsAreBounded` | xiaoai-agent/src/vad.rs:119-130 | a segment closes within max(pre-roll + 1, ceil(max utterance / block)) blocks, and its milliseconds are its blocks times the block length |
| `SpeechCollectors.SpeechCollector.Push` | xiaoai-agent/src/vad.rs:67-77 | the draining loop is the specified one |
| `SpeechCollectors.SpeechCollector.PushBlock` | xiaoai-agent/src/vad.rs:79-143 | a block changes the counters and buffers as specified |
| `WireTheorems.VarintRoundTrip` | xiaoai_asr_probe/src/main.rs:517-523 | for every u64, decoding its encoding followed by anything gives the value and exactly what followed |
| `WireTheorems.CanonicalIff` | xiaoai_asr_probe/src/main.rs:583-596 | the bytes read are the value's own encoding exactly when they end in no idle zero group and lose no bit |
| `WireTheorems.ParseDistributes` | xiaoai_asr_probe/src/main.rs:533-581 | parsing distributes over concatenation after any input that parses |
| `WireTheorems.MessageRoundTrip` | xiaoai_asr_probe/src/main.rs:485-515 | a message of varint and bytes fields parses to the list it was built from exactly when all numbers are below 2^61 |
| `WireErrors.VarintIs` | xiaoai_asr_probe/src/main.rs:583-596 | any bytes: a varint is the sum of its seven-bit digits modulo 2^64, and each of the two errors occurs exactly when no byte in time ends it |
| `WireErrors.EveryKindParses` | xiaoai_asr_probe/src/main.rs:533-581 | messages of fields of every kind, fixed ones included, parse to those fields |
| `WireErrors.CutMessageFails` | xiaoai_asr_probe/src/main.rs:533-581 | a message whose last field is cut short anywhere is rejected with the error of what was cut |
| `WireErrors.OtherWiresFail` | xiaoai_asr_probe/src/main.rs:573-577 | the other wire types are refused by number |
| `Downlink.LastFieldWins` | xiaoai_asr_probe/src/main.rs:449-483 | whatever bytes parse, with fields in any order and repeated: of each number the event and the partial result hold the last field; what does not parse is rejected |
| `Downlink.DownwardConcatenates` | xiaoai_asr_probe/src/main.rs:449-468 | after bytes that parse, further bytes override: the event is that of both field lists, or none if the second does not parse |
| `Downlink.PartsMakeOneDownlink` | xiaoai_asr_probe/src/main.rs:449-515 | a downlink encoded in two parts is the encoding of all its fields, and decodes to their event |
| `Downlink.DownlinkRoundTrip` | xiaoai_asr_probe/src/main.rs:431-483 | a partial result in a downlink in a speech message, each built of any fields, decodes to the last field of each number inside |
| `Downlink.SpeechIsTakenIff` | xiaoai_asr_probe/src/main.rs:431-447 | a speech message is taken exactly if its first type is downward, it holds a downlink, and that parses |
| `Downlink.FirstIs` | xiaoai_asr_probe/src/main.rs:431-447 | the first field of a number and kind is the one no other precedes |
| `Downlink.LastIs` | xiaoai_asr_probe/src/main.rs:449-483 | the last field of a number and kind is the one no other follows |
| `WireCodec.EncodeVarint` | xiaoai_asr_probe/src/main.rs:517-523 | the shifting loop appends the encoding |
| `WireCodec.BuildMessage` | xiaoai_asr_probe/src/main.rs:485-515 | encoding field by field and joining the parts gives the message |
| `WireCodec.DecodeVarint` | xiaoai_asr_probe/src/main.rs:583-596 | the shift-and-or loop reads what the specification reads, errors included |
| `WireCodec.ParseFields` | xiaoai_asr_probe/src/main.rs:533-581 | the cursor loop reads the specified fields or the first error |
| `WireCodec.DecodeDownward` | xiaoai_asr_probe/src/main.rs:449-468 | the matching loop returns the event of the last field of each number, or none if the bytes do not parse |
| `Upsampler.StreamingIsOneShot` | xiaoai-agent/src/qwen_voice/webrtc_session.rs:913-931 | any split into even chunks followed by a flush emits what one-shot upsampling emits |
| `Upsampler.ThreePerSample` | xiaoai-agent/src/qwen_voice/webrtc_session.rs:915-925 | n samples give exactly 3n outputs, every third is the input, the others lie between their neighbours so the cast never wraps |
| `Upsampler.InterpolatesLinearly` | xiaoai-agent/src/qwen_voice/webrtc_session.rs:917-922 | each output lies on the straight line from its sample to the next, less than a step off and never further from the former, which leaves one value |
| `Upsampler.RunsOneWay` | xiaoai-agent/src/qwen_voice/webrtc_session.rs:917-922 | from each sample to the next the output is monotone |
| `Upsampler.SamplesAreLittleEndian` | xiaoai-agent/src/qwen_voice/webrtc_session.rs:914-915 | samples are read as little-endian two's complement, one per two bytes |
| `OpusWriters.NothingIsLost` | xiaoai-agent/src/qwen_voice/webrtc_session.rs:867-909 | over every run sent and dropped samples in order followed by the buffer are exactly what was produced; at most 9600 buffered, 9603 after the flush |
| `OpusWriters.TickSendsOldest` | xiaoai-agent/src/qwen_voice/webrtc_session.rs:892-907 | each tick sends exactly the oldest 960 waiting samples, or all of them and silence; a failed write ends the writer |
| `OpusWriters.ChunkDropsExcess` | xiaoai-agent/src/qwen_voice/webrtc_session.rs:873-885 | a chunk drops exactly what exceeds 9600 waiting samples; half a sample ends the writer and is not taken |
| `OpusWriters.OpusWriter.RunEvents` | xiaoai-agent/src/qwen_voice/webrtc_session.rs:852-936 | the writer's buffer changed in place by chunks and ticks in any order makes exactly the model's run |
| `OpusWriters.OpusWriter.EnqueueUpsampledPcm` | xiaoai-agent/src/qwen_voice/webrtc_session.rs:913-925 | the sample loop emits and remembers as specified |
| `Schema.CollapseIffNames` | xiaoai-agent/src/qwen_voice.rs:1191-1212 | a union collapses to a type exactly when all its members are strings and that type is the only one besides null |
| `SchemaTheorems.SucceedsIff` | xiaoai-agent/src/qwen_voice.rs:1187-1227 | the normaliser succeeds exactly when every array-valued type anywhere in the tree names exactly one non-null type |
| `SchemaTheorems.ResultIsNormal` | xiaoai-agent/src/qwen_voice.rs:1187-1227 | the result has no array-valued type at any depth and is a fixed point |
| `SchemaTheorems.NothingElseChanges` | xiaoai-agent/src/qwen_voice.rs:1214-1224 | along every path the result is as before, except that a union is the one type it names |
| `SchemaTheorems.SuccessLeavesResult` | xiaoai-agent/src/qwen_voice.rs:1187-1227 | a call that succeeds leaves its result in place |
| `SchemaTheorems.LeftBehind` | xiaoai-agent/src/qwen_voice.rs:1187-1227 | after a failure too, along every path the tree is as it was or has a union replaced by the type it names |
| `SchemaErrors.FirstErrorIsReported` | xiaoai-agent/src/qwen_voice.rs:1187-1227 | for every tree the error reported is that of the first union in walking order that does not collapse, and there is none exactly if all do |
| `SchemaErrors.FailureStopsTheWalk` | xiaoai-agent/src/qwen_voice.rs:1187-1227 | of the unions in walking order the tree left behind has lost exactly those before the first bad one |
| `SchemaErrors.CollapseFailsIff` | xiaoai-agent/src/qwen_voice.rs:1191-1212 | which of the two errors a union gives, exactly |
| `SchemaNormalizer.NormalizeSchema` | xiaoai-agent/src/qwen_voice.rs:1187-1227 | the loops leave the specified tree, partly rewritten after a failure, and report the first error in walking order |
| `ThinkBlocks.StripRender` | xiaoai-agent/src/agent.rs:112-137 | stripping a rendered message leaves exactly its plain texts; a block that is cut off drops the rest |
| `ThinkBlocks.BlocksOfEitherSpellingGo` | xiaoai-agent/src/agent.rs:112-137 | with the tags spelled out: a block of either spelling goes, with its tags and all they enclose |
| `ThinkBlocks.StripIsPlainText` | xiaoai-agent/src/agent.rs:112-137 | every string whatever is exactly one such message, so this says what stripping does to all strings |
| `ThinkBlocks.ParseRender` | xiaoai-agent/src/agent.rs:112-137 | no two proper messages render alike |
| `ThinkBlocks.StripKeepsIff` | xiaoai-agent/src/agent.rs:117-124 | a string is left as it is exactly when it holds no opening tag |
| `ThinkBlocks.StripTwiceIff` | xiaoai-agent/src/agent.rs:112-137 | for every proper message a second pass changes nothing exactly when no opening tag arises where a block was taken out |
| `ThinkBlocks.StripIsIdempotentIff` | xiaoai-agent/src/agent.rs:112-137 | the same for every string, read as the message it is |
| `ThinkBlocks.StripCanLeaveATag` | xiaoai-agent/src/agent.rs:125-133 | a concrete string whose stripped form is a tag, which a second pass takes |
| `ThinkBlocks.StripThinkBlocks` | xiaoai-agent/src/agent.rs:112-137 | the loop strips as specified and ends on every string |

## Left out

- Thread-level races inside one poll segment: that a segment is atomic is an assumption of the models; the runtime is multi-threaded. The exception is `try_audio`, whose check and send the player model also takes apart.
- The `biased` order of the event loop's `select!`: any enabled arm may fire next, which covers the source's order and more.
- A send counts as made when its future completes; a send that fails partway ends the loop with that error.
- WebRTC, ICE, SDP, DataChannel, HTTP, websocket and SSE transports, Opus coding, aplay and arecord, shell commands and LEDs: sends are entries in a history and input is arbitrary.
- Durations: a timer is a step that may happen whenever it is armed. Liveness of cleanup is not claimed; an activation error can skip teardown.
- Output texts of tools, and the worker that runs generic tools until it is idle: a tool answers once, with any text.
- The routing answer for a tool is fixed for one dispatch; a name becoming routed between `execute` and the first poll is not modelled.
- Lock-poisoning branches, log messages, latency metrics, audio level printing.
- A notification handler dropped in the middle of a refresh, which happens only when the runtime shuts down.
- A native turn's task that panics or is aborted by the runtime in the wake loop; `Supervision` itself allows waiters to be dropped at any time.
- The websocket test loop of `qwen_voice.rs`, whose rules differ from the production loop.
- `sanitize_speech_text` and the final trimming, which rest on Unicode whitespace.
- Floating point: gain and voice decision are functions of a block; the resampler of `asr.rs` is not modelled. `max_utterance_s` is a real number.
- Integer widths of the VAD counters, sample counts and player generations: they are unbounded. The wire codec models 64-bit values and the target's `usize`; the upsampler models 16-bit samples.
- A sample rate of zero, which makes the source divide by zero at the first block.
- Blocks still queued when the player ends stay in the model's queue; the source drops them with the channel.
- Music queue, log ring, configuration defaults, web interface, weather and search tools, firmware tools: only easy members or input and output.
