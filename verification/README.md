# hebbian: the agent run and the protocols around it

A Dafny model of the agent loop of hebbian (`run_agent`) and of five smaller
protocols that meet it: the desktop's lag-recovering event subscription, the
settlement of requests forwarded to a phone, the registry of open approvals, the
locking of allowed paths, and the command line's token count. Nothing here is
executed; every statement is for all inputs, all scripts of what the
surroundings do, or all interleavings.

## How the model is built

- `options.dfy`: an optional value.
- `transcript.dfy`: the conversation, the grammar a provider demands of a
  request, and the emergency reset.
- `retry.dfy`: model errors, the retry loop of one model step, backoff.
- `agent_loop.dfy`: the run as a step function. `Pass` is one trip round the
  loop. What the loop does not decide (model answers, tools, hooks, the judge,
  typing, pressing stop, when each happens) is a `World`, one per trip, so "for
  every script" means "for every run". Events and lines written to the session
  log go onto one trace in the order they happen. `LogicalRun` goes through any
  number of suspensions.
- `agent_run.dfy`: the same loop as an object with mutable fields, loops and
  early exits. Every method is proved equal to the step function, so the
  theorems below hold of it.
- `ledger.dfy`, `run_events.dfy`: monitors over the trace and what they say:
  pairing, numbering, totals, one beginning and one end.
- `journal.dfy`, `run_promises.dfy`: user input and goals; termination.
- `plan.dfy`: what one trip decides, says and adds to the conversation, on one
  page; the loop refines it.
- `trip_ways.dfy`, `accounts.dfy`, `verdicts.dfy`: exactly when a run resets, is
  cancelled or hands an answer back; reports against answers, field by field;
  goal markers and events against the judge's verdicts.
- `requests.dfy`: which conversations are sent to the model.
- `session_log.dfy`, `log_endings.dfy`, `quiet_run.dfy`: the session log against
  the transcript.
- `resume.dfy`: a run in segments against the unbroken run.
- `logical_runs.dfy`, `logical_endings.dfy`, `logical_turns.dfy`: input, goals,
  requests, the log, the offer to continue, cards and termination over
  suspensions.
- `pending_continue.dfy`: the offer to continue.
- `session_events.dfy`, `channel_forward.dfy`, `hitl.dfy`, `allowed_paths.dfy`,
  `cli_usage.dfy`: the protocols around the run.

## Where the code does not do what one would expect

Each of these is stated as an exact condition, with a concrete case where one
helps.

- A request may end with an assistant entry: the summary that automatic
  compaction installs is a user entry followed by an assistant entry, and it is
  sent as it is (`RequestsGrammatical`, `SummaryIsSent`).
- The session log can lose an answer: an answer that was not streamed and that
  repeats the end of the text before it is left off the card
  (`LogRefinesTranscript`, `RepeatedAnswerIsLost`). A message drained at the top
  of the loop, or one that arrives between the look at the queue and the drain,
  overtakes output that is still waiting to be logged.
- An accepted input can stay behind: `inject` looks at the flag and pushes
  afterwards, so a push may come after the last drain (`NoInputLost`); what is
  typed while a run falls asleep stays behind too (`NoInputLostOverSuspensions`).
- Sleeping restores budgets: leak recoveries, hook injections and the emergency
  reset are counted per segment, so a run that slept may go on where an unbroken
  run would have stopped. It also forgets a cancel that came with the batch
  after which it fell asleep (`CoursesAgree`, `SleepRestoresBudgets`).
- A compaction that is cancelled leaves `run_agent` at once: no terminal event,
  the inbox still open (`AbandonedWhen`, with `OneEnding` and `NoInputLost`).
- The subscription can ask for a resync nobody needs, since a receiver that
  delivers replayed events again takes `last_seq` back (`NeedlessWhen`,
  `NeedlessResync`).
- A request forwarded twice can leave a marker pending for ever, or have one
  written twice (`SettledOnce`, `ReusedIdOrphans`, `LateReplyOverwrites`). It
  does come to that: the subscription delivers events again after a replay, and
  `apps/desktop/src/chat.rs:134` forwards the events of a run it drives itself.
- A path asked for twice in one update is stored twice (`StoredOnce`,
  `AskedTwiceStoredTwice`).
- The comment above `model_retry_delay` says the backoff stops growing at 16
  seconds; the code goes on to 32 and then 60 (`RetryDelayExact`).
- A context-too-long error that arrives without an HTTP status is retried 20
  times before the emergency reset (`TooLongAtOnce`, `TooLongIsRetriedFirst`).

## Model

| member | source | states |
|---|---|---|
| Transcript.ReadyIffGrammatical | crates/agent-core/src/agent_loop.rs:1269-1280 | the automaton that follows the transcript accepts exactly the conversations in which every call is answered at once, no two assistant entries meet and the last entry is not the assistant's |
| Transcript.RecentTurnStart | crates/agent-core/src/context/compaction.rs:109-123 | the backward scan finds the position that `RecentStart` defines by recursion |
| Transcript.RecentStartMeaning | crates/agent-core/src/context/compaction.rs:109-123 | that position starts the last `keep` user turns: it is a user entry with all but `keep` of the user entries before it, or 0 if there are fewer |
| Transcript.ResetKeepsReady | crates/agent-core/src/context/compaction.rs:78-107 | an emergency reset of a conversation fit to send is fit to send and ends the same way |
| Transcript.ResetKeepsTurns | crates/agent-core/src/context/compaction.rs:78-107 | a reset leaves the summary pair and then the end of the conversation from the user entry on that begins its last k turns, k being as configured and three at least; all of it if it has fewer |
| Retry.RetryDelayExact | crates/agent-core/src/agent_loop.rs:110-114 | the delay before attempt a is 2^(a-1) seconds while a <= 6 and 60 from then on; the 64-bit shift loses nothing |
| Retry.RetryDelayMonotone | crates/agent-core/src/agent_loop.rs:110-114 | delays never shrink |
| Retry.TotalDelayExact | crates/agent-core/src/agent_loop.rs:1090-1130 | closed form of the backoff spent by n retries |
| Retry.BackoffOrCancel | crates/agent-core/src/agent_loop.rs:117-129 | sleeps the whole delay unless the flag goes up by its end; after that less than 200 ms more is slept |
| Retry.ModelStepBounds | crates/agent-core/src/agent_loop.rs:1090-1130 | a model step makes 1 to 21 calls, at most 20 numbered retries and 903 seconds of backoff; all calls but the last failed in a way that may pass; it yields the last call's answer or, once cancelled, `Cancelled` |
| Retry.RetriedWhen | crates/agent-core/src/agent_loop.rs:131-145 | from any call of a model step on: a later call is made exactly when all failed before it for want of a connection, for an unnamed reason, or with status 429 or 500 and up, with no cancel in between |
| Retry.SettleUnique | crates/agent-core/src/agent_loop.rs:1103-1129 | the step ends at the first call that is not retried, wherever that is |
| Retry.TooLongRetriedWhen | crates/agent-core/src/agent_loop.rs:133-143 | of the errors that mean the context is too long, exactly those without an HTTP status are retried |
| Retry.TooLongAtOnce | crates/agent-core/src/agent_loop.rs:1103-1129 | a model step hands such an error on after one call if and only if it carries a status |
| Retry.TooLongIsRetriedFirst | crates/agent-core/src/agent_loop.rs:1103-1129 | without a status it is handed on if and only if it is the 21st failure in a row that could be retried |
| AgentRuns.AgentRun.Start | crates/agent-core/src/agent_loop.rs:597-656 | a new run starts from zero counters and full budgets, with its set marker written if one is due, its books in order and its inbox open |
| AgentRuns.AgentRun.DrainPendingInputs | crates/agent-core/src/agent_loop.rs:372-409 | empties the queue; every input is recorded, logged and put to the model once, in order; returns how many there were |
| AgentRuns.AgentRun.RetryLoop | crates/agent-core/src/agent_loop.rs:1090-1130 | the loop asks, announces and backs off as `AskTrace` says, shows what every attempt streamed, and returns what `Settle` defines |
| AgentRuns.AgentRun.TopOfLoop | crates/agent-core/src/agent_loop.rs:695-921 | cancel check, drain, set marker and compaction, with the outright return when compaction is cancelled |
| AgentRuns.AgentRun.HandleError | crates/agent-core/src/agent_loop.rs:1151-1215 | one emergency reset per call of the loop, otherwise the run fails |
| AgentRuns.AgentRun.HandleDone | crates/agent-core/src/agent_loop.rs:1256-1531 | leak recovery, or closing the turn and the inbox, then injected input, Stop hook and judge in that order |
| AgentRuns.AgentRun.JudgeGoal | crates/agent-core/src/agent_loop.rs:1391-1530 | the three verdicts, the missing judge and the late cancel |
| AgentRuns.AgentRun.HandleCalls | crates/agent-core/src/agent_loop.rs:1565-1762 | iteration cap, dispatch, failed dispatch, results, flush and drain, suspension |
| AgentRuns.AgentRun.WindUp | crates/agent-core/src/agent_loop.rs:1766-1849 | the epilogue of every way of leaving the loop by `break` |
| AgentRuns.AgentRun.Drive | crates/agent-core/src/agent_loop.rs:694-1852 | the whole loop over any script ends as `RunOver` says, and delivers every input it accepted once and in order |
| AgentRuns.AgentRun.Wake | crates/agent-core/src/agent_loop.rs:233-254 | a woken run has the checkpointed counters and fresh budgets |
| AgentRuns.AgentRun.Live | crates/agent-core/src/agent_loop.rs:599-651 | a run that sleeps and is woken any number of times ends as `LogicalRun` says; its totals are the sum of the usage it reported, and its one terminal event, if it is over, comes last |
| Plans.PassPlanned | crates/agent-core/src/agent_loop.rs:694-1764 | one trip goes the way, changes the conversation, queue, budgets, counters and goal, and reports what the one-page `MoveOf` says, which knows no inbox flag, accumulator, log or step brackets |
| Plans.RunRefinesPlan | crates/agent-core/src/agent_loop.rs:599-1849 | so does a new run over any script and any number of suspensions |
| TripWays.ResetWhen | crates/agent-core/src/agent_loop.rs:1154-1206 | a trip goes round for a reset exactly when its model step ends with a failure that names the context limit (status 400, 413 or none) and none was tried since the run started or woke; the conversation is then the summary and the last turns |
| TripWays.PassSends | crates/agent-core/src/agent_loop.rs:1047-1136 | every call of a trip sends the conversation as the top of the loop leaves it, and the turn ends for the reason its answer gives |
| TripWays.PassTold | crates/agent-core/src/agent_loop.rs:1269-1664 | a trip that goes round adds the answer, then the results, the inputs, the notice, the hook's reminder or the judge's reason, and nothing else |
| TripWays.CancelledWhen | crates/agent-core/src/agent_loop.rs:694-708 | a run ends cancelled exactly when a cancel decides one of its trips: at the top, in the model step, among the tools, or when the judge wants more |
| TripWays.CancelIsHeeded | crates/agent-core/src/agent_loop.rs:694-708 | a cancel that a trip did not act on ends the run at the next trip, and the model is not asked again |
| TripWays.LastSegmentDecides | crates/agent-core/src/agent_loop.rs:1527-1530 | over suspensions: the last segment decides whether a run is cancelled; a success hands back the last answer without leaked tool calls, as the conversation's last entry has it, while the user hears it as it came |
| Ledgers.FreshBooks | crates/agent-core/src/agent_loop.rs:597-656 | a new run starts with its books in order, so everything said of runs with books in order holds of it |
| Ledgers.PassBooks | crates/agent-core/src/agent_loop.rs:694-1764 | every trip keeps the books: turns, steps, batches, usage and run events |
| Ledgers.LogicalRunBooks | crates/agent-core/src/agent_loop.rs:597-1852 | so does every run, through any number of suspensions |
| RunEvents.Bracketing | crates/agent-core/src/agent_loop.rs:932-935 | turn starts equal turn ends plus leak recoveries; model steps pair up; a tool step stays open only after a failed dispatch; step indices of each kind are 1, 2, 3 and so on, over suspensions too |
| RunEvents.OneEnding | crates/agent-core/src/agent_loop.rs:1774-1816 | one opener per segment, one suspension between segments, exactly one terminal event when a run is over, of the kind its outcome calls for (a failure with its own error) and at the very end, a failure logged just before it, and none before or while it sleeps |
| RunEvents.TokensConserved | crates/agent-core/src/agent_loop.rs:1239-1250 | field by field the run's totals are the sum of all usage events of all segments, and `RunFinished` reports that sum |
| Accounts.UsageOfAnswers | crates/agent-core/src/agent_loop.rs:1239-1250 | over all segments the `Used` events are the usages of the answers, in order, and each of the four totals grows by the sum of its figure over the answers |
| Accounts.DispatchedUpToCap | crates/agent-core/src/agent_loop.rs:1589-1645 | every answer that asks for tools is dispatched with all its calls and counts one iteration; only the cap stops a run short of that, at its last answer, with `MaxIterations`, and exactly as many iterations as the cap allows |
| Accounts.OneTurnPerAnswer | crates/agent-core/src/agent_loop.rs:932-935 | every answer is a turn of its own and there are no other turns |
| RunEvents.BatchesDisjoint | crates/agent-core/src/agent_loop.rs:1639-1657 | tool batches tile the index space without gap or overlap over turns and suspensions, so a call's event index determines its batch and its place in it |
| RunEvents.RequestsPerTurn | crates/agent-core/src/agent_loop.rs:1090-1130 | between two turn starts at most 21 main requests are sent |
| RunEvents.RetriesNumbered | crates/agent-core/src/agent_loop.rs:1090-1130 | requests and announced retries alternate; the k-th retry of a turn follows its k-th request, is numbered k and announces the k-th delay |
| Journal.PassKeeps | crates/agent-core/src/agent_loop.rs:694-1764 | a trip loses, doubles or reorders no input, goes round only with the inbox open, and uses up a different budget for each of the six ways of going round |
| RunPromises.Terminates | crates/agent-core/src/agent_loop.rs:680-694 | with a cap of max iterations a run makes at most 7 + K + G + (max - i0) turns and is over after as many trips, for K inputs and G verdicts of "not yet" |
| LogicalTurns.TerminatesOverSuspensions | crates/agent-core/src/agent_loop.rs:599-694 | over L wake-ups at most 7 + 6 L + K + G + (max - i0) turns, with K and G summed over all segments: each sleep gives the budgets back and no tool iteration |
| RunPromises.NoInputLost | crates/agent-core/src/agent_loop.rs:1316-1328 | drained inputs are logged once and in order; drained plus waiting is everything accepted; the inbox is open until the run ends and closed then; a success leaves nothing behind if and only if nobody pushed after the last drain |
| LogicalRuns.NoInputLostOverSuspensions | crates/agent-core/src/agent_loop.rs:1662-1674 | over all segments of a run, what is logged is what was drained, once and in order, and each segment has drained all it accepted but what was typed while it fell asleep or, in a last one that succeeds, pushed after its last drain |
| RunPromises.AbandonedWhen | crates/agent-core/src/agent_loop.rs:905-908 | a run is abandoned if and only if a trip it makes is not cancelled at its top and has its compaction cancelled |
| LogicalRuns.LogicallyAbandonedWhen | crates/agent-core/src/agent_loop.rs:905-908 | the same over suspensions: it is the last segment that decides |
| RunPromises.GoalProtocol | crates/agent-core/src/agent_loop.rs:1391-1526 | with no outside goal change the markers of a run are an optional set, progress 1 to n and at most one verdict carrying n; a verdict clears the goal and the run ends well; each progress marker is logged just before its event and answered by one feedback message |
| LogicalRuns.GoalProtocolOverSuspensions | crates/agent-core/src/agent_loop.rs:1391-1526 | the same for every segment of a run that is suspended, at every point of its log |
| Verdicts.VerdictIsTold | crates/agent-core/src/agent_loop.rs:1428-1466 | over suspensions: with a goal and a judge a run ends well exactly with a verdict, and what is written and announced, once, is the verdict the judge gave in the last trip; a set marker is written once if one was owed at the start |
| RunPromises.ProgressIsTold | crates/agent-core/src/agent_loop.rs:1490-1515 | progress marker, event and feedback come together in this order and never apart |
| Requests.RequestsGrammatical | crates/agent-core/src/agent_loop.rs:987-1004 | from a grammatical conversation a run sends only grammatical requests, if and only if no compaction it performs installs a conversation that cannot be sent |
| LogicalRuns.RequestsGrammaticalOverSuspensions | crates/agent-core/src/agent_loop.rs:987-1004 | the same over suspensions, when each wake-up brings a grammatical conversation |
| Requests.SummaryIsSent | crates/agent-core/src/context/compaction.rs:235-243 | the loop's own LLM summary is such a conversation, and it is sent |
| Requests.PassAsks | crates/agent-core/src/agent_loop.rs:694-1764 | a trip sends what the top of the loop leaves it and nothing else, and goes round only with a conversation fit to send, or cancelled |
| Requests.OnErrorAsks | crates/agent-core/src/agent_loop.rs:1154-1206 | the emergency reset goes round with a conversation fit to send |
| Requests.OnCallsAsks | crates/agent-core/src/agent_loop.rs:1587-1674 | a tool turn that goes round has its calls answered, or the run is cancelled and sends nothing more |
| SessionLog.LogRefinesTranscript | crates/agent-core/src/agent_loop.rs:1301-1328 | without compaction, reset, leak or shown failed attempts, log and transcript of a run that ends well or falls asleep have the same user messages with the same output before each, if and only if every trip logs in order |
| LogicalRuns.LogRefinesTranscriptOverSuspensions | crates/agent-core/src/agent_loop.rs:1301-1328 | the same over suspensions, when each wake-up reads the conversation back from the log: only the trips since the last wake-up decide |
| LogEndings.LogKeptUpToTheLastUser | crates/agent-core/src/agent_loop.rs:1806-1815 | in a run in step that ends uncancelled, failures included, log and transcript have the same output before each user message |
| LogicalEndings.LogKeptOverSuspensions | crates/agent-core/src/agent_loop.rs:1806-1815 | the same over suspensions, when each wake-up reads the conversation back from the log: only the trips since the last wake-up need be in step |
| LogEndings.UsersAlwaysLogged | crates/agent-core/src/agent_loop.rs:697-724 | however a run ends, and while it goes on, log and transcript have the same user messages in the same order, as long as no trip replaces the conversation |
| LogicalEndings.UsersLoggedOverSuspensions | crates/agent-core/src/agent_loop.rs:697-724 | the same over suspensions, when each wake-up brings back the user messages of the log |
| SessionLog.TimelyIsInStep | crates/agent-core/src/agent_loop.rs:1662-1674 | inputs that arrive only while the model or a tool batch works, and streamed answers, are enough for that |
| SessionLog.RepeatedAnswerIsLost | crates/agent-core/src/turn_accumulator.rs:186-195 | a run with no input at all whose log misses the answer it returned |
| SessionLog.CardOfAnswer | crates/agent-core/src/turn_accumulator.rs:186-195 | the card holds an answer in full exactly when it was streamed, is empty, or does not repeat the end of what is there |
| QuietRun.OneCardPerQuietRun | crates/agent-core/src/agent_loop.rs:1301-1309 | with no input, hook or goal, no compaction, leak or context-too-long error and no text shown by a failed attempt, a run writes no assistant message before its end, at most one then, and exactly one for a non-empty answer |
| LogicalEndings.OneCardPerQuietSegment | crates/agent-core/src/agent_loop.rs:1301-1309 | the same for each segment of a run that is suspended: at most one message a segment, at its end, and exactly one by a last segment that answers |
| Resume.PassAgrees | crates/agent-core/src/agent_loop.rs:680-693 | a trip of the unbroken run and of the run that slept go the same way with the same counters, if and only if no budget binds |
| Resume.CoursesAgree | crates/agent-core/src/agent_loop.rs:599-651 | the same for whole runs with any suspensions, trip by trip; inputs that wait for the sleeper are told as typed before its next trip |
| Resume.SuspensionIsInvisible | crates/agent-core/src/agent_loop.rs:1704-1725 | iteration, step indices, dispatch offset and token totals at the end do not depend on suspensions, as long as no budget binds |
| Resume.SuspensionWithinBudget | crates/agent-core/src/agent_loop.rs:680-693 | said of scripts alone: at most two leaked answers, three hook injections and one context-too-long failure over all segments, and no cancel in a trip that falls asleep, are enough for that |
| Resume.SleepRestoresBudgets | crates/agent-core/src/agent_loop.rs:1256-1281 | two leaks, a suspension and a third leak: a run on which the two differ |
| PendingContinue.OfferAtTheEnd | crates/agent-core/src/agent_loop.rs:148-179 | no offer to continue after an ordinary answer or a cancel, one of the matching kind after a truncated, refused, filtered or odd answer or a failure, and the old one untouched while the run sleeps or is abandoned |
| LogicalEndings.OfferOverSuspensions | crates/agent-core/src/agent_loop.rs:148-179 | over suspensions the last segment alone decides the offer, and no sleep touches the one that was there before |
| SessionEvents.EventLog.Emit | crates/agent-core/src/session_hub.rs:224-242 | events are numbered from 1 without gap, and the buffer holds exactly the newest 4096 |
| SessionEvents.EventLog.EventsAfter | crates/agent-core/src/session_hub.rs:206-220 | returns exactly the published events after a number, or nothing if the next one has left the buffer |
| SessionEvents.SubscriptionTask.Iterate | apps/desktop/src/lib.rs:1187-1226 | once round the subscription loop is a run of steps of the step system |
| SessionEvents.SubscriptionTask.Replay | apps/desktop/src/lib.rs:1204-1217 | the replay delivers the missed events in order, moving `last_seq` with each, and stops at the first that cannot be sent |
| SessionEvents.GapFree | apps/desktop/src/lib.rs:1187-1226 | for every interleaving: new events come in order without gap unless a resync was sent since the last new one; without a resync, dropping repeats leaves exactly what was published since the subscription; an idle task has delivered everything |
| SessionEvents.NeedlessWhen | apps/desktop/src/lib.rs:1201-1224 | wherever a subscription lags, it asks for a resync though every event the surface lacks is still in the buffer if and only if the event after `last_seq` has left the buffer and the one after the highest number seen has not; never when the two are the same |
| SessionEvents.NeedlessResync | apps/desktop/src/lib.rs:1193-1224 | there is a run in which a resync is sent though every event the surface lacks is still in the buffer |
| SessionEvents.FirstLagReplaysAll | apps/desktop/src/lib.rs:1186-1224 | a subscription that lags before its first event is replayed everything from event 1 on, or asked to resync exactly when more than 4096 events were published |
| SessionEvents.CancelSilences | apps/desktop/src/lib.rs:1188-1190 | after a cancel found at the top of the loop nothing is sent any more |
| SessionEvents.FailureSilences | apps/desktop/src/lib.rs:1193-1216 | nor after the first event that cannot be sent |
| ChannelForward.SettledOnce | apps/desktop/src/channel_forward.rs:59-76 | for every history, in any interleaving: after each step a marker is pending exactly while somebody is to settle it, entries in flight name different pending markers, no marker is written twice and the first taker's outcome is what is written, if and only if no forward was tracked while its request was in flight and no reply took another forward's entry |
| ChannelForward.UniqueIsOrderly | apps/desktop/src/channel_forward.rs:23-27 | using every request id once is enough for that |
| ChannelForward.FirstTakerDecides | apps/desktop/src/channel_forward.rs:41-44 | whatever happens after an entry is taken, in a history that stays orderly its marker never comes to say anything but the first taker's outcome, and says it once nobody is left to settle it |
| ChannelForward.StepLoses | apps/desktop/src/channel_forward.rs:34-44 | after a history in which all went well, a step leaves a pending marker to nobody if and only if it tracks over an entry or takes another forward's |
| ChannelForward.ReusedIdOrphans | apps/desktop/src/channel_forward.rs:103-145 | four steps after which a pending marker belongs to nobody |
| ChannelForward.LateReplyOverwrites | apps/desktop/src/channel_forward.rs:59-76 | a request settled on the desktop and forwarded again: a reply to the first forward overwrites its marker and leaves the second to nobody |
| ChannelForward.ChannelForwardState.TakeEntry | apps/desktop/src/channel_forward.rs:41-44 | hands out an entry once |
| ChannelForward.ChannelForwardState.Settle | apps/desktop/src/channel_forward.rs:59-76 | a reply is the two steps of taking the entry and writing the resolver's own marker, or nothing if the entry is gone |
| ChannelForward.ChannelForwardState.SettleLocally | apps/desktop/src/channel_forward.rs:200-215 | a decision on the desktop is the two steps of taking the entry and writing its marker, or nothing if it is gone |
| Hitl.HitlState.ResolveApproval | apps/desktop/src/hitl.rs:63-79 | a tracked request's approval reaches its gate and the request is gone; any other request is reported and nothing changes |
| Hitl.HitlState.AnswerQuestion | apps/desktop/src/hitl.rs:81-94 | the same for answers, which take the same entry |
| Hitl.HitlState.CancelRun | apps/desktop/src/hitl.rs:54-61 | raises the run's flag and cancels its gate, or reports that there is no such run |
| Hitl.HitlState.Forget | apps/desktop/src/hitl.rs:96-106 | removes all and only the entries of one gate from both maps |
| Hitl.HitlState.CancelAllPending | apps/desktop/src/hitl.rs:111-138 | raises every run's flag, empties both maps, cancels each distinct gate of either map exactly once and returns how many there are |
| Hitl.ReachedOncePerTrack | apps/desktop/src/hitl.rs:33-36 | over any history a request's decisions reach a gate no more often than it was tracked for that gate, counting one to come while it is open |
| Hitl.OpenWhileWaiting | apps/desktop/src/hitl.rs:33-106 | over any history a request is open for a gate exactly while it has been tracked for it and nothing since has tracked, decided, forgotten or cancelled it |
| Hitl.TrackedIsReached | apps/desktop/src/hitl.rs:33-79 | so whatever else happens between tracking a request and deciding it, the decision reaches its gate, once |
| Hitl.ClosedStaysClosed | apps/desktop/src/hitl.rs:63-106 | a request that is decided, forgotten or cancelled reaches no gate until it is tracked again |
| AllowedPaths.Session.ApplyAllowedPathsUpdate | apps/desktop/src/lib.rs:2514-2556 | the loops over known and requested paths do what `Update` says, and a refused update changes nothing |
| AllowedPaths.UpdateMeans | apps/desktop/src/lib.rs:2532-2555 | once the user has spoken an update is refused exactly when it omits a known path; otherwise the known paths become exactly the requested ones and only the end of the pending list changes |
| AllowedPaths.UpdateTwice | apps/desktop/src/lib.rs:2547-2554 | repeating an update changes nothing |
| AllowedPaths.StoredOnce | apps/desktop/src/lib.rs:2547-2554 | after an accepted update every known path is stored once if and only if it was so before and the request repeats no new path |
| AllowedPaths.AskedTwiceStoredTwice | apps/desktop/src/lib.rs:2547-2554 | an instance: an update that names a new path twice stores it twice |
| AllowedPaths.NoPathIsLost | apps/desktop/src/lib.rs:2538-2545 | over any further life of a session that has a user message no known path is lost, and the initial and announced lists stay as they are |
| AllowedPaths.FirstMessageFixes | apps/desktop/src/lib.rs:2523-2545 | over a session's whole life: what the last request before the first user message asked for, or what there was if none did, is what counts from then on, and no path of it is ever lost |
| CliUsage.UsageTotals.TranslateWireEvent | apps/cli/src/daemon.rs:149-169 | usage is added, a finish reports what is held and starts again, nothing else counts |
| CliUsage.UsageTotals.Pump | apps/cli/src/daemon.rs:294-317 | over a stream, the accumulator and the list of reports are those of `Held` and `Reports` |
| CliUsage.NothingLost | apps/cli/src/daemon.rs:149-169 | on any stream, reports plus what is still held equal what was held before plus all usage seen |
| CliUsage.FigureOfRun | apps/cli/src/daemon.rs:149-158 | the figure given for a run is the run's own total plus what was held before and what others used meanwhile, and equals the total if and only if both are nothing |
| CliUsage.UnfinishedIsCarried | apps/cli/src/daemon.rs:149-169 | a run that is cancelled or fails leaves its usage for the next figure |

## Left out

- Reasoning text, attachments, tool output and message texts beyond what the session log compares: values without behaviour here; a tool result is its call id.
- Trimming of a Stop hook's reminder: `World.hook` carries the trimmed text.
- Microcompaction: it shortens tool output, which is not modelled.
- Notices, compaction progress and the `RunEditsCommitted` event: they carry no state of the run.
- Runs without a data directory, session id, persister or injection queue, and failed writes: the model has all four, and writes succeed.
- 32- and 64-bit wrap-around of counters and token totals, except in the retry delay: counters are naturals.
- The order of tool parts inside one card: `run_calls` runs calls in parallel; the model shows them in call order.
- A dispatch that fails: what the tools had already shown by then is not modelled in part, only as a whole.
- Transcript rebuilding before a resumed run: its entries are an arbitrary parameter of each leg, constrained only where a theorem says so.
- The web surface's own set marker, and goal changes by another process between reading and writing the goal.
- Model providers, the judge, hooks and tools: arbitrary answers in a `World`.
- Wall-clock time, except the sleep arithmetic of the backoff.
- `subscribe_after`, epochs and several subscribers of one session: the desktop task uses plain `subscribe`.
- The lag branch of the command line's pump, which skips events and says so: the stream of `CliUsage.UsageTotals.Pump` is what is received.
- Remote request ids (`track_remote`, `forget_remote`) and the outcome texts of forwarded requests: plain map updates and rendering.
- SessionLog.LogRefinesTranscript: claims full agreement of runs that end well or sleep only, because the last reply of any other may be logged and not in the transcript, or the other way round; of those see `LogEndings`.
- QuietRun.OneCardPerQuietRun: counts assistant messages; what is in the one message is the subject of `LogRefinesTranscript`.
- ChannelForward.SettledOnce: loading, changing and saving the session file is one step, so two settlements of different markers at the same time do not overwrite each other here.
