# pulse-null: what it promises, proved

A Dafny model of the parts of pulse-null in which a fast, concurrent or
incremental form has to agree with a simple specification, and proofs that it
does. `dafny verify dfyconfig.toml` checks all of it. Nothing here executes the
program; the model follows its source.

## What is modelled

**Early speech.** A voice client should hear a reply before the reply guard has
seen all of it, and must never hear what the guard will cut.

- `Markers.dfy` holds the 33 marker patterns and the lookahead automaton as sets
  of pattern residuals, and proves it sound, and exact on ASCII text.
- `SpeechGate.dfy` is the gate: a class whose methods are tied to functions on
  its state. The guard is the pure function `Kept`: without a marker the text
  unchanged; with one, the right-trimmed text before the first, or nothing if
  that is under 20 bytes. Whatever was pushed, whenever, what was released is a
  prefix of what the guard keeps.
- `ProgressSink.dfy` holds text and boundaries back and delivers every byte once.
- `ControlPlane.dfy` is the channel that overflows, with its reader in
  `src/server/handlers/chat.rs`, as a state machine over their interleaved steps.
- `ToolLoop.dfy` is the loop, buffered and streamed; `TurnProperties.dfy` says
  what it keeps, `ToolAnswers.dfy` what the model and the caller are told, and
  `TurnStream.dfy` what a client is shown. `VoiceTurn.dfy` puts loop, sink and gate together, and
  `VoiceWire.dfy` the channel to the client. A later round begins only with nothing
  held (`NothingIsHeldBetweenRounds`); `RoundOverSpokenTextRepeatsIt` says why it must.
  Only the first text block may be spoken early: its end seals the gate.

**The provider's stream.** `SseDecoder.dfy` and `SseProperties.dfy`: the decoder's
output does not depend on chunking, and a refused or broken stream never becomes
a clean end; `SseMeaning.dfy` says what every decoded event means, looking back over
the frames; `ProviderStream.dfy` puts decoder and loop together, and `Messages.dfy`
has the messages they share. The framing is the subset of server-sent events (sections 9.2.5 and
9.2.6 of the WHATWG HTML Living Standard) that the code handles: events end at
two line feeds, and the last `data:` line wins.

**Pidfiles.** `Pidfile.dfy`: `verify` against an operating system in which
processes exit and pids are reused between its calls. A history is any sequence
of exits, reaping, spawns and uid changes; each call takes effect at some point of it, and
a `/proc` file is opened at one point and read at another. It also says what `down`
and `status` do with the verdict. `Decimals.dfy` prints and parses numbers.

**Background persistence.** `Persist.dfy`: every atomic operation of tasks and of
calls to `flush` is one step, in any interleaving.

**Dialogues.** `Dialogue.dfy` has the state behind the lock, as a class, and the
runs of task, guard, requests and lock as interleaved steps, with the runtime that
parks a task at an await and drops it there once its abort is requested; `DialogueRuns.dfy`,
`DialogueStatus.dfy`, `DialoguePauses.dfy` and `DialogueWatch.dfy` prove what every run keeps.

**Graph extraction.** `GraphExtract.dfy` is the scheduler, as a class over its queue
and ledger; `GraphRuns.dfy` its runs across restarts; `GraphQueue.dfy` their order and
refusals; `GraphSpending.dfy` the budget
and the pause; `GraphCatchUp.dfy` the watermark and the catch-up; `GraphLoss.dfy` what
a crash can lose.

**CALIBER.md.** `Caliber.dfy` parses, prints and updates; `CaliberText.dfy` and
`CaliberProperties.dfy` prove the round trip; `CaliberReading.dfy` is about any text
that is read, `CaliberUpdates.dfy` about one night and `CaliberNights.dfy` about all
of them.

Operations that change state are methods, each proved to do what a function on
values says; the theorems are about those functions. Where several parties
interleave (control plane, persistence, dialogues, the scheduler's runs) the model
is a transition system whose runs are arbitrary sequences of steps.

## Where the code falls short of its documentation

Each is a proved statement with its exact condition or a concrete run.

- `src/comms.rs:211-230`: watchers take the ending for the last event of a dialogue,
  but a pause or resume sends its status after it releases the lock, so a status
  can follow `Done` (`StatusCanFollowDone`, `EndingIsLastIffNoStatusPending`).
- `src/comms.rs:207-230`: the flag a dialogue waits on is set before the lock is
  taken, so two overlapping requests can leave the phase `paused` while the dialogue
  runs (`OverlapShowsPausedWhileRunning`). Phase and flag agree if and only if the last
  request to set the flag and the last to change the phase asked for the same
  (`PausedMeansHeldIff`).
- `src/server/handlers/comms.rs:196-208`: a watcher that joins after a stop is shown
  the snapshot and an ending, although a task that is being polled may still push a
  turn (`ATurnCanFollowAStop`, `OverSnapshotIsFinalIff`, `OverResyncIsFinalIff`).
- `src/graph_extract.rs:29-32`: three failures in a row pause extraction for the rest
  of the day, but only until a restart, and the count starts again at each pause
  (`CallsExactlyWhen`, `RestartForgetsThePause`, `CountStartsAgain`, `FiveFailuresInARow`).
- `src/graph_extract.rs:35-42`: "nothing archived is missed" is false when the pulse goes
  down before an archive is extracted that the watermark already covers. Over every run,
  the next boot queues an archive if and only if it is above the watermark of the boot
  before and above every number queued since (`NextBootQueuesExactly`). So it leaves out
  one that was queued and not taken (`AQueuedArchiveIsMissed`), one that waits for its
  scan while a newer one is enqueued (`AnArchiveBeforeItsScanIsMissed`), and one of a
  backlog below a newer one (`AnArchiveIsMissed`, `BacklogIsFoundAgainIff`).
- `src/persist.rs:25-29`: the counter is lowered when a task completes, but not for a
  task dropped before it started; then no `flush` returns true
  (`ReturnsTrueIffNoneAbandoned`).
- `src/cli/status.rs:58-60`: "the file is deleted only when that process is gone" is
  false where `/proc` hides other users' processes: `status` then deletes the pidfile of
  another user's running pulse (`StatusForgetsAnotherUsersPulse`). With no call failing
  for another reason, it deletes that of a process that is there if and only if the
  process is hidden (`StatusForgetsTheLivingIff`). `down` refuses another user's record
  first and does not (`DownStopsOnlyTheRecorded`).

## Model

| member | source | states |
|---|---|---|
| Markers.ScanSuffix | src/speech_gate.rs:342-373 | the one-pass scan of a suffix is the run of the residual automaton: dead, or still viable |
| Markers.MatchesStep | src/speech_gate.rs:305-324 | one character of a match: a pattern matches a text exactly when a residual after its first character accepts here or goes on to match |
| Markers.DeadIsSound | src/speech_gate.rs:342-373 | when the scan says dead, no extension of the text matches any pattern of the state, unbounded and word-boundary patterns included |
| Markers.ViableIsPrecise | src/speech_gate.rs:342-373 | when the scan of ASCII text says viable, some extension does match; the lemma returns it |
| Markers.ScanExact | src/speech_gate.rs:305-373 | on ASCII text, dead if and only if no continuation has a marker at the start |
| Markers.DeadStart | src/speech_gate.rs:285-299 | a dead index starts no marker, whatever precedes or follows it |
| Markers.MarkersWellFormed | src/speech_gate.rs:13-49 | each of the 33 patterns begins with a character the first-byte filter lets through, and a heading name ends in a word character |
| Markers.PatternsAreTheMarkers | src/speech_gate.rs:13-49 | each of the 33 patterns matches, on strings, exactly the texts its marker stands for: the literal as a prefix, one to three `#` and the heading with no word character after it, a quote mark and white space before the tag, one or more digits between head and tail |
| Markers.EarliestViable | src/speech_gate.rs:285-303 | the loop returns the first index at or after `from` that the first-byte filter and the scan do not rule out |
| Markers.NoMarkerBeforeViable | src/speech_gate.rs:285-303 | no continuation of the buffer has a marker between `from` and the earliest viable index |
| SpeechGates.LastClauseBoundary | src/speech_gate.rs:384-401 | the loop finds the last clause end in the safe part of the buffer |
| SpeechGates.LastSpaceBoundary | src/speech_gate.rs:403-425 | the fallback finds the end of the last whole word in the safe part of the buffer |
| SpeechGates.SecondCursorCaseIsCovered | src/speech_gate.rs:138-157 | the second case in which `finish` moves the cursor is one its first case already covers |
| SpeechGates.SpeechGate.Push | src/speech_gate.rs:122-131 | new state and released piece are those of the specification |
| SpeechGates.SpeechGate.TakeRelease | src/speech_gate.rs:197-216 | hold, floor, lookahead and boundaries decide what is released |
| SpeechGates.SpeechGate.FindCandidate | src/speech_gate.rs:235-249 | clause end first, then word end |
| SpeechGates.SpeechGate.Finish | src/speech_gate.rs:138-157 | violation exactly when the released text is no prefix of the kept text; otherwise the remainder |
| SpeechGates.SpeechGate.NoteRawFlush | src/speech_gate.rs:175-177 | the cursor jumps to the end of the buffer |
| SpeechGates.SpeechGate.BeginBlock | src/speech_gate.rs:185-187 | a new block seals the gate |
| SpeechGates.SpeechGate.RestartRound | src/speech_gate.rs:190-195 | a new round empties the buffer, keeps the clock and stays sealed |
| SpeechGates.SafeIsKept | src/speech_gate.rs:228-271 | text that no marker can start in, and that is past the 20-byte floor, is a prefix of what the guard keeps of every continuation |
| SpeechGates.EarlySpeechIsNeverCut | src/speech_gate.rs:122-157 | for every reply, every split into pushes and every clock: what has been spoken is a prefix of what the guard keeps of the whole reply, however it goes on |
| SpeechGates.FinishCompletesKept | src/speech_gate.rs:138-157 | `finish` never reports a violation, and early speech plus its remainder is exactly the kept text |
| SpeechGates.ChunkingDoesNotMatter | src/speech_gate.rs:122-157 | two ways of splitting and timing the same reply end with the same speech |
| SpeechGates.ClausesAreReleased | src/speech_gate.rs:197-249 | promptness: once the hold is over, a push releases at least up to every long enough clause end before the earliest viable marker |
| SpeechGates.WordsAreReleased | src/speech_gate.rs:197-249 | promptness without clauses: once the hold is over, 160 bytes with no clause end release the text up to the last word that is followed by a space and more text |
| SpeechGates.ReleasesEndAtBoundaries | src/speech_gate.rs:197-249 | what a push releases, exactly: it ends at the last clause end before any viable marker, or with no clause end in 160 bytes at the last whole word; never before 250 ms or 20 bytes |
| SpeechGates.FinishedGateIsSilent | src/speech_gate.rs:122-157 | a finished gate hands nothing out, whatever is pushed |
| SpeechGates.HoldComesFirst | src/speech_gate.rs:197-226 | nothing is spoken in the 250 ms after the first text that is not empty arrives |
| ProgressSinks.ProgressSink.TrySend | src/tool_loop.rs:427-470 | a delta is held, released or overflows the cap; a boundary is held; any other event passes on; and whether the event was accepted |
| ProgressSinks.ProgressSink.FlushHeld | src/tool_loop.rs:528-577 | the loop delivers the unsent part of each held delta and then the held boundaries |
| ProgressSinks.ProgressSink.Deliver | src/tool_loop.rs:477-517 | the event is handed on, and the answer is what the channel says of it; `ControlPlanes.Delivered` is where it goes |
| ProgressSinks.ProgressSink.BeginTextBlock | src/tool_loop.rs:588-592 | a new text block seals the gate of a sink that holds |
| ProgressSinks.ProgressSink.FinishCut | src/tool_loop.rs:611-646 | a cut reply delivers what is left of the kept text, or reports that what was spoken cannot be completed |
| ProgressSinks.ProgressSink.BeginNextRound | src/tool_loop.rs:595-604 | the gate restarts sealed for the next round |
| ProgressSinks.ProgressSink.DiscardHeld | src/tool_loop.rs:655-665 | what is held is dropped |
| ProgressSinks.SkipIsExact | src/tool_loop.rs:528-560 | the skip computed from released, buffered and held lengths is the length of the held text already delivered |
| ProgressSinks.FlushDeliversTheRest | src/tool_loop.rs:528-577 | a flush delivers exactly the unsent text and the held boundaries, and its skip lands on a character boundary |
| ProgressSinks.FlushSendsTextFirst | src/tool_loop.rs:528-577 | what a flush sends, in order: the unsent text in pieces of the deltas, none of them empty, and only then the held boundaries |
| ProgressSinks.EveryBoundaryOnce | src/tool_loop.rs:427-577 | over every run with no discard and no overflow each boundary sent has come out or is held, once and in the order sent |
| ProgressSinks.StatusesAreNotHeld | src/tool_loop.rs:427-470 | over every run a status comes out when it is sent, overflowed or not |
| ProgressSinks.LaterRoundsWait | src/tool_loop.rs:588-604 | from the beginning of a later round until it is flushed or settled, none of its text comes out |
| ProgressSinks.TakenMeans | src/tool_loop.rs:425-470 | what `try_send` answers: text is taken, but for the text that overflows the hold, where the channel answers for the reset; a boundary is taken exactly when it will come out |
| ProgressSinks.CutIsHandledIff | src/tool_loop.rs:606-646 | a cut is handled exactly when text has come out early and, in this round, only a beginning of what is kept; then all that is kept of the round has come out |
| ProgressSinks.ReleasedMeansHeard | src/tool_loop.rs:581-604 | over every orderly run `released_any` says whether any text has come out |
| ProgressSinks.DiscardStartsAgain | src/tool_loop.rs:655-665 | after a discard no text or boundary held before comes out, and the text sent from then on has the whole cap |
| ProgressSinks.EveryByteOnce | src/tool_loop.rs:427-577 | with no overflow, cut or discard: delivered text is a prefix of accepted text at every point and a flush delivers exactly the rest; the error branch is not reached |
| ProgressSinks.RoundOverSpokenTextRepeatsIt | src/tool_loop.rs:595-604 | why the loop flushes before it begins a round: begun over held text, a round makes the next flush repeat what was already delivered, unless none of the held text was |
| ProgressSinks.OverflowsIffOverTheCap | src/tool_loop.rs:437-450 | in every run without a discard the hold has overflowed exactly when the text sent is longer than the cap, spoken and flushed text included |
| ProgressSinks.OneResetForAnOverflow | src/tool_loop.rs:391-470 | in every run of a holding sink the resets delivered are those the caller sent and, if the hold has overflowed, exactly one more |
| ProgressSinks.NothingFollowsAnOverflow | src/tool_loop.rs:427-470 | in every run, at the call that overflows the hold and after it: the budget reset, and then only what the caller sends besides text and boundaries |
| ProgressSinks.OverflowIsFinal | src/tool_loop.rs:427-470 | from any state that has overflowed the sink delivers no text, no boundary and no reset of its own, whatever is called |
| ControlPlanes.ControlPlane.PushReset | src/tool_loop.rs:247-256 | unless the plane is closed a reset is queued, and it is noted that one ever was |
| ControlPlanes.ControlPlane.NoteAccepted | src/tool_loop.rs:260-263 | one more event has been accepted |
| ControlPlanes.ControlPlane.PushSegment | src/tool_loop.rs:265-275 | a boundary is parked behind the events accepted so far |
| ControlPlanes.ControlPlane.DrainResets | src/tool_loop.rs:277-279 | all queued resets, in order |
| ControlPlanes.ControlPlane.TakeDue | src/tool_loop.rs:282-295 | the loop takes the due boundaries at the front and leaves the rest |
| ControlPlanes.ControlPlane.Close | src/tool_loop.rs:305-318 | the plane is closed for good |
| ControlPlanes.WireKeepsOrder | src/tool_loop.rs:201-295 | in every interleaving of sender and reader: non-reset events reach the wire in the order they were accepted, resets in theirs, and every event after the resets pushed before it was accepted |
| ControlPlanes.NothingIsLost | src/tool_loop.rs:491-512 | once the reader has ended, everything accepted is on the wire |
| ControlPlanes.NoResetIsUndelivered | src/server/handlers/chat.rs:732-743 | the error "reset was not delivered" never ends a stream: once the reader has ended, it has written a reset exactly when one was queued |
| ControlPlanes.ClosedTakesNothing | src/tool_loop.rs:247-318 | once closed, the plane takes no reset and no boundary, whatever is called |
| ControlPlanes.FrontHidesNothing | src/tool_loop.rs:282-295 | stopping at the first boundary that is not due never hides a due one |
| ToolLoops.ExecuteToolCalls | src/tool_loop.rs:1051-1094 | each tool call is answered by id, in order; an unknown tool and a failing one by an error result |
| ToolLoops.RoundState.AppendFeedbackNudges | src/tool_loop.rs:1098-1145 | failure streak, degraded state and the notices added |
| ToolLoops.RoundState.FinishRound | src/tool_loop.rs:934-1045 | accumulators, history and outcome of one round, all branches |
| ToolLoops.InvokeWithToolLoop | src/tool_loop.rs:730-755 | the buffered loop: result, history and number of provider calls |
| ToolLoops.Segments.StreamOneRound | src/tool_loop.rs:873-922 | one provider stream: what the sink is sent, the tool names and the response |
| ToolLoops.Segments.Emit | src/tool_loop.rs:176-198 | the boundary index advances exactly when the boundary is accepted, by the hold or by the channel |
| ToolLoops.Segments.EmitKept | src/tool_loop.rs:181-198 | a boundary that is not held goes out at once, and the index advances exactly when it is accepted |
| ToolLoops.Segments.OpenRound | src/tool_loop.rs:784-787 | a later round restarts the sink before it is announced |
| ToolLoops.Segments.TellNames | src/tool_loop.rs:809-811 | one status for each tool, in order |
| ToolLoops.SettleRound | src/tool_loop.rs:799-823 | before the round is finished: flush and announce when the tools will run, or finish a cut |
| ToolLoops.CloseRound | src/tool_loop.rs:824-848 | after the round is finished: flush, closing boundary and tool names |
| ToolLoops.RunRound | src/tool_loop.rs:783-848 | one pass of the streaming loop: accumulators, history, sink and outcome |
| ToolLoops.InvokeWithToolLoopStreaming | src/tool_loop.rs:765-849 | the streaming loop: result, history, calls and everything the sink did |
| TurnProperties.LoopsAgree | src/tool_loop.rs:730-849 | given the same responses, both loops return the same result and leave the same history, whatever the sink does |
| TurnProperties.CallsAreBounded | src/tool_loop.rs:730-755 | a buffered turn makes at least one and at most `max_rounds` + 1 provider calls |
| TurnProperties.StreamCallsAreBounded | src/tool_loop.rs:765-849 | a streamed turn makes at least one and at most `max_rounds` + 1 provider calls |
| TurnProperties.ContinuedRoundAnswers | src/tool_loop.rs:934-1094 | a continued round appends the reply and one message that answers its tool calls by id and in order; the warning is in it exactly when the round degrades the turn |
| TurnProperties.TurnKeepsHistory | src/tool_loop.rs:730-755 | over a whole turn replies and answers alternate, every call that ran is answered in the next message, and the degraded warning is given at most once, exactly when the turn ends up degraded |
| TurnProperties.ResultIsTheHistory | src/tool_loop.rs:705-722 | the text a turn returns is what its replies say in the history it leaves, as the guard kept them, blank texts left out |
| ToolAnswers.ContinuedRoundTells | src/tool_loop.rs:1051-1145 | what a continued round tells the model: the k-th result answers the k-th call with exactly the output, or flagged as an error with the reason; the tools used, the streak and the notices that follow |
| ToolAnswers.TurnDegradesIff | src/tool_loop.rs:1098-1145 | a turn is degraded exactly when three rounds in a row had failures only |
| ToolAnswers.TurnReturns | src/tool_loop.rs:705-755 | the counts and flags a turn returns, in terms of the history it leaves and the responses behind it: tokens modulo 2^32, rounds, truncation, the circuit breaker and the warnings |
| ToolAnswers.TurnReads | src/tool_loop.rs:705-722 | the text a turn returns: the texts of its replies that are not blank, in order, with a blank line between |
| TurnStreams.TextClientIsShown | src/tool_loop.rs:765-922 | everything a client without a voice is shown of a turn, in order, for every provider and channel: statuses, text, and boundaries numbered by those accepted, one after each tool round and a last one, unless the provider marks its own |
| TurnStreams.VoiceClientIsShown | src/tool_loop.rs:765-922 | a voice client is shown the same statuses and, unless the hold overflowed, the same boundaries, but for those still held when the reply was cut or the turn failed |
| VoiceTurns.EitherGuardKeeps | src/speech_gate.rs:179-187 | a guard that cuts block by block and one that cuts the blocks as one text both keep what the theorem on voice turns needs: every safe beginning of the first text block |
| VoiceTurns.VoiceNeverHearsACut | src/tool_loop.rs:765-849 | loop, sink and gate together: the text handed to `deliver` is a beginning of the replies as the guard kept them, all of them unless the last was cut or the hold overflowed; after a failure, a beginning of what would have been kept however the broken reply had gone on |
| VoiceWires.AllIsHeardIffNothingIsLost | src/tool_loop.rs:491-512 | in every interleaving of sender and reader the text on the wire is a beginning of what the channel accepted; at the end it is all that was handed on if and only if no delta met a full channel |
| VoiceWires.TakesAsTheLineDoes | src/tool_loop.rs:477-512 | for every run of the line there are answers of the channel, as the sink is told them, that agree with it |
| VoiceWires.BoundariesAndResetsArrive | src/tool_loop.rs:477-512 | in every interleaving, however full the channel: once the reader has ended, every boundary and every reset handed on is on the wire, in order |
| VoiceWires.VoiceClientHears | src/server/handlers/chat.rs:660-743 | end to end, over a line that drops no delta and at any point of the turn: a voice client has heard a beginning of the replies as the guard kept them, or would keep them after a failure, and at the end all of them unless the last was cut or the hold overflowed |
| SseDecoders.Position | src/anthropic_provider.rs:379-401 | the first pair of line feeds in the buffer |
| SseDecoders.ReadFrame | src/anthropic_provider.rs:403-425 | the last `event:` and the last `data:` line of an event win |
| SseDecoders.SseDecoder.Feed | src/anthropic_provider.rs:379-401 | the loop decodes every complete event, up to one that finishes the decoder |
| SseDecoders.SseDecoder.DecodeEvent | src/anthropic_provider.rs:403-515 | all kinds of event and what each does to the accumulators |
| SseDecoders.SseDecoder.MessageDeltaEvent | src/anthropic_provider.rs:519-551 | unparsable, refused, unknown and accepted ends |
| SseDecoders.SseDecoder.ContentDeltaEvent | src/anthropic_provider.rs:458-473 | text deltas are collected and passed on, tool input is collected |
| SseDecoders.SseDecoder.ContentStopEvent | src/anthropic_provider.rs:474-495 | a finished tool call is collected and passed on |
| SseDecoders.SseDecoder.MessageStopEvent | src/anthropic_provider.rs:496-512 | an end without an accepted `message_delta` is an error; otherwise the assembled response |
| SseProperties.ChunksDoNotMatter | src/anthropic_provider.rs:379-401 | from any state, feeding two chunks is feeding them as one: same events and same state, but for the leftover buffer of a finished decoder |
| SseProperties.AnyChunkingAgrees | src/anthropic_provider.rs:379-401 | every way of cutting a byte stream up, inside characters and separators included, yields the events of the whole |
| SseProperties.NothingFollowsAnEnding | src/anthropic_provider.rs:379-429 | on every byte stream nothing is decoded after a refusal or an error, and the decoder is finished exactly when its last event is one |
| SseProperties.DoneIsEarned | src/anthropic_provider.rs:443-551 | a `Done` follows an accepted `message_delta` whose stop reason it carries and no refused, unparsable or unknown one; its text is the concatenation of the text deltas yielded before it, its tools are exactly those yielded before it, in order |
| SseMeanings.StreamMeans | src/anthropic_provider.rs:403-551 | on every byte stream each event decoded is what the frames before it mean: text is its own frame's; a tool call has the id and name of the last block start and as input the parse of all the pieces since, or an empty object; a response has the last stop reason, model and counts |
| SseProperties.Forward | src/anthropic_provider.rs:209-217 | the loop over the events of one chunk: up to the first `Done` or `Refused`, and whether there was one |
| SseProperties.InvokeStreaming | src/anthropic_provider.rs:195-220 | what the caller yields for the chunks of a body and a read failure among them |
| SseProperties.CallerSeesTheWholeBody | src/anthropic_provider.rs:195-220 | however the body is cut, the caller yields the events of the whole body up to the first `Done` or `Refused`, and after a read failure before one the error |
| SseProperties.CallerNeverEndsCleanlyAfterABreak | src/anthropic_provider.rs:195-220 | `Done` and `Refused` come last, and after an error nothing but a failure to read the rest can follow, so a broken stream never ends cleanly |
| ProviderStreams.ResponseIsWhatWasStreamed | src/anthropic_provider.rs:195-220 | decoder, caller and loop together: for every body, cut and timed in any way and broken off anywhere, the response the loop is given holds exactly the text that was streamed to it, in its first block |
| ProviderStreams.BodyComesTo | src/tool_loop.rs:873-922 | the loop takes a body for the first of its events that ends it: a response, a refusal or an error as such, and one without an end for a failure |
| ProviderStreams.DecodedStreamsMatch | src/tool_loop.rs:873-922 | so the assumption of the theorem on voice turns holds of every provider whose streams are decoded bodies |
| Pidfiles.StepKeeps | src/pidfile.rs:181-189 | exits, reaping, spawns and uid changes keep the kernel facts: one holder per pid, start times that grow with reuse |
| Pidfiles.HistoryKeeps | src/pidfile.rs:181-189 | over a history no process is forgotten and one that is gone stays gone |
| Pidfiles.OursIsTheRecorded | src/pidfile.rs:194-219 | in every interleaving of exits and pid reuse with the calls, a pidfd that `verify` calls ours names the process that wrote the record |
| Pidfiles.TerminateReachesItOrNone | src/pidfile.rs:243-260 | `terminate` reaches that process or none, however late it is called |
| Pidfiles.StartFirstHitsAnother | src/pidfile.rs:181-213 | the order is needed: with the start time read before the pidfd is opened, a concrete history makes a reused pid ours |
| Pidfiles.GoneIsGone | src/pidfile.rs:194-219 | `Gone` is said only of a recorded process that no longer holds its pid or whose `/proc` directory is hidden from the caller, and a start time that does not match only of the former |
| Pidfiles.LivingLooksGoneIffHidden | src/pidfile.rs:194-219 | a recorded process that is still there, with no call failing for another reason, is taken for gone if and only if its `/proc` directory is hidden from the caller |
| Pidfiles.LivingIsOurs | src/pidfile.rs:194-219 | a recorded process that runs throughout, with every call succeeding, is ours exactly when its uid is still the recorded one |
| Pidfiles.VerdictTells | src/pidfile.rs:194-219 | the verdict in terms of who holds the pid: another boot or a free pid is gone, another namespace a mismatch, a holder ours or not by start time and uid, pids 0 and 1 refused |
| Pidfiles.DownStopsOnlyTheRecorded | src/cli/down.rs:29-53 | `down` signals only the recorded process, of the caller's uid and not a systemd unit; where only other users' processes are hidden it removes the pidfile only when that process no longer runs or no longer has the recorded uid |
| Pidfiles.DownForgetsTheLivingIff | src/cli/down.rs:29-53 | with no call failing for another reason, `down` removes the pidfile of a process that runs if and only if the record is one it acts on and the process is hidden from the caller |
| Pidfiles.DownStopsTheLivingIff | src/cli/down.rs:28-53 | `down` signals a recorded process that is there, every call succeeding, exactly when the record is the caller's own and not systemd's and the uid still the process's; the file goes exactly when it was seen to exit |
| Pidfiles.StatusSpeaksOfTheRecorded | src/cli/status.rs:58-71 | `status` says running only of the process that wrote the record, and deletes the pidfile only when that process is gone or hidden |
| Pidfiles.StatusForgetsTheLivingIff | src/cli/status.rs:58-71 | with no call failing for another reason, `status` deletes the pidfile of a process that is there if and only if it is hidden from the caller |
| Pidfiles.StatusShowsTheLivingIff | src/cli/status.rs:58-71 | of a recorded process that is there, every call succeeding, `status` says that it runs exactly when its uid is still the recorded one |
| Pidfiles.StatusForgetsAnotherUsersPulse | src/cli/status.rs:58-71 | a concrete history: with other users' processes hidden, `status` deletes the pidfile of another user's running pulse |
| Pidfiles.LastCloseAt | src/pidfile.rs:353-356 | the split is at the last closing parenthesis |
| Pidfiles.WordsOfSpaced | src/pidfile.rs:353-356 | splitting at whitespace gives back the fields the kernel wrote |
| Pidfiles.StartSurvivesAnyCommand | src/pidfile.rs:351-356 | the start time is read back whatever the command name contains |
| Decimals.DecimalRoundTrip | src/pidfile.rs:353-356 | a printed number is parsed back, or refused when it does not fit the type |
| PersistCoordinators.RunKeeps | src/persist.rs:30-101 | every run keeps: the counter is the number of unfinished tasks (so it never wraps), no sleeper is forgotten, and true means finished |
| PersistCoordinators.WakeupIsNeverLost | src/persist.rs:73-86 | in every reachable state a flush asleep and not notified has a task unfinished, or one between its decrement and its notify |
| PersistCoordinators.TrueIsEarned | src/persist.rs:46-66 | whenever `flush` returns true, every task tracked before the call has finished |
| PersistCoordinators.FalseIsEarned | src/persist.rs:46-66 | whenever `flush` returns false, its timeout had passed and then a task was unfinished |
| PersistCoordinators.FlushReturns | src/persist.rs:73-86 | once every task has finished and notified, a flush returns true in at most three steps of its own, without the timeout |
| PersistCoordinators.AbandonedTaskBlocksFlush | src/persist.rs:25-44 | a task dropped before it starts never lowers the counter: no flush returns true after it |
| PersistCoordinators.ReturnsTrueIffNoneAbandoned | src/persist.rs:25-66 | with every task done or dropped, a flush can still return true exactly when none was dropped before it started |
| Dialogues.Dialogue.SetPhase | src/comms.rs:165-186 | an ended phase stays; a thinking phase set while paused is remembered instead; otherwise it is set and the status sent |
| Dialogues.Dialogue.PushTurn | src/comms.rs:188-205 | the turn is numbered, appended and broadcast |
| Dialogues.Dialogue.SetPaused | src/comms.rs:211-230 | flag, phase and remembered phase, and whether a status is sent |
| Dialogues.Dialogue.Stop | src/comms.rs:233-245 | unless it has ended: cancelled, the abort handle taken, and one abort requested if it was still there |
| Dialogues.Dialogue.Subscribe | src/comms.rs:143-153 | snapshot, whether it is over, and where live events start, all at once |
| Dialogues.Dialogue.End | src/comms.rs:491-522 | the guard cancels what has not ended, archives, and sends the last status and the ending |
| DialogueRuns.TurnsAlternateUpToTheCap | src/comms.rs:678-709 | in every run turns are numbered from one and alternate from the local pulse, never exceed the cap, and a finished dialogue has exactly the cap |
| DialogueRuns.EndedIsForever | src/comms.rs:170-173 | an ended phase is never left, whatever follows |
| DialogueRuns.OneEndingAfterEveryTurn | src/comms.rs:491-522 | leaving status events aside, every run broadcasts the turns in order, each once, and then one ending: an error for a failed dialogue, `Done` for any other; what is archived, once, is the whole transcript |
| DialogueRuns.EndingIsLastIffNoStatusPending | src/comms.rs:211-230 | the ending is the last event of every continuation exactly when no pause or resume had changed the phase without yet sending its status |
| DialogueRuns.StatusCanFollowDone | src/comms.rs:211-230 | a concrete run in which a status follows `Done` |
| DialogueStatuses.PhaseShowsTheSpeaker | src/comms.rs:165-186 | in every run, while a side is asked and until its answer is told, the phase - or the one a pause will give back - says that this side is thinking |
| DialogueStatuses.EndingHasACause | src/comms.rs:678-754 | in every run a dialogue fails only for an answer that did not come, with its reason, or for isolation, and is cancelled only if stopped or dropped |
| DialogueStatuses.WhatEndsIt | src/comms.rs:678-754 | from any state of a run: a failed answer, isolation and the turn at the cap end the dialogue as failed with the reason, as shed and as finished, unless a stop comes first; a stop cancels it |
| DialogueStatuses.ArchivedMeansWritten | src/comms.rs:491-545 | in every run the archived flag is up exactly when the guard archived a dialogue with turns, outside isolation, and the write succeeded |
| DialogueStatuses.StatusesAreReal | src/comms.rs:126-186 | in every run each status broadcast was that of the dialogue at some moment |
| DialogueStatuses.EndingFollowsItsStatus | src/comms.rs:491-522 | in every run the final status has been broadcast before the ending |
| DialogueStatuses.ThinkingIsTold | src/comms.rs:165-186 | in every run without pauses, while a side is asked, the last status broadcast says so, after so many turns |
| DialogueStatuses.ResumeUndoesPause | src/comms.rs:211-230 | a pause holds a dialogue that is thinking and says so; a resume undoes it and says again who is thinking |
| DialogueWatches.WatcherShowsEachTurnOnce | src/server/handlers/comms.rs:196-242 | a watcher that joins at any point, between a push and its broadcast included, and lags in any way, shows the turns in order, each once; all of them whenever it has caught up and when it hears the ending |
| DialogueWatches.OverSnapshotIsFinalIff | src/server/handlers/comms.rs:196-208 | a snapshot that is over is the final transcript if and only if the task is already ending, the cap is reached, or the task is parked at an await with its abort requested |
| DialogueWatches.OverResyncIsFinalIff | src/server/handlers/comms.rs:223-239 | the same of a watcher that has lagged and is shown what it missed of a dialogue that is over |
| DialogueWatches.ATurnCanFollowAStop | src/server/handlers/comms.rs:196-208 | a concrete run: a task about to push an answer is stopped and its abort requested, a watcher that joins is shown an ending, and the turn follows |
| DialoguePauses.PausesOnlyDelay | src/comms.rs:165-230 | for every run there is one in which nobody pauses with the same turns, effective phase, archive and ending: a pause and a resume leave the phase the run would have had |
| DialoguePauses.PausedMeansHeldIff | src/comms.rs:207-230 | in every run, while the dialogue is not over: the phase shows `paused` exactly while the task is held, if and only if the last request to set the flag and the last to change the phase asked for the same |
| DialoguePauses.PausedMeansHeld | src/comms.rs:207-230 | so when requests do not overlap and none is under way, the phase shows `paused` exactly while the task is held |
| DialoguePauses.OverlapShowsPausedWhileRunning | src/comms.rs:211-230 | two overlapping requests can leave the phase paused and the task running |
| GraphExtractors.GraphExtractor.Enqueue | src/graph_extract.rs:414-434 | refused when already pending or full; otherwise queued, watermark raised, and whether a worker is to start |
| GraphExtractors.GraphExtractor.RaiseWatermark | src/graph_extract.rs:224-232 | raised to the number, never lowered |
| GraphExtractors.GraphExtractor.StartCatchUp | src/graph_extract.rs:445-465 | first boot sets the watermark; nothing newer, no scan; else a scan above the watermark |
| GraphExtractors.GraphExtractor.CatchUp | src/graph_extract.rs:501-543 | the loop queues what was found and not yet queued, then refills |
| GraphExtractors.GraphExtractor.Refill | src/graph_extract.rs:668-680 | the loop is the recursive refill, with the highest number moved |
| GraphExtractors.GraphExtractor.NextJob | src/graph_extract.rs:478-492 | refill, then the first job, or the worker is marked stopped |
| GraphExtractors.GraphExtractor.Refuse | src/graph_extract.rs:546-566 | isolation, pause and budget, in that order |
| GraphExtractors.GraphExtractor.Finish | src/graph_extract.rs:598-646 | tokens charged to the day, and the failure count and pause after the outcome |
| GraphRuns.RefillMoves | src/graph_extract.rs:668-680 | a refill moves archives from the backlog to the end of the queue, up to 64, without duplicates, and reports the highest |
| GraphRuns.OneWorkerNothingStranded | src/graph_extract.rs:414-543 | in every run across restarts: at most one worker, at most 64 pending and no duplicates, and a queue or backlog that is not empty has that worker |
| GraphQueues.FirstInFirstOut | src/graph_extract.rs:414-543 | in every run across restarts the archives queued since the last boot are those taken and then those pending, each once and in order |
| GraphQueues.QueuedAsOffered | src/graph_extract.rs:414-434 | between boots, with no catch-up to be made, exactly those go into the queue that were offered when not pending and fewer than 64 were |
| GraphQueues.RefusalSays | src/graph_extract.rs:546-566 | why an archive is left, in every reachable state: isolation before a pause, a pause before a spent budget |
| GraphQueues.SpentIsSaidOnce | src/graph_extract.rs:556-566 | that the budget is spent is said of the first archive of a day and, until a restart, of no later one |
| GraphSpending.OverrunIsOneArchive | src/graph_extract.rs:244-275 | across restarts, as days do not go back, what was charged to a day before its last charge is below the cap |
| GraphSpending.AttemptCounts | src/graph_extract.rs:568-646 | what an attempt comes to: its tokens are charged to the day it began, an extraction ends the streak, a third failure pauses the day, nothing pending and no backend count as neither |
| GraphSpending.ThreeStrikesStopTheDay | src/graph_extract.rs:633-646 | after every third failure with no success between, the backend is not called again that day unless the pulse is restarted |
| GraphSpending.CallsExactlyWhen | src/graph_extract.rs:546-566 | in every reachable state an archive that a worker holds is extracted exactly when the pulse is not isolated, what was charged to the day is below the cap if there is one, and today was not struck out since the last restart |
| GraphSpending.CountStartsAgain | src/graph_extract.rs:633-646 | in every run in which a day has just been struck out, up to two further failures without a restart strike out no other day, and an archive held on a day not struck out by then is extracted, if the budget allows |
| GraphSpending.FiveFailuresInARow | src/graph_extract.rs:633-646 | with six archives to do: three fail and pause the day, two fail on the next, and the sixth is extracted there all the same |
| GraphSpending.RestartForgetsThePause | src/graph_extract.rs:310-325 | the pause is not on disk: from any state a restart and one archive lead to another call the same day, if the budget allows |
| GraphCatchUps.WatermarkCoversTheQueue | src/graph_extract.rs:224-232 | the watermark is at least every number ever put in `pending` |
| GraphCatchUps.WatermarkNeverFalls | src/graph_extract.rs:224-232 | once there is a watermark no run lowers it, restarts included |
| GraphCatchUps.BootDecides | src/graph_extract.rs:445-465 | what a boot does with the archives on disk: the first sets the watermark to the newest and scans nothing; a later one scans exactly when there is a newer one |
| GraphCatchUps.FirstBootLeavesTheBacklog | src/graph_extract.rs:436-465 | in every run from a first boot the watermark stays at or above the newest archive then on disk, and no catch-up or refill of that or a later boot queues one at or below it |
| GraphCatchUps.NoLaterBootPicksItAgain | src/graph_extract.rs:445-543 | what a catch-up queues, now or later from its backlog, no earlier boot queued |
| GraphCatchUps.CatchUpTakesEachOnceAscending | src/graph_extract.rs:501-543 | a catch-up of any size with no interleaved `enqueue` takes exactly the archives above the watermark that the store has pending, each once and in ascending order, and all of them by the time no worker is left |
| GraphLosses.NextBootQueuesIff | src/graph_extract.rs:445-543 | a boot queues an archive that is on disk and still pending exactly when it is above the watermark |
| GraphLosses.NextBootQueuesExactly | src/graph_extract.rs:414-543 | over every run from any boot: of the archives on disk and pending, the next boot queues exactly those above the watermark that boot left and above every number put in `pending` since |
| GraphLosses.AQueuedArchiveIsMissed | src/graph_extract.rs:478-543 | a concrete run with nothing enqueued: a catch-up queues an archive, the pulse goes down before it is taken, and the next boot leaves it out |
| GraphLosses.AnArchiveBeforeItsScanIsMissed | src/graph_extract.rs:414-465 | a concrete run: an archive waits for the scan of a boot, a newer one is enqueued, and the next boot leaves both out |
| GraphLosses.BacklogIsFoundAgainIff | src/graph_extract.rs:414-543 | over every run: an archive left in a backlog when the pulse goes down is queued by the next boot if and only if no `enqueue` was accepted since the boot before, or it is above the highest accepted |
| GraphLosses.AnArchiveIsMissed | src/graph_extract.rs:414-543 | a concrete run, of 65 archives and one more enqueued, after which the next boot leaves one out |
| GraphLosses.BacklogSurvivesARestart | src/graph_extract.rs:414-543 | over every run in which nothing is enqueued, the next boot queues every archive left in the backlog |
| Calibers.ParseCapabilityTable | src/caliber/document.rs:131-176 | the loop with its flags yields the entries of the specification |
| Calibers.ParseTableRows | src/caliber/document.rs:214-246 | the loop yields the rows after the separator |
| Calibers.FindSectionEnd | src/caliber/document.rs:249-273 | the loop finds the first line after the table |
| Calibers.ParseCaliberMd | src/caliber/document.rs:52-128 | the parsed document: header, tables and the text between |
| Calibers.RenderCaliberDoc | src/caliber/document.rs:398-458 | the printed document, section by section |
| Calibers.UpdateScores | src/caliber/document.rs:304-342 | the loop over the report: entries and whether any changed |
| Calibers.UpdateCaliberMd | src/caliber/document.rs:286-390 | the file after an update, the new rows of both logs included, or that it is not written |
| CaliberReadings.RowMeans | src/caliber/document.rs:179-211 | what any row means: with fewer than five cells nothing; else each cell trimmed, a half where no score can be read, and the number in the sample cell whatever stands around it |
| CaliberNights.EmptyPrints | src/caliber/document.rs:398-458 | the headings, table heads and rules of every printed file |
| CaliberProperties.RowRoundTrip | src/caliber/document.rs:179-211 | a printed entry is parsed back, its score rounded to hundredths |
| CaliberProperties.RoundTrip | src/caliber/document.rs:398-458 | for clean documents, parsing a printed document gives back the header, entries, calibration rows and evolution rows, and the free text with exactly one more blank line on each side |
| CaliberProperties.ExactScoresReturn | src/caliber/document.rs:179-211 | entries with scores of whole hundredths come back unchanged |
| CaliberProperties.FreeTextKeepsItsLines | src/caliber/document.rs:52-128 | every free-text line that is not blank comes back, in order |
| CaliberUpdates.WeightedIsBetween | src/caliber/document.rs:317-322 | the weighted average lies between the old score and the day's rate |
| CaliberUpdates.EvidenceWeighs | src/caliber/document.rs:304-330 | what a report does to the entry of a domain: the score changes exactly when the average by samples is more than 0.02 away, and then is that average to half a hundredth; the first entry with the same name but for case and underscores is the one |
| CaliberUpdates.NewDomainsAreAdded | src/caliber/document.rs:331-342 | a rated domain without an entry gets one, with its own rate and samples; one without samples enough changes nothing |
| CaliberUpdates.ScoreMovesTowardsTheRate | src/caliber/document.rs:313-330 | a score changes only by more than 0.02, stays in [0, 1] and, up to half a hundredth, between the old score and the day's rate; samples add up |
| CaliberUpdates.NightKeepsScores | src/caliber/document.rs:304-342 | after any report: scores in [0, 1], one entry a domain, entries in place, domains not reported untouched, every rated domain present |
| CaliberUpdates.UpdatedIsClean | src/caliber/document.rs:286-381 | an update of a clean document with a clean report is clean, so it is read back |
| CaliberUpdates.RowsRead | src/caliber/document.rs:344-381 | the cells of the rows that a night adds to both logs |
| CaliberUpdates.EffectReads | src/caliber/document.rs:353-381 | the last cell of the evolution row: the rates of the domains with samples enough, in order and in per cent, and the patterns |
| CaliberNights.NightsKeepTheRecord | src/caliber/document.rs:286-390 | night after night the header stays, entries keep domain and place and stay in [0, 1], the calibration record is the old rows and then every miss ever reported in order, the evolution log only grows, by at most one row a night, and the text between the tables keeps its lines but for blank ones |
| CaliberNights.FreshIsClean | src/caliber/document.rs:461-495 | the document made for a missing or empty file is one that is read back |
| CaliberNights.FreshHolds | src/caliber/document.rs:461-495 | the document made for a missing or empty file has an entry for every domain reported, with rate and samples, and the header |
| CaliberNights.NightsFromNothing | src/caliber/document.rs:286-390 | the same from a missing or empty file on, whatever clean reports follow |
| CaliberReadings.ParsedIsClean | src/caliber/document.rs:52-128 | whatever text is read, edited by hand included, with its headings in order, no stray carriage return and no score below zero, the document parsed survives being printed and read again |
| CaliberNights.NightsFromAnyFile | src/caliber/document.rs:286-390 | the same from any such file on with its scores in [0, 1]: it stays as it is until a night changes something, and then holds what was first read and what the nights added |

## Left out

- Strings are sequences of Unicode scalar values, so a cursor that the source keeps as a byte offset is a character offset here; byte lengths are computed where the source compares them.
- SpeechGates.Kept: the guard crate is not part of this model; `Kept` is what the tests of `src/speech_gate.rs` pin down of it.
- Markers.ScanExact: for ASCII text only, because which other characters are word characters is left to an arbitrary table; soundness (`DeadIsSound`) holds for all text.
- The debug switches of the speech gate, which only its tests turn off.
- ControlPlanes.WireKeepsOrder: a reader that goes away, and the closed channel that follows, are not modelled; counters are unbounded.
- VoiceTurns.VoiceNeverHearsACut: is about what is handed to `deliver`; a delta that meets a full channel is dropped after that (`VoiceWires` says what is heard). It takes the guard to keep every safe beginning of the first text block, which `EitherGuardKeeps` proves of guards that cut block by block or all as one, and a final response to hold the text that was streamed with its first block in front, which `ProviderStreams.DecodedStreamsMatch` proves of decoded bodies.
- VoiceWires.VoiceClientHears: for a line that drops no delta; with drops the client hears what `AllIsHeardIffNothingIsLost` says, which need not be a beginning of the reply.
- ProgressSinks.ProgressSink.Deliver: what the channel answers is an arbitrary function of what it was handed; the flag that remembers whether a delta was sent is left out.
- TurnProperties.TurnKeepsHistory: takes the truncation of long tool results to keep ids and warnings, and a reply that is not truncated to stay as it is; that function is not part of this model.
- ToolAnswers.TurnDegradesIff: takes the truncation of long tool results to change nothing but the text of results.
- The provider, the tools and the claim check are functions of what they are given; logging, receipts and the wording of notices are left out.
- JSON parsing and UTF-8 decoding are arbitrary functions in the decoder; the buffered provider call and HTTP are left out.
- Pidfiles.OursIsTheRecorded: time namespaces are left out, and so are writing the pidfile and the files themselves.
- Pidfiles.DownStopsOnlyTheRecorded: a pidfile that another process writes between the verdict and its removal is not modelled, nor is a removal that the file system refuses; `status` without a pidfile asks the server, which is left out.
- The wording of refusals and hints, and names of systemd units beyond whether there is one.
- PersistCoordinators.RunKeeps: the counter's width, and a spawn that itself panics.
- Dialogues: provider and peer calls are arbitrary answers, isolation an arbitrary flag, the archive a write that may fail; a task may be dropped at any await at which it is parked, as when the runtime goes down. Trust, prompts, injection screening and the slot of `start` are left out.
- GraphRuns.OneWorkerNothingStranded: a worker that panics is left out; `enqueue`'s push and the raise of the watermark are one step, and so are a refill and its raise.
- GraphSpending.OverrunIsOneArchive: ledger writes do not fail, and the cap is the same at every boot.
- Calibers.ParseCaliberMd: how text other than digits with two decimals is read as a score is an arbitrary function, and sums of sample counts do not overflow; scores are real numbers.
- CaliberProperties.RoundTrip: free text with carriage returns before line ends is excluded, because reading lines drops them.
- CaliberNights.NightsFromAnyFile: files whose headings are out of order, whose scores leave [0, 1], or with a line that ends in a carriage return besides its line break are excluded; reports are clean.
- Sessions, write-ahead log, context buffer, registry, peer networking, schedules, command line and terminal interface: input and output, wiring, or smaller checks.
