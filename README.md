# SpeechRecorder turn state machine

This project models the voice-chat component `SpeechRecorder`, a React component with a
microphone button and a text box, and proves properties of the model. The component runs
a loop of conversational turns:

- The browser's speech recognizer streams partial transcripts into the component.
- When 2000 ms pass with no new recognition result, the silence monitor cuts the transcript. The trimmed text becomes a "chunk". Stopping the recording or submitting the text box also produces a chunk.
- Each chunk is appended to the conversation as a user message and sent to the chat endpoint.
- The endpoint's reply is appended as an assistant message and read aloud by the speech synthesizer, unless the mute switch is on.
- After a turn, the recognizer is restarted if recording is still on.

The browser capabilities become events. There is one event each for:

- a recognition result;
- a tick of the 500 ms silence interval;
- a reply or a failure of a chat request;
- the 300 ms restart timeout firing;
- an utterance's `start`, `end` and `error` callbacks;
- each user action: start, stop, typing, submit, mute, persona.

Times are integer milliseconds passed in with the events.

Layout:

- `wrappers.dfy`: `Option`.
- `text.dfy`: JavaScript's `String.prototype.trim` (ECMAScript white space and line terminators) and its laws.
- `transcript.dfy`: the recognizer's `result` event and the `onresult` accumulation loop (`Transcript.Accumulate`), proved against a left-fold specification and an independent right-recursive reference.
- `turn.dfy`: the state machine as values.
  - `State` has three parts: `Capture` (the recognizer, the transcript and the silence interval), `Playback` (the synthesizer and the active utterance) and the conversation (messages and the chat requests still outstanding).
  - There is one function per event. `Step` applies an event and `Run` applies a sequence of events.
  - `Valid` is the invariant.
- `turn_properties.dfy`: what each event does, the invariant every event keeps, the append-only conversation, and the silence monitor's at-most-once cut.
- `recorder.dfy`: class `SpeechRecorder`.
  - Its fields are the component's state cells and refs, and it has one method per handler, effect and callback.
  - Every event method requires and ensures `Valid()`.
  - Each event method leaves `Snapshot()` equal to the matching `Turn` function applied to the old snapshot.
- `scenarios.dfy`: worked scenarios. They cover a quiet period after "hello world", and " test message " submitted and then either answered or failed.

React effects are run synchronously inside the event that changes their dependencies, and only when a dependency really changed:

- the recording effect (on `isRecording`) starts or stops the silence interval;
- the mute effect (on `isMuted`) cancels playback;
- the playback effect (on `[isMuted, messages]`) speaks a final assistant message.

This follows React's order of declaration: the mute effect runs before the playback effect.

Several chat requests may be outstanding at once, because the component has no guard against overlapping turns. `pending` holds them in the order they were issued, and a reply or failure names the request it completes. Scheduled restarts are counted in `pendingRestarts`. Utterances carry an id, so the `end` or `error` callback of a cancelled utterance is told apart from that of the active one.

Where the code behaves in a way one might not expect, the model follows the code:

- **Whitespace transcript after stopping.** A transcript made only of white space is not finalized when recording stops. It stays in place (`BlankTranscriptSurvivesStop`). Results may also still arrive after stopping, so a transcript with content can exist while recording is off.
- **No synthesizer without a recognizer.** The mount effect returns early when the browser has no speech recognition, before it picks up the speech synthesizer. On such a page nothing is ever spoken (`MountValid`).
- **Double speak.** A reply is handed to the synthesizer twice: once by `handleResponse` and once by the playback effect when the message is appended. The second request cancels the first, so one utterance stays active, and its id is the second one handed out (`ReplyIsSpoken`).

## Model

| member | source | states |
|---|---|---|
| Text.Trim | app/components/SpeechRecorder.tsx:164-165 | the trimmed text is no longer than the input, neither starts nor ends with white space, and is empty exactly when the input is all white space |
| Text.TrimIsSlice | app/components/SpeechRecorder.tsx:249-251 | the trimmed text is a contiguous slice of the input, and everything cut off on either side is white space |
| Text.TrimOfPadded | app/components/SpeechRecorder.tsx:249-251 | trimming removes exactly the surrounding white space and nothing inside the text |
| Transcript.Accumulate | app/components/SpeechRecorder.tsx:71-74 | the accumulation loop returns the first alternatives of results `resultIndex` to the end, joined left to right, and "" when `resultIndex` is past the end |
| Transcript.AccumulatedMatchesReference | app/components/SpeechRecorder.tsx:135-142 | the loop's text equals the independent reading: the first alternative of result `resultIndex`, then those of every later result |
| TurnProperties.ResultReplacesTranscript | app/components/SpeechRecorder.tsx:69-76 | a result event replaces the transcript (it does not append), sets its text from the event, stamps `now` as the last result time, and changes nothing else in capture |
| TurnProperties.StartRecordingSpec | app/components/SpeechRecorder.tsx:121-156 | without a recognizer nothing changes; otherwise the transcript is cleared, the clock restarts at `now`, the recognizer runs, recording and the silence interval are on, and nothing else changes |
| TurnProperties.StopRecordingSpec | app/components/SpeechRecorder.tsx:158-172 | without a recognizer nothing changes; otherwise the session stops and recording and the interval are off; a transcript with content is finalized once as its trimmed text (one user message, one request) and then cleared; a blank one is left alone; the invariant is kept |
| TurnProperties.BlankTranscriptSurvivesStop | app/components/SpeechRecorder.tsx:164-167 | stopping with any whitespace-only transcript turns recording off, finalizes nothing, and leaves that transcript in place |
| TurnProperties.RecordingEffectSpec | app/components/SpeechRecorder.tsx:97-103 | the recording effect acts only when `isRecording` changed, and then sets the interval's existence to the new flag and touches nothing else |
| TurnProperties.SilenceTimerLifecycle | app/components/SpeechRecorder.tsx:174-192 | starting the interval when it exists is a no-op; starting it makes it exist; stopping it leaves no interval; nothing else changes |
| TurnProperties.SilenceTickSpec | app/components/SpeechRecorder.tsx:176-183 | a tick at which the transcript is at least 2000 ms old and has content clears it and finalizes its trimmed text once; any other tick changes nothing |
| TurnProperties.SecondTickIsIdle | app/components/SpeechRecorder.tsx:179-182 | after a tick has cut the transcript, the next tick with no result in between does nothing |
| TurnProperties.TicksOnBlankAreIdle | app/components/SpeechRecorder.tsx:179 | any number of ticks over a transcript with no content change nothing |
| TurnProperties.TicksFinalizeAtMostOnce | app/components/SpeechRecorder.tsx:176-184 | however many ticks arrive with no result in between, the conversation either stays as it was or gains exactly one user message, the trimmed transcript |
| TurnProperties.SubmitSpec | app/components/SpeechRecorder.tsx:247-254 | blank input changes nothing and issues no request; otherwise the input is cleared and the trimmed text is finalized: one user message, one request carrying it and the persona |
| TurnProperties.FinalizeSpec | app/components/SpeechRecorder.tsx:209-222 | finalizing appends exactly one user message with the chunk and issues one request with the chunk and the current persona; nothing else changes |
| TurnProperties.ReplySpec | app/components/SpeechRecorder.tsx:224-229 | a reply appends exactly one assistant message; a failure appends nothing; both retire exactly the completed request |
| TurnProperties.SuccessfulTurn | app/components/SpeechRecorder.tsx:209-226 | a chunk followed by its reply adds two messages in order, the user's and then the assistant's, and leaves no request behind; while unmuted with a synthesizer, the reply is the active utterance |
| TurnProperties.FailedTurn | app/components/SpeechRecorder.tsx:209-229 | a chunk whose request fails leaves only the user message and no request behind |
| TurnProperties.StepAppendsOnly | app/components/SpeechRecorder.tsx:210 | no event removes or changes a message already in the conversation, and at most one message is added per event |
| TurnProperties.RunAppendsOnly | app/components/SpeechRecorder.tsx:225 | over any sequence of events the earlier conversation is a prefix of the later one |
| TurnProperties.RestartScheduledAfterTurn | app/components/SpeechRecorder.tsx:231-233 | after a reply or a failure: while recording, the recognizer is stopped and one restart is scheduled; otherwise capture is untouched |
| TurnProperties.RestartFiredSpec | app/components/SpeechRecorder.tsx:233-237 | a restart that fires while recording starts the recognizer; one that fires after stopping only retires the timeout |
| TurnProperties.MuteCancelsPlayback | app/components/SpeechRecorder.tsx:105-110 | muting cancels the active utterance and clears `isSpeaking`; the conversation and capture are untouched |
| TurnProperties.MutedSpeakStartsNothing | app/components/SpeechRecorder.tsx:194-199 | speaking while muted starts no utterance and clears `isSpeaking` |
| TurnProperties.SpeakReplacesPrior | app/components/SpeechRecorder.tsx:201-206 | speaking while unmuted replaces any prior utterance with the new one, so exactly one is active, and keeps the invariant |
| TurnProperties.UtteranceCallbacks | app/components/SpeechRecorder.tsx:203-205 | `start` sets `isSpeaking`; `end` and `error` clear it; only the active utterance's own `end` leaves the synthesizer idle |
| TurnProperties.PlaybackEffectSpec | app/components/SpeechRecorder.tsx:112-119 | while unmuted, a conversation ending in an assistant message has that message spoken, or without a synthesizer only `isSpeaking` cleared; muted, empty or ending in a user message, nothing changes |
| TurnProperties.ReplyIsSpoken | app/components/SpeechRecorder.tsx:226 | a reply arriving unmuted with a synthesizer becomes the active utterance (the second of the two handed out); while muted nothing is spoken |
| TurnProperties.UnmuteReplaysLastReply | app/components/SpeechRecorder.tsx:112-119 | unmuting while the last message is the assistant's speaks that message again |
| TurnProperties.StepPreservesValid | app/components/SpeechRecorder.tsx:97-110 | every event keeps the invariant: recording needs a recognizer, the interval exists exactly while recording, and nothing is active while muted |
| TurnProperties.RunPreservesValid | app/components/SpeechRecorder.tsx:97-103 | the invariant holds after any sequence of events |
| TurnProperties.MountValid | app/components/SpeechRecorder.tsx:55-95 | the state after mount is valid, is not recording, has an empty transcript, no requests and no restarts, and uses a synthesizer only when a recognizer was found too |
| Scenarios.SilenceCutsOnceAtThreshold | app/components/SpeechRecorder.tsx:176-184 | "hello world" heard at 0: the ticks at 500, 1000 and 1500 do nothing, the tick at 2000 finalizes it, and the tick at 2500 finds nothing |
| Scenarios.TypedMessageSubmitted | app/components/SpeechRecorder.tsx:247-254 | submitting " test message " clears the input and finalizes "test message" |
| Scenarios.SubmittedAndAnswered | app/components/SpeechRecorder.tsx:209-226 | a submitted text answered by `reply` gives the user message and then the reply; no request is left; the reply is spoken |
| Scenarios.TypedMessageAnswered | app/components/SpeechRecorder.tsx:247-254 | " test message " answered by "reply" gives the two messages, no request left, and "reply" is spoken |
| Scenarios.TypedMessageFails | app/components/SpeechRecorder.tsx:227-229 | a failed turn keeps only the user message and playback; the next submission is accepted at once |
| Recorder.SpeechRecorder.constructor | app/components/SpeechRecorder.tsx:55-95 | the object starts in the mount state, which is valid; it has a synthesizer only when the browser offers one and a recognizer was found |
| Recorder.SpeechRecorder.OnResult | app/components/SpeechRecorder.tsx:69-76 | the `result` handler leaves the object in `Turn.OnResult` of its old state, and keeps the invariant |
| Recorder.SpeechRecorder.StartRecording | app/components/SpeechRecorder.tsx:121-156 | `startRecording` and the recording effect leave the object in `Turn.StartRecording` of its old state |
| Recorder.SpeechRecorder.StopRecording | app/components/SpeechRecorder.tsx:158-172 | `stopRecording` and the recording effect leave the object in `Turn.StopRecording` of its old state, and keep the invariant |
| Recorder.SpeechRecorder.StartCheckSilence | app/components/SpeechRecorder.tsx:174-176 | `startCheckSilence` creates the interval only when none exists |
| Recorder.SpeechRecorder.StopCheckSilence | app/components/SpeechRecorder.tsx:187-192 | `stopCheckSilence` clears the interval |
| Recorder.SpeechRecorder.RecordingEffect | app/components/SpeechRecorder.tsx:97-103 | the effect on `isRecording` leaves capture in `Turn.RecordingEffect`: the interval is started or stopped only when the flag changed |
| Recorder.SpeechRecorder.SilenceTick | app/components/SpeechRecorder.tsx:176-184 | the interval's callback leaves the object in `Turn.SilenceTick` of its old state |
| Recorder.SpeechRecorder.FinalizeChunk | app/components/SpeechRecorder.tsx:209-222 | the synchronous part of `finalizeChunk` appends the user message and issues the request |
| Recorder.SpeechRecorder.FinalizeTranscript | app/components/SpeechRecorder.tsx:164-167 | in `stopRecording`, a trimmed transcript with content is finalized and the transcript then cleared; a blank one changes nothing |
| Recorder.SpeechRecorder.RestartAfterTurn | app/components/SpeechRecorder.tsx:231-233 | the end of `finalizeChunk` leaves capture in `Turn.RestartAfterTurn`: while recording, the session is stopped and one restart timeout scheduled |
| Recorder.SpeechRecorder.ReplyArrived | app/components/SpeechRecorder.tsx:224-238 | a reply, `handleResponse`, the restart logic and the playback effect leave the object in `Turn.ReplyArrived` of its old state |
| Recorder.SpeechRecorder.ReplyFailed | app/components/SpeechRecorder.tsx:227-238 | a failure and the restart logic leave the object in `Turn.ReplyFailed` of its old state |
| Recorder.SpeechRecorder.RestartFired | app/components/SpeechRecorder.tsx:233-237 | the restart timeout leaves the object in `Turn.RestartFired` of its old state |
| Recorder.SpeechRecorder.HandleSubmit | app/components/SpeechRecorder.tsx:247-254 | `handleSubmit` leaves the object in `Turn.HandleSubmit` of its old state |
| Recorder.SpeechRecorder.SetTextInput | app/components/SpeechRecorder.tsx:282 | typing sets `textInput` and changes nothing else |
| Recorder.SpeechRecorder.SetPersona | app/components/SpeechRecorder.tsx:40 | a new `selectedPersona` prop changes only the persona later requests carry |
| Recorder.SpeechRecorder.SpeakResponse | app/components/SpeechRecorder.tsx:194-207 | `speakResponse` leaves playback in `Turn.SpeakResponse` of its old value and nothing else changes |
| Recorder.SpeechRecorder.PlaybackEffect | app/components/SpeechRecorder.tsx:112-119 | the playback effect leaves the object in `Turn.PlaybackEffect` of its old state |
| Recorder.SpeechRecorder.SetMuted | app/components/SpeechRecorder.tsx:105-119 | a change of the mute switch and its effects leave the object in `Turn.SetMuted` of its old state, and keep the invariant |
| Recorder.SpeechRecorder.UtteranceStarted | app/components/SpeechRecorder.tsx:203 | the `start` callback sets `isSpeaking` and changes nothing else |
| Recorder.SpeechRecorder.UtteranceEnded | app/components/SpeechRecorder.tsx:204 | the `end` callback leaves playback in `Turn.UtteranceFinished` |
| Recorder.SpeechRecorder.UtteranceErrored | app/components/SpeechRecorder.tsx:205 | the `error` callback leaves playback in `Turn.UtteranceFinished` |

## Left out

- The JSX rendering (lines 256-295) is left out. It is presentation.
- Typing into the text box is reduced to setting `textInput`.
- The chat endpoint is reduced to "reply" and "failure" events: `fetch`, the JSON body, the HTTP status and `response.json()` are not modelled. A reply names the request it answers. A body that is not JSON counts as a failure. The persona is an opaque value carried in the request.
- Recognizer construction and configuration are left out. These are `continuous`, `interimResults`, `lang`, and the recreation of the recognizer on every start. The model keeps only whether a recognizer exists and whether its session runs. The old recognizer is abandoned on restart without being stopped, and the model does not capture this.
- Real clocks and timers are left out. `Date.now` is passed in as `now`. The 500 ms interval and the 300 ms restart timeout are events that the environment delivers. Only which timers exist is modelled, not when they fire.
- `console.*` and `alert` are logging only. The recognizer's `onerror` and `onend` handlers only log, so they are not events of the model.
- The `catch` branch of `stopRecording` (lines 168-171) is left out. The model assumes `stop()` does not throw. That branch would only set `isRecording` to false and skip finalizing.
- Unmount cleanup (lines 91-94) is left out. It clears the interval and stops the recognizer, and the model has no unmount event.
- Recorder.SpeechRecorder.SilenceTick: React's closure capture is not modelled. In the code, the interval callback reads `partialTranscript` from the render in which the interval was created. That is the render that turned recording on, so the transcript it reads is "", and the silence cut never fires as written. The model reads the current transcript, which is what the silence check is evidently for.
- Recorder.SpeechRecorder.ReplyArrived: the restart check (line 231) reads `isRecording` from the render that called `finalizeChunk`. So the recognizer may be stopped and a restart scheduled after the user has stopped recording. The model reads the current flag.
- Recorder.SpeechRecorder.RestartFired: the restart timeout (line 234) reads the same `isRecording` as line 231, which was true when the restart was scheduled. So as written a firing always starts the recognizer, even after the user stopped recording. The model reads the current flag and suppresses that restart.
- TurnProperties.RestartFiredSpec: its "a restart firing after stopping only retires the timeout" holds for the model, which reads the current `isRecording`, not for the code's stale read at line 234.
- TurnProperties.RestartScheduledAfterTurn: its "not recording, capture is untouched" holds for the model, which reads the current `isRecording`, not for the code's stale read at line 231.
- Recorder.SpeechRecorder.ReplyArrived: `handleResponse` (line 242) and `speakResponse` (line 195) run after the `await` in `finalizeChunk` and read `isMuted` from the render that called `finalizeChunk`. If mute is switched on while the request is outstanding, the code speaks the reply while muted; if mute is switched off meanwhile, the code speaks it once where the model speaks it twice. The model reads the current flag.
- TurnProperties.ReplyIsSpoken: its "while muted nothing is spoken" holds for the model, which reads the current `isMuted`; in the code a reply to a request issued while unmuted is spoken even if mute was switched on before it arrived.
- TurnProperties.StepPreservesValid: its "nothing is active while muted" holds for the model; in the code the stale `isMuted` read at lines 242 and 195 can start an utterance while muted, when mute was switched on during an outstanding request.
- Passing the cancelled utterance's `end` or `error` to the synthesizer is left to the environment: `Ended` and `Errored` events may name any utterance handed out so far.
- Messages and the mute switch belong to the parent component in the code. The model keeps them in its own state, and the parent's appends are not modelled.
