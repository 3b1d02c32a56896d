# DEWA English tutor: a verified model of the session, playback and transcript core

This project models the core of a browser-based voice tutor. The tutor opens a live
speech-to-speech session with a hosted model. It captures microphone audio as 16-bit PCM
and plays back the model's audio gaplessly. It coalesces partial transcriptions into a
transcript and derives a coarse agent status, which the status line and the microphone
button display.

Files and modules:

- `types.dfy` (`Types`): proficiency levels, `AgentStatus` with its run-time string values, `Message`.
- `pcm.dfy` (`Pcm`): `createPcmBlob`. It covers Int16Array store semantics (truncate, then wrap
  modulo 2^16, no clamping), the byte view of the buffer and the MIME type. The method
  `CreatePcmBlob` fills an array in a loop and is proved equal to the function `PcmBlob`.
- `capture_lifecycle.dfy` (`CaptureLifecycle`): the live-session service's three module-level
  capture references (microphone stream, 16 kHz input context, 4096-sample processor). Each
  handler is a function on that state, with the "nothing live after close" and "frames only
  while wired" properties.
- `gemini_service.dfy` (`GeminiService.EchoService`): the same handlers as a class whose fields
  are those references, each method proved against its `CaptureLifecycle` function.
- `conversation.dfy` (`Conversation`): the app component's state (transcript, two accumulators,
  playback cursor, active sources, session, status, error) and one function per handler. Also
  the playback invariant (active buffers never overlap and never run past the cursor) and the
  coalescing, interruption and idempotence lemmas.
- `app.dfy` (`AppComponent.App`): the app component as a class with fields. Each handler is
  proved against its `Conversation` function, including the loop that stops every active source.
- `mic_button.dfy` (`MicButton`) and `status_indicator.dfy` (`StatusIndicator`): the two
  presentational decisions as pure functions of the status.
- `conversation_view.dfy` (`ConversationView`): what the two widgets jointly show in
  the states the handlers produce.

Behaviours of the code a reader may not expect, each shown by a lemma or stated in a contract:

- On close, the service drops the microphone stream and the processor. It drops the input
  context only when that context was still open, so a context that is already closed stays
  referenced (services/geminiService.ts:97-100). `Released` allows this, and
  `ClosedContextIsKept` shows it.
- After a turn boundary, a fragment from the sender of the last message does not start a new
  message. The accumulator was cleared, so the fragment replaces that message's text
  (`TurnCompleteThenSameSender`). For the same reason, the agent's first fragment after a level
  is chosen replaces the greeting (`FirstAgentFragmentReplacesGreeting`).
- A decode failure happens after the cursor has already moved up to the clock (App.tsx:82).
  So the failure changes the cursor as well as the error and the status.
- `startConversation` catches only a failure to create the session. A denied microphone
  reaches the app through the session's error callback (services/geminiService.ts:81-84)
  and `handleError`, so it shows the connection-error text.
- The `ended` listener (App.tsx:90-95) does not check whether its source is still tracked.
  An `ended` event that arrives after a stop sets LISTENING while no session exists
  (`EndedAfterStop`).
- After a decode failure the status is ERROR, so the button offers to start a new conversation
  while the old session is still held (`DecodeFailureOffersStart`).
- App.tsx:78 reads `modelTurn?.parts[0]` with no `?.` after `parts`. A model turn without a
  `parts` array makes the handler throw after the transcriptions were applied. That message's
  audio, turn-complete and interruption parts are then skipped (`MissingPartsSkipsTurnEnd`).

Clock times and durations are exact reals. Each server message, and each callback, is one
atomic step. The byte view of the Int16 buffer is taken as little-endian.

## Model

| member | source | states |
|---|---|---|
| Pcm.Trunc | services/geminiService.ts:38 | the stored integer is the sample product truncated toward zero: within one unit, on the side of zero |
| Pcm.ToInt16 | services/geminiService.ts:38 | an Int16 store keeps values in [-32768, 32767] unchanged and otherwise wraps: the result equals n minus the multiple of 65536 that brings it into range |
| Pcm.Quantize | services/geminiService.ts:38 | for samples in [-1, 1) the stored value is the truncated product, with no wrap, and lies within one quantisation step of sample×32768 |
| Pcm.PositiveFullScaleWraps | services/geminiService.ts:38 | no clamping: a sample of exactly 1.0 (product 32768) is stored as -32768 |
| Pcm.Quantized | services/geminiService.ts:35-39 | one quantised value per input sample, in order |
| Pcm.LittleEndian | services/geminiService.ts:41 | the byte view of the Int16 buffer has exactly two bytes per value |
| Pcm.FromLittleEndian | services/geminiService.ts:41 | reading the byte view back yields one 16-bit value per byte pair |
| Pcm.BytesRoundTrip | services/geminiService.ts:41 | reinterpreting the payload bytes as 16-bit PCM gives back exactly the stored values |
| Pcm.PcmBlob | services/geminiService.ts:34-44 | the blob has 2 bytes per sample, MIME type `audio/pcm;rate=16000`, and its bytes decode to the quantised samples |
| Pcm.CreatePcmBlob | services/geminiService.ts:34-44 | the fill loop over the Int16Array produces exactly `PcmBlob` of the samples |
| CaptureLifecycle.Initial | services/geminiService.ts:18-20 | before any session, all three references are null, nothing was reported and nothing was sent |
| CaptureLifecycle.StartEchoSession | services/geminiService.ts:46-58 | before connecting, the previous tracks are stopped, the same context is left closed (closed now if it was open) and the same processor is left disconnected; no reference is dropped; then a connection is requested |
| CaptureLifecycle.TransportOpened | services/geminiService.ts:61-86 | with the microphone granted, stream, 16 kHz context and 4096-sample mono processor are wired before `onopen` is notified; when it is denied, the resources are untouched, `onerror` gets the microphone message and the session is asked to close; `onopen` is notified exactly when granted |
| CaptureLifecycle.AudioProcess | services/geminiService.ts:69-75 | a connected processor sends one `PcmBlob` per frame; otherwise nothing is sent |
| CaptureLifecycle.TransportError | services/geminiService.ts:88-91 | a transport error is forwarded unchanged to the caller's `onerror`: exactly one error notice with the same message, nothing else changes |
| CaptureLifecycle.TransportClosed | services/geminiService.ts:92-106 | on close, a held stream's tracks are stopped, an open context is closed and a held processor is disconnected, in that order (`Releases`); then stream and processor are dropped, the open context is dropped (an already-closed one is kept), and `onclose` is notified last; nothing is live afterwards |
| CaptureLifecycle.Releases | services/geminiService.ts:93-104 | the release records name exactly the held stream, the still-open context and the held processor, in source order and each at most once |
| CaptureLifecycle.ReleasedBeforeCloseNotified | services/geminiService.ts:92-106 | every resource held at close is released before the caller's `onclose`, which is the handler's last action |
| CaptureLifecycle.StepPreservesInv | services/geminiService.ts:46-106 | every handler keeps "a processor that delivers frames is fully wired" |
| CaptureLifecycle.RunPreservesInv | services/geminiService.ts:46-106 | that invariant holds after any sequence of handler calls |
| CaptureLifecycle.SendOnlyWhileMicLive | services/geminiService.ts:69-78 | a frame is sent only while the microphone tracks are live and the 16 kHz context is open |
| CaptureLifecycle.QuietUntilGranted | services/geminiService.ts:46-106 | once the processor is disconnected or dropped, nothing is sent until the microphone is granted again |
| CaptureLifecycle.MicDeniedScenario | services/geminiService.ts:81-84 | start then a denied microphone: the caller gets the error, never `onopen`, and later frames send nothing |
| CaptureLifecycle.ClosedContextIsKept | services/geminiService.ts:97-100 | a context that was already closed stays referenced through the close handler and the next start, and is not closed again |
| GeminiService.EchoService.constructor | services/geminiService.ts:18-20 | the module-level references start out null |
| GeminiService.EchoService.StartEchoSession | services/geminiService.ts:46-58 | updates the references exactly as `CaptureLifecycle.StartEchoSession` |
| GeminiService.EchoService.OnOpen | services/geminiService.ts:61-86 | updates the references exactly as `CaptureLifecycle.TransportOpened` |
| GeminiService.EchoService.OnAudioProcess | services/geminiService.ts:69-75 | sends the blob built by `CreatePcmBlob`, exactly as `CaptureLifecycle.AudioProcess` |
| GeminiService.EchoService.OnError | services/geminiService.ts:88-91 | as `CaptureLifecycle.TransportError` |
| GeminiService.EchoService.OnClose | services/geminiService.ts:92-106 | stops, closes and disconnects in source order, then drops the references and notifies, exactly as `CaptureLifecycle.TransportClosed` |
| Conversation.Initial | App.tsx:15-26 | initial state: no level, SELECT_LEVEL, empty transcript, no error, no session, no output context, cursor 0, no active source, both accumulators empty; satisfies the playback invariant |
| Conversation.LevelSelect | App.tsx:38-44 | choosing a level sets it, sets IDLE and resets the transcript to exactly the one greeting message; nothing else changes |
| Conversation.Settled | App.tsx:51-58 | the untouched part of the transcript is the whole transcript or all but its last message |
| Conversation.Coalesce | App.tsx:51-59 | if the last message is from the same sender, its text is replaced (same length, earlier messages unchanged); otherwise exactly one message is appended; either way the transcript ends with that sender's text |
| Conversation.InputFragment | App.tsx:47-60 | the fragment extends the user accumulator, and the transcript ends with one user message carrying the whole accumulator; nothing else changes |
| Conversation.OutputFragment | App.tsx:62-76 | the same for the agent, and the status becomes SPEAKING |
| Conversation.Later | App.tsx:82 | the cursor update is the maximum of cursor and clock |
| Conversation.ScheduleAudio | App.tsx:78-105 | audio is handled only for a non-empty payload with an output context. The cursor first becomes max(cursor, now). A decoded buffer starts there, so never before the clock, on a fresh source that joins the active set, and the cursor then advances by exactly its duration. A decode failure sets the playback error text and ERROR |
| Conversation.TurnComplete | App.tsx:107-110 | both accumulators become empty and nothing else changes |
| Conversation.Flush | App.tsx:114-118 | every active source is stopped, the set becomes empty and the cursor is 0 |
| Conversation.Interrupt | App.tsx:112-120 | interruption stops every active source, empties the set, resets the cursor to 0 and sets LISTENING; nothing else changes |
| Conversation.Dispatch | App.tsx:46-122 | a whole message: interruption leaves no active source, cursor 0 and LISTENING; turn-complete leaves both accumulators empty; a model turn without `parts` aborts after the transcriptions, leaving playback untouched and the accumulators merely extended; all transcript messages except possibly the last stay in place; level, session and output context are untouched |
| Conversation.SourceEnded | App.tsx:90-95 | an ended source leaves the active set; the status becomes LISTENING exactly when the set is then empty |
| Conversation.ConnectionError | App.tsx:124-128 | a transport error sets the connection error text and ERROR and nothing else |
| Conversation.BeginConversation | App.tsx:137-144 | without a level nothing happens; otherwise the error is cleared, CONNECTING is shown and an open 24 kHz output context exists (an open one is reused) |
| Conversation.SessionResolved | App.tsx:146-161 | a created session is kept; a failure sets the start error text and ERROR |
| Conversation.SessionOpened | App.tsx:150 | `onopen` sets LISTENING and nothing else |
| Conversation.StopConversation | App.tsx:164-175 | the session is closed and forgotten, all active sources are stopped, the set is empty, the cursor is 0 and the status is IDLE |
| Conversation.Unmount | App.tsx:28-36 | unmounting closes the session, closes an open output context and keeps the reference to it, and leaves an absent or closed one as it was |
| Conversation.ScheduleAudioKeepsInv | App.tsx:82-99 | a new buffer starts no earlier than the end of every active buffer, so active buffers never overlap and never run past the cursor |
| Conversation.DispatchKeepsInv | App.tsx:46-122 | handling any message keeps that playback invariant |
| Conversation.StepKeepsInv | App.tsx:38-175 | every handler keeps the playback invariant |
| Conversation.RunKeepsInv | App.tsx:38-175 | the playback invariant holds after any sequence of events |
| Conversation.Gapless | App.tsx:82-98 | of two buffers received in a row without interruption, the second starts no earlier than the first ends, and exactly when it ends if it arrives before that moment |
| Conversation.MissingPartsSkipsTurnEnd | App.tsx:78 | a message with turn-complete and interruption whose model turn lacks `parts` changes nothing: scheduled buffers keep playing and the accumulators are not cleared |
| Conversation.InterruptRestartsAtClock | App.tsx:112-120 | after an interruption the set is empty and the next buffer starts at the current clock, not at the old cursor |
| Conversation.OneFragment | App.tsx:47-76 | one fragment message leaves the untouched part followed by one message holding the accumulator plus the fragment |
| Conversation.FragmentRunCoalesces | App.tsx:47-76 | a run of same-sender fragments without a turn boundary yields exactly one message for the run, whose text is the accumulator followed by the fragments in arrival order |
| Conversation.HelloScenario | App.tsx:62-110 | fragments "Hel" and "lo" then turn-complete leave one agent message "Hello", empty accumulators and SPEAKING |
| Conversation.TurnCompleteThenSameSender | App.tsx:51-56 | after turn-complete, a fragment from the last message's sender overwrites that message with just the new text; the length is unchanged |
| Conversation.FirstAgentFragmentReplacesGreeting | App.tsx:38-44 | right after a level is chosen, the agent's first fragment replaces the greeting |
| Conversation.StopIsIdempotent | App.tsx:164-175 | stopping twice gives the same state as stopping once |
| Conversation.DecodeFailureIsLocal | App.tsx:100-104 | a decode failure sets ERROR and leaves transcript, session, active sources and playback untouched |
| AppComponent.App.constructor | App.tsx:15-26 | the component's state starts as `Conversation.Initial` |
| AppComponent.App.HandleLevelSelect | App.tsx:38-44 | updates the fields exactly as `LevelSelect` |
| AppComponent.App.HandleMessage | App.tsx:46-122 | updates the fields exactly as `Dispatch` |
| AppComponent.App.AppendInputTranscription | App.tsx:47-60 | as `InputFragment` |
| AppComponent.App.AppendOutputTranscription | App.tsx:62-76 | as `OutputFragment` |
| AppComponent.App.PlayAudio | App.tsx:78-105 | as `ScheduleAudio` |
| AppComponent.App.StopAllSources | App.tsx:114-118 | the loop stops each active source, then the set is cleared and the cursor reset, as `Flush` |
| AppComponent.App.OnSourceEnded | App.tsx:90-95 | as `SourceEnded` |
| AppComponent.App.HandleError | App.tsx:124-128 | as `ConnectionError` |
| AppComponent.App.StartConversation | App.tsx:137-144 | as `BeginConversation` |
| AppComponent.App.OnSessionResolved | App.tsx:146-161 | as `SessionResolved` |
| AppComponent.App.OnOpen | App.tsx:150 | as `SessionOpened` |
| AppComponent.App.StopConversation | App.tsx:164-175 | as `Conversation.StopConversation` |
| AppComponent.App.Unmount | App.tsx:28-36 | as `Conversation.Unmount` |
| MicButton.IsConversing | components/MicButton.tsx:25 | conversing exactly when the status is not IDLE, SELECT_LEVEL or ERROR |
| MicButton.IsDisabled | components/MicButton.tsx:26 | disabled exactly when conversing but not LISTENING; disabled implies conversing |
| MicButton.HandleClick | components/MicButton.tsx:28-34 | a click stops exactly when conversing and starts exactly when not; one of the two |
| MicButton.Press | components/MicButton.tsx:51-52 | a disabled button delivers nothing; a delivered click is `handleClick`; stop can be pressed only while LISTENING |
| MicButton.RingClass | components/MicButton.tsx:36-43 | green pulsing ring for LISTENING, cyan for SPEAKING, gray for every other status |
| MicButton.ActiveClasses | components/MicButton.tsx:46 | red while conversing, cyan otherwise |
| MicButton.ClassName | components/MicButton.tsx:45-53 | the class list is the base classes, one space, the colour classes, one space, then `ring-4 ` and the ring class at the end |
| MicButton.Classes | components/MicButton.tsx:53 | the template literal places base, colour classes and `ring-4 ` plus ring class at fixed positions, separated by single spaces, with the exact total length |
| MicButton.AriaLabel | components/MicButton.tsx:54 | the label reads "Stop conversation" exactly when a click stops and "Start conversation" exactly when it starts |
| MicButton.ButtonIcon | components/MicButton.tsx:56 | the stop icon exactly when conversing |
| MicButton.PresentationMatchesCommand | components/MicButton.tsx:28-56 | label, icon and colour announce stop exactly when a click stops |
| StatusIndicator.ErrorText | components/StatusIndicator.tsx:31 | the error text if present and non-empty, otherwise "An error occurred"; never empty |
| StatusIndicator.MatchCase | components/StatusIndicator.tsx:13-40 | a status value matches the case of the enum member with that value, or none |
| StatusIndicator.MatchCaseRoundTrip | components/StatusIndicator.tsx:13-37 | every enum member reaches its own case |
| StatusIndicator.Indicate | components/StatusIndicator.tsx:13-41 | the text is never empty; the dot pulses exactly for CONNECTING, LISTENING and SPEAKING; ERROR shows the error text with a red dot; any other value gives "Idle" with a gray dot |
| StatusIndicator.Render | components/StatusIndicator.tsx:43-54 | only ERROR renders red text without a dot; every other status renders the dot and gray text; the text is the switch's text |
| StatusIndicator.StatusTexts | components/StatusIndicator.tsx:14-37 | the text of each of the six statuses |
| ConversationView.PulseMeansConversing | components/ConversationView.tsx:33-35 | the status dot pulses exactly when the button offers to stop |
| ConversationView.AfterStop | App.tsx:164-175 | after a stop, the status line reads "Ready to start" and a press starts a conversation |
| ConversationView.WhileConnecting | App.tsx:137-144 | while connecting, the button shows the stop icon but cannot be pressed, and the status line reads "Connecting..." |
| ConversationView.DecodeFailureOffersStart | App.tsx:100-104 | after a decode failure the session is still held, the error shows in red and a press starts a new conversation |
| ConversationView.EndedAfterStop | App.tsx:90-95 | an ended event after a stop sets LISTENING with no session, and the button then offers stop |

## Left out

- Base64 `encode`/`decode` and `decodeAudioData` (utils/audioUtils) are not part of this model. A
  blob carries the raw Int16 bytes that `encode` would turn into base64. Decoding an inline
  payload is an input that yields a duration or a failure.
- Web Audio, `getUserMedia` and the live transport are I/O. Contexts, streams and processors are
  flags. Transport callbacks, the microphone outcome, the clock (`currentTime`) and session
  identities are event parameters. Connection settings (model name, voice, modalities) are not
  recorded.
- NaN and infinite samples, which an Int16 store turns into 0, are not modelled. Samples are exact
  reals; a Float32 product by 32768 is exact.
- Only an audio context that is missing or closed is tracked. A failure of `new AudioContext` or
  of processor creation after the microphone was granted is not modelled.
- The `await` between the cursor update (App.tsx:82) and its use (App.tsx:97) is not modelled.
  React's deferred evaluation of `setTranscript` updaters is also not modelled: each message is
  one atomic step, and updaters see the accumulator as it is at that moment.
- `handleClose` (App.tsx:130-135) is left out. It compares against the `status` value captured
  by an earlier render, so its effect depends on hook capture, not on the code's logic.
- A missing transcription `text`, which would append the string "undefined", is not modelled.
  Only `parts[0]` of a model turn is modelled (a missing `parts` array is, see above).
- The `API_KEY` check at import time is configuration. constants.ts holds prompt text only. The
  system instruction is an opaque string.
- components/LevelSelector.tsx, components/Message.tsx and the scroll effect of
  components/ConversationView.tsx are presentational.
- Concurrent sessions are not modelled. A close event from an earlier session that arrives after
  a new session has opened would release the new session's resources.
