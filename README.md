# Live coaching session controller

This project models the session controller of a real-time workout-coaching
app (`hooks/useLiveSession.ts`). The controller:

- opens a streaming session with a remote model;
- gates the microphone and camera frames it sends;
- turns streamed transcription fragments into a message log;
- stores the score the model reports through its one tool, `submitWorkoutScore`;
- schedules the model's audio replies back to back on a playback cursor;
- stops all playback when the model interrupts itself;
- tears everything down on `disconnect`.

The controller is a class, `Session.LiveSession`:

- React state and refs become fields.
- `connect`, `disconnect`, `requestReview`, the session callbacks and
  `handleServerMessage` become methods.
- Every resource ref becomes a flag saying whether the ref holds its object.
  `hasSession` is whether the session promise ref is set.
- Everything the controller sends is appended to an `outbox` sequence:
  tool responses, audio and video frames, the review marker frame, and
  the session close.
- Every `start()`/`stop()` on an audio source is appended to `audioLog`.
- The live set of audio sources is a sequence in insertion order. That is
  also the iteration order of a JavaScript `Set`.

The class invariant `Valid` holds throughout. It says:

- the playback queue is consistent: every live source ends by the cursor,
  and source ids are distinct;
- the message log holds no blank message (with React's state updaters
  evaluated at the call; see `FlushUserTurn` under Left out);
- reviewing excludes video sending;
- a session only exists over a media stream, and a stream only over both
  audio contexts.

Each method that handles a server message is proved against a pure
step function. The properties that span several calls are proved as
lemmas about those functions:

- `Transcription.Step` and `Transcription.FlushTurn` for the transcript;
- `Playback.Enqueue` and `Playback.StopPlayback` for playback;
- `ToolCalls.LastScore` and `ToolCalls.Acks` for tool calls.

Modules:

- `Types`: the records of `types.ts` plus message and event shapes.
- `Text`: JavaScript's `trim`, `toLowerCase`, `includes` and integer `toString`.
- `ToolCalls`: scoring calls and their acknowledgements.
- `Transcription`: the accumulators, the flush and interruption.
- `Playback`: the cursor, the live set and the schedule.
- `Session`: the controller class.

Some behaviours of the controller a reader might not expect, all modelled
as the code has them:

- When one message carries several scoring calls, the last one's data is
  kept ("last write wins"), and a later message overwrites it again.
- A flushed message carries the accumulator's text untrimmed.
- A whitespace-only accumulator is neither logged nor cleared.
- `connect` does not check the current status.
- `requestReview` sends a review marker frame on every call; nothing
  guards a repeated request.
- Each praise starts its own three-second timeout, and the first one to
  fire clears the form flag, so a second praise does not extend the
  window.
- `disconnect` resets neither the transcription accumulators, nor the
  live audio sources, nor the playback cursor. It keeps the review data.
  See Findings.
- `onclose` compares the status captured when `connect` was created, not
  the current one. See Findings.

## Model

| member | source | states |
|---|---|---|
| Session.LiveSession.constructor | hooks/useLiveSession.ts:38-57 | Initial state: IDLE, empty log, no review, no handles, gates closed, empty queue with the cursor at 0. |
| Session.LiveSession.Connect | hooks/useLiveSession.ts:59-141 | Missing API key: ERROR and nothing else changes. Otherwise: gates open, not reviewing, review data null, both contexts. Refused media: ERROR; stream, session and close guard as before. Granted media: CONNECTING with stream and session, and `onclose` captures the status `connect` saw. |
| Session.LiveSession.ResetForRun | hooks/useLiveSession.ts:65-77 | CONNECTING, both gates true, `isReviewing` false, review data null, both audio contexts held; the invariant is kept. |
| Session.LiveSession.OpenSession | hooks/useLiveSession.ts:80-136 | The stream and the session are held and the close guard is the captured status; the invariant is kept. |
| Session.LiveSession.OnOpen | hooks/useLiveSession.ts:111-116 | ACTIVE; the video timer starts exactly when a video element exists. |
| Session.LiveSession.OnError | hooks/useLiveSession.ts:124-134 | ERROR, from the error callback and from a rejected session promise. |
| Session.LiveSession.OnClose | hooks/useLiveSession.ts:120-123 | As written: IDLE unless the status captured at connect time is ERROR, whatever the current status. |
| Session.LiveSession.OnCloseLive | hooks/useLiveSession.ts:120-123 | As intended: IDLE unless the current status is ERROR. |
| Session.LiveSession.Disconnect | hooks/useLiveSession.ts:144-182 | Gates closed, every handle released, IDLE, empty log, flags false. A session close is sent exactly when a session promise is held. The invariant is kept. |
| Session.LiveSession.ReleaseResources | hooks/useLiveSession.ts:145-174 | Both gates false, all five handles released, and one close appended exactly when a session promise was held. |
| Session.LiveSession.ResetView | hooks/useLiveSession.ts:176-181 | IDLE, empty log, form and reviewing flags false; review data untouched. |
| Session.SecondDisconnectChangesNothing | hooks/useLiveSession.ts:144-182 | On a torn-down controller `disconnect` changes no field and sends nothing. |
| Session.LiveSession.RequestReview | hooks/useLiveSession.ts:184-226 | No session: nothing changes. Otherwise video sending stops, reviewing starts, and one marker frame is sent per call when it renders. The audio gate is unchanged and the video gate is closed. |
| Session.LiveSession.AudioTick | hooks/useLiveSession.ts:232-240 | A microphone buffer is sent exactly when a session exists and the session is active. |
| Session.LiveSession.VideoTick | hooks/useLiveSession.ts:254-273 | A captured frame is sent exactly when the session exists, is active and video is enabled, and the frame was captured. |
| Session.LiveSession.SourceEnded | hooks/useLiveSession.ts:359-361 | The ended source leaves the live set, and the queue invariant is kept. |
| Session.LiveSession.FormClearTimerFires | hooks/useLiveSession.ts:334-335 | A pending three-second timer clears the form flag. |
| Session.LiveSession.AcknowledgeToolCalls | hooks/useLiveSession.ts:281-299 | The review data becomes the last scoring call's arguments. With a session, one acknowledgement is sent per scoring call. |
| Session.LiveSession.AppendTranscription | hooks/useLiveSession.ts:302-310 | Each fragment joins its own direction's accumulator; the log is untouched. |
| Session.LiveSession.FlushTranscription | hooks/useLiveSession.ts:312-340 | The transcript becomes `FlushTurn` of the old one. The form flag and the timer count rise exactly when the model text is non-blank praise. |
| Session.LiveSession.FlushUserTurn | hooks/useLiveSession.ts:313-321 | A non-blank user accumulator is appended as one user message and emptied; a blank one changes nothing. |
| Session.LiveSession.FlushModelTurn | hooks/useLiveSession.ts:323-339 | A non-blank model accumulator is appended as one model message and emptied. Praise raises the flag and schedules one clear. |
| Session.LiveSession.UpdateTranscript | hooks/useLiveSession.ts:301-378 | The transcript becomes `Step` of the old one. The form flag follows `Praised`. |
| Session.LiveSession.UpdatePlayback | hooks/useLiveSession.ts:342-378 | The queue becomes `AudioStep` of the old queue: enqueue the decoded chunk, then stop everything on interruption. The queue invariant is kept. |
| Session.LiveSession.HandleServerMessage | hooks/useLiveSession.ts:279-379 | The combined effect of one message on the review data, the outbox, the transcript, the form flag and the playback queue, each by its step function. |
| Session.AudioData | hooks/useLiveSession.ts:343-344 | Audio is taken from the message only when its base64 data is present and non-empty; otherwise there is none. |
| Session.AudioStep | hooks/useLiveSession.ts:343-378 | The playback effect of one message only appends to the audio log and never lowers the next id. An interruption leaves nothing live and the cursor at 0; otherwise the live set only grows. |
| Session.LiveSession.AudioGateOpen | hooks/useLiveSession.ts:233 | The microphone gate: session held and active. When it is open under the invariant, the stream and the input context exist. |
| Session.LiveSession.VideoGateOpen | hooks/useLiveSession.ts:255 | The camera gate implies the microphone gate. Under the invariant it is closed while reviewing. |
| Session.AudioStepKeepsValid | hooks/useLiveSession.ts:343-378 | The playback step of any message keeps the queue invariant. |
| Session.SilentMessageKeepsQueue | hooks/useLiveSession.ts:343-378 | A message with no audio and no interruption leaves playback unchanged. |
| Session.OpenedSession | hooks/useLiveSession.ts:59-116 | A fresh controller after a successful connect and open: ACTIVE, session held, gates open, empty transcript, no praise. |
| Session.PraiseTurn | hooks/useLiveSession.ts:301-336 | A completed model turn "Great job, keep going" on an empty transcript logs exactly that one model message, empties both accumulators, and counts as praise. |
| Session.PraiseScenario | hooks/useLiveSession.ts:312-336 | After connect and open, that turn is logged as one model message and raises the form flag, and the three-second timer then clears it. |
| Session.LiveSession.DisconnectClean | hooks/useLiveSession.ts:144-182 | The intended teardown: everything `disconnect` promises, and the playback cursor, the live set and both accumulators reset. |
| Session.SessionAfterReply | hooks/useLiveSession.ts:305-365 | An opened session after a 60-second reply and an unfinished user fragment "squat": cursor at 60 and the fragment pending. |
| Session.Reconnect | hooks/useLiveSession.ts:59-116 | Connecting again and opening leaves the cursor and the user accumulator as they were. |
| Session.FirstReplyStart | hooks/useLiveSession.ts:346-363 | A chunk arriving at output clock 0 starts at `max(cursor, 0)`. |
| Session.StaleCursorDelaysReply | hooks/useLiveSession.ts:144-182 | As written: after `disconnect` and a new connect, the first reply starts at 60 seconds instead of at once, and the old fragment "squat" is still pending. |
| Session.CleanDisconnectStartsFresh | hooks/useLiveSession.ts:144-182 | With the intended teardown, the same run starts the first reply at 0 with nothing pending. |
| Session.StaleCloseHidesError | hooks/useLiveSession.ts:120-127 | As written, connect, open, error, close ends in IDLE. |
| Session.StaleCloseKeepsActive | hooks/useLiveSession.ts:120-142 | As written, calling the hook's `connect` again after one whose media request was refused, then open and close, ends in ACTIVE. |
| Session.LiveCloseScenarios | hooks/useLiveSession.ts:120-127 | With the live status, the same two runs end in ERROR and IDLE. |
| ToolCalls.CallsOf | hooks/useLiveSession.ts:281-282 | The function calls of a message; a message without a tool call has none. |
| ToolCalls.ArgsOf | hooks/useLiveSession.ts:284-285 | The review data a scoring call carries: its score and feedback arguments. |
| ToolCalls.LastScore | hooks/useLiveSession.ts:282-285 | The review data after a message's calls is either the prior data or the arguments of one of its scoring calls. |
| ToolCalls.Acks | hooks/useLiveSession.ts:286-296 | At most one acknowledgement per call, each a tool response for `submitWorkoutScore` with result "OK". |
| ToolCalls.HandleCalls | hooks/useLiveSession.ts:281-299 | The loop over the calls yields `LastScore` as the review data, and `Acks` when connected, nothing otherwise. |
| ToolCalls.ScoreCalls | hooks/useLiveSession.ts:282-283 | Only calls named `submitWorkoutScore` are kept, and no more than there are calls. |
| ToolCalls.ScoreCallsExact | hooks/useLiveSession.ts:282-283 | Each scoring call is kept as many times as it occurs; no other call is kept. |
| ToolCalls.AcksEchoScoreCalls | hooks/useLiveSession.ts:286-296 | Exactly one acknowledgement per scoring call, in order, echoing its id and name with result "OK". |
| ToolCalls.NoScoreCallNoAck | hooks/useLiveSession.ts:282-297 | Calls to other tools send nothing. |
| ToolCalls.LastScoreWins | hooks/useLiveSession.ts:282-285 | The last scoring call in the message decides the review data. |
| ToolCalls.NoScoreCallKeepsReview | hooks/useLiveSession.ts:282-285 | Calls to other tools leave the review data unchanged. |
| ToolCalls.FinalScoreScenario | hooks/useLiveSession.ts:283-296 | A score call of 95 with its feedback is stored and acknowledged once with the same id. |
| Session.ScoreScenario | hooks/useLiveSession.ts:184-298 | After connect and open, a review request followed by a message with the score-95 call stores that review and sends the marker frame and then one acknowledgement with the call's id. |
| Types.Fragment | hooks/useLiveSession.ts:302-303 | The text of an optional transcription fragment; an absent one reads as empty. |
| Transcription.UserMessage | hooks/useLiveSession.ts:314-319 | A user message carrying the text and the clock as timestamp. Its id is digits followed by 'u', and the digits read back as the clock. |
| Transcription.ModelMessage | hooks/useLiveSession.ts:325-330 | The same for a model message, with 'm'. |
| Transcription.Praised | hooks/useLiveSession.ts:312-336 | A message completes a turn whose model text is non-blank and contains a praise phrase; this is when the flag is raised. |
| Transcription.AddFragments | hooks/useLiveSession.ts:302-310 | Fragments only extend the accumulators; the log is untouched. |
| Transcription.FlushTurn | hooks/useLiveSession.ts:312-340 | A flush only appends to the log, at most two messages, and leaves both accumulators blank. |
| Transcription.Step | hooks/useLiveSession.ts:301-378 | One message's transcript effect never rewrites the log, which only grows at its end. |
| Transcription.NoTurnNoMessage | hooks/useLiveSession.ts:305-312 | Without turn completion nothing is logged, and the user fragment is appended to its accumulator. |
| Transcription.TurnFlushRules | hooks/useLiveSession.ts:312-340 | On turn completion the log gains the untrimmed user text, then the model text, each only if non-blank. A blank accumulator keeps its text: the user's always, the model's when not interrupted. Both end blank. |
| Transcription.InterruptDiscardsOutput | hooks/useLiveSession.ts:373-377 | An interruption empties the model accumulator and keeps the user accumulator and the log. |
| Transcription.PraiseComesFromModelMessage | hooks/useLiveSession.ts:323-336 | When a message sets the form flag, the last logged message is a model message that reads as praise. |
| Transcription.StepKeepsNonBlankLog | hooks/useLiveSession.ts:313-330 | The log never gains a blank message. |
| Transcription.FlushTurnConserves | hooks/useLiveSession.ts:312-340 | A flush moves each sender's text from the accumulator to the log without loss, duplication or reordering. |
| Transcription.StepConservesInput | hooks/useLiveSession.ts:302-321 | Within one message, the logged user text plus the accumulator equals the old text plus the new fragment. |
| Transcription.StepConservesOutput | hooks/useLiveSession.ts:301-378 | The same for model text when there is no interruption. Otherwise a prefix of it survives. |
| Transcription.RunConservesInput | hooks/useLiveSession.ts:302-321 | Over any message sequence, the logged user text plus the accumulator equals all user fragments received, in order. |
| Transcription.RunConservesOutput | hooks/useLiveSession.ts:302-339 | The same for the model's text when no message interrupts. |
| Transcription.RunExtendsLog | hooks/useLiveSession.ts:314-330 | Handling messages never rewrites the log: the old log remains a prefix. |
| Text.IsBlank | hooks/useLiveSession.ts:313 | `s.trim()` is empty; then every character is whitespace (the converse is `Text.BlankIffAllWhitespace`). |
| Text.Lower | hooks/useLiveSession.ts:332 | `toLowerCase` on ASCII: same length, each capital becomes its lower-case letter, every other character kept, no ASCII capital left. |
| Text.Contains | hooks/useLiveSession.ts:333 | `includes` can only hold when the phrase fits in the text; characterised by `Text.ContainsIff`. |
| Text.IsPraise | hooks/useLiveSession.ts:332-333 | Praise needs at least the length of the shortest phrase, "perfect". |
| Text.IsPraiseIff | hooks/useLiveSession.ts:332-333 | Praise holds exactly when one of the three phrases occurs somewhere in the lowered text. |
| Text.TrimStartSuffix | hooks/useLiveSession.ts:313 | Leading trim drops exactly the leading whitespace. |
| Text.TrimEndPrefix | hooks/useLiveSession.ts:313 | Trailing trim drops exactly the trailing whitespace. |
| Text.BlankIffAllWhitespace | hooks/useLiveSession.ts:313 | `trim()` is empty exactly when every character is whitespace. |
| Text.ContainsIff | hooks/useLiveSession.ts:333 | `includes` holds exactly when the phrase occurs at some position. |
| Text.PraiseAnyCase | hooks/useLiveSession.ts:332-333 | "perfect" in any ASCII letter case, anywhere in the text, is praise. |
| Text.GreatJobIsPraise | hooks/useLiveSession.ts:332-333 | "Great job, keep going" is recognised as praise. |
| Text.DecimalString | hooks/useLiveSession.ts:315 | The clock's decimal string is a non-empty run of digits. |
| Text.DecimalRoundTrip | hooks/useLiveSession.ts:315 | Reading the decimal string back gives the clock value. |
| Text.DecimalStringInjective | hooks/useLiveSession.ts:315-326 | Distinct clock readings give distinct id prefixes. |
| Playback.StartAt | hooks/useLiveSession.ts:346 | `Math.max`: at least both arguments and equal to one of them. |
| Playback.WithoutSource | hooks/useLiveSession.ts:360 | Deleting a source never grows the live set. |
| Playback.WithoutSourceMembers | hooks/useLiveSession.ts:360 | After the delete, the live set holds exactly the sources with another id. |
| Playback.WithoutAbsentSource | hooks/useLiveSession.ts:360 | Deleting a source that is not live changes nothing. |
| Playback.WithoutSourceAt | hooks/useLiveSession.ts:360 | Deleting a live source removes exactly its entry and keeps the order of the rest. |
| Playback.WithoutSourceKeeps | hooks/useLiveSession.ts:359-361 | Deleting a source keeps the queue invariant. |
| Playback.StopEach | hooks/useLiveSession.ts:374 | The loop issues one stop per live source, in insertion order. |
| Playback.StopAll | hooks/useLiveSession.ts:374 | One stop per live source, in insertion order (the loop `Playback.StopEach` computes it). |
| Playback.Enqueue | hooks/useLiveSession.ts:346-369 | A chunk raises the cursor to at least the context time and the old cursor. It only appends to the live set (at most one source) and to the log. |
| Playback.StopPlayback | hooks/useLiveSession.ts:373-376 | An interruption leaves a valid, empty queue, keeps the next id, and appends one event per formerly live source. |
| Playback.EnqueueKeepsValid | hooks/useLiveSession.ts:346-365 | Enqueuing a chunk keeps the queue invariant. |
| Playback.EnqueueNoOverlap | hooks/useLiveSession.ts:346-365 | A decoded chunk is the only source added and the only event logged. It starts no earlier than its arrival and the cursor, after every live source has ended, and the cursor moves to its end. |
| Playback.EnqueueUndecoded | hooks/useLiveSession.ts:346-369 | A chunk that fails to decode adds nothing but still raises the cursor to `max(cursor, now)`. |
| Playback.StopPlaybackStopsAll | hooks/useLiveSession.ts:373-376 | After an interruption nothing is live, the cursor is 0, and each formerly live source was stopped once, in order. |
| Playback.Schedule | hooks/useLiveSession.ts:346-364 | Successive chunks receive one start time each. |
| Playback.ScheduleOrdered | hooks/useLiveSession.ts:346-364 | Scheduled chunks never start before they arrive or before the cursor, and each finishes before any later one starts. |
| Playback.ScheduleBackToBack | hooks/useLiveSession.ts:346-364 | When every chunk arrives in time, chunk k starts at the cursor plus the durations before it. |
| Playback.EnqueueAllFollowsSchedule | hooks/useLiveSession.ts:346-365 | Enqueuing decoded chunks one by one starts chunk k with id `nextId + k` at `Schedule`'s k-th time and its own duration, appended in order after the old log. So `ScheduleOrdered`, `ScheduleBackToBack` and `ScheduleSpan` hold of the sources the queue actually starts. |
| Playback.ScheduleSpan | hooks/useLiveSession.ts:363-364 | Played back to back, the run ends the total duration after the cursor. |

## Left out

- Browser media is not modelled: `getUserMedia`, audio context creation and closing, the script processor, attaching the video element, canvas drawing and JPEG encoding. Their outcomes are parameters instead: media granted, marker rendered, a captured frame or none.
- Session.LiveSession.FlushUserTurn: React state updaters are taken as evaluated when the setter is called. In the source, `setMessages` receives an updater that reads the input accumulator ref. The next line empties that ref. When React defers the updater, for instance because the same message has already called `setReviewData`, the user message is logged with empty text. The model logs the accumulated text. The model's text is unaffected, since it is copied first.
- Session.LiveSession.OnError: after the session promise rejects, its ref stays set, so the model's `hasSession` stays true. Sends through that promise never run in the source, while the model still records them in the outbox. This covers audio and video frames, acknowledgements, the review marker, and the close on `disconnect`.
- The remote SDK is not modelled: `GoogleGenAI`, `ai.live.connect` and the session promise are external. A held session is a flag, sends go to the outbox, and the callbacks are methods the environment calls.
- Callbacks of an earlier connection are not modelled. Such a callback would arrive after a newer `connect` has replaced the close guard.
- Audio decoding is not modelled: `decode` and `decodeAudioData` live in `utils/audio`, which is not part of this model. They become a function parameter that yields a duration or a failure. The context clock is the parameter `now`.
- Timers are explicit events: the video interval's ticks are `VideoTick`, and the three-second clear of the form flag is `FormClearTimerFires`. `pendingFormClears` counts the clears still due.
- `Date.now()` becomes the `clock` parameter. One reading is used for both the id and the timestamp of a message. The source reads the clock twice.
- Session.LiveSession.HandleServerMessage: a message is handled atomically. In the source, the `await` on decoding can interleave with other messages and with `disconnect`. The model also discards the model text on interruption before scheduling the audio. The two touch disjoint state, so the end state is the same.
- Session.LiveSession.Connect: is one atomic step. In the source, `disconnect` can run while `getUserMedia` is awaited. The resumed `connect` then still stores the stream and opens a session after the teardown, leaking both. The model cannot show this leak.
- Session.LiveSession.OnOpen: resource handles are flags, so the model cannot show leaks from overwriting. A repeated `connect` or `onopen` overwrites held audio contexts, the stream, the session or the video interval without closing them.
- Session.LiveSession.AudioTick: ticks may occur at any time in the model. In the source, the audio processor and the video timer exist only once `onopen` has run. The gate decides the same way whenever a tick does fire.
- Session.LiveSession.VideoTick: the gate is checked and the frame sent in one step. In the source, the frame is sent only after the asynchronous `toBlob` and `blobToBase64`. So a frame in flight when `requestReview` runs is still sent, possibly after the marker. After `disconnect`, that late send throws on the null session ref. The check that the video element and the canvas context exist is not modelled either. Both are fixed when the timer starts, and the timer only starts when the video element exists.
- Session.LiveSession.RequestReview: the asynchronous send of the marker frame is treated as immediate. The frame's pixels are not modelled.
- Text.Lower: lower-cases ASCII letters only. This is exact for the three ASCII praise phrases. No non-ASCII character lower-cases to an ASCII letter other than `i` or `k`, and no phrase contains either.
- ToolCalls.CallsOf: a `toolCall` without `functionCalls` reads as no calls. In the source, the loop header throws and the rest of that message is skipped.
- Playback.Enqueue: times are unbounded reals. The source's double-precision rounding of the cursor arithmetic is not modelled.
- ToolCalls.ArgsOf: the tool's arguments are assumed to be well-formed `{score, feedback}`. The source casts them without checking.
- The UI components, the exercise catalog and the prompt text are presentation and static data.

## Findings

| source | as written | input that shows it | evidently intended | confidence | as-written member | corrected member |
|---|---|---|---|---|---|---|
| hooks/useLiveSession.ts:120-123 | `onclose` compares the `status` captured when `connect` was created with ERROR | connect from IDLE, open, error, close (ends IDLE). At the level of the hook alone, also: a connect whose media request is refused, a retry, open, close (ends ACTIVE); the app's screen offers no retry from ERROR | back to IDLE unless the current status is ERROR | medium, not executed | Session.StaleCloseHidesError, Session.StaleCloseKeepsActive (Session.LiveSession.OnClose) | Session.LiveSession.OnCloseLive, Session.LiveCloseScenarios |
| hooks/useLiveSession.ts:144-182 | `disconnect` leaves the playback cursor, the live set and both transcription accumulators as they were | a session plays a 60-second reply and hears an unfinished user fragment, is left by `disconnect`, and is connected again: the new output clock starts at 0, but the first reply starts at 60, and the old fragment joins the next user message | per-session playback and transcript state reset on teardown | medium, not executed | Session.StaleCursorDelaysReply (Session.LiveSession.Disconnect) | Session.LiveSession.DisconnectClean, Session.CleanDisconnectStartsFresh |
