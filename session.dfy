// The session controller of hooks/useLiveSession.ts as a class: React
// state and refs become fields, callbacks and returned operations become
// methods, and everything sent to the remote session is appended to an
// outbound log. Browser media, the SDK and the audio codec are replaced by
// parameters (whether the API key and the media devices are available,
// the audio context's clock, the decoder, the wall clock).
module Session {
  import opened Types
  import opened Text
  import opened ToolCalls
  import opened Transcription
  import opened Playback

  /** The base64 audio of the message, when it is present and non-empty. */
  function AudioData(msg: ServerMessage): (data: Option<string>)
    ensures data.Some? ==> data == msg.audio && data.value != ""
    ensures data.None? ==> msg.audio.None? || msg.audio.value == ""
  {
    if msg.audio.Some? && msg.audio.value != "" then msg.audio else None
  }

  /**
   * The playback effect of one server message: its audio, if any, is
   * decoded and enqueued; then an interruption stops everything.
   */
  function AudioStep(q: PlayQueue, msg: ServerMessage, now: Seconds, decode: string -> Option<Seconds>): (r: PlayQueue)
    ensures q.log <= r.log && r.nextId >= q.nextId
    ensures msg.interrupted ==> r.live == [] && r.cursor == 0.0
    ensures !msg.interrupted ==> q.live <= r.live
  {
    var e := if AudioData(msg).Some? then Enqueue(q, now, decode(AudioData(msg).value)) else q;
    if msg.interrupted then StopPlayback(e) else e
  }

  /** A message without audio and without interruption leaves playback alone. */
  lemma SilentMessageKeepsQueue(q: PlayQueue, msg: ServerMessage, now: Seconds, decode: string -> Option<Seconds>)
    requires AudioData(msg).None? && !msg.interrupted
    ensures AudioStep(q, msg, now, decode) == q
  {
  }

  /** The playback step of a message keeps the queue invariant. */
  lemma AudioStepKeepsValid(q: PlayQueue, msg: ServerMessage, now: Seconds, decode: string -> Option<Seconds>)
    requires QueueValid(q)
    ensures QueueValid(AudioStep(q, msg, now, decode))
  {
    if AudioData(msg).Some? {
      EnqueueKeepsValid(q, now, decode(AudioData(msg).value));
    }
  }

  class LiveSession {
    // State exposed to the UI.
    var status: SessionStatus
    var messages: seq<FeedbackMessage>
    var isCorrectForm: bool
    var isReviewing: bool
    var reviewData: Option<ReviewData>

    // Resource refs: true while the ref holds its object.
    var hasSession: bool
    var hasOutputContext: bool
    var hasInputContext: bool
    var hasStream: bool
    var hasVideoTimer: bool

    // Playback queue: the cursor and the live sources in insertion order.
    var nextStartTime: real
    var sources: seq<AudioSource>
    var nextSourceId: nat

    // Transcription accumulators.
    var inputTranscription: string
    var outputTranscription: string

    // Send gates.
    var isSessionActive: bool
    var shouldSendVideo: bool

    /** The status the `onclose` callback of the current connection compares with ERROR. */
    var closeGuard: SessionStatus
    /** Three-second timers that will clear `isCorrectForm` and have not fired yet. */
    var pendingFormClears: nat

    /** Everything sent to the remote session, oldest first. */
    var outbox: seq<Outbound>
    /** Every `start` and `stop` issued on output buffer sources, oldest first. */
    var audioLog: seq<AudioEvent>

    /**
     * The class invariant: the playback queue is consistent, the log holds
     * no blank message, and the modes and handles agree.
     */
    ghost predicate Valid()
      reads this`nextStartTime, this`sources, this`nextSourceId, this`audioLog, this`messages
      reads this`isReviewing, this`shouldSendVideo, this`hasSession, this`hasStream
      reads this`hasOutputContext, this`hasInputContext
    {
      QueueValid(Queue()) && NonBlankLog(messages) && ModesAgree()
    }

    /**
     * Reviewing excludes video sending; a session is only opened over a
     * media stream, and the stream only after both audio contexts.
     */
    ghost predicate ModesAgree()
      reads this`isReviewing, this`shouldSendVideo, this`hasSession, this`hasStream
      reads this`hasOutputContext, this`hasInputContext
    {
      && (isReviewing ==> !shouldSendVideo)
      && (hasSession ==> hasStream)
      && (hasStream ==> hasOutputContext && hasInputContext)
    }

    function CurrentTranscript(): Transcript
      reads this
    {
      Transcript(inputTranscription, outputTranscription, messages)
    }

    /** The resource refs: session, output and input audio contexts, media stream, video timer. */
    function Handles(): (bool, bool, bool, bool, bool)
      reads this
    {
      (hasSession, hasOutputContext, hasInputContext, hasStream, hasVideoTimer)
    }

    /** The playback queue and the record of what it started and stopped. */
    function Queue(): PlayQueue
      reads this`nextStartTime, this`sources, this`nextSourceId, this`audioLog
    {
      PlayQueue(nextStartTime, sources, nextSourceId, audioLog)
    }

    /** The check each microphone callback makes before sending a frame. */
    predicate AudioGateOpen(): (open: bool)
      reads this
      ensures open && Valid() ==> hasStream && hasInputContext
    {
      hasSession && isSessionActive
    }

    /** The check each video timer tick makes before capturing a frame. */
    predicate VideoGateOpen(): (open: bool)
      reads this
      ensures open ==> AudioGateOpen()
      ensures open && Valid() ==> !isReviewing
    {
      hasSession && isSessionActive && shouldSendVideo
    }

    /** The state `disconnect` leaves behind. */
    ghost predicate TornDown()
      reads this
    {
      && !isSessionActive && !shouldSendVideo
      && !hasStream && !hasOutputContext && !hasInputContext && !hasVideoTimer && !hasSession
      && status == Idle && messages == [] && !isCorrectForm && !isReviewing
    }

    constructor ()
      ensures Valid() && TornDown()
      ensures reviewData == None && closeGuard == Idle && pendingFormClears == 0
      ensures sources == [] && nextStartTime == 0.0 && nextSourceId == 0
      ensures inputTranscription == "" && outputTranscription == ""
      ensures outbox == [] && audioLog == []
    {
      status := Idle;
      messages := [];
      isCorrectForm := false;
      isReviewing := false;
      reviewData := None;
      hasSession, hasOutputContext, hasInputContext, hasStream, hasVideoTimer := false, false, false, false, false;
      nextStartTime := 0.0;
      sources := [];
      nextSourceId := 0;
      inputTranscription, outputTranscription := "", "";
      isSessionActive, shouldSendVideo := false, false;
      closeGuard := Idle;
      pendingFormClears := 0;
      outbox := [];
      audioLog := [];
    }

    /**
     * `connect`. A missing API key fails before anything else happens.
     * Otherwise the session is reset for a new run and both gates open;
     * refused media access then ends in ERROR with the gates left open,
     * and granted access opens the stream and the remote session.
     */
    method Connect(apiKeyPresent: bool, mediaGranted: bool)
      requires Valid()
      modifies this`status, this`isSessionActive, this`shouldSendVideo, this`isReviewing, this`reviewData
      modifies this`hasOutputContext, this`hasInputContext, this`hasStream, this`hasSession, this`closeGuard
      ensures Valid()
      ensures !apiKeyPresent ==> status == Error && RunState() == old(RunState())
      ensures apiKeyPresent ==>
        && isSessionActive && shouldSendVideo && !isReviewing && reviewData == None
        && hasOutputContext && hasInputContext
      ensures apiKeyPresent && !mediaGranted ==>
        status == Error && hasStream == old(hasStream) && hasSession == old(hasSession) && closeGuard == old(closeGuard)
      ensures apiKeyPresent && mediaGranted ==>
        status == Connecting && hasStream && hasSession && closeGuard == old(status)
    {
      if !apiKeyPresent {
        status := Error;
        return;
      }
      var captured := status;
      ResetForRun();
      if !mediaGranted {
        status := Error;
        return;
      }
      OpenSession(captured);
    }

    /** Everything `connect` may set apart from the status. */
    function RunState(): (bool, bool, bool, Option<ReviewData>, bool, bool, bool, bool, SessionStatus)
      reads this
    {
      (isSessionActive, shouldSendVideo, isReviewing, reviewData,
       hasOutputContext, hasInputContext, hasStream, hasSession, closeGuard)
    }

    /** The start of a run: CONNECTING, both gates open, no review, both audio contexts created. */
    method ResetForRun()
      requires Valid()
      modifies this`status, this`isSessionActive, this`shouldSendVideo, this`isReviewing, this`reviewData
      modifies this`hasOutputContext, this`hasInputContext
      ensures Valid()
      ensures status == Connecting && isSessionActive && shouldSendVideo && !isReviewing && reviewData == None
      ensures hasOutputContext && hasInputContext
    {
      status := Connecting;
      isSessionActive, shouldSendVideo := true, true;
      isReviewing, reviewData := false, None;
      hasOutputContext, hasInputContext := true, true;
    }

    /** Media granted: the stream is held and the session opened; its `onclose` captures `captured`. */
    method OpenSession(captured: SessionStatus)
      requires Valid() && hasOutputContext && hasInputContext
      modifies this`hasStream, this`hasSession, this`closeGuard
      ensures Valid()
      ensures hasStream && hasSession && closeGuard == captured
    {
      hasStream := true;
      hasSession := true;
      closeGuard := captured;
    }

    /** `onopen`: the session is live; the video timer starts when a video element exists. */
    method OnOpen(videoElementPresent: bool)
      modifies this`status, this`hasVideoTimer
      ensures status == Active
      ensures hasVideoTimer == (videoElementPresent || old(hasVideoTimer))
    {
      status := Active;
      if videoElementPresent {
        hasVideoTimer := true;
      }
    }

    /** `onerror`, and the rejection of the session promise: the session is in ERROR. */
    method OnError()
      modifies this`status
      ensures status == Error
    {
      status := Error;
    }

    /**
     * `onclose` as written: back to IDLE unless the status captured when
     * `connect` was created was ERROR. The live status is not consulted.
     */
    method OnClose()
      modifies this`status
      ensures status == if closeGuard == Error then old(status) else Idle
    {
      if closeGuard != Error {
        status := Idle;
      }
    }

    /** `onclose` as intended: back to IDLE unless the session is in ERROR now. */
    method OnCloseLive()
      modifies this`status
      ensures status == if old(status) == Error then Error else Idle
    {
      if status != Error {
        status := Idle;
      }
    }

    /**
     * `disconnect`: closes both gates, releases every handle (each release
     * is guarded by the handle being held, so releasing is the same as
     * clearing it), closes the remote session if there is one, and resets
     * the UI state except the review data. A second call changes nothing:
     * every field it sets already has that value, and no session is left
     * to close.
     */
    method Disconnect()
      requires Valid()
      modifies this`isSessionActive, this`shouldSendVideo, this`hasStream, this`hasOutputContext
      modifies this`hasInputContext, this`hasVideoTimer, this`hasSession, this`outbox
      modifies this`status, this`messages, this`isCorrectForm, this`isReviewing
      ensures Valid() && TornDown()
      ensures outbox == old(outbox) + (if old(hasSession) then [CloseSession] else [])
    {
      ReleaseResources();
      ResetView();
    }

    /**
     * `disconnect` as intended: the same teardown, and the playback cursor,
     * the live set and both transcription accumulators are reset as well,
     * so nothing of this session reaches the next one.
     */
    method DisconnectClean()
      requires Valid()
      modifies this`isSessionActive, this`shouldSendVideo, this`hasStream, this`hasOutputContext
      modifies this`hasInputContext, this`hasVideoTimer, this`hasSession, this`outbox
      modifies this`status, this`messages, this`isCorrectForm, this`isReviewing
      modifies this`nextStartTime, this`sources, this`inputTranscription, this`outputTranscription
      ensures Valid() && TornDown()
      ensures outbox == old(outbox) + (if old(hasSession) then [CloseSession] else [])
      ensures nextStartTime == 0.0 && sources == [] && inputTranscription == "" && outputTranscription == ""
    {
      Disconnect();
      nextStartTime, sources := 0.0, [];
      inputTranscription, outputTranscription := "", "";
    }

    /** Both gates closed and every handle released; an open session is closed. */
    method ReleaseResources()
      requires Valid()
      modifies this`isSessionActive, this`shouldSendVideo, this`hasStream, this`hasOutputContext
      modifies this`hasInputContext, this`hasVideoTimer, this`hasSession, this`outbox
      ensures Valid()
      ensures !isSessionActive && !shouldSendVideo && Handles() == (false, false, false, false, false)
      ensures outbox == old(outbox) + (if old(hasSession) then [CloseSession] else [])
    {
      if hasSession {
        outbox := outbox + [CloseSession];
      }
      isSessionActive, shouldSendVideo := false, false;
      hasSession, hasStream, hasOutputContext, hasInputContext, hasVideoTimer := false, false, false, false, false;
    }

    /** The UI state back to IDLE with an empty log; the review data is kept. */
    method ResetView()
      requires Valid()
      modifies this`status, this`messages, this`isCorrectForm, this`isReviewing
      ensures Valid()
      ensures status == Idle && messages == [] && !isCorrectForm && !isReviewing
    {
      status := Idle;
      messages := [];
      isCorrectForm := false;
      isReviewing := false;
    }

    /**
     * `requestReview`: without a session nothing happens. Otherwise video
     * sending stops, reviewing starts, and the marker frame is sent when
     * it could be rendered. Audio keeps flowing; every call sends a marker.
     */
    method RequestReview(markerRendered: bool)
      requires Valid()
      modifies this`shouldSendVideo, this`isReviewing, this`outbox
      ensures Valid()
      ensures !old(hasSession) ==> unchanged(this)
      ensures old(hasSession) ==>
        && !shouldSendVideo && isReviewing
        && outbox == old(outbox) + (if markerRendered then [ReviewMarkerFrame] else [])
      ensures AudioGateOpen() == old(AudioGateOpen())
      ensures old(hasSession) ==> !VideoGateOpen()
    {
      if !hasSession {
        return;
      }
      shouldSendVideo := false;
      isReviewing := true;
      if markerRendered {
        outbox := outbox + [ReviewMarkerFrame];
      }
    }

    /** One microphone buffer: sent only while the audio gate is open. */
    method AudioTick(pcm: string)
      modifies this`outbox
      ensures outbox == old(outbox) + (if AudioGateOpen() then [AudioFrame(pcm)] else [])
    {
      if !hasSession || !isSessionActive {
        return;
      }
      outbox := outbox + [AudioFrame(pcm)];
    }

    /** One video timer tick: a captured frame is sent only while the video gate is open. */
    method VideoTick(jpeg: Option<string>)
      modifies this`outbox
      ensures outbox == old(outbox) + (if VideoGateOpen() && jpeg.Some? then [VideoFrame(jpeg.value)] else [])
    {
      if !hasSession || !isSessionActive || !shouldSendVideo {
        return;
      }
      if jpeg.Some? {
        outbox := outbox + [VideoFrame(jpeg.value)];
      }
    }

    /** The `ended` listener of a source: it leaves the live set. */
    method SourceEnded(id: nat)
      requires Valid()
      modifies this`sources
      ensures Valid()
      ensures sources == WithoutSource(old(sources), id)
    {
      WithoutSourceKeeps(sources, id, nextStartTime, nextSourceId);
      sources := WithoutSource(sources, id);
    }

    /** A three-second timer set by praise fires and clears the flag. */
    method FormClearTimerFires()
      requires pendingFormClears > 0
      modifies this`isCorrectForm, this`pendingFormClears
      ensures !isCorrectForm && pendingFormClears == old(pendingFormClears) - 1
    {
      isCorrectForm := false;
      pendingFormClears := pendingFormClears - 1;
    }

    /** The tool-call part of a message: store each score and acknowledge it. */
    method AcknowledgeToolCalls(msg: ServerMessage)
      requires Valid()
      modifies this`reviewData, this`outbox
      ensures Valid()
      ensures reviewData == LastScore(CallsOf(msg), old(reviewData))
      ensures outbox == old(outbox) + (if hasSession then Acks(CallsOf(msg)) else [])
    {
      var review, acks := HandleCalls(CallsOf(msg), reviewData, hasSession);
      reviewData := review;
      outbox := outbox + acks;
    }

    /** Transcription fragments join their own direction's accumulator. */
    method AppendTranscription(msg: ServerMessage)
      modifies this`inputTranscription, this`outputTranscription
      ensures CurrentTranscript() == AddFragments(old(CurrentTranscript()), msg)
    {
      if msg.outputText.Some? && msg.outputText.value != "" {
        outputTranscription := outputTranscription + msg.outputText.value;
      }
      if msg.inputText.Some? && msg.inputText.value != "" {
        inputTranscription := inputTranscription + msg.inputText.value;
      }
    }

    /**
     * Turn completion: each non-blank accumulator is logged and emptied,
     * the user's first; praise in the model's turn sets the form flag and
     * starts its clearing timer.
     */
    method FlushTranscription(clock: nat)
      requires Valid()
      modifies this`messages, this`inputTranscription, this`outputTranscription
      modifies this`isCorrectForm, this`pendingFormClears
      ensures Valid()
      ensures CurrentTranscript() == FlushTurn(old(CurrentTranscript()), clock)
      ensures var praised := !IsBlank(old(outputTranscription)) && IsPraise(old(outputTranscription));
        && isCorrectForm == (old(isCorrectForm) || praised)
        && pendingFormClears == old(pendingFormClears) + (if praised then 1 else 0)
    {
      ghost var t := CurrentTranscript();
      FlushUserTurn(clock);
      assert CurrentTranscript() == if !IsBlank(t.input) then t.(log := t.log + [UserMessage(t.input, clock)], input := "") else t;
      FlushModelTurn(clock);
    }

    /** A non-blank user accumulator becomes a user message and is emptied. */
    method FlushUserTurn(clock: nat)
      requires Valid()
      modifies this`messages, this`inputTranscription
      ensures Valid()
      ensures IsBlank(old(inputTranscription)) ==>
        messages == old(messages) && inputTranscription == old(inputTranscription)
      ensures !IsBlank(old(inputTranscription)) ==>
        messages == old(messages) + [UserMessage(old(inputTranscription), clock)] && inputTranscription == ""
    {
      if !IsBlank(inputTranscription) {
        NonBlankAppend(messages, UserMessage(inputTranscription, clock));
        messages := messages + [UserMessage(inputTranscription, clock)];
        inputTranscription := "";
      }
    }

    /**
     * A non-blank model accumulator becomes a model message and is emptied;
     * when it praises the user's form, the badge is raised and a clear is scheduled.
     */
    method FlushModelTurn(clock: nat)
      requires Valid()
      modifies this`messages, this`outputTranscription, this`isCorrectForm, this`pendingFormClears
      ensures Valid()
      ensures IsBlank(old(outputTranscription)) ==>
        messages == old(messages) && outputTranscription == old(outputTranscription)
      ensures !IsBlank(old(outputTranscription)) ==>
        messages == old(messages) + [ModelMessage(old(outputTranscription), clock)] && outputTranscription == ""
      ensures var praised := !IsBlank(old(outputTranscription)) && IsPraise(old(outputTranscription));
        && isCorrectForm == (old(isCorrectForm) || praised)
        && pendingFormClears == old(pendingFormClears) + (if praised then 1 else 0)
    {
      if !IsBlank(outputTranscription) {
        var text := outputTranscription;
        NonBlankAppend(messages, ModelMessage(text, clock));
        messages := messages + [ModelMessage(text, clock)];
        var lower := Lower(text);
        if Contains(lower, "good form") || Contains(lower, "perfect") || Contains(lower, "great job") {
          isCorrectForm := true;
          pendingFormClears := pendingFormClears + 1;
        }
        outputTranscription := "";
      }
    }

    /**
     * The transcript part of a message: fragments, the flush when the turn
     * is complete, and the discarded model text when it was interrupted.
     */
    method UpdateTranscript(msg: ServerMessage, clock: nat)
      requires Valid()
      modifies this`messages, this`inputTranscription, this`outputTranscription
      modifies this`isCorrectForm, this`pendingFormClears
      ensures Valid()
      ensures CurrentTranscript() == Step(old(CurrentTranscript()), msg, clock)
      ensures isCorrectForm == (old(isCorrectForm) || Praised(old(CurrentTranscript()), msg))
      ensures pendingFormClears == old(pendingFormClears) + (if Praised(old(CurrentTranscript()), msg) then 1 else 0)
    {
      AppendTranscription(msg);
      if msg.turnComplete {
        FlushTranscription(clock);
      }
      if msg.interrupted {
        outputTranscription := "";
      }
    }

    /**
     * The playback part of a message: the cursor is raised to the context
     * clock and a chunk that decodes is scheduled at the cursor; an
     * interruption then stops every live source and resets the cursor.
     */
    method UpdatePlayback(msg: ServerMessage, now: Seconds, decode: string -> Option<Seconds>)
      requires Valid()
      modifies this`nextStartTime, this`sources, this`nextSourceId, this`audioLog
      ensures Valid()
      ensures Queue() == AudioStep(old(Queue()), msg, now, decode)
    {
      AudioStepKeepsValid(Queue(), msg, now, decode);
      if msg.audio.Some? && msg.audio.value != "" {
        nextStartTime := StartAt(nextStartTime, now);
        var decoded := decode(msg.audio.value);
        if decoded.Some? {
          var src := AudioSource(nextSourceId, nextStartTime, decoded.value);
          nextSourceId := nextSourceId + 1;
          audioLog := audioLog + [Started(src)];
          nextStartTime := nextStartTime + decoded.value;
          sources := sources + [src];
        }
      }
      if msg.interrupted {
        var stops := StopEach(sources);
        audioLog := audioLog + stops;
        sources := [];
        nextStartTime := 0.0;
      }
    }

    /**
     * `handleServerMessage`, handled atomically: tool calls, then the
     * transcript, then playback. The three parts touch disjoint state, so
     * this order gives the same result as the handler's own interleaving
     * (the model text is discarded on interruption after the audio is
     * scheduled).
     */
    method HandleServerMessage(msg: ServerMessage, now: Seconds, decode: string -> Option<Seconds>, clock: nat)
      requires Valid()
      modifies this`reviewData, this`outbox, this`messages, this`inputTranscription, this`outputTranscription
      modifies this`isCorrectForm, this`pendingFormClears
      modifies this`nextStartTime, this`sources, this`nextSourceId, this`audioLog
      ensures Valid()
      // Tool calls.
      ensures reviewData == LastScore(CallsOf(msg), old(reviewData))
      ensures outbox == old(outbox) + (if hasSession then Acks(CallsOf(msg)) else [])
      // Transcription.
      ensures CurrentTranscript() == Step(old(CurrentTranscript()), msg, clock)
      ensures isCorrectForm == (old(isCorrectForm) || Praised(old(CurrentTranscript()), msg))
      ensures pendingFormClears == old(pendingFormClears) + (if Praised(old(CurrentTranscript()), msg) then 1 else 0)
      // Audio, then interruption.
      ensures Queue() == AudioStep(old(Queue()), msg, now, decode)
    {
      AcknowledgeToolCalls(msg);
      UpdateTranscript(msg, clock);
      UpdatePlayback(msg, now, decode);
    }
  }

  /** Every teardown step is guarded, so a second `disconnect` changes nothing. */
  method SecondDisconnectChangesNothing(s: LiveSession)
    requires s.Valid() && s.TornDown()
    modifies s
    ensures unchanged(s)
  {
    ghost var before := s.outbox;
    s.Disconnect();
    assert s.outbox == before + [] == before;
  }

  /** The transcript effect of a completed model turn of praise on a fresh transcript. */
  lemma PraiseTurn(msg: ServerMessage)
    requires msg == ServerMessage(None, Some("Great job, keep going"), None, true, None, false)
    ensures var t := Transcript("", "", []);
      Step(t, msg, 1000) == Transcript("", "", [ModelMessage("Great job, keep going", 1000)]) && Praised(t, msg)
  {
    GreatJobIsPraise();
    EmptyIsBlank();
    var text := "Great job, keep going";
    assert TrimStart(text) == text;
    assert TrimEnd(text) == text;
    var t := Transcript("", "", []);
    assert AddFragments(t, msg) == Transcript("", text, []);
  }

  /** A new controller that has connected with media granted and whose session has opened. */
  method OpenedSession() returns (s: LiveSession)
    ensures fresh(s) && s.Valid()
    ensures s.status == Active && s.hasSession && s.isSessionActive && s.shouldSendVideo
    ensures s.CurrentTranscript() == Transcript("", "", []) && !s.isCorrectForm && s.pendingFormClears == 0
    ensures s.Queue() == PlayQueue(0.0, [], 0, [])
  {
    s := new LiveSession();
    s.Connect(true, true);
    s.OnOpen(true);
  }

  /**
   * A coached set: after connecting and opening, a completed model turn
   * "Great job, keep going" is logged as one model message and raises the
   * form flag, and the three-second timer then clears it again.
   */
  method PraiseScenario() returns (logged: seq<FeedbackMessage>, flagged: bool, clearedLater: bool)
    ensures logged == [ModelMessage("Great job, keep going", 1000)]
    ensures flagged && !clearedLater
  {
    var s := OpenedSession();
    var msg := ServerMessage(None, Some("Great job, keep going"), None, true, None, false);
    PraiseTurn(msg);
    ghost var before := s.CurrentTranscript();
    assert before == Transcript("", "", []);
    s.HandleServerMessage(msg, 0.0, _ => None, 1000);
    assert s.CurrentTranscript() == Step(before, msg, 1000);
    logged, flagged := s.messages, s.isCorrectForm;
    s.FormClearTimerFires();
    clearedLater := s.isCorrectForm;
  }


  /**
   * The end of a set: the user asks for a review, and the model answers
   * with one scoring call, which is stored and acknowledged after the
   * review marker frame.
   */
  method ScoreScenario(id: string) returns (review: Option<ReviewData>, tail: seq<Outbound>)
    ensures review == Some(ReviewData(95.0, "Excellent depth and control"))
    ensures tail == [ReviewMarkerFrame, ToolResponse(id, "submitWorkoutScore", "OK")]
  {
    var s := OpenedSession();
    var before := s.outbox;
    s.RequestReview(true);
    var calls := [FunctionCall(id, ScoreToolName, 95.0, "Excellent depth and control")];
    FinalScoreScenario(id);
    var msg := ServerMessage(Some(calls), None, None, false, None, false);
    s.HandleServerMessage(msg, 0.0, _ => None, 1000);
    review := s.reviewData;
    tail := s.outbox[|before|..];
  }

  /** A message carrying only an audio chunk. */
  function AudioChunkMessage(): ServerMessage
  {
    ServerMessage(None, None, None, false, Some("chunk"), false)
  }

  /** A message carrying only a user transcription fragment. */
  function UserFragmentMessage(): ServerMessage
  {
    ServerMessage(None, None, Some("squat"), false, None, false)
  }

  /** An opened session that has scheduled a 60-second reply and holds an unfinished user fragment. */
  method SessionAfterReply() returns (s: LiveSession)
    ensures fresh(s) && s.Valid()
    ensures s.nextStartTime == 60.0 && s.inputTranscription == "squat"
  {
    s := OpenedSession();
    s.AppendTranscription(UserFragmentMessage());
    assert s.inputTranscription == "" + "squat" == "squat";
    s.UpdatePlayback(AudioChunkMessage(), 0.0, _ => Some(60.0));
  }

  /** Connecting again with media granted and opening leaves playback and transcripts as they were. */
  method Reconnect(s: LiveSession)
    requires s.Valid()
    modifies s
    ensures s.Valid() && s.hasSession
    ensures s.nextStartTime == old(s.nextStartTime) && s.inputTranscription == old(s.inputTranscription)
  {
    s.Connect(true, true);
    s.OnOpen(true);
  }

  /** A chunk arriving when the output clock reads 0 starts at the cursor the session holds, if that is later. */
  method FirstReplyStart(s: LiveSession) returns (start: real)
    requires s.Valid()
    modifies s
    ensures start == StartAt(old(s.nextStartTime), 0.0)
  {
    s.UpdatePlayback(AudioChunkMessage(), 0.0, _ => Some(1.0));
    start := s.sources[|s.sources| - 1].start;
  }

  /**
   * As written: a session plays a 60-second reply and hears an unfinished
   * user fragment, and is left by `disconnect`; on the next connect the
   * new output clock starts at 0, yet the first reply is scheduled at the
   * old cursor, 60 seconds late, and the old fragment is still pending.
   */
  method StaleCursorDelaysReply() returns (firstStart: real, pendingInput: string)
    ensures firstStart == 60.0 && pendingInput == "squat"
  {
    var s := SessionAfterReply();
    s.Disconnect();
    Reconnect(s);
    pendingInput := s.inputTranscription;
    firstStart := FirstReplyStart(s);
  }

  /** With the per-session state reset on teardown, the first reply of the next session starts at once. */
  method CleanDisconnectStartsFresh() returns (firstStart: real, pendingInput: string)
    ensures firstStart == 0.0 && pendingInput == ""
  {
    var s := SessionAfterReply();
    s.DisconnectClean();
    Reconnect(s);
    pendingInput := s.inputTranscription;
    firstStart := FirstReplyStart(s);
  }

  /**
   * A connection from IDLE fails after opening and is then closed: the
   * handler as written compares with the IDLE captured at connect time,
   * so the error is overwritten and the UI shows IDLE.
   */
  method StaleCloseHidesError() returns (final: SessionStatus)
    ensures final == Idle
  {
    var s := new LiveSession();
    s.Connect(true, true);
    s.OnOpen(true);
    s.OnError();
    s.OnClose();
    final := s.status;
  }

  /**
   * A retry after an attempt whose media request was refused captures
   * ERROR, so when the new session opens and later closes the handler as
   * written leaves ACTIVE.
   */
  method StaleCloseKeepsActive() returns (final: SessionStatus)
    ensures final == Active
  {
    var s := new LiveSession();
    s.Connect(true, false);
    s.Connect(true, true);
    s.OnOpen(true);
    s.OnClose();
    final := s.status;
  }

  /** With the live status consulted, the same two runs end in ERROR and in IDLE. */
  method LiveCloseScenarios() returns (afterError: SessionStatus, afterRetry: SessionStatus)
    ensures afterError == Error && afterRetry == Idle
  {
    var s := new LiveSession();
    s.Connect(true, true);
    s.OnOpen(true);
    s.OnError();
    s.OnCloseLive();
    afterError := s.status;
    var r := new LiveSession();
    r.Connect(true, false);
    r.Connect(true, true);
    r.OnOpen(true);
    r.OnCloseLive();
    afterRetry := r.status;
  }
}
