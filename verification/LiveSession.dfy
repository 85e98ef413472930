/** The state machine inside `GeminiLiveService` (services/liveService.ts),
    with the browser and SDK objects reduced to what the service does with
    them.

    - A device handle (an AudioContext, the microphone stream, a source or
      processor node, the session promise) is a flag saying whether the
      field holds an object. The input context is kept with the sample rate
      the platform gave it, because the capture path reads that rate.
    - The `onMessage` callback is the `utterances` log. The other callbacks
      (`onOpen`, `onClose`, `onError`) are the `notices` log.
    - Every `source.start(t)` of a decoded buffer is a `Slot` in `scheduled`.
    - The output context's `currentTime` is the parameter `now` of the
      operation that reads it.

    Inbound events form one sequential stream. Each event is a function from
    the old state to the new one, and the lemmas below state what the
    service promises about these functions. */
module LiveSession {
  import opened Wrappers
  import Base64
  import Pcm

  datatype Role = User | Model

  /** One `config.onMessage(text, role)` call. */
  datatype Utterance = Utterance(text: string, role: Role)

  /** The other `LiveConfig` callbacks. `StartFailed` is the `onError` call
      made when starting the session throws. `ConnectionError` is the one the
      session's `onerror` makes. */
  datatype Notice = Opened | Closed | ConnectionError | StartFailed

  /** One buffer source started at `start`, playing for `duration` seconds. */
  datatype Slot = Slot(start: real, duration: real)
  {
    function End(): real { start + duration }
  }

  /** A sample rate the platform reports; it is always positive. */
  type Rate = r: real | r > 0.0 witness 16000.0

  /** The parts of a `LiveServerMessage.serverContent` the service reads.
      - `audio` is the `data` of the first part's `inlineData` in `modelTurn`.
      - `inputText` and `outputText` are the two transcription fragments.
      Each is None when the message lacks that part. */
  datatype ServerContent = ServerContent(
    audio: Option<string>,
    interrupted: bool,
    inputText: Option<string>,
    outputText: Option<string>,
    turnComplete: bool)

  datatype ServerMessage = ServerMessage(serverContent: Option<ServerContent>)

  /** The fields of `GeminiLiveService` and what it has handed to its
      callbacks and to the output context so far. */
  datatype State = State(
    isConnected: bool,
    inputAudioContext: Option<Rate>,
    outputAudioContext: bool,
    currentStream: bool,
    inputSource: bool,
    processor: bool,
    sessionPromise: bool,
    nextStartTime: real,
    currentInputTranscript: string,
    currentOutputTranscript: string,
    utterances: seq<Utterance>,
    notices: seq<Notice>,
    scheduled: seq<Slot>)

  /** A freshly constructed service. */
  const Initial := State(false, None, false, false, false, false, false, 0.0, "", "", [], [], [])

  /** No connection and no device handle. */
  predicate Released(s: State)
  {
    && !s.isConnected && s.inputAudioContext.None? && !s.outputAudioContext
    && !s.currentStream && !s.inputSource && !s.processor && !s.sessionPromise
  }

  /** Connection flag and device handles agree. */
  predicate SameHandles(s: State, r: State)
  {
    && r.isConnected == s.isConnected && r.inputAudioContext == s.inputAudioContext
    && r.outputAudioContext == s.outputAudioContext && r.currentStream == s.currentStream
    && r.inputSource == s.inputSource && r.processor == s.processor
    && r.sessionPromise == s.sessionPromise
  }

  /** Transcript buffers and the utterance log agree. */
  predicate SameConversation(s: State, r: State)
  {
    && r.currentInputTranscript == s.currentInputTranscript
    && r.currentOutputTranscript == s.currentOutputTranscript
    && r.utterances == s.utterances
  }

  /** The white space `String.prototype.trim` removes: the WhiteSpace and
      LineTerminator code points of ECMAScript. */
  predicate IsTrimmedSpace(c: char)
  {
    || c == '\t' || c == '\n' || c == '\U{B}' || c == '\U{C}' || c == '\r' || c == ' '
    || c == '\U{A0}' || c == '\U{1680}' || ('\U{2000}' <= c <= '\U{200A}')
    || c == '\U{2028}' || c == '\U{2029}' || c == '\U{202F}' || c == '\U{205F}'
    || c == '\U{3000}' || c == '\U{FEFF}'
  }

  /** `s.trim()` is non-empty (truthy). */
  predicate HasText(s: string)
  {
    exists i :: 0 <= i < |s| && !IsTrimmedSpace(s[i])
  }

  /** What the service keeps true between events. */
  predicate Valid(s: State)
  {
    && (s.processor <==> s.inputSource)
    && (s.processor ==> s.isConnected && s.inputAudioContext.Some? && s.currentStream && s.sessionPromise)
    && s.nextStartTime >= 0.0
    && (forall i :: 0 <= i < |s.utterances| ==> HasText(s.utterances[i].text))
    && (forall i :: 0 <= i < |s.scheduled| ==> s.scheduled[i].start >= 0.0 && s.scheduled[i].duration > 0.0)
  }

  // ---------------------------------------------------------------------
  // Session life cycle (services/liveService.ts:36-114, 176-191)

  /** `disconnect`: drops the connection and every device handle; the
      transcripts, the utterances and the playback cursor stay. */
  function Disconnect(s: State): (r: State)
    ensures Released(r)
    ensures SameConversation(s, r) && r.nextStartTime == s.nextStartTime
    ensures r.notices == s.notices && r.scheduled == s.scheduled
  {
    s.(isConnected := false, currentStream := false, inputSource := false, processor := false,
       inputAudioContext := None, outputAudioContext := false, sessionPromise := false)
  }

  /** `connect` as written. Once connected it returns at once. Otherwise it
      makes both contexts and asks for the microphone. When that fails it
      reports the error and disconnects; when it succeeds it starts the
      session, whose events arrive later. The playback cursor is left as it
      was. */
  function ConnectAsWritten(s: State, micGranted: bool, grantedRate: Rate): (r: State)
    ensures s.isConnected ==> r == s
    ensures !s.isConnected ==> !r.isConnected && SameConversation(s, r)
    ensures !s.isConnected ==> r.nextStartTime == s.nextStartTime && r.scheduled == s.scheduled
    ensures !s.isConnected && micGranted ==>
      && r.inputAudioContext == Some(grantedRate) && r.outputAudioContext
      && r.currentStream && r.sessionPromise && r.notices == s.notices
      && r.processor == s.processor && r.inputSource == s.inputSource
    ensures !s.isConnected && !micGranted ==> Released(r) && r.notices == s.notices + [StartFailed]
  {
    if s.isConnected then s
    else
      var t := s.(inputAudioContext := Some(grantedRate), outputAudioContext := true);
      if micGranted then t.(currentStream := true, sessionPromise := true)
      else Disconnect(t).(notices := t.notices + [StartFailed])
  }

  /** `connect` with the playback cursor moved to the start of the new
      output context's clock, which begins at zero. */
  function Connect(s: State, micGranted: bool, grantedRate: Rate): (r: State)
    ensures s.isConnected ==> r == s
    ensures !s.isConnected ==> r.nextStartTime == 0.0
  {
    if s.isConnected then s else ConnectAsWritten(s.(nextStartTime := 0.0), micGranted, grantedRate)
  }

  /** `startAudioInput`: attaches the microphone to a processor node when
      the input context, the stream and the session are all present. */
  function StartAudioInput(s: State): (r: State)
    ensures r.processor == (s.processor || (s.inputAudioContext.Some? && s.currentStream && s.sessionPromise))
    ensures r.inputSource == (s.inputSource || (s.inputAudioContext.Some? && s.currentStream && s.sessionPromise))
    ensures SameConversation(s, r) && r.isConnected == s.isConnected
  {
    if s.inputAudioContext.Some? && s.currentStream && s.sessionPromise then
      s.(inputSource := true, processor := true)
    else s
  }

  /** The session's `onopen`: connected, both transcripts empty, capture
      started, `onOpen` called. */
  function Open(s: State): (r: State)
    ensures r.isConnected && r.currentInputTranscript == "" && r.currentOutputTranscript == ""
    ensures r.utterances == s.utterances && r.notices == s.notices + [Opened]
    ensures r.nextStartTime == s.nextStartTime && r.scheduled == s.scheduled
    ensures r.processor == (s.processor || (s.inputAudioContext.Some? && s.currentStream && s.sessionPromise))
    ensures r.inputSource == (s.inputSource || (s.inputAudioContext.Some? && s.currentStream && s.sessionPromise))
    ensures && r.inputAudioContext == s.inputAudioContext && r.outputAudioContext == s.outputAudioContext
            && r.currentStream == s.currentStream && r.sessionPromise == s.sessionPromise
  {
    var t := StartAudioInput(s.(isConnected := true, currentInputTranscript := "", currentOutputTranscript := ""));
    t.(notices := t.notices + [Opened])
  }

  /** The session's `onclose`: disconnect, then `onClose`. */
  function Close(s: State): (r: State)
    ensures Released(r) && r.notices == s.notices + [Closed]
    ensures SameConversation(s, r) && r.nextStartTime == s.nextStartTime
  {
    var t := Disconnect(s);
    t.(notices := t.notices + [Closed])
  }

  /** The session's `onerror`: reports the error and changes nothing else;
      in particular the service stays connected. */
  function Error(s: State): (r: State)
    ensures r.notices == s.notices + [ConnectionError]
    ensures SameHandles(s, r) && SameConversation(s, r)
    ensures r.nextStartTime == s.nextStartTime && r.scheduled == s.scheduled
  {
    s.(notices := s.notices + [ConnectionError])
  }

  // ---------------------------------------------------------------------
  // Capture (services/liveService.ts:94-110)

  /** The realtime input the capture path sends. */
  datatype Media = Media(mimeType: string, data: string)

  const CaptureRate: Rate := 16000.0
  const CaptureMimeType := "audio/pcm;rate=16000"

  /** `this.inputAudioContext?.sampleRate || 16000`: the input context's
      rate, or the capture rate once the context is gone. */
  function InputRate(s: State): (rate: Rate)
    ensures s.inputAudioContext.Some? ==> rate == s.inputAudioContext.value
    ensures s.inputAudioContext.None? ==> rate == CaptureRate
  {
    if s.inputAudioContext.Some? then s.inputAudioContext.value else CaptureRate
  }

  /** The base64 payload of one captured frame: resampled to 16 kHz,
      quantised to 16 bits, little-endian bytes, base64. Each 16 kHz sample
      takes two bytes, so the payload carries 4 characters per 3 bytes. */
  function CapturePayload(samples: seq<real>, inputRate: Rate): (payload: string)
    ensures |payload| == 4 * ((2 * |Pcm.Resampled(samples, inputRate, CaptureRate)| + 2) / 3)
  {
    Base64.Encode(Pcm.Pcm16Bytes(Pcm.QuantiseAll(Pcm.Resampled(samples, inputRate, CaptureRate))))
  }

  /** A frame already at 16 kHz, or one captured after the input context
      is gone, is sent without resampling. */
  lemma CaptureAtCaptureRate(s: State, samples: seq<real>)
    requires InputRate(s) == CaptureRate
    ensures CapturePayload(samples, InputRate(s)) == Base64.Encode(Pcm.Pcm16Bytes(Pcm.QuantiseAll(samples)))
  {
    Pcm.ResampledLength(samples, CaptureRate, CaptureRate);
  }

  /** The receiver gets back, sample for sample, the quantised 16 kHz frame
      over 32768: one sample per resampled input sample. */
  lemma CapturePayloadDecodes(samples: seq<real>, inputRate: Rate)
    ensures var q := Pcm.QuantiseAll(Pcm.Resampled(samples, inputRate, CaptureRate));
      && Base64.Atob(CapturePayload(samples, inputRate)).Success?
      && var bytes := Base64.BinaryBytes(Base64.Atob(CapturePayload(samples, inputRate)).value);
         && |Pcm.DecodePcm16(bytes)| == |Pcm.Resampled(samples, inputRate, CaptureRate)|
         && forall i :: 0 <= i < |q| ==> Pcm.DecodePcm16(bytes)[i] == q[i] as real / 32768.0
  {
    var q := Pcm.QuantiseAll(Pcm.Resampled(samples, inputRate, CaptureRate));
    var b := Pcm.Pcm16Bytes(q);
    Base64.AtobEncode(b);
    Pcm.DecodePcm16Bytes(q);
  }

  // ---------------------------------------------------------------------
  // Playback (services/liveService.ts:159-174)

  function Max(a: real, b: real): real { if a >= b then a else b }

  /** How a stage of message handling ends: on to the next stage, or with
      an exception that abandons the rest of the message. Either way the
      state reached so far stays. */
  datatype Outcome = Continue(state: State) | Abort(state: State)

  /** `playAudioChunk` on the decoded bytes at output time now. The cursor
      first moves up to now. `createBuffer` refuses a buffer of no frames,
      which aborts the message. Otherwise the buffer of |data| / 2 frames at
      24 kHz is started at the cursor, and the cursor moves to its end. */
  function PlayAudioChunk(s: State, data: seq<Base64.byte>, now: real): (o: Outcome)
    ensures o.Abort? <==> s.outputAudioContext && |data| < 2
    ensures SameHandles(s, o.state) && SameConversation(s, o.state) && o.state.notices == s.notices
    ensures s.scheduled <= o.state.scheduled
    ensures |o.state.scheduled| == |s.scheduled| + (if s.outputAudioContext && |data| >= 2 then 1 else 0)
    ensures !s.outputAudioContext ==> o.state.nextStartTime == s.nextStartTime
    ensures s.outputAudioContext && |data| < 2 ==> o.state.nextStartTime == Max(now, s.nextStartTime)
    ensures s.outputAudioContext && |data| >= 2 ==>
      var slot := o.state.scheduled[|s.scheduled|];
      && slot.start >= now && slot.start >= s.nextStartTime
      && (slot.start == now || slot.start == s.nextStartTime)
      && slot.duration == (|data| / 2) as real / Pcm.OutputSampleRate
      && o.state.nextStartTime == slot.End()
  {
    if !s.outputAudioContext then Continue(s)
    else
      var start := Max(now, s.nextStartTime);
      var samples := Pcm.DecodePcm16(data);
      if |samples| == 0 then Abort(s.(nextStartTime := start))
      else
        var buffer := Pcm.AudioBuffer(1, Pcm.OutputSampleRate, samples);
        Continue(s.(nextStartTime := start + buffer.Duration(),
                    scheduled := s.scheduled + [Slot(start, buffer.Duration())]))
  }

  /** `stopAudioPlayback`: the cursor goes back to now; sources already
      started keep playing. */
  function StopAudioPlayback(s: State, now: real): (r: State)
    ensures s.outputAudioContext ==> r.nextStartTime == now
    ensures !s.outputAudioContext ==> r == s
    ensures r.(nextStartTime := s.nextStartTime) == s
  {
    if s.outputAudioContext then s.(nextStartTime := now) else s
  }

  // ---------------------------------------------------------------------
  // Inbound messages (services/liveService.ts:116-157)

  function Text(fragment: Option<string>): string
  {
    if fragment.Some? then fragment.value else ""
  }

  /** Step 1: a non-empty audio payload is played when the output context
      exists. A payload `atob` refuses throws before anything changes. */
  function PlayStage(s: State, c: ServerContent, now: real): (o: Outcome)
    ensures o.Abort? <==>
      && c.audio.Some? && c.audio.value != "" && s.outputAudioContext
      && (Base64.Atob(c.audio.value).Failure? || |Base64.BinaryBytes(Base64.Atob(c.audio.value).value)| < 2)
    ensures SameHandles(s, o.state) && SameConversation(s, o.state) && o.state.notices == s.notices
    ensures s.scheduled <= o.state.scheduled && |o.state.scheduled| <= |s.scheduled| + 1
    ensures |o.state.scheduled| == |s.scheduled| ==>
      o.state.nextStartTime == s.nextStartTime || o.state.nextStartTime == Max(now, s.nextStartTime)
    ensures |o.state.scheduled| > |s.scheduled| ==>
      var slot := o.state.scheduled[|s.scheduled|];
      && o.Continue? && slot.start == Max(now, s.nextStartTime)
      && slot.duration > 0.0 && o.state.nextStartTime == slot.End()
  {
    if c.audio.Some? && c.audio.value != "" && s.outputAudioContext then
      var decoded := Base64.Atob(c.audio.value);
      if decoded.Failure? then Abort(s)
      else PlayAudioChunk(s, Base64.BinaryBytes(decoded.value), now)
    else Continue(s)
  }

  /** Steps 2 and 3: an interruption rewinds the cursor and drops the
      pending model text; then each fragment is appended to its buffer. */
  function AppendStage(s: State, c: ServerContent, now: real): (r: State)
    ensures SameHandles(s, r) && r.notices == s.notices
    ensures r.utterances == s.utterances && r.scheduled == s.scheduled
    ensures r.nextStartTime == (if c.interrupted && s.outputAudioContext then now else s.nextStartTime)
    ensures r.currentInputTranscript == s.currentInputTranscript + Text(c.inputText)
    ensures r.currentOutputTranscript == (if c.interrupted then "" else s.currentOutputTranscript) + Text(c.outputText)
  {
    var t := if c.interrupted then StopAudioPlayback(s, now).(currentOutputTranscript := "") else s;
    t.(currentInputTranscript := t.currentInputTranscript + Text(c.inputText),
       currentOutputTranscript := t.currentOutputTranscript + Text(c.outputText))
  }

  /** Emits the user buffer when it holds more than white space, and
      clears it. */
  function CommitInput(s: State): (r: State)
    ensures s.utterances <= r.utterances && !HasText(r.currentInputTranscript)
    ensures !HasText(s.currentInputTranscript) ==> r == s
    ensures r == s.(utterances := r.utterances, currentInputTranscript := r.currentInputTranscript)
  {
    if HasText(s.currentInputTranscript) then
      s.(utterances := s.utterances + [Utterance(s.currentInputTranscript, User)], currentInputTranscript := "")
    else s
  }

  /** Emits the model buffer when it holds more than white space, and
      clears it. */
  function CommitOutput(s: State): (r: State)
    ensures s.utterances <= r.utterances && !HasText(r.currentOutputTranscript)
    ensures !HasText(s.currentOutputTranscript) ==> r == s
    ensures r == s.(utterances := r.utterances, currentOutputTranscript := r.currentOutputTranscript)
  {
    if HasText(s.currentOutputTranscript) then
      s.(utterances := s.utterances + [Utterance(s.currentOutputTranscript, Model)], currentOutputTranscript := "")
    else s
  }

  /** Step 4, on turn-complete: the user's buffer first, then the model's.
      Afterwards neither buffer holds text; a buffer of white space only is
      neither emitted nor cleared. */
  function CommitTurn(s: State): (r: State)
    ensures s.utterances <= r.utterances
    ensures !HasText(r.currentInputTranscript) && !HasText(r.currentOutputTranscript)
    ensures !HasText(s.currentInputTranscript) ==> r.currentInputTranscript == s.currentInputTranscript
    ensures !HasText(s.currentOutputTranscript) ==> r.currentOutputTranscript == s.currentOutputTranscript
    ensures SameHandles(s, r) && r.nextStartTime == s.nextStartTime
    ensures r.notices == s.notices && r.scheduled == s.scheduled
  {
    CommitOutput(CommitInput(s))
  }

  /** `handleServerMessage` at output time now. */
  function HandleServerMessage(s: State, message: ServerMessage, now: real): (r: State)
    ensures message.serverContent.None? ==> r == s
    ensures SameHandles(s, r) && r.notices == s.notices
    ensures s.utterances <= r.utterances && s.scheduled <= r.scheduled
  {
    match message.serverContent
    case None => s
    case Some(c) =>
      match PlayStage(s, c, now)
      case Abort(t) => t
      case Continue(t) =>
        var u := AppendStage(t, c, now);
        if c.turnComplete then CommitTurn(u) else u
  }

  /** The message gets past its audio step. */
  predicate Completes(s: State, message: ServerMessage, now: real)
    requires message.serverContent.Some?
  {
    PlayStage(s, message.serverContent.value, now).Continue?
  }

  // ---------------------------------------------------------------------
  // Conversation text

  /** The texts of the utterances with the given role, in log order. */
  function Transcript(log: seq<Utterance>, role: Role): string
  {
    if |log| == 0 then ""
    else Transcript(log[..|log| - 1], role) + (if log[|log| - 1].role == role then log[|log| - 1].text else "")
  }

  lemma TranscriptAppend(log: seq<Utterance>, u: Utterance, role: Role)
    ensures Transcript(log + [u], role) == Transcript(log, role) + (if u.role == role then u.text else "")
  {
    assert (log + [u])[..|log|] == log;
  }

  /** Emitting the user buffer moves its text from the buffer to the log. */
  lemma CommitInputKeepsText(s: State)
    ensures var r := CommitInput(s);
      && Transcript(r.utterances, User) + r.currentInputTranscript
         == Transcript(s.utterances, User) + s.currentInputTranscript
      && Transcript(r.utterances, Model) == Transcript(s.utterances, Model)
      && r.currentOutputTranscript == s.currentOutputTranscript
      && r.utterances == s.utterances
         + (if HasText(s.currentInputTranscript) then [Utterance(s.currentInputTranscript, User)] else [])
  {
    var u := Utterance(s.currentInputTranscript, User);
    TranscriptAppend(s.utterances, u, User);
    TranscriptAppend(s.utterances, u, Model);
  }

  /** Emitting the model buffer moves its text from the buffer to the log. */
  lemma CommitOutputKeepsText(s: State)
    ensures var r := CommitOutput(s);
      && Transcript(r.utterances, Model) + r.currentOutputTranscript
         == Transcript(s.utterances, Model) + s.currentOutputTranscript
      && Transcript(r.utterances, User) == Transcript(s.utterances, User)
      && r.currentInputTranscript == s.currentInputTranscript
      && r.utterances == s.utterances
         + (if HasText(s.currentOutputTranscript) then [Utterance(s.currentOutputTranscript, Model)] else [])
  {
    var u := Utterance(s.currentOutputTranscript, Model);
    TranscriptAppend(s.utterances, u, User);
    TranscriptAppend(s.utterances, u, Model);
  }

  /** Committing a turn loses no text: per role, what the log holds plus
      what is still pending is the same before and after. It adds at most
      a user utterance followed by a model utterance, each with text. */
  lemma CommitTurnKeepsText(s: State)
    ensures var r := CommitTurn(s);
      && Transcript(r.utterances, User) + r.currentInputTranscript
         == Transcript(s.utterances, User) + s.currentInputTranscript
      && Transcript(r.utterances, Model) + r.currentOutputTranscript
         == Transcript(s.utterances, Model) + s.currentOutputTranscript
      && r.utterances == s.utterances
         + (if HasText(s.currentInputTranscript) then [Utterance(s.currentInputTranscript, User)] else [])
         + (if HasText(s.currentOutputTranscript) then [Utterance(s.currentOutputTranscript, Model)] else [])
  {
    var t := CommitInput(s);
    CommitInputKeepsText(s);
    CommitOutputKeepsText(t);
  }

  /** What a message that gets past its audio step does to the
      conversation: the fragments join their own buffers in arrival order,
      an interruption first drops the pending model text (and only it), and
      on turn-complete the buffers are committed. No user text is lost, and
      model text is lost only through an interruption. */
  lemma MessageKeepsText(s: State, message: ServerMessage, now: real)
    requires message.serverContent.Some? && Completes(s, message, now)
    ensures var c, r := message.serverContent.value, HandleServerMessage(s, message, now);
      && s.utterances <= r.utterances
      && Transcript(r.utterances, User) + r.currentInputTranscript
         == Transcript(s.utterances, User) + s.currentInputTranscript + Text(c.inputText)
      && Transcript(r.utterances, Model) + r.currentOutputTranscript
         == Transcript(s.utterances, Model) + (if c.interrupted then "" else s.currentOutputTranscript)
            + Text(c.outputText)
      && (!c.turnComplete ==>
            && r.utterances == s.utterances
            && r.currentInputTranscript == s.currentInputTranscript + Text(c.inputText)
            && r.currentOutputTranscript
               == (if c.interrupted then "" else s.currentOutputTranscript) + Text(c.outputText))
  {
    var c := message.serverContent.value;
    var t := PlayStage(s, c, now).state;
    assert SameConversation(s, t);
    var u := AppendStage(t, c, now);
    var pendingOut := if c.interrupted then "" else s.currentOutputTranscript;
    assert u.utterances == s.utterances;
    assert u.currentInputTranscript == s.currentInputTranscript + Text(c.inputText);
    assert u.currentOutputTranscript == pendingOut + Text(c.outputText);
    if c.turnComplete {
      CommitTurnKeepsText(u);
      var r := CommitTurn(u);
      calc {
        Transcript(r.utterances, User) + r.currentInputTranscript;
        Transcript(s.utterances, User) + (s.currentInputTranscript + Text(c.inputText));
        Transcript(s.utterances, User) + s.currentInputTranscript + Text(c.inputText);
      }
      calc {
        Transcript(r.utterances, Model) + r.currentOutputTranscript;
        Transcript(s.utterances, Model) + (pendingOut + Text(c.outputText));
        Transcript(s.utterances, Model) + pendingOut + Text(c.outputText);
      }
    } else {
      assert Transcript(s.utterances, User) + (s.currentInputTranscript + Text(c.inputText))
        == Transcript(s.utterances, User) + s.currentInputTranscript + Text(c.inputText);
      assert Transcript(s.utterances, Model) + (pendingOut + Text(c.outputText))
        == Transcript(s.utterances, Model) + pendingOut + Text(c.outputText);
    }
  }

  /** A message stopped at its audio step leaves the conversation alone. */
  lemma AbortedMessageKeepsConversation(s: State, message: ServerMessage, now: real)
    requires message.serverContent.Some? && !Completes(s, message, now)
    ensures var r := HandleServerMessage(s, message, now);
      SameConversation(s, r) && r.scheduled == s.scheduled
  {
  }

  // ---------------------------------------------------------------------
  // Scheduling

  /** The playback cursor moves back only through an interruption, and then
      exactly to now. */
  lemma CursorFallsOnlyOnInterruption(s: State, message: ServerMessage, now: real)
    requires HandleServerMessage(s, message, now).nextStartTime < s.nextStartTime
    ensures message.serverContent.Some? && message.serverContent.value.interrupted
    ensures s.outputAudioContext && HandleServerMessage(s, message, now).nextStartTime == now
  {
    var c := message.serverContent.value;
    var o := PlayStage(s, c, now);
    assert o.state.nextStartTime >= s.nextStartTime;
  }

  /** A message schedules at most one chunk, at or after now and at or
      after the cursor. */
  lemma MessageSchedulesAfterCursor(s: State, message: ServerMessage, now: real)
    ensures var r := HandleServerMessage(s, message, now);
      && s.scheduled <= r.scheduled
      && |s.scheduled| <= |r.scheduled| <= |s.scheduled| + 1
      && (|r.scheduled| > |s.scheduled| ==>
            && r.scheduled[|s.scheduled|].start >= now
            && r.scheduled[|s.scheduled|].start >= s.nextStartTime
            && (!message.serverContent.value.interrupted ==>
                  r.nextStartTime == r.scheduled[|s.scheduled|].End()))
  {
    match message.serverContent
    case None =>
    case Some(c) =>
      var o := PlayStage(s, c, now);
      assert s.scheduled <= o.state.scheduled;
  }

  /** A message event that does not interrupt playback. */
  predicate Uninterrupted(e: Event)
  {
    e.MessageEvent? && (e.message.serverContent.Some? ==> !e.message.serverContent.value.interrupted)
  }

  /** Message events without an interruption, arriving in clock order
      between `from` and `until`. */
  predicate QuietStream(events: seq<Event>, from: real, until: real)
  {
    && (forall i :: 0 <= i < |events| ==> Uninterrupted(events[i]) && from <= events[i].now <= until)
    && (forall i, j :: 0 <= i < j < |events| && events[i].MessageEvent? && events[j].MessageEvent? ==>
          events[i].now <= events[j].now)
  }

  /** Some chunk has been started, and the cursor stands at its end, or
      later but no later than the clock reading `clock` (a chunk too short
      to play moves the cursor up to the time it arrived). */
  predicate CursorBehind(s: State, clock: real)
  {
    && |s.scheduled| > 0
    && var last := s.scheduled[|s.scheduled| - 1];
       && s.nextStartTime >= last.End()
       && (s.nextStartTime == last.End() || s.nextStartTime <= clock)
  }

  /** After the first event of a quiet stream, the rest is a quiet stream
      from that event's arrival time on. */
  lemma QuietStreamTail(events: seq<Event>, from: real, until: real)
    requires QuietStream(events, from, until) && |events| > 0
    ensures Uninterrupted(events[0]) && from <= events[0].now <= until
    ensures QuietStream(events[1..], events[0].now, until)
  {
    forall i | 0 <= i < |events[1..]|
      ensures events[0].now <= events[1..][i].now
    {
      assert events[1..][i] == events[i + 1];
    }
  }

  /** A message that starts a chunk without interrupting playback leaves
      the cursor at that chunk's end. */
  lemma ChunkLeavesCursorBehind(s: State, message: ServerMessage, now: real, clock: real)
    requires message.serverContent.Some? && !message.serverContent.value.interrupted
    requires |HandleServerMessage(s, message, now).scheduled| > |s.scheduled|
    ensures CursorBehind(HandleServerMessage(s, message, now), clock)
  {
    MessageSchedulesAfterCursor(s, message, now);
  }

  /** With the cursor behind, a chunk arriving at `now`, no earlier than
      `clock`, starts at the later of the last chunk's end and now. */
  lemma NextChunkStart(s: State, message: ServerMessage, now: real, clock: real)
    requires CursorBehind(s, clock) && clock <= now
    ensures var r2 := HandleServerMessage(s, message, now);
      && |s.scheduled| > 0
      && (|r2.scheduled| > |s.scheduled| ==>
            var previous, next := s.scheduled[|s.scheduled| - 1], r2.scheduled[|s.scheduled|];
            && next.start == Max(previous.End(), now)
            && next.start >= previous.End()
            && (now <= previous.End() ==> next.start == previous.End()))
  {
    var r := HandleServerMessage(s, message, now);
    if |r.scheduled| > |s.scheduled| {
      var c := message.serverContent.value;
      var o := PlayStage(s, c, now);
      assert |o.state.scheduled| > |s.scheduled| && o.state.scheduled <= r.scheduled;
    }
  }

  /** An uninterrupted message keeps the cursor behind, with the clock
      advanced to its arrival time. */
  lemma QuietMessageKeepsCursorBehind(s: State, message: ServerMessage, now: real, clock: real)
    requires CursorBehind(s, clock) && clock <= now
    requires message.serverContent.Some? ==> !message.serverContent.value.interrupted
    ensures CursorBehind(HandleServerMessage(s, message, now), now)
  {
    MessageSchedulesAfterCursor(s, message, now);
    var r := HandleServerMessage(s, message, now);
    if message.serverContent.Some? && |r.scheduled| == |s.scheduled| {
      var c := message.serverContent.value;
      var o := PlayStage(s, c, now);
      assert o.state.scheduled == s.scheduled && r.scheduled == s.scheduled;
      assert o.state.nextStartTime == s.nextStartTime || o.state.nextStartTime == Max(now, s.nextStartTime);
      assert r.nextStartTime == o.state.nextStartTime;
    }
  }

  /** A stretch of uninterrupted messages keeps the cursor behind. */
  lemma {:induction false} QuietRunKeepsCursorBehind(s: State, events: seq<Event>, clock: real, until: real)
    requires CursorBehind(s, clock) && clock <= until && QuietStream(events, clock, until)
    ensures CursorBehind(Run(s, events), until)
    decreases |events|
  {
    if |events| > 0 {
      var e := events[0];
      QuietStreamTail(events, clock, until);
      QuietMessageKeepsCursorBehind(s, e.message, e.now, clock);
      assert Step(s, e) == HandleServerMessage(s, e.message, e.now);
      QuietRunKeepsCursorBehind(Step(s, e), events[1..], e.now, until);
    }
  }

  /** Gapless playback over any stretch of the conversation without an
      interruption, however many transcription-only or empty messages come
      between two chunks: starting with the cursor behind, the next chunk
      starts at the later of the previous chunk's end and its own arrival
      time. So it never overlaps the previous chunk, and it follows it
      exactly when it arrives before that chunk ends. */
  lemma ConsecutiveChunksDoNotOverlap(s: State, events: seq<Event>, clock: real, message: ServerMessage, now: real)
    requires CursorBehind(s, clock) && clock <= now && QuietStream(events, clock, now)
    ensures var r := Run(s, events);
      var r2 := HandleServerMessage(r, message, now);
      && |r.scheduled| > 0
      && (|r2.scheduled| > |r.scheduled| ==>
            var previous, next := r.scheduled[|r.scheduled| - 1], r2.scheduled[|r.scheduled|];
            && next.start == Max(previous.End(), now)
            && next.start >= previous.End()
            && (now <= previous.End() ==> next.start == previous.End()))
  {
    QuietRunKeepsCursorBehind(s, events, clock, now);
    NextChunkStart(Run(s, events), message, now, now);
  }

  /** After an interruption at t1, the next chunk, arriving at t2 >= t1,
      starts at once: at t2. */
  lemma InterruptionThenChunkStartsNow(s: State, m1: ServerMessage, t1: real, m2: ServerMessage, t2: real)
    requires m1.serverContent.Some? && m1.serverContent.value.interrupted
    requires s.outputAudioContext && Completes(s, m1, t1) && t1 <= t2
    requires var r1 := HandleServerMessage(s, m1, t1);
      |HandleServerMessage(r1, m2, t2).scheduled| > |r1.scheduled|
    ensures var r1 := HandleServerMessage(s, m1, t1);
      HandleServerMessage(r1, m2, t2).scheduled[|r1.scheduled|].start == t2
  {
    var r1 := HandleServerMessage(s, m1, t1);
    assert r1.nextStartTime == t1;
    var c2 := m2.serverContent.value;
    var o := PlayStage(r1, c2, t2);
    assert o.state.scheduled <= HandleServerMessage(r1, m2, t2).scheduled;
  }

  // ---------------------------------------------------------------------
  // Reconnecting

  /** The message carrying one audio chunk and nothing else. */
  function AudioMessage(chunk: seq<Base64.byte>): ServerMessage
  {
    ServerMessage(Some(ServerContent(Some(Base64.Encode(chunk)), false, None, None, false)))
  }

  lemma AudioMessagePlays(s: State, chunk: seq<Base64.byte>, now: real)
    requires s.outputAudioContext && |chunk| >= 2
    ensures var r := HandleServerMessage(s, AudioMessage(chunk), now);
      && |r.scheduled| == |s.scheduled| + 1
      && r.scheduled[|s.scheduled|].start == Max(now, s.nextStartTime)
  {
    Base64.AtobEncode(chunk);
    assert Base64.Encode(chunk) != "" by {
      Base64.PaddingCompletesGroup(chunk);
      Base64.EncodeSextetsLength(chunk);
    }
  }

  /** As written, a session started after an earlier one ended keeps the old
      cursor. The new output context's clock starts again at zero, so the
      first chunk waits until the new clock reaches the old cursor. */
  lemma StaleCursorDelaysFirstChunk(s: State, grantedRate: Rate, chunk: seq<Base64.byte>, now: real)
    requires !s.isConnected && |chunk| >= 2 && 0.0 <= now < s.nextStartTime
    ensures var session := Open(ConnectAsWritten(s, true, grantedRate));
      var r := HandleServerMessage(session, AudioMessage(chunk), now);
      |r.scheduled| == |session.scheduled| + 1
      && r.scheduled[|session.scheduled|].start == s.nextStartTime > now
  {
    var session := Open(ConnectAsWritten(s, true, grantedRate));
    AudioMessagePlays(session, chunk, now);
  }

  /** With the cursor reset on connect, the first chunk of every session
      starts as soon as it arrives. */
  lemma FirstChunkAfterConnectStartsNow(s: State, grantedRate: Rate, chunk: seq<Base64.byte>, now: real)
    requires !s.isConnected && |chunk| >= 2 && 0.0 <= now
    ensures var session := Open(Connect(s, true, grantedRate));
      var r := HandleServerMessage(session, AudioMessage(chunk), now);
      |r.scheduled| == |session.scheduled| + 1
      && r.scheduled[|session.scheduled|].start == now
  {
    var session := Open(Connect(s, true, grantedRate));
    AudioMessagePlays(session, chunk, now);
  }

  // ---------------------------------------------------------------------
  // The event stream

  datatype Event =
    | ConnectCall(micGranted: bool, grantedRate: Rate)
    | OpenEvent
    | MessageEvent(message: ServerMessage, now: real)
    | CloseEvent
    | ErrorEvent
    | DisconnectCall

  /** The clock never reads below zero. */
  predicate WellTimed(e: Event)
  {
    e.MessageEvent? ==> e.now >= 0.0
  }

  function Step(s: State, e: Event): State
  {
    match e
    case ConnectCall(mic, rate) => ConnectAsWritten(s, mic, rate)
    case OpenEvent => Open(s)
    case MessageEvent(m, now) => HandleServerMessage(s, m, now)
    case CloseEvent => Close(s)
    case ErrorEvent => Error(s)
    case DisconnectCall => Disconnect(s)
  }

  function Run(s: State, events: seq<Event>): State
    decreases |events|
  {
    if |events| == 0 then s else Run(Step(s, events[0]), events[1..])
  }

  lemma DisconnectIdempotent(s: State)
    ensures Disconnect(Disconnect(s)) == Disconnect(s)
  {
  }

  lemma InitialValid()
    ensures Valid(Initial) && Released(Initial)
  {
  }

  lemma PlayStagePreservesValid(s: State, c: ServerContent, now: real)
    requires Valid(s) && now >= 0.0
    ensures Valid(PlayStage(s, c, now).state)
  {
    var t := PlayStage(s, c, now).state;
    assert forall i :: 0 <= i < |s.scheduled| ==> t.scheduled[i] == s.scheduled[i];
  }

  lemma CommitTurnPreservesValid(s: State)
    requires Valid(s)
    ensures Valid(CommitTurn(s))
  {
    var t := CommitInput(s);
    CommitInputKeepsText(s);
    assert Valid(t);
    CommitOutputKeepsText(t);
  }

  lemma MessagePreservesValid(s: State, message: ServerMessage, now: real)
    requires Valid(s) && now >= 0.0
    ensures Valid(HandleServerMessage(s, message, now))
  {
    match message.serverContent
    case None =>
    case Some(c) =>
      PlayStagePreservesValid(s, c, now);
      var t := PlayStage(s, c, now).state;
      var u := AppendStage(t, c, now);
      assert Valid(u);
      if c.turnComplete {
        CommitTurnPreservesValid(u);
      }
  }

  lemma DisconnectPreservesValid(s: State)
    requires Valid(s)
    ensures Valid(Disconnect(s))
  {
  }

  /** The corrected connect keeps the invariant and the log as well, so the
      reset can replace the connect as written in every event stream. */
  lemma ConnectPreservesValid(s: State, micGranted: bool, grantedRate: Rate)
    requires Valid(s)
    ensures Valid(Connect(s, micGranted, grantedRate))
    ensures Connect(s, micGranted, grantedRate).utterances == s.utterances
  {
  }

  lemma StepPreservesValid(s: State, e: Event)
    requires Valid(s) && WellTimed(e)
    ensures Valid(Step(s, e))
  {
    if e.MessageEvent? {
      MessagePreservesValid(s, e.message, e.now);
    }
  }

  /** Every reachable state is valid, and the utterance log only grows. */
  lemma {:induction false} RunPreservesValid(s: State, events: seq<Event>)
    requires Valid(s) && forall i :: 0 <= i < |events| ==> WellTimed(events[i])
    ensures Valid(Run(s, events))
    ensures s.utterances <= Run(s, events).utterances
    decreases |events|
  {
    if |events| > 0 {
      StepPreservesValid(s, events[0]);
      StepKeepsLog(s, events[0]);
      RunPreservesValid(Step(s, events[0]), events[1..]);
    }
  }

  lemma StepKeepsLog(s: State, e: Event)
    ensures s.utterances <= Step(s, e).utterances
  {
    if e.MessageEvent? {
      match e.message.serverContent
      case None =>
      case Some(c) =>
        var t := PlayStage(s, c, e.now).state;
        assert t.utterances == s.utterances;
    }
  }
}
