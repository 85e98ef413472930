/** `GeminiLiveService` (services/liveService.ts) as a class whose fields the
    methods update in place. Each method is proved against the function of
    LiveSession that describes the same event, so every property proved
    there holds of the class: `Snapshot()` is the state those functions
    speak of, and every method keeps `Valid()`. `Connect` is the code as
    written (`LiveSession.ConnectAsWritten`), which keeps the playback
    cursor. */
module LiveService {
  import opened Wrappers
  import Base64
  import Pcm
  import LS = LiveSession

  class GeminiLiveService {
    var isConnected: bool
    /** The input AudioContext, by the sample rate the platform gave it. */
    var inputAudioContext: Option<LS.Rate>
    var outputAudioContext: bool
    var currentStream: bool
    var inputSource: bool
    var processor: bool
    var sessionPromise: bool
    var nextStartTime: real
    var currentInputTranscript: string
    var currentOutputTranscript: string
    /** Every `config.onMessage` call so far. */
    var utterances: seq<LS.Utterance>
    /** Every `onOpen`, `onClose` and `onError` call so far. */
    var notices: seq<LS.Notice>
    /** Every buffer source started on the output context so far. */
    var scheduled: seq<LS.Slot>

    function Snapshot(): LS.State
      reads this
    {
      LS.State(isConnected, inputAudioContext, outputAudioContext, currentStream, inputSource,
               processor, sessionPromise, nextStartTime, currentInputTranscript,
               currentOutputTranscript, utterances, notices, scheduled)
    }

    ghost predicate Valid()
      reads this
    {
      LS.Valid(Snapshot())
    }

    constructor ()
      ensures Snapshot() == LS.Initial && Valid()
    {
      isConnected := false;
      inputAudioContext := None;
      outputAudioContext := false;
      currentStream := false;
      inputSource := false;
      processor := false;
      sessionPromise := false;
      nextStartTime := 0.0;
      currentInputTranscript := "";
      currentOutputTranscript := "";
      utterances := [];
      notices := [];
      scheduled := [];
    }

    /** `connect`, given whether the microphone was granted and the rate the
        input context got. As written, the playback cursor is left as it was
        (`LiveSession.Connect` is the version that resets it). */
    method Connect(micGranted: bool, grantedRate: LS.Rate)
      requires Valid()
      modifies this
      ensures Valid()
      ensures Snapshot() == LS.ConnectAsWritten(old(Snapshot()), micGranted, grantedRate)
    {
      LS.StepPreservesValid(Snapshot(), LS.ConnectCall(micGranted, grantedRate));
      if isConnected {
        return;
      }
      inputAudioContext := Some(grantedRate);
      outputAudioContext := true;
      if !micGranted {
        // getUserMedia rejected: the catch block
        notices := notices + [LS.StartFailed];
        Disconnect();
        return;
      }
      currentStream := true;
      sessionPromise := true;
    }

    /** The session's `onopen` callback. */
    method OnOpen()
      requires Valid()
      modifies this
      ensures Valid()
      ensures Snapshot() == LS.Open(old(Snapshot()))
    {
      LS.StepPreservesValid(Snapshot(), LS.OpenEvent);
      isConnected := true;
      currentInputTranscript := "";
      currentOutputTranscript := "";
      StartAudioInput();
      notices := notices + [LS.Opened];
    }

    method StartAudioInput()
      modifies this
      ensures Snapshot() == LS.StartAudioInput(old(Snapshot()))
    {
      if inputAudioContext.None? || !currentStream || !sessionPromise {
        return;
      }
      inputSource := true;
      processor := true;
    }

    /** The session's `onclose` callback. */
    method OnClose()
      requires Valid()
      modifies this
      ensures Valid()
      ensures Snapshot() == LS.Close(old(Snapshot()))
    {
      LS.StepPreservesValid(Snapshot(), LS.CloseEvent);
      Disconnect();
      notices := notices + [LS.Closed];
    }

    /** The session's `onerror` callback. */
    method OnError()
      requires Valid()
      modifies this
      ensures Valid()
      ensures Snapshot() == LS.Error(old(Snapshot()))
    {
      LS.StepPreservesValid(Snapshot(), LS.ErrorEvent);
      notices := notices + [LS.ConnectionError];
    }

    /** The processor's `onaudioprocess` handler on one frame of input: the
        frame is resampled to 16 kHz, quantised and base64-encoded, and sent
        when there is a session to send it on. It changes no field. */
    method OnAudioProcess(inputData: array<real>) returns (sent: Option<LS.Media>)
      ensures sent.Some? <==> sessionPromise
      ensures sent.Some? ==> sent.value.mimeType == "audio/pcm;rate=16000"
      ensures sent.Some? ==> sent.value.data == Base64.Encode(Pcm.Pcm16Bytes(Pcm.QuantiseAll(
        Pcm.Resampled(inputData[..], LS.InputRate(Snapshot()), 16000.0))))
    {
      var currentSampleRate := if inputAudioContext.Some? then inputAudioContext.value else LS.CaptureRate;
      var downsampledData := Pcm.DownsampleBuffer(inputData, currentSampleRate, LS.CaptureRate);
      var int16Data := Pcm.Float32ToInt16(downsampledData);
      // `int16Data.buffer`: the same memory seen as bytes
      var view := Pcm.Pcm16Bytes(int16Data[..]);
      var buffer := new Base64.byte[|view|](k requires 0 <= k < |view| => view[k]);
      assert buffer[..] == view;
      var base64Data := Pcm.ArrayBufferToBase64(buffer);
      if sessionPromise {
        sent := Some(LS.Media(LS.CaptureMimeType, base64Data));
      } else {
        sent := None;
      }
    }

    /** `handleServerMessage` at output time now. */
    method HandleServerMessage(message: LS.ServerMessage, now: real)
      requires Valid() && now >= 0.0
      modifies this
      ensures Valid()
      ensures Snapshot() == LS.HandleServerMessage(old(Snapshot()), message, now)
    {
      LS.MessagePreservesValid(Snapshot(), message, now);
      if message.serverContent.None? {
        return;
      }
      var serverContent := message.serverContent.value;

      // 1. audio output
      var completed := PlayInboundAudio(serverContent, now);
      if !completed {
        return;
      }

      // 2. interruption
      if serverContent.interrupted {
        StopAudioPlayback(now);
        currentOutputTranscript := "";
      }

      // 3. transcription fragments
      currentInputTranscript := currentInputTranscript + LS.Text(serverContent.inputText);
      currentOutputTranscript := currentOutputTranscript + LS.Text(serverContent.outputText);

      // 4. turn complete
      if serverContent.turnComplete {
        CommitTurn();
      }
    }

    /** Step 1 of `handleServerMessage`; false when it throws. */
    method PlayInboundAudio(serverContent: LS.ServerContent, now: real) returns (completed: bool)
      modifies this
      ensures var o := LS.PlayStage(old(Snapshot()), serverContent, now);
        completed == o.Continue? && Snapshot() == o.state
    {
      var audioData := serverContent.audio;
      if audioData.Some? && audioData.value != "" && outputAudioContext {
        var decoded := Pcm.Base64ToUint8Array(audioData.value);
        if decoded.Failure? {
          return false;
        }
        completed := PlayAudioChunk(decoded.value, now);
      } else {
        completed := true;
      }
    }

    /** Step 4 of `handleServerMessage`. */
    method CommitTurn()
      modifies this
      ensures Snapshot() == LS.CommitTurn(old(Snapshot()))
    {
      if LS.HasText(currentInputTranscript) {
        utterances := utterances + [LS.Utterance(currentInputTranscript, LS.User)];
        currentInputTranscript := "";
      }
      if LS.HasText(currentOutputTranscript) {
        utterances := utterances + [LS.Utterance(currentOutputTranscript, LS.Model)];
        currentOutputTranscript := "";
      }
    }

    /** `playAudioChunk`: returns false when decoding throws, which abandons
        the rest of the message. */
    method PlayAudioChunk(data: array<Base64.byte>, now: real) returns (played: bool)
      modifies this
      ensures var o := LS.PlayAudioChunk(old(Snapshot()), data[..], now);
        played == o.Continue? && Snapshot() == o.state
    {
      if !outputAudioContext {
        return true;
      }
      nextStartTime := LS.Max(now, nextStartTime);
      var audioBuffer := Pcm.DecodeAudioData(data);
      if audioBuffer.Failure? {
        return false;
      }
      var duration := audioBuffer.value.Duration();
      scheduled := scheduled + [LS.Slot(nextStartTime, duration)];
      nextStartTime := nextStartTime + duration;
      return true;
    }

    /** `stopAudioPlayback`. */
    method StopAudioPlayback(now: real)
      modifies this
      ensures Snapshot() == LS.StopAudioPlayback(old(Snapshot()), now)
    {
      if outputAudioContext {
        nextStartTime := now;
      }
    }

    /** `disconnect`; calling it again changes nothing. */
    method Disconnect()
      modifies this
      ensures Snapshot() == LS.Disconnect(old(Snapshot()))
      ensures LS.Valid(old(Snapshot())) ==> Valid()
    {
      ghost var before := Snapshot();
      isConnected := false;
      currentStream := false;
      inputSource := false;
      processor := false;
      inputAudioContext := None;
      outputAudioContext := false;
      sessionPromise := false;
      assert Snapshot() == LS.Disconnect(before);
      if LS.Valid(before) {
        LS.DisconnectPreservesValid(before);
      }
    }
  }
}
