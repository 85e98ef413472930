# Live voice path: a Dafny model

This project models the real-time voice path of a chat client that talks to a
remote generative-AI service. It has three parts.

- **The audio codec utilities** (`utils/audio.ts`):
  - bytes to and from base64, through a "binary string" (one character per byte);
  - quantising float samples to 16-bit PCM;
  - resampling by linear interpolation;
  - decoding little-endian 16-bit PCM back to samples.

  Base64 is written out as section 4 of RFC 4648 for `btoa`, and as the
  forgiving-base64 decoder of the WHATWG Infra standard for `atob`
  (`Base64.dfy`). The loops of `utils/audio.ts` are methods over arrays
  (`Pcm.dfy`).
- **The live session controller** (`GeminiLiveService` in
  `services/liveService.ts`):
  - a connected flag and the device handles;
  - the user and model transcript buffers;
  - the log of emitted utterances;
  - the playback cursor `nextStartTime`.

  `LiveSession.dfy` describes each event (connect, open, message, close,
  error, disconnect) as a function on a `State` value, and proves the
  service's promises about those functions. `LiveService.dfy` is the class
  itself: its fields are updated in place, and every method is proved to
  produce the state the matching function describes. The class and the
  event stream follow the code as written, including its `connect`, which
  keeps the playback cursor. The corrected `connect` of the finding below is
  `LiveSession.Connect`. It is proved to keep the invariant as well.
- **The speech helpers** (`services/speechService.ts`):
  - the recognition handler that splits results into final and interim text;
  - the language-to-tag mapping;
  - the choice of a preferred synthesis voice (`Speech.dfy`).

Time is an input. The output context's `currentTime` is the `now` parameter
of the message being handled. Microphone permission and the sample rate the
platform gives the input context are parameters of `Connect`. Sample values
are exact reals.

## Model

| member | source | states |
|---|---|---|
| `Base64.BinaryString` | utils/audio.ts:11-19 | the string built from bytes is a binary string, and reading its character codes back (as base64ToUint8Array does) gives the original bytes |
| `Base64.BinaryStringOfBinaryBytes` | utils/audio.ts:1-9 | the other direction: every binary string is rebuilt from its character codes |
| `Base64.Encode` | utils/audio.ts:18 | the padded encoding has 4 characters for every started group of 3 bytes |
| `Base64.Btoa` | utils/audio.ts:18 | `btoa` succeeds exactly when every character is a byte |
| `Base64.Atob` | utils/audio.ts:2 | whatever `atob` returns is a binary string |
| `Base64.DigitValue` | utils/audio.ts:2 | the decoder's digit value is the inverse of the encoder's digit |
| `Base64.EncodeSextetsLength` | utils/audio.ts:18 | the encoder emits 4 digits per whole 3-byte group, plus 2 or 3 for a trailing 1 or 2 bytes |
| `Base64.PaddingCompletesGroup` | utils/audio.ts:18 | the digit count is never 1 mod 4, and the padding makes it a multiple of 4 |
| `Base64.DecodeEncodeSextets` | utils/audio.ts:1-19 | decoding the digit values of any bytes gives those bytes |
| `Base64.AtobEncode` | utils/audio.ts:1-19 | `atob` of the padded encoding of any bytes, the empty sequence included, gives their binary string |
| `Base64.BtoaAtobRoundTrip` | utils/audio.ts:1-19 | `btoa` accepts every binary string made from bytes, and `atob` of its output returns that string |
| `Base64.AtobRejects` | utils/audio.ts:2 | `atob` throws on a payload of 4k+1 alphabet characters |
| `Base64.AtobRejectsForeign` | utils/audio.ts:2 | `atob` throws on a payload holding, anywhere, a character that is not a digit, ASCII whitespace or `=` |
| `Pcm.Base64ToUint8Array` | utils/audio.ts:1-9 | throws exactly when `atob` does; otherwise a fresh array whose byte i is character i of the decoded string |
| `Pcm.ArrayBufferToBase64` | utils/audio.ts:11-19 | the result is the RFC 4648 encoding of the buffer's bytes (`btoa` never throws here) |
| `Pcm.TransportRoundTrip` | utils/audio.ts:1-19 | base64ToUint8Array(arrayBufferToBase64(b)) has the bytes of b, for every b |
| `Pcm.Clamp` | utils/audio.ts:25 | the clamped sample lies in [-1, 1]; it equals the input inside that range and the nearer bound outside it |
| `Pcm.Quantise` | utils/audio.ts:25-26 | the stored value is the truncated scaled sample: the Int16Array store never wraps it |
| `Pcm.QuantiseAll` | utils/audio.ts:22-29 | one value per sample; a value is -32768 exactly when its sample is at or below -1, and 32767 exactly when it is at or above 1 |
| `Pcm.Float32ToInt16` | utils/audio.ts:22-29 | a fresh array of the same length, element i being the quantised input element i |
| `Pcm.QuantiseNeverWraps` | utils/audio.ts:26 | the scaled, truncated value already lies in [-32768, 32767] |
| `Pcm.QuantiseExtremes` | utils/audio.ts:25-26 | a sample becomes -32768 exactly when it is at or below -1, and 32767 exactly when it is at or above 1 |
| `Pcm.QuantiseMonotone` | utils/audio.ts:25-26 | quantisation keeps the order of samples and their sign |
| `Pcm.QuantiseError` | utils/audio.ts:26 | over 32768, the quantised value is within one step above a negative sample and less than two steps below a non-negative one |
| `Pcm.QuantiseErrorCanExceedOneStep` | utils/audio.ts:26 | from zero up, the error can exceed one step of 1/32768 |
| `Pcm.ReadIndexInBounds` | utils/audio.ts:41-46 | every index the resampling loop computes, floor(i * ratio), lies inside the input |
| `Pcm.DownsampleBuffer` | utils/audio.ts:35-57 | equal rates return the very same buffer; otherwise a fresh buffer whose content is the resampling of the input |
| `Pcm.ResampledLength` | utils/audio.ts:36-41 | equal rates give the input unchanged; otherwise the length is round(len * outputRate / inputRate) |
| `Pcm.InterpolateBetween` | utils/audio.ts:51 | a blend with fraction in [0, 1) lies between its two neighbours |
| `Pcm.Interpolate` | utils/audio.ts:46-53 | the value read at a source position lies between the samples on either side; at the last index, or at a whole position, it is that sample |
| `Pcm.LoopItem` | utils/audio.ts:44-54 | iteration i of the loop, with its index and fraction, computes output sample i of the resampling |
| `Pcm.ResampledIsInterpolated` | utils/audio.ts:44-54 | output sample i is the interpolation at input position i * ratio |
| `Pcm.ResampledSample` | utils/audio.ts:44-54 | with k = floor(i * ratio) and fraction f, output i is s[k](1-f) + s[k+1]f and lies between them, or is s[k] exactly when k is the last index |
| `Pcm.DecodeAudioData` | utils/audio.ts:59-77 | fails exactly when there are fewer than two bytes; otherwise one channel at the given rate (24000 by default) of the decoded samples |
| `Pcm.Int16LE` | utils/audio.ts:69 | reading two bytes as a signed little-endian value inverts the split into low and high byte |
| `Pcm.DecodePcm16` | utils/audio.ts:66-72 | len/2 samples (an odd trailing byte is dropped), sample i being the signed little-endian value of bytes 2i and 2i+1 over 32768, so it lies in [-1, 1) |
| `Pcm.Pcm16Bytes` | services/liveService.ts:100 | the byte view of an Int16Array holds two bytes per sample |
| `Pcm.Pcm16BytesAt` | services/liveService.ts:100 | bytes 2i and 2i+1 of the view are the low and high bytes of sample i |
| `Pcm.DecodePcm16Bytes` | utils/audio.ts:66-72 | decoding the byte view of 16-bit samples gives each sample over 32768 |
| `LiveSession.Disconnect` | services/liveService.ts:176-191 | afterwards the service is disconnected and holds no handle; transcripts, utterances and cursor are untouched |
| `LiveSession.DisconnectIdempotent` | services/liveService.ts:176-191 | disconnecting twice gives the state of disconnecting once |
| `LiveSession.ConnectAsWritten` | services/liveService.ts:36-86 | connected: no change. Otherwise both contexts are created; with the microphone, stream and session are present; without it, the start failure is reported and everything is released. The cursor is left as it was |
| `LiveSession.Connect` | services/liveService.ts:36-86 | the corrected connect: as connect does, and in addition the cursor starts at 0 on the new output clock |
| `LiveSession.ConnectPreservesValid` | services/liveService.ts:36-86 | the corrected connect keeps the invariant and the log |
| `LiveSession.StartAudioInput` | services/liveService.ts:88-114 | the processor is attached exactly when the input context, stream and session are all present |
| `LiveSession.Open` | services/liveService.ts:58-65 | after open the service is connected, both transcript buffers are empty, and the open callback fired. Capture starts exactly when the input context, stream and session are present. Contexts, stream, session, log and cursor are kept |
| `LiveSession.Close` | services/liveService.ts:69-73 | close releases everything and fires the close callback |
| `LiveSession.Error` | services/liveService.ts:74-77 | a session error fires the error callback and changes nothing else; the service stays connected |
| `LiveSession.InputRate` | services/liveService.ts:96 | the rate capture resamples from: the input context's, or 16000 once the context is gone |
| `LiveSession.CapturePayload` | services/liveService.ts:96-100 | the payload of a frame has 4 characters per started group of 3 bytes, two bytes per 16 kHz sample |
| `LiveSession.CaptureAtCaptureRate` | services/liveService.ts:96-100 | a frame from a 16 kHz context, or with no context, is sent without resampling |
| `LiveSession.CapturePayloadDecodes` | services/liveService.ts:94-110 | the receiver decodes the captured payload to the quantised 16 kHz samples over 32768, one per resampled sample |
| `LiveSession.PlayAudioChunk` | services/liveService.ts:159-168 | a chunk starts at max(now, cursor), so never before now or the cursor; it lasts (bytes/2)/24000 s and moves the cursor to its end. With no frames, the cursor still moves up to now and the message aborts |
| `LiveSession.StopAudioPlayback` | services/liveService.ts:170-174 | with an output context, the cursor becomes now; nothing else changes |
| `LiveSession.CommitInput` | services/liveService.ts:148-151 | after the commit the user buffer holds no text; a buffer of white space only is kept as it was |
| `LiveSession.CommitOutput` | services/liveService.ts:152-155 | after the commit the model buffer holds no text; a buffer of white space only is kept as it was |
| `LiveSession.CommitTurn` | services/liveService.ts:147-156 | the log only grows; afterwards neither buffer holds text; buffers of white space only stay |
| `LiveSession.PlayStage` | services/liveService.ts:120-127 | the audio step throws exactly when a non-empty payload meets the output context and `atob` refuses it or it holds fewer than two bytes. It touches neither handles nor conversation, and adds at most one chunk, at max(now, cursor), leaving the cursor at its end; otherwise the cursor stays or rises to now |
| `LiveSession.AppendStage` | services/liveService.ts:129-144 | an interruption (with an output context) moves the cursor to now and drops the pending model text; each fragment is then appended to its own buffer; log, schedule and handles are untouched |
| `LiveSession.HandleServerMessage` | services/liveService.ts:116-157 | a message without server content changes nothing; no message changes the connection, the handles or the notices; the utterance log and the schedule only grow |
| `LiveSession.CommitInputKeepsText` | services/liveService.ts:148-151 | the user text moves from the buffer into the log as one user utterance, and only when it has text |
| `LiveSession.CommitOutputKeepsText` | services/liveService.ts:152-155 | the model text moves from the buffer into the log as one model utterance, and only when it has text |
| `LiveSession.CommitTurnKeepsText` | services/liveService.ts:147-156 | per role, logged text plus pending text is unchanged; the log gains the user utterance, then the model utterance, each only when it has text |
| `LiveSession.MessageKeepsText` | services/liveService.ts:130-156 | each fragment joins its own buffer in arrival order. An interruption drops only the pending model text, and fragments of the same message survive it. No user text is lost |
| `LiveSession.AbortedMessageKeepsConversation` | services/liveService.ts:121-127 | a message whose audio step throws changes no transcript, no log and no schedule |
| `LiveSession.CursorFallsOnlyOnInterruption` | services/liveService.ts:130-133 | the cursor moves back only through an interruption, and then exactly to now |
| `LiveSession.MessageSchedulesAfterCursor` | services/liveService.ts:159-168 | a message schedules at most one chunk, at or after now and the cursor; without an interruption, the cursor ends at that chunk's end |
| `LiveSession.ChunkLeavesCursorBehind` | services/liveService.ts:159-168 | a message that starts a chunk without an interruption leaves the cursor at that chunk's end |
| `LiveSession.QuietMessageKeepsCursorBehind` | services/liveService.ts:116-168 | an uninterrupted message keeps the cursor at or after the last chunk's end, and past it only up to the arrival time |
| `LiveSession.QuietRunKeepsCursorBehind` | services/liveService.ts:116-168 | so does any run of uninterrupted messages in clock order |
| `LiveSession.NextChunkStart` | services/liveService.ts:159-168 | with the cursor so placed, the next chunk starts at the later of the last chunk's end and its arrival time |
| `LiveSession.ConsecutiveChunksDoNotOverlap` | services/liveService.ts:116-168 | after any run of uninterrupted messages in clock order, however many carry no audio, the next chunk starts at max(previous end, arrival). So it never overlaps the previous chunk, and it follows it exactly when it arrives before that end |
| `LiveSession.InterruptionThenChunkStartsNow` | services/liveService.ts:130-133 | after an interruption, the next chunk starts as soon as it arrives |
| `LiveSession.AudioMessagePlays` | services/liveService.ts:121-127 | an audio-only message with at least two bytes schedules one chunk, at max(now, cursor) |
| `LiveSession.StaleCursorDelaysFirstChunk` | services/liveService.ts:36-41 | as written, the first chunk after a reconnect starts at the old cursor, later than now |
| `LiveSession.FirstChunkAfterConnectStartsNow` | services/liveService.ts:36-41 | with the cursor reset, the first chunk after a reconnect starts at now |
| `LiveSession.InitialValid` | services/liveService.ts:15-27 | a new service satisfies the invariant and holds nothing |
| `LiveSession.PlayStagePreservesValid` | services/liveService.ts:120-127 | the audio step keeps the invariant |
| `LiveSession.CommitTurnPreservesValid` | services/liveService.ts:147-156 | committing keeps the invariant: every logged utterance has text |
| `LiveSession.MessagePreservesValid` | services/liveService.ts:116-157 | handling a message keeps the invariant |
| `LiveSession.DisconnectPreservesValid` | services/liveService.ts:176-191 | disconnecting keeps the invariant |
| `LiveSession.StepPreservesValid` | services/liveService.ts:36-191 | every event keeps the invariant |
| `LiveSession.StepKeepsLog` | services/liveService.ts:36-191 | no event removes or rewrites an emitted utterance |
| `LiveSession.RunPreservesValid` | services/liveService.ts:36-191 | every state reachable by events is valid, and the utterance log only grows |
| `LiveService.GeminiLiveService.constructor` | services/liveService.ts:15-34 | a new service starts with the initial field values |
| `LiveService.GeminiLiveService.Connect` | services/liveService.ts:36-86 | updates the fields as `LiveSession.ConnectAsWritten` describes, and keeps the invariant |
| `LiveService.GeminiLiveService.OnOpen` | services/liveService.ts:58-65 | updates the fields as `LiveSession.Open` describes, and keeps the invariant |
| `LiveService.GeminiLiveService.StartAudioInput` | services/liveService.ts:88-114 | updates the fields as `LiveSession.StartAudioInput` describes |
| `LiveService.GeminiLiveService.OnClose` | services/liveService.ts:69-73 | updates the fields as `LiveSession.Close` describes, and keeps the invariant |
| `LiveService.GeminiLiveService.OnError` | services/liveService.ts:74-77 | updates the fields as `LiveSession.Error` describes, and keeps the invariant |
| `LiveService.GeminiLiveService.OnAudioProcess` | services/liveService.ts:94-110 | sends exactly when a session exists: mime type "audio/pcm;rate=16000", data the base64 of the quantised frame resampled from the context rate (16000 when the context is gone) |
| `LiveService.GeminiLiveService.HandleServerMessage` | services/liveService.ts:116-157 | updates the fields as `LiveSession.HandleServerMessage` describes, and keeps the invariant |
| `LiveService.GeminiLiveService.PlayInboundAudio` | services/liveService.ts:120-127 | the audio step: an `atob` failure aborts with no change; otherwise the chunk is played |
| `LiveService.GeminiLiveService.CommitTurn` | services/liveService.ts:146-156 | updates the fields as `LiveSession.CommitTurn` describes |
| `LiveService.GeminiLiveService.PlayAudioChunk` | services/liveService.ts:159-168 | updates the fields as `LiveSession.PlayAudioChunk` describes, and reports whether decoding succeeded |
| `LiveService.GeminiLiveService.StopAudioPlayback` | services/liveService.ts:170-174 | updates the fields as `LiveSession.StopAudioPlayback` describes |
| `LiveService.GeminiLiveService.Disconnect` | services/liveService.ts:176-191 | updates the fields as `LiveSession.Disconnect` describes, and keeps the invariant |
| `Speech.LangTag` | services/speechService.ts:24 | the tag is five characters, a hyphen at index 2, starting with the language code that voices are matched on |
| `Speech.LangTagInjective` | services/speechService.ts:76 | the two languages get different tags |
| `Speech.OnResult` | services/speechService.ts:26-43 | from resultIndex on, final text (if any) is reported alone as final; otherwise interim text (if any) is reported as not final; otherwise nothing is reported |
| `Speech.TextsOfNextResult` | services/speechService.ts:30-36 | one more result extends the text of its kind by its transcript |
| `Speech.TextsEmpty` | services/speechService.ts:30-42 | final text is empty exactly when every final result's transcript is empty; likewise interim text |
| `Speech.EarlierResultsIgnored` | services/speechService.ts:30 | results before `resultIndex` play no part: events that agree from there on give the same texts |
| `Speech.TextsOfConcatenation` | services/speechService.ts:30-36 | final and interim text split wherever the result list is split, so each is the in-order concatenation |
| `Speech.TextsPartitionResults` | services/speechService.ts:30-36 | every transcript lands in exactly one of the two texts |
| `Speech.SpeechRecognitionService.constructor` | services/speechService.ts:8-19 | with the API present: one-shot recognition with interim results |
| `Speech.SpeechRecognitionService.Start` | services/speechService.ts:21-59 | without a recognition object nothing changes; otherwise the tag is set and recognition is running, even if it already was |
| `Speech.SpeechRecognitionService.Stop` | services/speechService.ts:61-65 | with a recognition object, recognition stops |
| `Speech.Lower` | services/speechService.ts:95 | lowercasing keeps the length and maps each character on its own; no capital it knows remains, so lowercasing again changes nothing |
| `Speech.SomeKeyword` | services/speechService.ts:95 | true exactly when the name includes one of the keywords |
| `Speech.PreferredVoice` | services/speechService.ts:90-96 | the chosen voice is the first in list order whose lang contains the language code and whose lowercased name contains a keyword; none is chosen exactly when no voice qualifies |
| `Speech.SpeakText` | services/speechService.ts:69-107 | the utterance gets the language's tag, pitch 0.8 and rate 1.0, and a qualifying voice from the list, or the platform default when none qualifies |

## Left out

- IEEE-754 arithmetic is not modelled. Samples are exact reals, so Float32 storage rounding, NaN and infinities are absent. `Math.round` is floor(x + 1/2) on exact values.
- Concurrency is not modelled. Events are handled one at a time, each to completion; the interleavings that `await getUserMedia`, `await playAudioChunk` and the session promise allow are absent. A message reads `currentTime` once, as `now`.
- The SDK calls are left out: `live.connect`'s configuration (model name, voice, system instruction), `sendRealtimeInput` and the session promise's resolution. A rejected `live.connect` promise (not awaited, so not caught) is not modelled.
- The service constructor's API-key check (services/liveService.ts:29-34) is not modelled.
- The Web Audio node graph is not modelled: node connections, the 4096-frame processor size and the buffer source objects. A started source is a `Slot`. Device teardown is the clearing of a handle flag.
- The sample rate the platform gives the input context is an input of `Connect`, always positive. The `|| 16000` fallback is modelled only for a missing context, not for a rate of 0 or NaN.
- `createBuffer`'s sample-rate range check is not modelled; the only rate used is 24000. Its refusal of a zero-length buffer is modelled.
- The Int16Array byte view is taken to be little-endian, as on every platform the application runs on.
- `Speech.Lower`: lowercases Basic Latin and Latin-1 capitals only, not the full Unicode case mapping.
- The speech synthesiser's availability check, `cancel`, `speak` and the `onend` callbacks are not modelled. Neither are the recognition `onerror`/`onend` callbacks or `stopSpeaking`. `SpeakText` takes the voice list as an input.
- `Pcm.Resampled`, `Pcm.ResampledBy`, `Speech.FinalText` and `Speech.InterimText` are the reference definitions the methods are proved against. They carry no contract of their own; the lemma rows above state what they mean.
- The React components, `constants.ts`, and the analysis and chat services are out of scope.

The code and its design description differ in several places. The model follows the code:

- `stopAudioPlayback` moves only the cursor. Sources already started keep playing, so after an interruption new audio can overlap old audio still sounding. The cursor is therefore not monotone: it falls on interruption (`LiveSession.CursorFallsOnlyOnInterruption`).
- The quantisation error of a non-negative sample, decoded over 32768, is below two steps rather than one (`Pcm.QuantiseError`, `Pcm.QuantiseErrorCanExceedOneStep`).
- `connect` checks only `isConnected`, which is set on open. A second `connect` before the session opens starts over rather than doing nothing.
- A session `onerror` reports the error and tears nothing down (`LiveSession.Error`).
- A malformed audio payload, or one with fewer than two bytes, makes `handleServerMessage` throw. The rest of that message is lost: its interruption, its fragments and its turn-complete (`LiveSession.AbortedMessageKeepsConversation`).

## Findings

| source | as written | input that shows it | evidently intended | confidence | as-written member | corrected member |
|---|---|---|---|---|---|---|
| services/liveService.ts:36-41 | `connect` creates a new output context, whose clock starts at 0, but keeps `nextStartTime` from the previous session (neither `disconnect` nor `connect` resets it) | play 5 s of model audio, disconnect, connect again on the same service object; the first chunk arrives at time 0 of the new clock and is started at 5 s, after 5 s of silence | each session's first chunk plays as soon as it arrives: `connect` resets `nextStartTime` to 0 with the new context | high, not executed | `LiveSession.ConnectAsWritten`, `LiveSession.StaleCursorDelaysFirstChunk` | `LiveSession.Connect`, `LiveSession.FirstChunkAfterConnectStartsNow`, `LiveSession.ConnectPreservesValid` |

The class `LiveService.GeminiLiveService` and the event stream `LiveSession.Step` keep the connect as written, so their proofs describe the code as it stands. The corrected `LiveSession.Connect` is proved on its own: it keeps the invariant, and the first chunk after it plays at once.
