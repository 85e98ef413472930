/** The selection rules inside the speech helpers
    (services/speechService.ts): how a recognition event becomes one
    reported transcript, which BCP-47 tag a language gets, and which voice
    speaks a reply. The browser's SpeechRecognition and speechSynthesis
    objects are reduced to the fields the helpers set. */
module Speech {
  import opened Wrappers

  /** The two languages of the application. */
  datatype Language = Es | En

  /** The tag set on a recognition or an utterance. */
  function LangTag(lang: Language): (tag: string)
    ensures |tag| == 5 && tag[2] == '-'
    ensures tag[..2] == VoiceLangCode(lang)
  {
    if lang == En then "en-US" else "es-ES"
  }

  /** The code a voice's `lang` must contain to serve the language. */
  function VoiceLangCode(lang: Language): string
  {
    if lang == En then "en" else "es"
  }

  /** The two languages get different tags. */
  lemma LangTagInjective(a: Language, b: Language)
    ensures LangTag(a) == LangTag(b) <==> a == b
  {
    if a != b {
      assert LangTag(a)[1] != LangTag(b)[1];
    }
  }

  // ---------------------------------------------------------------------
  // Recognition results (services/speechService.ts:26-43)

  /** One entry of `event.results`: whether it is final, and the transcript
      of its first alternative. */
  datatype RecognitionResult = RecognitionResult(isFinal: bool, transcript: string)

  /** The transcripts of the final results, in order. */
  function FinalText(results: seq<RecognitionResult>): string
  {
    if |results| == 0 then ""
    else FinalText(results[..|results| - 1])
         + (if results[|results| - 1].isFinal then results[|results| - 1].transcript else "")
  }

  /** The transcripts of the results not yet final, in order. */
  function InterimText(results: seq<RecognitionResult>): string
  {
    if |results| == 0 then ""
    else InterimText(results[..|results| - 1])
         + (if results[|results| - 1].isFinal then "" else results[|results| - 1].transcript)
  }

  /** Each text is empty exactly when every result of its kind has an
      empty transcript: what decides whether `onResult` reports final text,
      interim text, or nothing. */
  lemma {:induction false} TextsEmpty(results: seq<RecognitionResult>)
    ensures FinalText(results) == ""
      <==> forall i :: 0 <= i < |results| && results[i].isFinal ==> results[i].transcript == ""
    ensures InterimText(results) == ""
      <==> forall i :: 0 <= i < |results| && !results[i].isFinal ==> results[i].transcript == ""
    decreases |results|
  {
    if |results| > 0 {
      var front := results[..|results| - 1];
      TextsEmpty(front);
      assert forall i :: 0 <= i < |front| ==> front[i] == results[i];
    }
  }

  /** The results the handler reads: those from `resultIndex` on. */
  function Unread(results: seq<RecognitionResult>, resultIndex: nat): seq<RecognitionResult>
  {
    if resultIndex <= |results| then results[resultIndex..] else []
  }

  /** What `onResult` is called with. */
  datatype Report = Report(text: string, isFinal: bool)

  /** The recognition `onresult` handler: one pass over the unread results
      builds the final and the interim text. Final text, when there is any,
      is reported alone as final. Otherwise interim text, when there is any,
      is reported as not final. Otherwise nothing is reported. */
  method OnResult(results: seq<RecognitionResult>, resultIndex: nat) returns (report: Option<Report>)
    ensures var finalText, interimText := FinalText(Unread(results, resultIndex)), InterimText(Unread(results, resultIndex));
      && (finalText != "" ==> report == Some(Report(finalText, true)))
      && (finalText == "" && interimText != "" ==> report == Some(Report(interimText, false)))
      && (finalText == "" && interimText == "" ==> report == None)
  {
    var interimTranscript := "";
    var finalTranscript := "";
    var i := resultIndex;
    while i < |results|
      invariant resultIndex <= i && (i <= |results| || i == resultIndex)
      invariant i <= |results| ==> finalTranscript == FinalText(results[resultIndex..i])
      invariant i <= |results| ==> interimTranscript == InterimText(results[resultIndex..i])
      invariant i > |results| ==> finalTranscript == "" && interimTranscript == ""
      decreases |results| - i
    {
      TextsOfNextResult(results, resultIndex, i);
      if results[i].isFinal {
        finalTranscript := finalTranscript + results[i].transcript;
      } else {
        interimTranscript := interimTranscript + results[i].transcript;
      }
      i := i + 1;
    }
    assert resultIndex <= |results| ==> results[resultIndex..i] == Unread(results, resultIndex);
    if finalTranscript != "" {
      report := Some(Report(finalTranscript, true));
    } else if interimTranscript != "" {
      report := Some(Report(interimTranscript, false));
    } else {
      report := None;
    }
  }

  /** One more result extends the text of its kind by its transcript. */
  lemma TextsOfNextResult(results: seq<RecognitionResult>, from: nat, i: nat)
    requires from <= i < |results|
    ensures FinalText(results[from..i + 1])
      == FinalText(results[from..i]) + (if results[i].isFinal then results[i].transcript else "")
    ensures InterimText(results[from..i + 1])
      == InterimText(results[from..i]) + (if results[i].isFinal then "" else results[i].transcript)
  {
    assert results[from..i + 1][..i - from] == results[from..i];
  }

  /** Splitting the results anywhere splits both texts there: each text is
      the in-order concatenation over the results. */
  lemma {:induction false} TextsOfConcatenation(a: seq<RecognitionResult>, b: seq<RecognitionResult>)
    ensures FinalText(a + b) == FinalText(a) + FinalText(b)
    ensures InterimText(a + b) == InterimText(a) + InterimText(b)
    decreases |b|
  {
    if |b| > 0 {
      var b' := b[..|b| - 1];
      assert (a + b)[..|a + b| - 1] == a + b';
      TextsOfConcatenation(a, b');
    } else {
      assert a + b == a;
    }
  }

  /** Every result lands in exactly one of the two texts: together they are
      as long as all the transcripts. */
  lemma {:induction false} TextsPartitionResults(results: seq<RecognitionResult>)
    ensures |FinalText(results)| + |InterimText(results)| == TotalLength(results)
    decreases |results|
  {
    if |results| > 0 {
      TextsPartitionResults(results[..|results| - 1]);
    }
  }

  function TotalLength(results: seq<RecognitionResult>): nat
  {
    if |results| == 0 then 0 else TotalLength(results[..|results| - 1]) + |results[|results| - 1].transcript|
  }

  /** Results before `resultIndex` play no part: two events that agree from
      `resultIndex` on give the same texts. */
  lemma EarlierResultsIgnored(a: seq<RecognitionResult>, b: seq<RecognitionResult>, resultIndex: nat)
    requires resultIndex <= |a| && resultIndex <= |b| && a[resultIndex..] == b[resultIndex..]
    ensures FinalText(Unread(a, resultIndex)) == FinalText(Unread(b, resultIndex))
    ensures InterimText(Unread(a, resultIndex)) == InterimText(Unread(b, resultIndex))
  {
  }

  /** The recognition object's settings. */
  class SpeechRecognitionService {
    /** A recognition object exists (the API is available). */
    var isSupported: bool
    var continuous: bool
    var interimResults: bool
    var lang: string
    /** `recognition.start()` has been called and has not been stopped. */
    var started: bool

    /** One-shot recognition with interim results, when the API exists. */
    constructor (apiAvailable: bool)
      ensures isSupported == apiAvailable && !started && lang == ""
      ensures isSupported ==> !continuous && interimResults
    {
      isSupported := apiAvailable;
      continuous := false;
      interimResults := apiAvailable;
      lang := "";
      started := false;
    }

    /** `start`: without a recognition object nothing happens. Otherwise the
        tag is set and recognition starts; starting one already started
        throws, and that is swallowed. */
    method Start(language: Language)
      modifies this
      ensures !old(isSupported) ==> lang == old(lang) && started == old(started)
      ensures old(isSupported) ==> lang == LangTag(language) && started
      ensures isSupported == old(isSupported) && continuous == old(continuous)
      ensures interimResults == old(interimResults)
    {
      if !isSupported {
        return;
      }
      lang := LangTag(language);
      if !started {
        started := true;
      }
    }

    method Stop()
      modifies this
      ensures isSupported ==> !started
      ensures !isSupported ==> started == old(started)
      ensures isSupported == old(isSupported) && lang == old(lang)
      ensures continuous == old(continuous) && interimResults == old(interimResults)
    {
      if isSupported {
        started := false;
      }
    }
  }

  // ---------------------------------------------------------------------
  // Voice selection (services/speechService.ts:69-107)

  /** A `SpeechSynthesisVoice`, by name and language tag. */
  datatype Voice = Voice(name: string, lang: string)

  /** The name keywords of each language, in the order they are tried. */
  function Keywords(lang: Language): seq<string>
  {
    if lang == En then ["male", "david", "james", "google us english"]
    else ["male", "hombre", "jorge", "pablo", "raul", "google español"]
  }

  /** `s.includes(part)`. */
  predicate Includes(s: string, part: string)
  {
    exists i :: 0 <= i <= |s| && OccursAt(s, part, i)
  }

  predicate OccursAt(s: string, part: string, i: nat)
  {
    i + |part| <= |s| && s[i..i + |part|] == part
  }

  /** `toLowerCase` on Basic Latin and Latin-1 capitals. */
  function LowerChar(c: char): char
  {
    if 'A' <= c <= 'Z' || ('À' <= c <= 'Þ' && c != '×') then (c as int + 32) as char
    else c
  }

  /** `s.toLowerCase()`: character by character, and no capital it knows
      remains, so lowercasing again changes nothing. */
  function Lower(s: string): (t: string)
    ensures |t| == |s|
    ensures forall i :: 0 <= i < |s| ==> t[i] == LowerChar(s[i])
    ensures forall i :: 0 <= i < |t| ==> !('A' <= t[i] <= 'Z') && LowerChar(t[i]) == t[i]
  {
    seq(|s|, i requires 0 <= i < |s| => LowerChar(s[i]))
  }

  /** The voice serves the language and its lowercased name holds one of
      the language's keywords. */
  predicate Qualifies(voice: Voice, lang: Language)
  {
    && Includes(voice.lang, VoiceLangCode(lang))
    && exists k :: 0 <= k < |Keywords(lang)| && Includes(Lower(voice.name), Keywords(lang)[k])
  }

  /** `keywords.some(keyword => name.includes(keyword))`. */
  function SomeKeyword(name: string, keywords: seq<string>): (found: bool)
    ensures found <==> exists k :: 0 <= k < |keywords| && Includes(name, keywords[k])
  {
    if |keywords| == 0 then false
    else if Includes(name, keywords[0]) then true
    else
      var found := SomeKeyword(name, keywords[1..]);
      assert forall k :: 1 <= k < |keywords| ==> keywords[k] == keywords[1..][k - 1];
      found
  }

  /** `voices.find(...)` with the predicate of `speakText`. */
  function PreferredVoice(voices: seq<Voice>, lang: Language): (chosen: Option<Voice>)
    ensures chosen.None? ==> forall i :: 0 <= i < |voices| ==> !Qualifies(voices[i], lang)
    ensures chosen.Some? ==> exists i :: 0 <= i < |voices| && voices[i] == chosen.value && FirstQualifying(voices, lang, i)
  {
    if |voices| == 0 then None
    else if Includes(voices[0].lang, VoiceLangCode(lang)) && SomeKeyword(Lower(voices[0].name), Keywords(lang)) then
      assert FirstQualifying(voices, lang, 0);
      Some(voices[0])
    else
      var rest := PreferredVoice(voices[1..], lang);
      assert !Qualifies(voices[0], lang);
      assert forall i :: 1 <= i < |voices| ==> voices[i] == voices[1..][i - 1];
      if rest.Some? then
        var j :| 0 <= j < |voices| - 1 && voices[1..][j] == rest.value && FirstQualifying(voices[1..], lang, j);
        assert FirstQualifying(voices, lang, j + 1);
        rest
      else rest
  }

  /** voices[i] qualifies and no voice before it does. */
  predicate FirstQualifying(voices: seq<Voice>, lang: Language, i: nat)
    requires i < |voices|
  {
    Qualifies(voices[i], lang) && forall j :: 0 <= j < i ==> !Qualifies(voices[j], lang)
  }

  /** The utterance `speakText` hands to the synthesiser. */
  datatype SpeechUtterance = SpeechUtterance(text: string, lang: string, pitch: real, rate: real, voice: Option<Voice>)

  /** `speakText(text, lang)` given the voices the synthesiser offers: the
      language's tag, a slightly lowered pitch at normal rate, and the first
      qualifying voice when there is one (the platform default otherwise). */
  function SpeakText(text: string, voices: seq<Voice>, lang: Language := Es): (u: SpeechUtterance)
    ensures u.text == text && u.lang == LangTag(lang) && u.pitch == 0.8 && u.rate == 1.0
    ensures u.voice.Some? ==> u.voice.value in voices && Qualifies(u.voice.value, lang)
    ensures u.voice.None? ==> forall v :: v in voices ==> !Qualifies(v, lang)
  {
    SpeechUtterance(text, LangTag(lang), 0.8, 1.0, PreferredVoice(voices, lang))
  }
}
