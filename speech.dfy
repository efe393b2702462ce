/**
 * The speech adapter of frontend/src/utils/azureSpeech.js: the speech-token
 * cache, the Azure recognizer wrapper that turns SDK callbacks into Web
 * Speech-style events, the choice of recognizer and text-to-speech.
 * The clock is the parameter `now` (milliseconds); SDK and network
 * outcomes are parameters too.
 */
module SpeechAdapter {
  import opened Wrappers
  import opened Text
  import opened Transcript

  /** How long a fetched token is reused: nine minutes. */
  const TokenLifetimeMs: nat := 9 * 60 * 1000

  datatype SpeechToken = SpeechToken(token: string, region: string)

  /** What `fetch('/speech/token')` produced. */
  datatype TokenResponse =
    | FetchFailed(message: string)
    | Responded(ok: bool, body: SpeechToken)

  /** The message of the error `getAzureSpeechToken()` throws when the token request fails. */
  function TokenFailure(response: TokenResponse): string
  {
    if response.FetchFailed? then response.message else "Failed to get speech token"
  }

  /** The module-level `cachedToken` / `tokenExpiry` pair. */
  class TokenCache {
    var cachedToken: Option<SpeechToken>
    var tokenExpiry: Option<nat>

    constructor()
      ensures cachedToken == None && tokenExpiry == None
    {
      cachedToken := None;
      tokenExpiry := None;
    }

    /** `cachedToken && tokenExpiry && Date.now() < tokenExpiry`. */
    predicate Fresh(now: nat)
      reads this
    {
      cachedToken.Some? && tokenExpiry.Some? && tokenExpiry.value != 0 && now < tokenExpiry.value
    }

    /** Whether a token request at `now` yields a token. */
    predicate Obtains(now: nat, response: TokenResponse)
      reads this
    {
      Fresh(now) || (response.Responded? && response.ok)
    }

    /** `getAzureSpeechToken()`: `fetched` says whether the network was used. */
    method GetToken(now: nat, response: TokenResponse) returns (r: Result<SpeechToken, string>, fetched: bool)
      modifies this
      ensures fetched <==> !old(Fresh(now))
      ensures !fetched ==> r == Success(old(cachedToken).value) && unchanged(this)
      ensures fetched && response.Responded? && response.ok ==>
        r == Success(response.body) && cachedToken == Some(response.body) && tokenExpiry == Some(now + TokenLifetimeMs)
      ensures fetched && response.Responded? && !response.ok ==>
        r == Failure("Failed to get speech token") && unchanged(this)
      ensures fetched && response.FetchFailed? ==> r == Failure(response.message) && unchanged(this)
      ensures r.Success? <==> old(Obtains(now, response))
    {
      if Fresh(now) {
        return Success(cachedToken.value), false;
      }
      fetched := true;
      match response
      case FetchFailed(message) =>
        r := Failure(message);
      case Responded(ok, body) =>
        if !ok {
          r := Failure("Failed to get speech token");
        } else {
          cachedToken := Some(body);
          tokenExpiry := Some(now + TokenLifetimeMs);
          r := Success(body);
        }
    }
  }

  /**
   * Two token requests on a fresh cache, both answered successfully:
   * the second goes to the network iff it comes nine minutes or more after the first.
   */
  method RefetchWindow(first: nat, second: nat, token: SpeechToken) returns (refetched: bool)
    ensures refetched <==> second >= first + TokenLifetimeMs
  {
    var cache := new TokenCache();
    var r1, f1 := cache.GetToken(first, Responded(true, token));
    var r2, f2 := cache.GetToken(second, Responded(true, token));
    refetched := f2;
  }

  /** What the adapter delivers to `onstart` / `onresult` / `onerror` / `onend`. */
  datatype AdapterEvent =
    | Started
    | Result(event: ResultEvent)
    | Error(error: string)
    | Ended

  /** `e.result.reason` of a recognition callback. */
  datatype ResultReason = RecognizingSpeech | RecognizedSpeech | NoMatch | OtherReason

  /** The event a `recognizing` callback emits: one non-final result at index 0, for interim speech only. */
  function RecognizingEvent(reason: ResultReason, text: string): (r: Option<ResultEvent>)
    ensures r.Some? <==> reason == RecognizingSpeech
    ensures r.Some? ==> WellFormed(r.value) && r.value.resultIndex == 0 && |r.value.results| == 1
    ensures r.Some? ==> CommittedText(Window(r.value)) == "" && InterimText(Window(r.value)) == text
  {
    if reason == RecognizingSpeech then
      var ev := ResultEvent([Flat(text, false)], 0);
      SingleResult(Flat(text, false));
      Some(ev)
    else None
  }

  /** The event a `recognized` callback emits: one final result, for recognised non-empty text only. */
  function RecognizedEvent(reason: ResultReason, text: string): (r: Option<ResultEvent>)
    ensures r.Some? <==> reason == RecognizedSpeech && text != ""
    ensures r.Some? ==> WellFormed(r.value) && r.value.resultIndex == 0 && |r.value.results| == 1
    ensures r.Some? ==> CommittedText(Window(r.value)) == text + " " && InterimText(Window(r.value)) == ""
  {
    if reason == RecognizedSpeech && text != "" then
      var ev := ResultEvent([Flat(text, true)], 0);
      SingleResult(Flat(text, true));
      Some(ev)
    else None
  }

  /** `AzureSpeechRecognizer`: `recognizer` says whether an SDK recognizer object is held. */
  class AzureRecognizer {
    const sdkLoaded: bool
    var recognizer: bool
    var isRecording: bool
    var finalTranscript: string
    /** Events delivered to the handlers, oldest first. */
    var emitted: seq<AdapterEvent>

    constructor(sdkLoaded: bool)
      ensures this.sdkLoaded == sdkLoaded
      ensures !recognizer && !isRecording && finalTranscript == "" && emitted == []
    {
      this.sdkLoaded := sdkLoaded;
      recognizer := false;
      isRecording := false;
      finalTranscript := "";
      emitted := [];
    }

    /**
     * `start()`: `startError` is the failure the SDK reports from
     * `startContinuousRecognitionAsync`, `None` when it starts.
     */
    method Start(cache: TokenCache, now: nat, response: TokenResponse, startError: Option<string>)
      modifies this, cache
      ensures !sdkLoaded ==> emitted == old(emitted) + [Error("sdk-not-loaded")]
      ensures !sdkLoaded ==>
        unchanged(cache) && recognizer == old(recognizer)
        && isRecording == old(isRecording) && finalTranscript == old(finalTranscript)
      ensures sdkLoaded && !old(cache.Obtains(now, response)) ==>
        recognizer == old(recognizer) && isRecording == old(isRecording)
        && finalTranscript == old(finalTranscript) && emitted == old(emitted) + [Error(TokenFailure(response))]
      ensures sdkLoaded && (old(cache.Fresh(now)) || !old(cache.Obtains(now, response))) ==> unchanged(cache)
      ensures sdkLoaded && !old(cache.Fresh(now)) && response.Responded? && response.ok ==>
        cache.cachedToken == Some(response.body) && cache.tokenExpiry == Some(now + TokenLifetimeMs)
      ensures sdkLoaded && old(cache.Obtains(now, response)) ==>
        recognizer && finalTranscript == ""
        && (startError.None? ==> isRecording && emitted == old(emitted) + [Started])
        && (startError.Some? ==> isRecording == old(isRecording) && emitted == old(emitted) + [Error(startError.value)])
    {
      if !sdkLoaded {
        emitted := emitted + [Error("sdk-not-loaded")];
        return;
      }
      var token, fetched := cache.GetToken(now, response);
      if token.Failure? {
        emitted := emitted + [Error(token.error)];
        return;
      }
      recognizer := true;
      finalTranscript := "";
      if startError.None? {
        isRecording := true;
        emitted := emitted + [Started];
      } else {
        emitted := emitted + [Error(startError.value)];
      }
    }

    /** The SDK's `recognizing` callback. */
    method Recognizing(reason: ResultReason, text: string)
      requires recognizer
      modifies this`emitted
      ensures reason == RecognizingSpeech ==> emitted == old(emitted) + [Result(ResultEvent([Flat(text, false)], 0))]
      ensures reason != RecognizingSpeech ==> emitted == old(emitted)
    {
      var ev := RecognizingEvent(reason, text);
      if ev.Some? {
        emitted := emitted + [Result(ev.value)];
      }
    }

    /** The SDK's `recognized` callback; a `NoMatch` is only logged. */
    method Recognized(reason: ResultReason, text: string)
      requires recognizer
      modifies this`emitted
      ensures reason == RecognizedSpeech && text != "" ==> emitted == old(emitted) + [Result(ResultEvent([Flat(text, true)], 0))]
      ensures !(reason == RecognizedSpeech && text != "") ==> emitted == old(emitted)
    {
      var ev := RecognizedEvent(reason, text);
      if ev.Some? {
        emitted := emitted + [Result(ev.value)];
      }
    }

    /**
     * `stop()`: acts only while a recognizer is held and recording;
     * `stopOk` is how `stopContinuousRecognitionAsync` completes.
     */
    method Stop(stopOk: bool)
      modifies this
      ensures !(old(recognizer) && old(isRecording)) ==> unchanged(this)
      ensures old(recognizer) && old(isRecording) ==>
        !isRecording && !recognizer && finalTranscript == old(finalTranscript)
        && emitted == old(emitted) + (if stopOk then [Ended] else [])
    {
      if recognizer && isRecording {
        isRecording := false;
        recognizer := false;
        if stopOk {
          emitted := emitted + [Ended];
        }
      }
    }

    /** `abort()` is `stop()`. */
    method Abort(stopOk: bool)
      modifies this
      ensures !(old(recognizer) && old(isRecording)) ==> unchanged(this)
      ensures old(recognizer) && old(isRecording) ==>
        !isRecording && !recognizer && finalTranscript == old(finalTranscript)
        && emitted == old(emitted) + (if stopOk then [Ended] else [])
    {
      Stop(stopOk);
    }

    /** The SDK's `canceled` callback: report the error, then `stop()`. */
    method Canceled(errorDetails: Option<string>, stopOk: bool)
      requires recognizer
      modifies this
      ensures !old(isRecording) ==>
        emitted == old(emitted) + [Error(OrElse(errorDetails, "canceled"))]
        && recognizer == old(recognizer) && isRecording == old(isRecording)
      ensures old(isRecording) ==>
        emitted == old(emitted) + [Error(OrElse(errorDetails, "canceled"))] + (if stopOk then [Ended] else [])
        && !isRecording && !recognizer
      ensures finalTranscript == old(finalTranscript)
    {
      emitted := emitted + [Error(OrElse(errorDetails, "canceled"))];
      Stop(stopOk);
    }

    /** The SDK's `sessionStopped` callback. */
    method SessionStopped()
      requires recognizer
      modifies this`emitted
      ensures emitted == old(emitted) + [Ended]
    {
      emitted := emitted + [Ended];
    }
  }

  /** A second `stop()` after a completed one does nothing. */
  method StopTwice(r: AzureRecognizer, first: bool, second: bool)
    modifies r
    ensures old(r.recognizer && r.isRecording) ==> !r.recognizer && !r.isRecording
    ensures !old(r.recognizer && r.isRecording) ==> unchanged(r)
    ensures r.emitted == old(r.emitted) + (if old(r.recognizer && r.isRecording) && first then [Ended] else [])
  {
    r.Stop(first);
    r.Stop(second);
  }

  /** The recognizer `createSpeechRecognizer()` builds. */
  datatype RecognizerKind =
    | AzureKind
    | WebKitKind(continuous: bool, interimResults: bool, lang: string)

  /** Azure when its SDK is loaded, else the browser's recognizer configured for continuous en-US, else an error. */
  function CreateSpeechRecognizer(azureLoaded: bool, browserRecognizer: bool): (r: Result<RecognizerKind, string>)
    ensures r == Success(AzureKind) <==> azureLoaded
    ensures r.Success? <==> azureLoaded || browserRecognizer
    ensures r.Success? && r.value.WebKitKind? ==> r.value == WebKitKind(true, true, "en-US")
    ensures r.Failure? ==> r.error == "No speech recognition available"
  {
    if azureLoaded then Success(AzureKind)
    else if browserRecognizer then Success(WebKitKind(true, true, "en-US"))
    else Failure("No speech recognition available")
  }

  datatype SynthesisReason = SynthesizingAudioCompleted | OtherSynthesisReason

  /** How `speakTextAsync` completed: a result with its reason, or the error callback. */
  datatype SynthesisOutcome =
    | Synthesized(reason: SynthesisReason, errorDetails: Option<string>)
    | SynthesisError(message: string)

  /** `speakText(text)`: resolves only when synthesis completes. */
  method SpeakText(cache: TokenCache, sdkLoaded: bool, now: nat, response: TokenResponse, outcome: SynthesisOutcome)
    returns (r: Result<(), string>)
    modifies cache
    ensures !sdkLoaded ==> r == Failure("Azure Speech SDK not available") && unchanged(cache)
    ensures r.Success? <==> sdkLoaded && old(cache.Obtains(now, response)) && outcome.Synthesized? && outcome.reason == SynthesizingAudioCompleted
    ensures sdkLoaded && old(cache.Obtains(now, response)) && outcome.Synthesized? && outcome.reason != SynthesizingAudioCompleted ==>
      r == Failure(OrElse(outcome.errorDetails, "Speech synthesis failed"))
    ensures sdkLoaded && old(cache.Obtains(now, response)) && outcome.SynthesisError? ==> r == Failure(outcome.message)
    ensures sdkLoaded && !old(cache.Obtains(now, response)) ==> r == Failure(TokenFailure(response))
    ensures sdkLoaded && (old(cache.Fresh(now)) || !old(cache.Obtains(now, response))) ==> unchanged(cache)
    ensures sdkLoaded && !old(cache.Fresh(now)) && response.Responded? && response.ok ==>
      cache.cachedToken == Some(response.body) && cache.tokenExpiry == Some(now + TokenLifetimeMs)
  {
    if !sdkLoaded {
      return Failure("Azure Speech SDK not available");
    }
    var token, fetched := cache.GetToken(now, response);
    if token.Failure? {
      return Failure(token.error);
    }
    match outcome
    case Synthesized(reason, details) =>
      if reason == SynthesizingAudioCompleted {
        r := Success(());
      } else {
        r := Failure(OrElse(details, "Speech synthesis failed"));
      }
    case SynthesisError(message) =>
      r := Failure(message);
  }
}
