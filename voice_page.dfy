/**
 * The single-page interviewer of frontend/voice-interviewer/app/page.tsx:
 * spoken questions, Web Speech recognition with a silence auto-stop, a
 * review step before sending, pause and re-record, and a 30-minute session
 * countdown. Timers and recognizer callbacks are methods; the clock is the
 * parameter `now` (milliseconds); server replies are parameters.
 */
module VoicePage {
  import opened Wrappers
  import opened Text
  import opened Transcript

  /** `SILENCE_THRESHOLD`: milliseconds without a result before recording stops. */
  const SilenceThresholdMs: nat := 5000
  /** The session length in seconds, and the remaining time at which the user is warned. */
  const SessionSeconds: int := 1800
  const WarningAt: int := 300

  const SessionWarning := "Session expires in 5 minutes. Please complete your answer soon."
  const SessionTimeoutMessage := "Session timeout. Starting new interview..."
  const NoAnswer := "The user did not provide an answer"
  const SubmitFailed := "Failed to submit answer. Please try again."
  const CompletedMessage := "Interview completed! Thank you for participating."
  const NextReadyMessage := "Answer submitted. Next question is ready."
  const SttMissing := "Speech Recognition is not supported in your browser. Please use Chrome, Edge, or Safari. Type your answer instead."

  /** What the component asks of the browser and the server. */
  datatype PageEffect =
    | StartRecognition
    | StopRecognition
    | PlayAudio(audio: string)
    | PostAnswer(sessionId: string, answer: string)

  /** The state hooks the interview view renders from. */
  datatype View = View(
    sessionId: Option<string>, question: Option<string>, answer: string, loading: bool,
    finished: bool, error: Option<string>, feedbackMessage: Option<string>, areasToFocus: seq<string>,
    isAudioPlaying: bool, isReviewMode: bool, sttSupported: bool)

  /**
   * The recording hooks and refs. `recognition` says whether
   * `recognitionRefObj` holds a recognizer; `capturedManual` is the
   * `manualRecording` value its `onstart` handler sees; `silenceArmed`
   * whether the silence-check interval exists.
   */
  datatype Mic = Mic(
    isRecording: bool, transcript: string, recordingTime: nat, isPaused: bool, manualRecording: bool,
    recognition: bool, capturedManual: bool, silenceArmed: bool, lastSpeechTime: nat)

  /**
   * The session countdown: `sessionTimeout`, whether its interval runs,
   * and whether the reset two seconds after a timeout is pending.
   */
  datatype Clock = Clock(sessionTimeout: int, armed: bool, resetDue: bool)

  /** The reply to the answer request: a thrown fetch, a non-ok response, or the parsed body. */
  datatype AnswerReply =
    | FetchError(message: string)
    | NotOk
    | Body(final: bool, spokenClosing: Option<string>, areasToFocus: Option<seq<string>>,
        question: Option<string>, audio: string)

  /** The silence check's condition: strictly more than the threshold since the last result. */
  predicate SilenceExceeded(now: nat, lastSpeech: nat)
  {
    now - lastSpeech > SilenceThresholdMs as int
  }

  /**
   * Exactly 5000 ms of silence does not stop the recording, one more
   * millisecond does, and a result arriving now restarts the wait.
   */
  lemma SilenceBoundary(lastSpeech: nat, now: nat, later: nat)
    ensures !SilenceExceeded(lastSpeech + SilenceThresholdMs, lastSpeech)
    ensures SilenceExceeded(lastSpeech + SilenceThresholdMs + 1, lastSpeech)
    ensures !SilenceExceeded(now, now)
    ensures SilenceExceeded(now, lastSpeech) && now <= later ==> SilenceExceeded(later, lastSpeech)
  {
  }

  /** Whether `onstart` arms the silence check: only outside manual re-record mode. */
  predicate ArmsSilenceCheck(capturedManual: bool)
  {
    !capturedManual
  }

  /** `onend` enters review mode exactly when recording was neither paused nor a manual re-record. */
  predicate EntersReview(isPaused: bool, manualRecording: bool)
  {
    !isPaused && !manualRecording
  }

  /** The message `onerror` shows for an error code. */
  function RecognitionError(code: string): (m: string)
    ensures code !in {"no-speech", "network", "not-allowed"} ==> m == "Speech recognition error: " + code
  {
    if code == "no-speech" then "No speech detected. Please make sure your microphone is working and try again."
    else if code == "network" then "Network error. Please check your connection and try again."
    else if code == "not-allowed" then "Microphone permission denied. Please enable microphone access in your browser settings."
    else "Speech recognition error: " + code
  }

  /**
   * The answer after a result event: with new final text it is appended
   * after one space and the whole trimmed; otherwise it is kept.
   */
  function AnswerAfter(prev: string, newFinal: string): (r: string)
    ensures newFinal == "" ==> r == prev
    ensures newFinal != "" ==> r == Trim(prev + " " + newFinal)
  {
    if newFinal != "" then Trim(prev + " " + newFinal) else prev
  }

  /** On a first final result, leading spaces of the answer do not survive: the separator is trimmed off. */
  lemma FirstFinalResult(newFinal: string)
    requires newFinal != ""
    ensures AnswerAfter("", newFinal) == Trim(newFinal)
  {
    assert "" + " " + newFinal == " " + newFinal;
    assert AllSpace(" ") by { assert IsJsSpace(" "[0]); }
    TrimSkipsLeadingSpace(" ", newFinal);
  }

  /** The answer sent: the trimmed answer, or a fixed sentence when that is empty. */
  function FinalAnswer(answer: string): (r: string)
    ensures r != ""
    ensures AllSpace(answer) ==> r == NoAnswer
    ensures !AllSpace(answer) ==> r == Trim(answer)
  {
    var t := Trim(answer);
    if t == "" then NoAnswer else t
  }

  /**
   * `validateInputs()`: role and experience each need something besides
   * space and a `length` of two, counted in UTF-16 code units.
   */
  function ValidateInputs(role: string, experience: string): (r: Result<(), string>)
    ensures r.Success? <==> !AllSpace(role) && Utf16Length(role) >= 2 && !AllSpace(experience) && Utf16Length(experience) >= 2
    ensures (AllSpace(role) || Utf16Length(role) < 2) ==> r == Failure("Please enter a valid role (at least 2 characters)")
    ensures !(AllSpace(role) || Utf16Length(role) < 2) && (AllSpace(experience) || Utf16Length(experience) < 2) ==>
      r == Failure("Please enter a valid experience level (at least 2 characters)")
  {
    if Trim(role) == "" || Utf16Length(role) < 2 then Failure("Please enter a valid role (at least 2 characters)")
    else if Trim(experience) == "" || Utf16Length(experience) < 2 then Failure("Please enter a valid experience level (at least 2 characters)")
    else Success(())
  }

  /** A role of one character outside the Basic Multilingual Plane has `length` 2 and passes. */
  lemma AstralRoleAccepted(c: char, experience: string)
    requires c as int >= 0x10000
    requires ValidateInputs("ab", experience).Success?
    ensures ValidateInputs([c], experience).Success?
  {
    assert Utf16Length([c]) == 2 by { assert [c][1..] == []; }
    assert !IsJsSpace([c][0]);
  }

  /** `formatTime(seconds)`: minutes and seconds, each padded to two digits. */
  function FormatTime(seconds: nat): string
  {
    ClockFace(seconds / 60, seconds % 60)
  }

  /** `${mins.toString().padStart(2, '0')}:${secs.toString().padStart(2, '0')}`. */
  function ClockFace(mins: nat, secs: nat): string
  {
    PadStart(NatToDecimal(mins), 2, '0') + ":" + PadStart(NatToDecimal(secs), 2, '0')
  }

  lemma TwoDigitValue(a: char, b: char)
    requires IsDigit(a) && IsDigit(b)
    ensures DecimalValue([a, b]) == (a as int - '0' as int) * 10 + (b as int - '0' as int)
  {
    assert [a][..0] == [];
    assert DecimalValue([a]) == a as int - '0' as int;
    assert [a, b][..1] == [a];
  }

  lemma TwoDigitRendering(n: nat)
    requires 10 <= n < 100
    ensures NatToDecimal(n) == [DigitChar(n / 10), DigitChar(n % 10)]
  {
    assert n / 10 < 10;
    assert NatToDecimal(n / 10) == [DigitChar(n / 10)];
  }

  lemma PadOne(c: char)
    ensures PadStart([c], 2, '0') == ['0', c]
  {
    assert ['0'] + [c] == ['0', c];
  }

  /** A number below 100 pads to exactly two digits that read back as the number. */
  lemma PadTwo(n: nat)
    requires n < 100
    ensures var p := PadStart(NatToDecimal(n), 2, '0');
      |p| == 2 && AllDigits(p) && DecimalValue(p) == n
  {
    if n < 10 {
      var l := DigitChar(n);
      assert NatToDecimal(n) == [l];
      PadOne(l);
      TwoDigitValue('0', l);
    } else {
      TwoDigitRendering(n);
      var h, l := DigitChar(n / 10), DigitChar(n % 10);
      assert PadStart([h, l], 2, '0') == [h, l];
      TwoDigitValue(h, l);
    }
  }

  predicate AllDigits(s: string)
  {
    forall i :: 0 <= i < |s| ==> IsDigit(s[i])
  }

  /** `r` is `MM:SS` with minute digits reading `m` and second digits reading `sec`. */
  predicate ShowsTime(r: string, m: nat, sec: nat)
  {
    |r| == 5 && r[2] == ':' && AllDigits(r[..2]) && AllDigits(r[3..])
    && DecimalValue(r[..2]) == m && DecimalValue(r[3..]) == sec
  }

  lemma JoinedReadsBack(a: string, b: string, mins: nat, secs: nat)
    requires |a| == 2 && |b| == 2 && AllDigits(a) && AllDigits(b)
    requires DecimalValue(a) == mins && DecimalValue(b) == secs
    ensures ShowsTime(a + ":" + b, mins, secs)
  {
    var r := a + ":" + b;
    assert r[..2] == a;
    assert r[3..] == b;
  }

  lemma ClockReadsBack(mins: nat, secs: nat)
    requires mins < 100 && secs < 100
    ensures ShowsTime(ClockFace(mins, secs), mins, secs)
  {
    PadTwo(mins);
    PadTwo(secs);
    JoinedReadsBack(PadStart(NatToDecimal(mins), 2, '0'), PadStart(NatToDecimal(secs), 2, '0'), mins, secs);
  }

  /** Below 100 minutes the display reads back as `seconds / 60` minutes and `seconds % 60` seconds. */
  lemma FormatTimeReadsBack(seconds: nat)
    requires seconds < 6000
    ensures ShowsTime(FormatTime(seconds), seconds / 60, seconds % 60)
  {
    ClockReadsBack(seconds / 60, seconds % 60);
  }


  /**
   * What the countdown effect, run whenever `sessionTimeout` changes, does
   * to the clock: with a session it keeps the interval running above 1 and
   * at 1 schedules the reset instead; otherwise the interval is gone.
   */
  function CountdownEffect(c: Clock, hasSession: bool): (r: Clock)
    ensures r.sessionTimeout == c.sessionTimeout
    ensures r.armed <==> hasSession && c.sessionTimeout > 1
    ensures r.resetDue <==> c.resetDue || (hasSession && c.sessionTimeout == 1)
  {
    if c.sessionTimeout <= 0 || !hasSession then c.(armed := false)
    else if c.sessionTimeout == 1 then c.(armed := false, resetDue := true)
    else c.(armed := true)
  }

  /** The message the same effect shows: the warning at 300 seconds, the timeout notice at 1. */
  function CountdownMessage(c: Clock, hasSession: bool): (m: Option<string>)
    ensures m.Some? <==> hasSession && (c.sessionTimeout == WarningAt || c.sessionTimeout == 1)
    ensures hasSession && c.sessionTimeout == WarningAt ==> m == Some(SessionWarning)
    ensures hasSession && c.sessionTimeout == 1 ==> m == Some(SessionTimeoutMessage)
  {
    if c.sessionTimeout <= 0 || !hasSession then None
    else if c.sessionTimeout == 1 then Some(SessionTimeoutMessage)
    else if c.sessionTimeout == WarningAt then Some(SessionWarning)
    else None
  }

  /** One second of the countdown interval, followed by the effect it triggers. */
  function Tick(c: Clock, hasSession: bool): (r: Clock)
    ensures !c.armed ==> r == c
    ensures c.armed ==> r.sessionTimeout == c.sessionTimeout - 1
  {
    if c.armed then CountdownEffect(c.(sessionTimeout := c.sessionTimeout - 1), hasSession) else c
  }

  function Ticks(c: Clock, hasSession: bool, n: nat): Clock
    decreases n
  {
    if n == 0 then c else Ticks(Tick(c, hasSession), hasSession, n - 1)
  }

  /**
   * A running countdown at `t` goes down by one per tick: after `n < t`
   * ticks it reads `t - n`; it runs until it reads 1, where it stops with
   * the reset pending.
   */
  lemma {:induction false} CountdownRuns(c: Clock, n: nat)
    requires c.armed && c.sessionTimeout > 1
    requires n < c.sessionTimeout
    ensures Ticks(c, true, n).sessionTimeout == c.sessionTimeout - n
    ensures Ticks(c, true, n).armed <==> n < c.sessionTimeout - 1
    ensures n == c.sessionTimeout - 1 ==> Ticks(c, true, n).resetDue
    decreases n
  {
    if n > 0 {
      var c1 := Tick(c, true);
      if c.sessionTimeout - 1 > 1 {
        CountdownRuns(c1, n - 1);
      } else {
        assert Ticks(c1, true, n - 1) == c1;
      }
    }
  }

  /**
   * From thirty minutes, the warning is shown after 1500 ticks, and after
   * 1799 the countdown stops at 1 with the timeout notice and the reset due.
   */
  lemma SessionCountdown(c: Clock)
    requires c.armed && c.sessionTimeout == SessionSeconds
    ensures Ticks(c, true, 1500).sessionTimeout == WarningAt
    ensures CountdownMessage(Ticks(c, true, 1500), true) == Some(SessionWarning)
    ensures var last := Ticks(c, true, 1799);
      last.sessionTimeout == 1 && !last.armed && last.resetDue
      && CountdownMessage(last, true) == Some(SessionTimeoutMessage)
  {
    CountdownRuns(c, 1500);
    CountdownRuns(c, 1799);
  }

  /** `formatTime` of the countdown at the warning shows five minutes. */
  lemma WarningShowsFiveMinutes()
    ensures ShowsTime(FormatTime(WarningAt as nat), 5, 0)
  {
    FormatTimeReadsBack(WarningAt as nat);
  }

  /** The stop request for the recognizer `recognitionRefObj` holds, if any. */
  function StopHeld(m: Mic): seq<PageEffect>
  {
    if m.recognition then [StopRecognition] else []
  }

  /**
   * The capture the Re-record button gives the new recognizer, as written:
   * the button sets `manualRecording` and calls `startRecording()` in one
   * handler, so the `onstart` handler that call installs still sees the
   * value from before the click.
   */
  function ReRecordCaptureAsWritten(m: Mic): bool
  {
    m.manualRecording
  }

  /** The capture intended: re-record mode is on for the new recognizer. */
  function ReRecordCapture(m: Mic): (c: bool)
    ensures !ArmsSilenceCheck(c)
  {
    true
  }

  /**
   * As written, a re-record from review mode (entered only outside manual
   * mode) arms the silence check, so five seconds of silence stop the
   * manual recording.
   */
  lemma ReRecordAsWrittenArmsSilence(v: View, m: Mic)
    requires v.isReviewMode && !m.manualRecording
    ensures ArmsSilenceCheck(ReRecordCaptureAsWritten(m))
    ensures !ArmsSilenceCheck(ReRecordCapture(m))
  {
  }

  /**
   * The page after the reply to an answer: a failure shows its message and
   * keeps the answer for another try; a body clears the answer, leaves
   * review mode and shows either the next question or the closing words.
   */
  function Replied(v: View, reply: AnswerReply): (r: View)
    ensures r.sessionId == v.sessionId && r.loading == v.loading && r.isAudioPlaying == v.isAudioPlaying
      && r.sttSupported == v.sttSupported
    ensures !reply.Body? ==>
      r == v.(error := Some(if reply.FetchError? then reply.message else SubmitFailed), feedbackMessage := None)
    ensures reply.Body? ==>
      r.error.None? && r.answer == "" && !r.isReviewMode && r.finished == (v.finished || reply.final)
      && r.question == (if reply.final then reply.spokenClosing else reply.question)
      && r.feedbackMessage == Some(if reply.final then CompletedMessage else NextReadyMessage)
      && r.areasToFocus == (if reply.final && reply.areasToFocus.Some? then reply.areasToFocus.value else v.areasToFocus)
  {
    match reply
    case FetchError(m) => v.(error := Some(m), feedbackMessage := None)
    case NotOk => v.(error := Some(SubmitFailed), feedbackMessage := None)
    case Body(final, closing, areas, q, _) =>
      if final then
        v.(error := None, answer := "", isReviewMode := false, finished := true, question := closing,
          feedbackMessage := Some(CompletedMessage), areasToFocus := if areas.Some? then areas.value else v.areasToFocus)
      else
        v.(error := None, answer := "", isReviewMode := false, question := q, feedbackMessage := Some(NextReadyMessage))
  }

  /** The requests after `sendAnswer()`: the answer posted, then the reply's audio played. */
  function Posted(effects: seq<PageEffect>, sessionId: string, answer: string, reply: AnswerReply): seq<PageEffect>
  {
    effects + [PostAnswer(sessionId, FinalAnswer(answer))] + (if reply.Body? then [PlayAudio(reply.audio)] else [])
  }

  /** `sendAnswer()` on the page and its requests: nothing without a session, else the answer posted and the reply applied. */
  function Submitted(v: View, effects: seq<PageEffect>, reply: AnswerReply): (View, seq<PageEffect>)
  {
    if Truthy(v.sessionId) then (Replied(v, reply), Posted(effects, v.sessionId.value, v.answer, reply))
    else (v, effects)
  }

  /** A failed submission keeps what the candidate said, so that it can be sent again unchanged. */
  lemma FailedSubmitKeepsAnswer(v: View, reply: AnswerReply)
    requires !reply.Body?
    ensures Replied(v, reply).answer == v.answer && Replied(v, reply).question == v.question
    ensures Replied(Replied(v, reply), reply) == Replied(v, reply)
  {
  }

  /**
   * With a session, `sendAnswer()` posts exactly one answer, never an empty
   * one, and then plays the reply's audio if a body came back; without a
   * session it does nothing.
   */
  lemma SubmittedPostsOnce(v: View, effects: seq<PageEffect>, reply: AnswerReply)
    ensures !Truthy(v.sessionId) ==> Submitted(v, effects, reply) == (v, effects)
    ensures Truthy(v.sessionId) ==>
      var e := Submitted(v, effects, reply).1;
      |e| == |effects| + (if reply.Body? then 2 else 1) && e[..|effects|] == effects
      && e[|effects|] == PostAnswer(v.sessionId.value, FinalAnswer(v.answer))
      && FinalAnswer(v.answer) != ""
  {
  }

  /**
   * The submit controls leave review mode before sending, so whatever the
   * reply, even a failure, the page is no longer in review mode after it.
   */
  lemma SubmitLeavesReview(v: View, effects: seq<PageEffect>, reply: AnswerReply)
    ensures !Submitted(v.(isReviewMode := false), effects, reply).0.isReviewMode
    ensures !reply.Body? && Truthy(v.sessionId) ==>
      Submitted(v.(isReviewMode := false), effects, reply).0.answer == v.answer
  {
  }

  const InitialView := View(None, Some(""), "", false, false, None, None, [], false, false, true)
  const InitialMic := Mic(false, "", 0, false, false, false, false, false, 0)

  class Page {
    var view: View
    var mic: Mic
    var clock: Clock
    var effects: seq<PageEffect>

    constructor()
      ensures view == InitialView && mic == InitialMic && clock == Clock(0, false, false) && effects == []
    {
      view := InitialView;
      mic := InitialMic;
      clock := Clock(0, false, false);
      effects := [];
    }

    /**
     * `startRecording()`; `manual` is the `manualRecording` value its
     * handlers will see, `startError` the exception creating or starting
     * the recognizer threw, if any.
     */
    method StartRecording(sttAvailable: bool, manual: bool, startError: Option<string>)
      modifies this
      ensures clock == old(clock)
      ensures !sttAvailable ==>
        view == old(view).(error := Some(SttMissing), sttSupported := false)
        && mic == old(mic) && effects == old(effects)
      ensures sttAvailable && startError.Some? ==>
        view == old(view).(error := Some("Failed to start recording: " + startError.value))
        && mic == old(mic) && effects == old(effects) + StopHeld(old(mic))
      ensures sttAvailable && startError.None? ==>
        view == old(view) && mic == old(mic).(recognition := true, capturedManual := manual)
        && effects == old(effects) + StopHeld(old(mic)) + [StartRecognition]
    {
      if !sttAvailable {
        view := view.(error := Some(SttMissing), sttSupported := false);
        return;
      }
      effects := effects + StopHeld(mic);
      if startError.Some? {
        view := view.(error := Some("Failed to start recording: " + startError.value));
      } else {
        effects := effects + [StartRecognition];
        mic := mic.(recognition := true, capturedManual := manual);
      }
    }

    /** The recognizer's `onstart`: recording, unpaused, and the silence check armed outside manual mode. */
    method OnStart(now: nat)
      modifies this
      ensures mic == old(mic).(isRecording := true, isPaused := false, transcript := "", lastSpeechTime := now,
        silenceArmed := ArmsSilenceCheck(old(mic.capturedManual)))
      ensures view == old(view) && clock == old(clock) && effects == old(effects)
    {
      mic := mic.(isRecording := true, isPaused := false, transcript := "", lastSpeechTime := now,
        silenceArmed := !mic.capturedManual);
    }

    /** The silence check's 500 ms interval fires: past the threshold it stops the recognizer. */
    method SilenceCheck(now: nat)
      modifies this
      ensures old(mic.silenceArmed) && SilenceExceeded(now, old(mic.lastSpeechTime)) ==>
        mic == old(mic).(silenceArmed := false) && effects == old(effects) + [StopRecognition]
      ensures !(old(mic.silenceArmed) && SilenceExceeded(now, old(mic.lastSpeechTime))) ==>
        mic == old(mic) && effects == old(effects)
      ensures view == old(view) && clock == old(clock)
    {
      if mic.silenceArmed && now - mic.lastSpeechTime > SilenceThresholdMs as int {
        mic := mic.(silenceArmed := false);
        effects := effects + [StopRecognition];
      }
    }

    /**
     * The recognizer's `onresult`: the last-speech time is reset, new final
     * pieces are added to the answer and the interim pieces replace the
     * displayed transcript.
     */
    method OnResult(ev: ResultEvent, now: nat)
      requires WellFormed(ev)
      modifies this
      ensures mic == old(mic).(lastSpeechTime := now, transcript := InterimText(Window(ev)))
      ensures view == old(view).(answer := AnswerAfter(old(view.answer), FinalText(Window(ev))))
      ensures clock == old(clock) && effects == old(effects)
    {
      var newFinal, interim := ScanFinalAndInterim(ev);
      view := view.(answer := AnswerAfter(view.answer, newFinal));
      mic := mic.(lastSpeechTime := now, transcript := interim);
    }

    /** The recognizer's `onerror`. */
    method OnError(code: string)
      modifies this
      ensures view == old(view).(error := Some(RecognitionError(code)))
      ensures mic == old(mic).(isRecording := false, silenceArmed := false)
      ensures clock == old(clock) && effects == old(effects)
    {
      view := view.(error := Some(RecognitionError(code)));
      mic := mic.(isRecording := false, silenceArmed := false);
    }

    /** The recognizer's `onend`: review mode follows unless paused or re-recording. */
    method OnEnd()
      modifies this
      ensures mic == old(mic).(isRecording := false, transcript := "", silenceArmed := false)
      ensures view == old(view).(isReviewMode := old(view.isReviewMode) || EntersReview(old(mic.isPaused), old(mic.manualRecording)))
      ensures clock == old(clock) && effects == old(effects)
    {
      if !mic.isPaused && !mic.manualRecording {
        view := view.(isReviewMode := true);
      }
      mic := mic.(isRecording := false, transcript := "", silenceArmed := false);
    }

    /** `stopRecording()`. */
    method StopRecording()
      modifies this
      ensures mic == old(mic).(isPaused := false, manualRecording := false, silenceArmed := false,
        isRecording := false, transcript := "")
      ensures effects == old(effects) + StopHeld(old(mic))
      ensures view == old(view) && clock == old(clock)
    {
      effects := effects + StopHeld(mic);
      mic := mic.(isPaused := false, manualRecording := false, silenceArmed := false, isRecording := false, transcript := "");
    }

    /**
     * `togglePause()`: pausing stops the recognizer; resuming starts the
     * same recognizer again, or a new recording when that throws
     * (`resumeError`).
     */
    method TogglePause(resumeError: bool, sttAvailable: bool, startError: Option<string>)
      modifies this
      ensures clock == old(clock)
      ensures !old(mic.recognition) ==> view == old(view) && mic == old(mic) && effects == old(effects)
      ensures old(mic.recognition) && !old(mic.isPaused) ==>
        view == old(view) && mic == old(mic).(isPaused := true) && effects == old(effects) + [StopRecognition]
      ensures old(mic.recognition) && old(mic.isPaused) && !resumeError ==>
        view == old(view) && mic == old(mic).(isPaused := false) && effects == old(effects) + [StartRecognition]
      ensures old(mic.recognition) && old(mic.isPaused) && resumeError && sttAvailable && startError.None? ==>
        view == old(view) && mic == old(mic).(isPaused := false, capturedManual := old(mic.manualRecording))
        && effects == old(effects) + [StopRecognition] + [StartRecognition]
      ensures old(mic.recognition) && old(mic.isPaused) && resumeError && !sttAvailable ==>
        view == old(view).(error := Some(SttMissing), sttSupported := false)
        && mic == old(mic).(isPaused := false) && effects == old(effects)
      ensures old(mic.recognition) && old(mic.isPaused) && resumeError && sttAvailable && startError.Some? ==>
        view == old(view).(error := Some("Failed to start recording: " + startError.value))
        && mic == old(mic).(isPaused := false) && effects == old(effects) + [StopRecognition]
    {
      if !mic.recognition {
        return;
      }
      if !mic.isPaused {
        mic := mic.(isPaused := true);
        effects := effects + [StopRecognition];
      } else {
        mic := mic.(isPaused := false);
        if !resumeError {
          effects := effects + [StartRecognition];
        } else {
          StartRecording(sttAvailable, mic.manualRecording, startError);
        }
      }
    }

    /**
     * The Re-record button of review mode: back to recording with an empty
     * answer in manual mode, where silence does not stop the recording.
     */
    method ReRecord(sttAvailable: bool, startError: Option<string>)
      modifies this
      ensures clock == old(clock)
      ensures !sttAvailable ==>
        view == old(view).(isReviewMode := false, answer := "", error := Some(SttMissing), sttSupported := false)
        && mic == old(mic).(recordingTime := 0, manualRecording := true) && effects == old(effects)
      ensures sttAvailable && startError.None? ==>
        view == old(view).(isReviewMode := false, answer := "")
        && mic == old(mic).(recordingTime := 0, manualRecording := true, recognition := true, capturedManual := true)
        && effects == old(effects) + StopHeld(old(mic)) + [StartRecognition]
      ensures sttAvailable && startError.Some? ==>
        view == old(view).(isReviewMode := false, answer := "",
          error := Some("Failed to start recording: " + startError.value))
        && mic == old(mic).(recordingTime := 0, manualRecording := true)
        && effects == old(effects) + StopHeld(old(mic))
      ensures sttAvailable && startError.None? ==> !ArmsSilenceCheck(mic.capturedManual)
    {
      var capture := ReRecordCapture(mic);
      view := view.(isReviewMode := false, answer := "");
      mic := mic.(recordingTime := 0, manualRecording := true);
      StartRecording(sttAvailable, capture, startError);
    }

    /** The recording-time interval, running while recording. */
    method RecordingTick()
      modifies this
      ensures mic == old(mic).(recordingTime := if old(mic.isRecording) then old(mic.recordingTime) + 1 else old(mic.recordingTime))
      ensures view == old(view) && clock == old(clock) && effects == old(effects)
    {
      if mic.isRecording {
        mic := mic.(recordingTime := mic.recordingTime + 1);
      }
    }

    /** The effect on `sessionId`: a new, unfinished session gets thirty minutes and a running countdown. */
    method SessionStarted()
      modifies this
      ensures Truthy(old(view.sessionId)) && !old(view.finished) && old(clock.sessionTimeout) == 0 ==>
        clock == old(clock).(sessionTimeout := SessionSeconds, armed := true)
      ensures !(Truthy(old(view.sessionId)) && !old(view.finished) && old(clock.sessionTimeout) == 0) ==>
        clock == old(clock)
      ensures view == old(view) && mic == old(mic) && effects == old(effects)
    {
      if !Truthy(view.sessionId) || view.finished {
        return;
      }
      if clock.sessionTimeout == 0 {
        clock := CountdownEffect(clock.(sessionTimeout := SessionSeconds), true);
      }
    }

    /** One second of the session countdown, with the message its effect shows. */
    method CountdownTick()
      modifies this
      ensures clock == Tick(old(clock), Truthy(old(view.sessionId)))
      ensures var m := CountdownMessage(clock, Truthy(old(view.sessionId)));
        view == if old(clock.armed) && m.Some? then old(view).(error := m) else old(view)
      ensures mic == old(mic) && effects == old(effects)
    {
      if clock.armed {
        var hasSession := Truthy(view.sessionId);
        clock := Tick(clock, hasSession);
        var m := CountdownMessage(clock, hasSession);
        if m.Some? {
          view := view.(error := m);
        }
      }
    }

    /**
     * `resetInterview()`: a fresh form, recording stopped and the countdown
     * cleared. A reset already scheduled by a timeout stays scheduled: its
     * timer is never cancelled.
     */
    method ResetInterview()
      modifies this
      ensures view == InitialView.(loading := old(view.loading), sttSupported := old(view.sttSupported))
      ensures mic == old(mic).(isRecording := false, transcript := "", recordingTime := 0, isPaused := false,
        manualRecording := false)
      ensures clock == Clock(0, false, old(clock.resetDue))
      ensures effects == old(effects) + StopHeld(old(mic))
    {
      effects := effects + StopHeld(mic);
      view := InitialView.(loading := view.loading, sttSupported := view.sttSupported);
      mic := mic.(isRecording := false, transcript := "", recordingTime := 0, isPaused := false, manualRecording := false);
      clock := Clock(0, false, clock.resetDue);
    }

    /** The reset scheduled two seconds after the countdown reached 1 fires. */
    method TimeoutReset()
      modifies this
      ensures !old(clock.resetDue) ==> view == old(view) && mic == old(mic) && clock == old(clock) && effects == old(effects)
      ensures old(clock.resetDue) ==>
        view == InitialView.(loading := old(view.loading), sttSupported := old(view.sttSupported))
        && mic == old(mic).(isRecording := false, transcript := "", recordingTime := 0, isPaused := false,
          manualRecording := false)
        && clock == Clock(0, false, false) && effects == old(effects) + StopHeld(old(mic))
    {
      if clock.resetDue {
        ResetInterview();
        clock := clock.(resetDue := false);
      }
    }

    /** `sendAnswer()`. */
    method SendAnswer(reply: AnswerReply)
      modifies this
      ensures (view, effects) == Submitted(old(view), old(effects), reply)
      ensures mic == old(mic) && clock == old(clock)
    {
      var next := Submitted(view, effects, reply);
      view, effects := next.0, next.1;
    }

    /**
     * The Submit button, disabled while loading, while audio plays and
     * while recording: it leaves review mode, then calls `sendAnswer()`.
     */
    method SubmitClicked(reply: AnswerReply)
      modifies this
      ensures old(view.loading || view.isAudioPlaying || mic.isRecording) ==> view == old(view) && effects == old(effects)
      ensures !old(view.loading || view.isAudioPlaying || mic.isRecording) ==>
        (view, effects) == Submitted(old(view).(isReviewMode := false), old(effects), reply)
      ensures !old(view.loading || view.isAudioPlaying || mic.isRecording) ==> !view.isReviewMode
      ensures mic == old(mic) && clock == old(clock)
    {
      if view.loading || view.isAudioPlaying || mic.isRecording {
        return;
      }
      SubmitLeavesReview(view, effects, reply);
      view := view.(isReviewMode := false);
      SendAnswer(reply);
    }

    /**
     * Ctrl+Enter (or Cmd+Enter): with a session, nothing loading and a
     * non-blank answer under review, it leaves review mode and calls
     * `sendAnswer()`; otherwise nothing happens.
     */
    method SubmitShortcut(reply: AnswerReply)
      modifies this
      ensures var go := Truthy(old(view.sessionId)) && !old(view.loading) && old(view.isReviewMode) && !AllSpace(old(view.answer));
        (go ==> (view, effects) == Submitted(old(view).(isReviewMode := false), old(effects), reply) && !view.isReviewMode)
        && (!go ==> view == old(view) && effects == old(effects))
      ensures mic == old(mic) && clock == old(clock)
    {
      if !Truthy(view.sessionId) || view.loading || !view.isReviewMode || Trim(view.answer) == "" {
        return;
      }
      SubmitLeavesReview(view, effects, reply);
      view := view.(isReviewMode := false);
      SendAnswer(reply);
    }

    /** The question audio starts playing. */
    method AudioStarted()
      modifies this
      ensures view == old(view).(isAudioPlaying := true)
      ensures mic == old(mic) && clock == old(clock) && effects == old(effects)
    {
      view := view.(isAudioPlaying := true);
    }

    /** The question audio ends, and recording starts. */
    method AudioEnded(sttAvailable: bool, startError: Option<string>)
      modifies this
      ensures clock == old(clock)
      ensures sttAvailable && startError.None? ==>
        view == old(view).(isAudioPlaying := false)
        && mic == old(mic).(recognition := true, capturedManual := old(mic.manualRecording))
        && effects == old(effects) + StopHeld(old(mic)) + [StartRecognition]
      ensures !sttAvailable ==>
        view == old(view).(isAudioPlaying := false, error := Some(SttMissing), sttSupported := false)
        && mic == old(mic) && effects == old(effects)
      ensures sttAvailable && startError.Some? ==>
        view == old(view).(isAudioPlaying := false, error := Some("Failed to start recording: " + startError.value))
        && mic == old(mic) && effects == old(effects) + StopHeld(old(mic))
    {
      view := view.(isAudioPlaying := false);
      StartRecording(sttAvailable, mic.manualRecording, startError);
    }
  }
}
