/**
 * The turn orchestrator of frontend/src/components/screens/InterviewScreen.jsx.
 * The class's methods are the screen's event handlers: speech completion,
 * recognizer callbacks, timers and server replies arrive as method calls
 * with their outcome as a parameter. Requests the screen makes (speech,
 * recognizer start/stop, server calls, alerts) are appended to `effects`.
 */
module InterviewScreen {
  import opened Wrappers
  import opened Text
  import opened Protocol
  import opened InterviewContext
  import opened Transcript
  import opened SpeechAdapter

  /** `panelState`. */
  datatype Panel = Speaking | Listening | Evaluating | Generating | Skipping | CoachFeedback

  /**
   * A speech request whose promise has not settled yet, by the code that
   * waits on it. A question's continuation is a closure of the render that
   * asked for the speech: `seen` is the `panelState` of that render.
   */
  datatype SpeechJob = QuestionSpeech(seen: Panel) | FeedbackSpeech | RetrySpeech

  /**
   * An answer request in flight, with the values `submitAnswer` captured
   * when it was called: its completion uses these, not the latest state.
   */
  datatype Submission = Submission(
    answer: string, isSkip: bool, sessionId: Option<string>,
    question: Option<string>, questionNumber: int,
    answers: seq<AnswerEntry>, feedback: seq<FeedbackEntry>)

  /** A request the screen makes of the speech engine, the server or the user. */
  datatype Effect =
    | Speak(text: string)
    | StartRecognizer(kind: RecognizerKind)
    | StopRecognizer
    | PostAnswer(sessionId: Option<string>, answer: string)
    | PostHint(sessionId: Option<string>)
    | PostContinue(sessionId: Option<string>)
    | PostEnd(sessionId: Option<string>)
    | Alert(message: string)

  /** Every field of the screen, as one value. */
  datatype ScreenState = ScreenState(
    panel: Panel,
    transcript: string,
    finalRef: string,
    transcriptRef: string,
    userStopped: bool,
    audioPlayed: bool,
    recognition: bool,
    /**
     * The `panelState` that the held recognizer's `onend` reads: that of
     * the render whose `startRecording` created the recognizer.
     */
    endPanel: Panel,
    hint: Option<string>,
    hintError: Option<string>,
    hintInFlight: Option<int>,
    isLoadingResults: bool,
    feedbackLog: seq<FeedbackEntry>,
    endingSession: bool,
    dwellTimers: seq<bool>,
    submissions: seq<Submission>,
    speech: seq<SpeechJob>,
    effects: seq<Effect>)

  const NotAllowedAlert := "Microphone access denied. Please allow microphone access and refresh the page."
  const SubmitFailedAlert := "Failed to submit answer. Please try again."
  const ProceedFailedAlert := "Failed to proceed to next question."
  const EndFailedAlert := "Failed to end session. Please try again."
  const HintFailed := "Could not fetch hint."
  const StartFailedPrefix := "Failed to start speech recognition: "
  const NoFeedbackNote := "No additional feedback provided"

  /** Which answer branch a reply takes. */
  datatype AnswerBranch = FeedbackStep | NextQuestion(question: string) | Finished

  /** The three-way branch on an answer reply, in the order the code tests it. */
  function Branch(r: AnswerResult): (b: AnswerBranch)
    ensures b == FeedbackStep <==> !r.final && r.step == Some("feedback")
    ensures b.NextQuestion? <==> !r.final && r.step != Some("feedback") && Truthy(r.question)
    ensures b.NextQuestion? ==> r.question == Some(b.question)
    ensures r.final ==> b == Finished
  {
    if !r.final && r.step == Some("feedback") then FeedbackStep
    else if !r.final && Truthy(r.question) then NextQuestion(r.question.value)
    else Finished
  }

  /** The feedback-log entry for an evaluated answer. */
  function FeedbackEntryOf(s: Submission, e: EvaluationView, feedback: string): FeedbackEntry
  {
    FeedbackEntry(
      questionNumber := s.questionNumber, question := s.question, answer := s.answer,
      score := e.score, topic := e.topic,
      strengths := e.strengths.GetOr([]), weaknesses := e.weaknesses.GetOr([]),
      feedback := feedback)
  }

  /** The log after an answer reply: one entry more exactly when the reply carries an evaluation. */
  function LogWith(log: seq<FeedbackEntry>, s: Submission, e: Option<EvaluationView>, feedback: string): (r: seq<FeedbackEntry>)
    ensures e.None? ==> r == log
    ensures e.Some? ==> |r| == |log| + 1 && r[..|log|] == log
    ensures e.Some? ==>
      r[|log|].questionNumber == s.questionNumber && r[|log|].question == s.question
      && r[|log|].answer == s.answer && r[|log|].score == e.value.score && r[|log|].feedback == feedback
      && r[|log|].strengths == (if e.value.strengths.Some? then e.value.strengths.value else [])
      && r[|log|].weaknesses == (if e.value.weaknesses.Some? then e.value.weaknesses.value else [])
  {
    if e.Some? then log + [FeedbackEntryOf(s, e.value, feedback)] else log
  }

  /** `finalTranscriptRef.current.trim() || transcriptRef.current.trim()`. */
  function AnswerToSend(committed: string, displayed: string): (r: string)
    ensures Trim(committed) != "" ==> r == Trim(committed)
    ensures Trim(committed) == "" ==> r == Trim(displayed)
    ensures r == "" <==> AllSpace(committed) && AllSpace(displayed)
  {
    if Trim(committed) != "" then Trim(committed) else Trim(displayed)
  }

  /**
   * When nothing has been committed (only white space), the answer sent is
   * the interim speech still on display.
   */
  lemma InterimOnlyAnswer(committed: string, interim: string)
    requires AllSpace(committed)
    ensures AnswerToSend(committed, committed + interim) == Trim(interim)
  {
    TrimSkipsLeadingSpace(committed, interim);
  }

  /** The Try Again and Next Question buttons are rendered on the coach-feedback panel only. */
  predicate ShowsFeedbackActions(p: Panel)
  {
    p == CoachFeedback
  }

  /** The 2000 ms timer a normal submit arms, as written: it shows 'generating' whatever the panel is. */
  function DwellPanelAsWritten(p: Panel): Panel
  {
    Generating
  }

  /**
   * A coach feedback reply that arrives within 2000 ms sets 'coach-feedback';
   * the timer then replaces it, and the buttons that continue the interview disappear.
   */
  lemma DwellAsWrittenHidesFeedback()
    ensures ShowsFeedbackActions(CoachFeedback)
    ensures !ShowsFeedbackActions(DwellPanelAsWritten(CoachFeedback))
  {
  }

  /** The timer as evidently intended: it moves 'evaluating' on to 'generating' and leaves any later panel alone. */
  function DwellPanel(p: Panel): (r: Panel)
    ensures p == Evaluating ==> r == Generating
    ensures p != Evaluating ==> r == p
    ensures ShowsFeedbackActions(r) <==> ShowsFeedbackActions(p)
  {
    if p == Evaluating then Generating else p
  }

  /**
   * What the synchronous part of `submitAnswer(answer, isSkip)` does: a
   * skip shows 'skipping', a normal submit 'evaluating' and arms the 2000 ms
   * timer; the request goes out with the values captured from `i`.
   */
  function SubmitStarted(s: ScreenState, i: Interview, answer: string, isSkip: bool): (r: ScreenState)
    ensures r.panel == (if isSkip then Skipping else Evaluating)
    ensures r.dwellTimers == if isSkip then s.dwellTimers else s.dwellTimers + [i.questionNumber >= 5]
    ensures r.submissions == s.submissions + [Submission(answer, isSkip, i.sessionId, i.currentQuestion,
      i.questionNumber, i.answers, s.feedbackLog)]
    ensures r.effects == s.effects + [PostAnswer(i.sessionId, answer)]
    ensures r == s.(panel := r.panel, dwellTimers := r.dwellTimers, transcript := "",
      submissions := r.submissions, effects := r.effects)
  {
    s.(panel := if isSkip then Skipping else Evaluating,
       dwellTimers := if isSkip then s.dwellTimers else s.dwellTimers + [i.questionNumber >= 5],
       transcript := "",
       submissions := s.submissions + [Submission(answer, isSkip, i.sessionId, i.currentQuestion,
         i.questionNumber, i.answers, s.feedbackLog)],
       effects := s.effects + [PostAnswer(i.sessionId, answer)])
  }

  function Remove<T>(s: seq<T>, i: nat): (r: seq<T>)
    requires i < |s|
    ensures |r| == |s| - 1
  {
    s[..i] + s[i + 1..]
  }

  /** The alert `onerror` shows. */
  function RecognitionAlert(error: string): string
  {
    if error == "not-allowed" || Contains(error, "not-allowed") then NotAllowedAlert
    else "Speech recognition error: " + error
  }

  /**
   * What `startRecording()` does to the screen and the interview record,
   * called from a render whose `panelState` was `seen`. While a recognizer
   * is held and recording it does nothing.
   */
  function StartRecordingPost(s: ScreenState, i: Interview, seen: Panel, azure: bool, browser: bool): (ScreenState, Interview)
  {
    if s.recognition && i.isRecording then (s, i)
    else
      match CreateSpeechRecognizer(azure, browser)
      case Failure(e) =>
        (s.(effects := s.effects + [Alert(StartFailedPrefix + e)]), i.(isRecording := false))
      case Success(kind) =>
        (s.(finalRef := "", transcriptRef := "", transcript := "", userStopped := false,
            recognition := true, endPanel := seen, effects := s.effects + [StartRecognizer(kind)]), i)
  }

  /** A held recognizer that is recording is not started again. */
  lemma StartRecordingWhileRecording(s: ScreenState, i: Interview, seen: Panel, azure: bool, browser: bool)
    requires s.recognition && i.isRecording
    ensures StartRecordingPost(s, i, seen, azure, browser) == (s, i)
  {
  }

  /**
   * With a recognizer available a start clears the transcript refs and
   * asks for exactly one recognizer, of the kind the factory picks, whose
   * `onend` sees the caller's panel; the panel, the pending requests and
   * the feedback log are untouched.
   */
  lemma StartRecordingStarts(s: ScreenState, i: Interview, seen: Panel, azure: bool, browser: bool)
    requires !(s.recognition && i.isRecording) && (azure || browser)
    ensures var (s', i') := StartRecordingPost(s, i, seen, azure, browser);
      s'.finalRef == "" && s'.transcriptRef == "" && s'.transcript == "" && !s'.userStopped && s'.recognition
      && s'.endPanel == seen
      && s'.effects == s.effects + [StartRecognizer(CreateSpeechRecognizer(azure, browser).value)]
      && s'.panel == s.panel && s'.submissions == s.submissions && s'.feedbackLog == s.feedbackLog
      && i' == i
  {
  }

  /** Without any recognizer a start only alerts and marks the interview as not recording. */
  lemma StartRecordingUnavailable(s: ScreenState, i: Interview, seen: Panel, azure: bool, browser: bool)
    requires !(s.recognition && i.isRecording) && !azure && !browser
    ensures StartRecordingPost(s, i, seen, azure, browser) ==
      (s.(effects := s.effects + [Alert(StartFailedPrefix + "No speech recognition available")]),
       i.(isRecording := false))
  {
  }

  /**
   * The screen after the reply to `sub`: a failure alerts; a feedback step
   * shows the coach's feedback and speaks it; a next question goes back
   * to speaking with the transcript cleared and the recognizer released;
   * the final reply leaves the screen as it is. Every evaluation a reply
   * carries is logged, in the first two branches here and in the last one
   * by `AnswerPatch`.
   */
  function AfterAnswer(s: ScreenState, sub: Submission, reply: Option<AnswerResult>): (r: ScreenState)
    ensures reply.None? ==> r == s.(effects := s.effects + [Alert(SubmitFailedAlert)])
    ensures reply.Some? && Branch(reply.value) == FeedbackStep ==>
      r.panel == CoachFeedback && r.hint.None? && !r.audioPlayed
      && r.feedbackLog == LogWith(s.feedbackLog, sub, reply.value.evaluation, OrElse(reply.value.feedback, ""))
      && r.effects == s.effects + [Speak(OrElse(reply.value.feedback, ""))]
      && r.speech == s.speech + [FeedbackSpeech]
      && r.submissions == s.submissions
    ensures reply.Some? && Branch(reply.value).NextQuestion? ==>
      r.panel == Speaking && r.hint.None? && !r.audioPlayed && !r.recognition
      && r.finalRef == "" && r.transcriptRef == "" && r.transcript == "" && !r.userStopped
      && r.feedbackLog == LogWith(s.feedbackLog, sub, reply.value.evaluation, OrElse(reply.value.feedback, NoFeedbackNote))
      && r.effects == s.effects + (if s.recognition then [StopRecognizer] else [])
      && r.speech == s.speech && r.submissions == s.submissions
    ensures reply.Some? && Branch(reply.value) == Finished ==> r == s
  {
    match reply
    case None => s.(effects := s.effects + [Alert(SubmitFailedAlert)])
    case Some(r) =>
      match Branch(r)
      case FeedbackStep =>
        s.(audioPlayed := false, hint := None, panel := CoachFeedback,
          feedbackLog := LogWith(s.feedbackLog, sub, r.evaluation, OrElse(r.feedback, "")),
          effects := s.effects + [Speak(OrElse(r.feedback, ""))], speech := s.speech + [FeedbackSpeech])
      case NextQuestion(_) =>
        s.(audioPlayed := false, hint := None, panel := Speaking,
          feedbackLog := LogWith(s.feedbackLog, sub, r.evaluation, OrElse(r.feedback, NoFeedbackNote)),
          finalRef := "", transcriptRef := "", userStopped := false, transcript := "", recognition := false,
          effects := s.effects + (if s.recognition then [StopRecognizer] else []))
      case Finished => s
  }

  /** The interview update a successful answer reply makes, by branch. */
  function AnswerPatch(sub: Submission, r: AnswerResult): Patch
  {
    var answers := Some(sub.answers + [AnswerEntry(sub.question, sub.answer)]);
    match Branch(r)
    case FeedbackStep =>
      var q := FirstTruthy(r.question, sub.question);
      NoChange.(feedbackText := Some(Some(OrElse(r.feedback, ""))), currentQuestion := Some(q),
        questionText := Some(q), audioPlaying := Some(true), answers := answers)
    case NextQuestion(q) =>
      NoChange.(currentQuestion := Some(Some(q)), questionText := Some(Some(q)),
        questionNumber := Some(sub.questionNumber + 1), audioPlaying := Some(false), answers := answers)
    case Finished =>
      NoChange.(summary := Some(r.summary), answers := answers,
        questionWiseFeedback := Some(LogWith(sub.feedback, sub, r.evaluation, OrElse(r.feedback, ""))))
  }

  /**
   * Every successful reply records the answer against the question it was
   * given to: the answers captured at submit time plus this one, whatever
   * the branch.
   */
  lemma AnswerAlwaysRecorded(i: Interview, sub: Submission, r: AnswerResult)
    ensures Merge(i, AnswerPatch(sub, r)).answers == sub.answers + [AnswerEntry(sub.question, sub.answer)]
  {
  }

  /**
   * A feedback step keeps the question (the reply's, else the one
   * answered) for Try Again and asks for the feedback to be spoken; the
   * question number does not move on.
   */
  lemma FeedbackStepRecord(i: Interview, sub: Submission, r: AnswerResult)
    requires Branch(r) == FeedbackStep
    ensures var q := FirstTruthy(r.question, sub.question);
      Merge(i, AnswerPatch(sub, r)) == i.(feedbackText := Some(OrElse(r.feedback, "")),
        currentQuestion := q, questionText := q, audioPlaying := true,
        answers := sub.answers + [AnswerEntry(sub.question, sub.answer)])
  {
  }

  /** A next question advances the number from the one captured at submit time. */
  lemma NextQuestionRecord(i: Interview, sub: Submission, r: AnswerResult)
    requires Branch(r).NextQuestion?
    ensures Merge(i, AnswerPatch(sub, r)) == i.(currentQuestion := r.question, questionText := r.question,
      questionNumber := sub.questionNumber + 1, audioPlaying := false,
      answers := sub.answers + [AnswerEntry(sub.question, sub.answer)])
  {
  }

  /**
   * The final reply stores the summary and the feedback log captured at
   * submit time, extended by the last evaluation, and leaves the rest.
   */
  lemma FinishedRecord(i: Interview, sub: Submission, r: AnswerResult)
    requires Branch(r) == Finished
    ensures Merge(i, AnswerPatch(sub, r)) == i.(summary := r.summary,
      answers := sub.answers + [AnswerEntry(sub.question, sub.answer)],
      questionWiseFeedback := LogWith(sub.feedback, sub, r.evaluation, OrElse(r.feedback, "")))
  {
  }

  /**
   * The screen component. `st` holds its state hooks and refs together;
   * each handler replaces it, and writes the shared interview record
   * through `store`.
   */
  class Screen {
    const store: InterviewStore
    var st: ScreenState

    constructor(store: InterviewStore)
      ensures this.store == store
      ensures st == ScreenState(Speaking, "", "", "", false, false, false, Speaking, None, None, None,
        false, [], false, [], [], [], [])
    {
      this.store := store;
      st := ScreenState(Speaking, "", "", "", false, false, false, Speaking, None, None, None,
        false, [], false, [], [], [], []);
    }

    /** `startRecording()`, as the closure of a render showing the panel `seen`. */
    method StartRecording(seen: Panel, azure: bool, browser: bool)
      modifies this, store`interview
      ensures (st, store.interview) == StartRecordingPost(old(st), old(store.interview), seen, azure, browser)
    {
      var r := StartRecordingPost(st, store.interview, seen, azure, browser);
      st := r.0;
      store.interview := r.1;
    }

    /**
     * The effect on `questionText`: speak a new question once, or with
     * nothing to speak go straight to listening. `azure`/`browser` say which
     * recognizers the browser offers.
     */
    method SpeakQuestion(azure: bool, browser: bool)
      modifies this, store`interview
      ensures old(st.audioPlayed) ==> st == old(st) && store.interview == old(store.interview)
      ensures var q := old(store.interview.questionText);
        !old(st.audioPlayed) && Truthy(q) && !old(store.interview.audioPlaying) ==>
          st == old(st).(audioPlayed := true, effects := old(st.effects) + [Speak(q.value)],
            speech := old(st.speech) + [QuestionSpeech(old(st.panel))])
          && store.interview == old(store.interview).(audioPlaying := true)
      ensures !old(st.audioPlayed) && !Truthy(old(store.interview.questionText)) && old(st.panel) == Speaking ==>
        (st, store.interview)
          == StartRecordingPost(old(st).(audioPlayed := true, panel := Listening), old(store.interview), Speaking, azure, browser)
      ensures !old(st.audioPlayed) && Truthy(old(store.interview.questionText)) && old(store.interview.audioPlaying) ==>
        st == old(st) && store.interview == old(store.interview)
      ensures !old(st.audioPlayed) && !Truthy(old(store.interview.questionText)) && old(st.panel) != Speaking ==>
        st == old(st) && store.interview == old(store.interview)
    {
      var q := store.interview.questionText;
      if Truthy(q) && !store.interview.audioPlaying && !st.audioPlayed {
        st := st.(audioPlayed := true, effects := st.effects + [Speak(q.value)], speech := st.speech + [QuestionSpeech(st.panel)]);
        store.UpdateInterview(NoChange.(audioPlaying := Some(true)));
      } else if !Truthy(q) && st.panel == Speaking && !st.audioPlayed {
        st := st.(audioPlayed := true, panel := Listening);
        StartRecording(Speaking, azure, browser);
      }
    }

    /**
     * The speech promise `st.speech[i]` settles (`ok` when it resolved).
     * Question speech and retry speech, resolved or rejected, go on to
     * listening and a recording start; feedback speech only clears `audioPlaying`.
     */
    method SpeechSettled(i: nat, ok: bool, azure: bool, browser: bool)
      requires i < |st.speech|
      modifies this, store`interview
      ensures var s := old(st).(speech := Remove(old(st.speech), i));
        old(st.speech[i]) == FeedbackSpeech ==>
          st == s && store.interview == old(store.interview).(audioPlaying := false)
      ensures var s := old(st).(speech := Remove(old(st.speech), i));
        old(st.speech[i]).QuestionSpeech? ==>
          (st, store.interview) == StartRecordingPost(s.(panel := Listening),
            if ok then old(store.interview).(audioPlaying := false, questionText := None)
            else old(store.interview).(audioPlaying := false), old(st.speech[i]).seen, azure, browser)
      ensures var s := old(st).(speech := Remove(old(st.speech), i));
        old(st.speech[i]) == RetrySpeech ==>
          (st, store.interview) == StartRecordingPost(s.(panel := Listening),
            old(store.interview).(audioPlaying := false), CoachFeedback, azure, browser)
    {
      var job := st.speech[i];
      var rest := st.(speech := Remove(st.speech, i));
      match job
      case QuestionSpeech(seen) =>
        store.UpdateInterview(NoChange.(audioPlaying := Some(false), questionText := if ok then Some(None) else None));
        assert store.interview == if ok then old(store.interview).(audioPlaying := false, questionText := None)
          else old(store.interview).(audioPlaying := false);
        st := rest.(panel := Listening);
        StartRecording(seen, azure, browser);
      case FeedbackSpeech =>
        store.UpdateInterview(NoChange.(audioPlaying := Some(false)));
        assert store.interview == old(store.interview).(audioPlaying := false);
        st := rest;
      case RetrySpeech =>
        store.UpdateInterview(NoChange.(audioPlaying := Some(false)));
        assert store.interview == old(store.interview).(audioPlaying := false);
        st := rest.(panel := Listening);
        StartRecording(CoachFeedback, azure, browser);
    }

    /** The recognizer's `onstart`. */
    method OnStart()
      modifies this, store`interview
      ensures st == old(st).(panel := Listening)
      ensures store.interview == old(store.interview).(isRecording := true)
    {
      store.UpdateInterview(NoChange.(isRecording := Some(true)));
      st := st.(panel := Listening);
    }

    /**
     * The recognizer's `onresult`: final pieces are committed with a
     * trailing space, and the display is the committed text followed by
     * this event's interim pieces.
     */
    method OnResult(ev: ResultEvent)
      requires WellFormed(ev)
      modifies this
      ensures st.finalRef == old(st.finalRef) + CommittedText(Window(ev))
      ensures st.transcript == st.finalRef + InterimText(Window(ev)) && st.transcriptRef == st.transcript
      ensures st == old(st).(finalRef := st.finalRef, transcript := st.transcript, transcriptRef := st.transcriptRef)
    {
      var pieces, interim := ScanCommittedAndInterim(ev);
      var committed := st.finalRef + pieces;
      st := st.(finalRef := committed, transcriptRef := committed + interim, transcript := committed + interim);
    }

    /** The recognizer's `onerror`. */
    method OnError(error: string)
      modifies this, store`interview
      ensures st == old(st).(panel := Listening, effects := old(st.effects) + [Alert(RecognitionAlert(error))])
      ensures store.interview == old(store.interview).(isRecording := false)
    {
      store.UpdateInterview(NoChange.(isRecording := Some(false)));
      st := st.(panel := Listening, effects := st.effects + [Alert(RecognitionAlert(error))]);
    }

    /** The synchronous start of `submitAnswer(answer, isSkip)`, up to the request. */
    method BeginSubmit(answer: string, isSkip: bool)
      modifies this
      ensures st == SubmitStarted(old(st), store.interview, answer, isSkip)
    {
      st := SubmitStarted(st, store.interview, answer, isSkip);
    }

    /**
     * The recognizer's `onend`: after Done Speaking it submits the answer.
     * An unexpected end restarts recording only when the render that
     * created the recognizer showed 'listening'; the restart is that
     * render's `startRecording`, so it sees the same panel. The renders
     * that start recording show 'speaking' or 'coach-feedback', so an
     * unexpected end leaves the screen as it is.
     */
    method OnEnd(azure: bool, browser: bool)
      modifies this, store`interview
      ensures old(st.userStopped) ==>
        store.interview == old(store.interview).(isRecording := false)
        && st == SubmitStarted(old(st).(userStopped := false, recognition := false),
          store.interview, AnswerToSend(old(st.finalRef), old(st.transcriptRef)), false)
      ensures !old(st.userStopped) && old(st.endPanel) == Listening ==>
        (st, store.interview) == StartRecordingPost(old(st), old(store.interview), Listening, azure, browser)
      ensures !old(st.userStopped) && old(st.endPanel) != Listening ==>
        st == old(st) && store.interview == old(store.interview)
    {
      if st.userStopped {
        store.UpdateInterview(NoChange.(isRecording := Some(false)));
        var answer := AnswerToSend(st.finalRef, st.transcriptRef);
        st := st.(userStopped := false, recognition := false);
        BeginSubmit(answer, false);
      } else if st.endPanel == Listening {
        StartRecording(Listening, azure, browser);
      }
    }

    /** The Done Speaking button, shown on the listening panel only. */
    method HandleDoneSpeaking()
      modifies this
      ensures old(st.panel) != Listening ==> st == old(st)
      ensures old(st.panel) == Listening ==>
        st == old(st).(userStopped := true,
          effects := old(st.effects) + (if old(st.recognition) then [StopRecognizer] else []))
    {
      if st.panel != Listening {
        return;
      }
      st := st.(userStopped := true, effects := st.effects + (if st.recognition then [StopRecognizer] else []));
    }

    /** The 2000 ms timer of the oldest normal submit fires. */
    method DwellElapsed()
      requires |st.dwellTimers| > 0
      modifies this
      ensures st == old(st).(isLoadingResults := old(st.dwellTimers[0]),
        panel := DwellPanel(old(st.panel)), dwellTimers := old(st.dwellTimers[1..]))
    {
      st := st.(isLoadingResults := st.dwellTimers[0], panel := DwellPanel(st.panel), dwellTimers := st.dwellTimers[1..]);
    }

    /**
     * The reply to `st.submissions[i]` arrives; `None` is a failed request.
     * The screen takes the branch `Branch` picks, and a successful reply
     * updates the interview record once, with `AnswerPatch`.
     */
    method AnswerArrived(i: nat, reply: Option<AnswerResult>)
      requires i < |st.submissions|
      modifies this, store`interview, store`currentScreen
      ensures var sub := old(st.submissions[i]);
        st == AfterAnswer(old(st).(submissions := Remove(old(st.submissions), i)), sub, reply)
        && store.interview == (if reply.Some? then Merge(old(store.interview), AnswerPatch(sub, reply.value))
          else old(store.interview))
        && store.currentScreen == (if reply.Some? && Branch(reply.value) == Finished then "results"
          else old(store.currentScreen))
    {
      var sub := st.submissions[i];
      st := AfterAnswer(st.(submissions := Remove(st.submissions, i)), sub, reply);
      if reply.Some? {
        store.UpdateInterview(AnswerPatch(sub, reply.value));
        if Branch(reply.value) == Finished {
          store.NavigateTo("results");
        }
      }
    }

    /** The Get a hint button, disabled while a hint is loading or the question is being spoken. */
    method ClickHint()
      modifies this
      ensures old(st.hintInFlight.Some?) || old(st.panel) == Speaking || !Truthy(store.interview.sessionId) ==>
        st == old(st)
      ensures !old(st.hintInFlight.Some?) && old(st.panel) != Speaking && Truthy(store.interview.sessionId) ==>
        st == old(st).(hintError := None, hintInFlight := Some(store.interview.hintsUsed),
          effects := old(st.effects) + [PostHint(store.interview.sessionId)])
    {
      if st.hintInFlight.Some? || st.panel == Speaking {
        return;
      }
      if !Truthy(store.interview.sessionId) {
        return;
      }
      st := st.(hintError := None, hintInFlight := Some(store.interview.hintsUsed),
        effects := st.effects + [PostHint(store.interview.sessionId)]);
    }

    /**
     * The hint reply arrives. A hint is counted only when the request
     * succeeds. A reply carrying audio also ends in the error message:
     * the call that would play it names a function this file does not import.
     */
    method HintArrived(reply: Option<HintResult>)
      requires st.hintInFlight.Some?
      modifies this, store`interview
      ensures reply.None? ==>
        st == old(st).(hintInFlight := None, hintError := Some(HintFailed))
        && store.interview == old(store.interview)
      ensures reply.Some? ==>
        store.interview == old(store.interview).(hintsUsed := old(st.hintInFlight).value + 1)
        && st == old(st).(hintInFlight := None,
          hint := Some(OrElse(reply.value.hint, "No hint available")),
          hintError := if Truthy(reply.value.audio) then Some(HintFailed) else old(st.hintError))
    {
      var base := st.hintInFlight.value;
      if reply.Some? {
        st := st.(hintInFlight := None, hint := Some(OrElse(reply.value.hint, "No hint available")),
          hintError := if Truthy(reply.value.audio) then Some(HintFailed) else st.hintError);
        store.UpdateInterview(NoChange.(hintsUsed := Some(base + 1)));
      } else {
        st := st.(hintInFlight := None, hintError := Some(HintFailed));
      }
    }

    /** The Next Question button of the coach-feedback panel; `reply` is the continue reply, `None` on failure. */
    method ProceedAfterFeedback(reply: Option<ContinueResult>)
      modifies this, store`interview
      ensures old(st.panel) != CoachFeedback ==> st == old(st) && store.interview == old(store.interview)
      ensures old(st.panel) == CoachFeedback && reply.None? ==>
        st == old(st).(effects := old(st.effects) + [PostContinue(store.interview.sessionId), Alert(ProceedFailedAlert)])
        && store.interview == old(store.interview)
      ensures old(st.panel) == CoachFeedback && reply.Some? ==>
        st == old(st).(audioPlayed := false, hint := None, panel := Speaking,
          effects := old(st.effects) + [PostContinue(old(store.interview.sessionId))])
        && store.interview == old(store.interview).(feedbackText := None,
          currentQuestion := reply.value.question, questionText := reply.value.question,
          questionNumber := old(store.interview.questionNumber) + 1, audioPlaying := false)
    {
      if st.panel != CoachFeedback {
        return;
      }
      var posted := st.effects + [PostContinue(store.interview.sessionId)];
      if reply.None? {
        st := st.(effects := posted + [Alert(ProceedFailedAlert)]);
        return;
      }
      store.UpdateInterview(NoChange.(feedbackText := Some(None),
        currentQuestion := Some(reply.value.question), questionText := Some(reply.value.question),
        questionNumber := Some(store.interview.questionNumber + 1), audioPlaying := Some(false)));
      st := st.(audioPlayed := false, hint := None, panel := Speaking, effects := posted);
    }

    /**
     * The Try Again button of the coach-feedback panel: speak the same
     * question again (then listen), or listen at once when there is none.
     * The question number does not change.
     */
    method TryAgainSameQuestion(azure: bool, browser: bool)
      modifies this, store`interview
      ensures old(st.panel) != CoachFeedback ==> st == old(st) && store.interview == old(store.interview)
      ensures store.interview.questionNumber == old(store.interview.questionNumber)
      ensures var q := old(store.interview.currentQuestion);
        old(st.panel) == CoachFeedback && Truthy(q) ==>
          st == old(st).(userStopped := false, audioPlayed := false, panel := Speaking,
            effects := old(st.effects) + [Speak(q.value)], speech := old(st.speech) + [RetrySpeech])
          && store.interview == old(store.interview).(feedbackText := None, audioPlaying := true)
      ensures var q := old(store.interview.currentQuestion);
        old(st.panel) == CoachFeedback && !Truthy(q) ==>
          (st, store.interview) == StartRecordingPost(
            old(st).(userStopped := false, audioPlayed := false, panel := Listening),
            old(store.interview).(feedbackText := None, audioPlaying := false), CoachFeedback, azure, browser)
    {
      if st.panel != CoachFeedback {
        return;
      }
      var q := store.interview.currentQuestion;
      store.UpdateInterview(NoChange.(feedbackText := Some(None), audioPlaying := Some(Truthy(q))));
      if Truthy(q) {
        st := st.(userStopped := false, audioPlayed := false, panel := Speaking,
          effects := st.effects + [Speak(q.value)], speech := st.speech + [RetrySpeech]);
      } else {
        st := st.(userStopped := false, audioPlayed := false, panel := Listening);
        StartRecording(CoachFeedback, azure, browser);
      }
    }

    /** The Skip question button, disabled while the question is being spoken. */
    method SkipQuestion()
      modifies this, store`interview
      ensures old(st.panel) == Speaking ==> st == old(st) && store.interview == old(store.interview)
      ensures old(st.panel) != Speaking ==>
        var i := old(store.interview);
        store.interview == i.(questionsSkipped := i.questionsSkipped + 1)
        && st == SubmitStarted(old(st).(userStopped := false, finalRef := "", transcriptRef := "",
          effects := old(st.effects) + (if old(st.recognition) then [StopRecognizer] else [])),
          store.interview, "", true)
    {
      if st.panel == Speaking {
        return;
      }
      st := st.(effects := st.effects + (if st.recognition then [StopRecognizer] else []),
        userStopped := false, finalRef := "", transcriptRef := "", transcript := "");
      store.UpdateInterview(NoChange.(questionsSkipped := Some(store.interview.questionsSkipped + 1)));
      BeginSubmit("", true);
    }

    /** The End Session button, disabled while ending; `reply` is the end reply, `None` on failure. */
    method EndSession(reply: Option<EndResult>)
      modifies this, store`interview, store`currentScreen
      ensures old(st.endingSession) ==>
        st == old(st) && store.interview == old(store.interview) && store.currentScreen == old(store.currentScreen)
      ensures !old(st.endingSession) && reply.None? ==>
        st == old(st).(effects := old(st.effects) + (if old(st.recognition) then [StopRecognizer] else [])
          + [PostEnd(store.interview.sessionId), Alert(EndFailedAlert)])
        && store.interview == old(store.interview) && store.currentScreen == old(store.currentScreen)
      ensures !old(st.endingSession) && reply.Some? ==>
        st == old(st).(endingSession := true,
          effects := old(st.effects) + (if old(st.recognition) then [StopRecognizer] else [])
            + [PostEnd(old(store.interview.sessionId))])
        && store.interview == (if reply.value.final && reply.value.summary.Some?
          then old(store.interview).(summary := reply.value.summary) else old(store.interview))
        && store.currentScreen == "results"
    {
      if st.endingSession {
        return;
      }
      var posted := st.effects + (if st.recognition then [StopRecognizer] else []) + [PostEnd(store.interview.sessionId)];
      if reply.None? {
        st := st.(effects := posted + [Alert(EndFailedAlert)]);
        return;
      }
      st := st.(endingSession := true, effects := posted);
      if reply.value.final && reply.value.summary.Some? {
        store.UpdateInterview(NoChange.(summary := Some(reply.value.summary)));
      }
      store.NavigateTo("results");
    }

    /** The logo: after the user confirms, end the session without waiting and reset the interview. */
    method HandleLogoClick(confirmed: bool)
      modifies this, store`interview, store`currentScreen
      ensures !confirmed ==>
        st == old(st) && store.interview == old(store.interview) && store.currentScreen == old(store.currentScreen)
      ensures confirmed ==>
        st == old(st).(effects := old(st.effects)
          + (if old(st.recognition) then [StopRecognizer] else []) + [PostEnd(old(store.interview.sessionId))])
        && store.interview == Merge(old(store.interview), ExitPatch)
        && store.currentScreen == "welcome"
    {
      if !confirmed {
        return;
      }
      st := st.(effects := st.effects + (if st.recognition then [StopRecognizer] else []) + [PostEnd(store.interview.sessionId)]);
      store.UpdateInterview(ExitPatch);
      store.NavigateTo("welcome");
    }

    /** Unmounting the screen stops a held recognizer. */
    method Unmount()
      modifies this
      ensures st == old(st).(effects := old(st.effects) + (if old(st.recognition) then [StopRecognizer] else []))
    {
      st := st.(effects := st.effects + (if st.recognition then [StopRecognizer] else []));
    }
  }
  /** The update the logo click applies. */
  const ExitPatch := NoChange.(
    sessionId := Some(None), role := Some(None), roleDisplay := Some(""), persona := Some("strict"),
    experience := Some(None), currentQuestion := Some(None), questionText := Some(None),
    feedbackText := Some(None), audioPlaying := Some(false), isRecording := Some(false),
    questionNumber := Some(0), answers := Some([]), summary := Some(None))

  /**
   * Leaving through the logo clears the session, the question and the
   * answers, but keeps the hint and skip counters and the feedback log.
   */
  lemma ExitKeepsCounters(i: Interview)
    ensures var e := Merge(i, ExitPatch);
      e.sessionId == None && e.questionNumber == 0 && e.answers == [] && e.summary == None
      && e.hintsUsed == i.hintsUsed && e.questionsSkipped == i.questionsSkipped
      && e.questionWiseFeedback == i.questionWiseFeedback
  {
  }
}
