/**
 * The first, strict-only client (frontend/js/app.js): a global `appState`
 * whose `interview` record the recognition callbacks, `submitAnswer` and
 * `handleSetupComplete` mutate. Screens are iframes; only which screen is
 * current is modelled. Backend replies and the browser's speech support
 * are parameters; the requests made and the alerts shown are recorded as
 * effects.
 */
module LegacyApp {
  import opened Wrappers
  import opened Text
  import opened Protocol
  import opened Roles
  import opened Transcript

  /** The keys of the `screens` table. */
  const Screens: set<string> := {
    "welcome", "setup", "listening", "speaking-1", "speaking-2",
    "adaptive-transition", "evaluating", "q-and-a-review", "results",
    "voice-feedback-1", "voice-feedback-2", "microphone-error"}

  const TotalQuestions := 5

  const UnsupportedAlert := "Speech recognition not supported in this browser. Please use Chrome."
  const SubmitFailedAlert := "Failed to submit answer. Please try again."
  const BackendDownAlert := "Backend is not available. Please start the backend server first."
  const StartFailedAlert := "Failed to start interview. Please check backend connection."
  const StartGuardAlert := "Backend not available. Please check connection."
  const HealthWarning := "Warning: Backend not connected. Please ensure backend is running on http://localhost:8000"

  /** One `{question, answer}` entry of `appState.interview.answers`. */
  datatype Answer = Answer(question: Option<string>, answer: string)

  /** The session half of `appState.interview`: what setup writes. */
  datatype Session = Session(
    sessionId: Option<string>, role: Option<string>, roleDisplay: string,
    experience: Option<string>, jobDescription: Option<string>, persona: Option<string>)

  /** The turn half of `appState.interview`: what a question round writes. */
  datatype Turn = Turn(
    currentQuestion: Option<string>, questionAudio: Option<string>, audioPlaying: bool,
    isRecording: bool, recognition: bool, questionNumber: int, answers: seq<Answer>)

  const InitialSession := Session(None, None, "", None, None, None)
  const InitialTurn := Turn(None, None, false, false, false, 0, [])

  /** The fields of `api.submitAnswer`'s reply that the client reads; `final` is its truthiness. */
  datatype AnswerReply = AnswerReply(final: bool, question: Option<string>, audio: Option<string>)

  /** The fields of `api.startInterview`'s reply that the client reads. */
  datatype StartReply = StartReply(sessionId: Option<string>, question: Option<string>, audio: Option<string>)

  /** The setup form's message payload (`data || {}`): each property may be missing. */
  datatype SetupForm = SetupForm(
    role: Option<string>, experience: Option<string>,
    jobDescription: Option<string>, persona: Option<string>)

  /** What the client does outside its own state. */
  datatype Effect =
    | Alert(message: string)
    | StartRecognition
    | StopRecognition
    | AbortRecognition
    | PostAnswer(sessionId: Option<string>, answer: string)
    | PostStart(role: string, experience: string)

  /** `!result.final && result.question`: the interview goes on. */
  predicate Continues(r: AnswerReply)
  {
    !r.final && Truthy(r.question)
  }

  /** The turn after a successful submission of `text`. */
  function Answered(t: Turn, text: string, r: AnswerReply): (t': Turn)
    ensures t'.answers == t.answers + [Answer(t.currentQuestion, text)]
    ensures t'.questionNumber == t.questionNumber + (if Continues(r) then 1 else 0)
    ensures Continues(r) ==> t'.currentQuestion == r.question && t'.questionAudio == r.audio && !t'.audioPlaying
    ensures !Continues(r) ==> t' == t.(answers := t'.answers)
    ensures t'.isRecording == t.isRecording && t'.recognition == t.recognition
  {
    var logged := t.(answers := t.answers + [Answer(t.currentQuestion, text)]);
    if Continues(r) then
      logged.(currentQuestion := r.question, questionAudio := r.audio,
              questionNumber := t.questionNumber + 1, audioPlaying := false)
    else logged
  }

  /** Where a successful submission navigates. */
  function AnsweredScreen(r: AnswerReply): (s: string)
    ensures s in Screens
    ensures s == "speaking-2" <==> Continues(r)
  {
    if Continues(r) then "speaking-2" else "results"
  }

  /** The turn after a submission whose reply is `reply` (`None`: the call threw). */
  function AfterSubmit(t: Turn, text: string, reply: Option<AnswerReply>): (t': Turn)
    ensures !t'.recognition
    ensures reply.None? ==> t' == t.(recognition := false)
  {
    var cleared := t.(recognition := false);
    if reply.Some? then Answered(cleared, text, reply.value) else cleared
  }

  /**
   * The effects of a submission: the abort of a held recognition, the post
   * of the answer, and the alert of a failed call.
   */
  function SubmitEffects(holding: bool, sessionId: Option<string>, text: string, reply: Option<AnswerReply>): (e: seq<Effect>)
    ensures PostAnswer(sessionId, text) in e
    ensures AbortRecognition in e <==> holding
    ensures Alert(SubmitFailedAlert) in e <==> reply.None?
  {
    (if holding then [AbortRecognition] else []) + [PostAnswer(sessionId, text)]
      + (if reply.None? then [Alert(SubmitFailedAlert)] else [])
  }

  /** Successive submissions: each text with the reply it got. */
  function SubmitAll(t: Turn, rounds: seq<(string, Option<AnswerReply>)>): Turn
    decreases |rounds|
  {
    if rounds == [] then t
    else AfterSubmit(SubmitAll(t, rounds[..|rounds| - 1]), rounds[|rounds| - 1].0, rounds[|rounds| - 1].1)
  }

  function Successes(rounds: seq<(string, Option<AnswerReply>)>): nat
  {
    if rounds == [] then 0
    else Successes(rounds[..|rounds| - 1]) + (if rounds[|rounds| - 1].1.Some? then 1 else 0)
  }

  function Advances(rounds: seq<(string, Option<AnswerReply>)>): nat
  {
    if rounds == [] then 0
    else
      var reply := rounds[|rounds| - 1].1;
      Advances(rounds[..|rounds| - 1]) + (if reply.Some? && Continues(reply.value) then 1 else 0)
  }

  /**
   * Over any run of submissions the answer log grows by one entry per
   * successful reply, whose answer is the text submitted, and the question
   * number by one per reply that carries a next question.
   */
  lemma {:induction false} SubmitAllCounts(t: Turn, rounds: seq<(string, Option<AnswerReply>)>)
    ensures var t' := SubmitAll(t, rounds);
      |t'.answers| == |t.answers| + Successes(rounds)
      && t'.answers[..|t.answers|] == t.answers
      && t'.questionNumber == t.questionNumber + Advances(rounds)
    decreases |rounds|
  {
    if rounds != [] {
      var prefix := rounds[..|rounds| - 1];
      SubmitAllCounts(t, prefix);
      var before := SubmitAll(t, prefix);
      var after := SubmitAll(t, rounds);
      assert after == AfterSubmit(before, rounds[|rounds| - 1].0, rounds[|rounds| - 1].1);
      assert after.answers[..|before.answers|] == before.answers;
      assert after.answers[..|t.answers|] == before.answers[..|t.answers|];
    }
  }

  /** The session fields `handleSetupComplete` writes before calling the backend. */
  function SetUp(s: Session, form: SetupForm): (s': Session)
    ensures s'.role == Some(MapRole(form.role)) && s'.experience == Some(MapExperience(form.experience))
    ensures s'.roleDisplay == RoleDisplay(MapExperience(form.experience), MapRole(form.role))
    ensures s'.jobDescription == Some(OrElse(form.jobDescription, ""))
    ensures s'.persona.Some? && (s'.persona.value == "strict" <==> !Truthy(form.persona) || form.persona.value == "strict")
    ensures s'.sessionId == s.sessionId
  {
    var role := MapRole(form.role);
    var experience := MapExperience(form.experience);
    s.(role := Some(role), experience := Some(experience),
       roleDisplay := RoleDisplay(experience, role),
       jobDescription := Some(OrElse(form.jobDescription, "")),
       persona := Some(OrElse(form.persona, "strict")))
  }

  /** The turn fields a successful start writes. */
  function Started(t: Turn, r: StartReply): (t': Turn)
    ensures t'.questionNumber == 1 && t'.currentQuestion == r.question && t'.questionAudio == r.audio
    ensures t'.answers == t.answers
  {
    t.(currentQuestion := r.question, questionNumber := 1, questionAudio := r.audio)
  }

  /** A setup form without a persona starts a strict interview with no job description. */
  lemma DefaultSetup(s: Session, role: Option<string>, experience: Option<string>)
    ensures var s' := SetUp(s, SetupForm(role, experience, None, None));
      s'.persona == Some("strict") && s'.jobDescription == Some("")
  {
  }

  /** The turn after `recognition.onend` submitted the trimmed `transcript`. */
  function EndedTurn(t: Turn, transcript: string, reply: Option<AnswerReply>): Turn
  {
    AfterSubmit(t.(isRecording := false), Trim(transcript), reply)
  }

  /** The effects of that submission. */
  function EndedEffects(holding: bool, sessionId: Option<string>, transcript: string, reply: Option<AnswerReply>): seq<Effect>
  {
    SubmitEffects(holding, sessionId, Trim(transcript), reply)
  }

  /**
   * When recognition ends, recording stops and the trimmed transcript is
   * what gets posted and logged; a blank transcript is still posted, as "".
   */
  lemma EndedSubmitsTrimmed(t: Turn, transcript: string, sessionId: Option<string>, reply: Option<AnswerReply>)
    ensures var t' := EndedTurn(t, transcript, reply);
      !t'.isRecording && !t'.recognition
      && (reply.Some? ==> t'.answers == t.answers + [Answer(t.currentQuestion, Trim(transcript))])
      && (reply.None? ==> t'.answers == t.answers)
    ensures PostAnswer(sessionId, Trim(transcript)) in EndedEffects(t.recognition, sessionId, transcript, reply)
    ensures AllSpace(transcript) ==> PostAnswer(sessionId, "") in EndedEffects(t.recognition, sessionId, transcript, reply)
  {
  }

  /** `appState` of frontend/js/app.js. */
  class App {
    var currentScreen: string
    var backendAvailable: bool
    var session: Session
    var turn: Turn
    /** The `finalTranscript` captured by the current recognition's callbacks. */
    var finalTranscript: string
    /** The live transcript shown on the screen (`finalTranscript + interimTranscript`). */
    var shown: string
    var effects: seq<Effect>

    constructor()
      ensures currentScreen == "welcome" && !backendAvailable
      ensures session == InitialSession && turn == InitialTurn
      ensures finalTranscript == "" && shown == "" && effects == []
    {
      currentScreen := "welcome";
      backendAvailable := false;
      session := InitialSession;
      turn := InitialTurn;
      finalTranscript := "";
      shown := "";
      effects := [];
    }

    /**
     * The page-load handler: the backend is available iff the health check
     * returned a truthy value, a falsy one raises the warning alert, and the
     * welcome screen is loaded. `api.healthCheck()` catches its own failures
     * and returns `null`, so a failed check is `JNull` here and alerts too.
     */
    method Initialise(health: Json)
      modifies this
      ensures backendAvailable <==> JsonTruthy(health)
      ensures effects == old(effects) + (if JsonTruthy(health) then [] else [Alert(HealthWarning)])
      ensures currentScreen == "welcome"
      ensures session == old(session) && turn == old(turn)
      ensures finalTranscript == old(finalTranscript) && shown == old(shown)
    {
      backendAvailable := JsonTruthy(health);
      if !JsonTruthy(health) {
        effects := effects + [Alert(HealthWarning)];
      }
      LoadScreen("welcome");
    }

    /** `loadScreen` (and `navigateTo`): an unknown name changes nothing. */
    method LoadScreen(name: string)
      modifies this
      ensures currentScreen == (if name in Screens then name else old(currentScreen))
      ensures backendAvailable == old(backendAvailable) && session == old(session) && turn == old(turn)
      ensures finalTranscript == old(finalTranscript) && shown == old(shown) && effects == old(effects)
    {
      if name in Screens {
        currentScreen := name;
      }
    }

    /** `handleStartInterview`: setup is reached only with the backend up. */
    method HandleStartInterview()
      modifies this
      ensures currentScreen == (if backendAvailable then "setup" else old(currentScreen))
      ensures effects == old(effects) + (if backendAvailable then [] else [Alert(StartGuardAlert)])
      ensures backendAvailable == old(backendAvailable) && session == old(session) && turn == old(turn)
      ensures finalTranscript == old(finalTranscript) && shown == old(shown)
    {
      if !backendAvailable {
        effects := effects + [Alert(StartGuardAlert)];
        return;
      }
      LoadScreen("setup");
    }

    /**
     * `startRecording`: without browser support only an alert; otherwise a
     * new recognition with an empty `finalTranscript` is stored and started.
     */
    method StartRecording(supported: bool)
      modifies this
      ensures !supported ==> (effects == old(effects) + [Alert(UnsupportedAlert)]
        && turn == old(turn) && finalTranscript == old(finalTranscript))
      ensures supported ==> (effects == old(effects) + [StartRecognition]
        && turn == old(turn).(recognition := true) && finalTranscript == "")
      ensures currentScreen == old(currentScreen) && backendAvailable == old(backendAvailable)
      ensures session == old(session) && shown == old(shown)
    {
      if !supported {
        effects := effects + [Alert(UnsupportedAlert)];
        return;
      }
      finalTranscript := "";
      turn := turn.(recognition := true);
      effects := effects + [StartRecognition];
    }

    /** `recognition.onstart`. */
    method OnStart()
      modifies this
      ensures turn == old(turn).(isRecording := true)
      ensures currentScreen == old(currentScreen) && backendAvailable == old(backendAvailable) && session == old(session)
      ensures finalTranscript == old(finalTranscript) && shown == old(shown) && effects == old(effects)
    {
      turn := turn.(isRecording := true);
    }

    /**
     * `recognition.onresult`: every final piece is added to
     * `finalTranscript` with a trailing space, the interim pieces of this
     * event are concatenated, and the display is their sum.
     */
    method OnResult(ev: ResultEvent)
      requires WellFormed(ev)
      requires forall r :: r in Window(ev) ==> WebShaped(r)
      modifies this
      ensures finalTranscript == old(finalTranscript) + CommittedText(Window(ev))
      ensures shown == finalTranscript + InterimText(Window(ev))
      ensures currentScreen == old(currentScreen) && backendAvailable == old(backendAvailable)
      ensures session == old(session) && turn == old(turn) && effects == old(effects)
    {
      var pieces, interim := ScanCommittedAndInterim(ev);
      finalTranscript := finalTranscript + pieces;
      shown := finalTranscript + interim;
    }

    /** `recognition.onerror`. */
    method OnError()
      modifies this
      ensures turn == old(turn).(isRecording := false)
      ensures currentScreen == old(currentScreen) && backendAvailable == old(backendAvailable) && session == old(session)
      ensures finalTranscript == old(finalTranscript) && shown == old(shown) && effects == old(effects)
    {
      turn := turn.(isRecording := false);
    }

    /** The "done speaking" button: stops the recognition when there is one. */
    method DoneSpeaking()
      modifies this
      ensures effects == old(effects) + (if turn.recognition then [StopRecognition] else [])
      ensures currentScreen == old(currentScreen) && backendAvailable == old(backendAvailable)
      ensures session == old(session) && turn == old(turn)
      ensures finalTranscript == old(finalTranscript) && shown == old(shown)
    {
      if turn.recognition {
        effects := effects + [StopRecognition];
      }
    }

    /**
     * `submitAnswer(answerText)`: the recognition is aborted and dropped, the
     * answer posted, and on a reply exactly one answer is logged; the next
     * question follows iff the reply is not final and carries a question,
     * otherwise the results screen. A failed call only alerts.
     */
    method SubmitAnswer(answerText: string, reply: Option<AnswerReply>)
      modifies this
      ensures turn == AfterSubmit(old(turn), answerText, reply)
      ensures effects == old(effects) + SubmitEffects(old(turn.recognition), session.sessionId, answerText, reply)
      ensures currentScreen == (if reply.Some? then AnsweredScreen(reply.value) else old(currentScreen))
      ensures backendAvailable == old(backendAvailable) && session == old(session)
      ensures finalTranscript == old(finalTranscript) && shown == old(shown)
    {
      effects := effects + SubmitEffects(turn.recognition, session.sessionId, answerText, reply);
      turn := AfterSubmit(turn, answerText, reply);
      if reply.Some? {
        currentScreen := AnsweredScreen(reply.value);
      }
    }

    /**
     * `recognition.onend`: recording stops and `submitAnswer` gets the
     * trimmed transcript, even when it is empty.
     */
    method OnEnd(reply: Option<AnswerReply>)
      modifies this
      ensures turn == EndedTurn(old(turn), old(finalTranscript), reply)
      ensures effects == old(effects) + EndedEffects(old(turn.recognition), session.sessionId, old(finalTranscript), reply)
      ensures currentScreen == (if reply.Some? then AnsweredScreen(reply.value) else old(currentScreen))
      ensures backendAvailable == old(backendAvailable) && session == old(session)
      ensures finalTranscript == old(finalTranscript) && shown == old(shown)
    {
      turn := turn.(isRecording := false);
      SubmitAnswer(Trim(finalTranscript), reply);
    }

    /**
     * `handleSetupComplete(data)`: refused with an alert while the backend is
     * down. Otherwise the normalised role, experience, display name, job
     * description and persona are stored, the start request is made, and a
     * reply seeds the session id, the first question and question number 1
     * and opens `speaking-2`; a failure alerts and returns to `welcome`,
     * keeping the stored setup fields.
     */
    method HandleSetupComplete(form: SetupForm, reply: Option<StartReply>)
      modifies this
      ensures !old(backendAvailable) ==> (effects == old(effects) + [Alert(BackendDownAlert)]
        && session == old(session) && turn == old(turn) && currentScreen == old(currentScreen))
      ensures old(backendAvailable) && reply.Some? ==>
        session == SetUp(old(session), form).(sessionId := reply.value.sessionId)
        && turn == Started(old(turn), reply.value) && currentScreen == "speaking-2"
        && effects == old(effects) + [PostStart(MapRole(form.role), MapExperience(form.experience))]
      ensures old(backendAvailable) && reply.None? ==>
        session == SetUp(old(session), form) && turn == old(turn) && currentScreen == "welcome"
        && effects == old(effects) + [PostStart(MapRole(form.role), MapExperience(form.experience)), Alert(StartFailedAlert)]
      ensures backendAvailable == old(backendAvailable)
      ensures finalTranscript == old(finalTranscript) && shown == old(shown)
    {
      if !backendAvailable {
        effects := effects + [Alert(BackendDownAlert)];
        return;
      }
      var configured := SetUp(session, form);
      var request := PostStart(configured.role.value, configured.experience.value);
      if reply.None? {
        session := configured;
        effects := effects + [request, Alert(StartFailedAlert)];
        LoadScreen("welcome");
        return;
      }
      session := configured.(sessionId := reply.value.sessionId);
      turn := Started(turn, reply.value);
      effects := effects + [request];
      LoadScreen("speaking-2");
    }
  }
}
