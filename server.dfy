/**
 * The two interview endpoints of backend/main.py: the seeded state of a
 * new session and the shaping of each graph result into a response.
 * Running the graph, synthesising speech and base64 encoding are outside
 * the model: a graph result is an input, and a response records the text
 * it speaks instead of the audio.
 */
module Server {
  import opened Wrappers
  import opened Text
  import opened Agents
  import opened Nodes

  /** `StartInterviewRequest`. */
  datatype StartRequest = StartRequest(role: string, experience: string)

  /** The state `start_interview` hands to the graph. */
  function StartState(req: StartRequest): (s: State)
    ensures s.role == req.role && s.experience == req.experience
    ensures s.difficulty == "easy" && s.questionCount == 0 && !s.endInterview
    ensures s.scoreHistory == [] && s.askedQuestions == [] && s.weakTopics == {}
    ensures s.currentQuestion.None? && s.lastAnswerText.None? && s.evaluation.None? && s.feedback.None?
    ensures s.summary.None? && s.spokenTransition.None? && s.spokenClosing.None?
  {
    State(
      role := req.role, experience := req.experience,
      currentQuestion := None, lastAnswerText := None, evaluation := None, feedback := None,
      scoreHistory := [], weakTopics := {}, difficulty := "easy", questionCount := 0,
      endInterview := false, askedQuestions := [], summary := None,
      spokenTransition := None, spokenClosing := None)
  }

  /**
   * What the endpoints read from a graph result: the summary, the
   * `spoken_closing` key (outer `None`: the key is absent), the prompt of
   * the pending interrupt, and `spoken_transition`.
   */
  datatype GraphResult = GraphResult(
    summary: Option<EndSummary>, closing: Option<Option<string>>,
    interrupt: Option<string>, transition: Option<string>)

  /** The result for a state in which every key is present, paused on `interrupt` if any. */
  function ResultOf(s: State, interrupt: Option<string>): (r: GraphResult)
    ensures r.closing == Some(s.spokenClosing) && r.summary == s.summary && r.interrupt == interrupt
  {
    GraphResult(s.summary, Some(s.spokenClosing), interrupt, s.spokenTransition)
  }

  datatype Response =
    | HttpError(status: nat, detail: string)
    | Started(sessionId: string, question: string, spoken: string)
    | Final(summary: EndSummary, closing: Option<string>)
    | Continuing(question: string, transition: Option<string>, spoken: string)

  /** `start_interview` once the graph has run: the session starts only when it paused on a question. */
  function StartResponse(sessionId: string, r: GraphResult): (resp: Response)
    ensures r.interrupt.None? <==> resp == HttpError(500, "Interview did not start")
    ensures r.interrupt.Some? ==> resp == Started(sessionId, r.interrupt.value, r.interrupt.value)
  {
    if r.interrupt.None? then HttpError(500, "Interview did not start")
    else Started(sessionId, r.interrupt.value, r.interrupt.value)
  }

  /** The text spoken with the next question: the transition, a space and the question, or the question alone. */
  function SpokenText(transition: Option<string>, question: string): (t: string)
    ensures Truthy(transition) ==> t == transition.value + " " + question
    ensures !Truthy(transition) ==> t == question
  {
    if Truthy(transition) then transition.value + " " + question else question
  }

  /** The question is always spoken in full, last. */
  lemma SpokenTextEndsWithQuestion(transition: Option<string>, question: string)
    ensures var t := SpokenText(transition, question);
      |t| >= |question| && t[|t| - |question|..] == question
  {
    var t := SpokenText(transition, question);
    if Truthy(transition) {
      var prefix := transition.value + " ";
      assert t == prefix + question;
      assert t[|prefix|..] == question;
    }
  }

  /**
   * `answer_interview` once the graph has resumed: a summary wins and makes
   * the final response (500 without the closing key); otherwise a missing
   * interrupt is a 500, and a pending one the next question with its
   * transition.
   */
  function AnswerResponse(r: GraphResult): (resp: Response)
    ensures r.summary.Some? && r.closing.None? ==> resp == HttpError(500, "spoken_closing missing from final state")
    ensures r.summary.Some? && r.closing.Some? ==> resp == Final(r.summary.value, r.closing.value)
    ensures r.summary.None? && r.interrupt.None? ==> resp == HttpError(500, "Expected next question")
    ensures r.summary.None? && r.interrupt.Some? ==>
      resp == Continuing(r.interrupt.value, r.transition, SpokenText(r.transition, r.interrupt.value))
  {
    if r.summary.Some? then
      if r.closing.None? then HttpError(500, "spoken_closing missing from final state")
      else Final(r.summary.value, r.closing.value)
    else if r.interrupt.None? then HttpError(500, "Expected next question")
    else
      var question := r.interrupt.value;
      Continuing(question, r.transition, SpokenText(r.transition, question))
  }

  /**
   * The summary takes precedence over a pending interrupt, and since the
   * seeded state holds every key, the missing-closing error cannot come
   * from a state the graph produced.
   */
  lemma SummaryWins(s: State, interrupt: Option<string>)
    requires s.summary.Some?
    ensures AnswerResponse(ResultOf(s, interrupt)) == Final(s.summary.value, s.spokenClosing)
  {
  }
}
