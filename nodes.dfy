/**
 * The graph nodes of backend/nodes.py. Each node returns a partial update
 * (a dict of the keys it writes), which the graph merges into the
 * interview state. The language model's outputs (the question, the
 * evaluation, the transition and the closing) and the resumed answer are
 * parameters.
 */
module Nodes {
  import opened Wrappers
  import opened Agents

  /** `InterviewState` of backend/models.py, with the keys the engine writes. */
  datatype State = State(
    role: string,
    experience: string,
    currentQuestion: Option<string>,
    lastAnswerText: Option<string>,
    evaluation: Option<Evaluation>,
    feedback: Option<string>,
    scoreHistory: seq<real>,
    weakTopics: set<string>,
    difficulty: string,
    questionCount: int,
    endInterview: bool,
    askedQuestions: seq<string>,
    summary: Option<EndSummary>,
    spokenClosing: Option<string>,
    spokenTransition: Option<string>)

  /** A node's return value: `Some(v)` for each key it returns. */
  datatype Delta = Delta(
    currentQuestion: Option<Option<string>>,
    lastAnswerText: Option<Option<string>>,
    evaluation: Option<Option<Evaluation>>,
    scoreHistory: Option<seq<real>>,
    weakTopics: Option<set<string>>,
    difficulty: Option<string>,
    questionCount: Option<int>,
    endInterview: Option<bool>,
    askedQuestions: Option<seq<string>>,
    summary: Option<Option<EndSummary>>,
    spokenClosing: Option<Option<string>>,
    spokenTransition: Option<Option<string>>)

  const Empty := Delta(None, None, None, None, None, None, None, None, None, None, None, None)

  /** The keys a node can return. */
  datatype Key =
    | CurrentQuestion | LastAnswerText | EvaluationKey | ScoreHistory | WeakTopics
    | Difficulty | QuestionCount | EndInterview | AskedQuestions | SummaryKey
    | SpokenClosing | SpokenTransition

  function Keys(d: Delta): set<Key>
  {
    (if d.currentQuestion.Some? then {CurrentQuestion} else {})
    + (if d.lastAnswerText.Some? then {LastAnswerText} else {})
    + (if d.evaluation.Some? then {EvaluationKey} else {})
    + (if d.scoreHistory.Some? then {ScoreHistory} else {})
    + (if d.weakTopics.Some? then {WeakTopics} else {})
    + (if d.difficulty.Some? then {Difficulty} else {})
    + (if d.questionCount.Some? then {QuestionCount} else {})
    + (if d.endInterview.Some? then {EndInterview} else {})
    + (if d.askedQuestions.Some? then {AskedQuestions} else {})
    + (if d.summary.Some? then {SummaryKey} else {})
    + (if d.spokenClosing.Some? then {SpokenClosing} else {})
    + (if d.spokenTransition.Some? then {SpokenTransition} else {})
  }

  /** Whether two states agree under a key. */
  predicate Agree(a: State, b: State, k: Key)
  {
    match k
    case CurrentQuestion => a.currentQuestion == b.currentQuestion
    case LastAnswerText => a.lastAnswerText == b.lastAnswerText
    case EvaluationKey => a.evaluation == b.evaluation
    case ScoreHistory => a.scoreHistory == b.scoreHistory
    case WeakTopics => a.weakTopics == b.weakTopics
    case Difficulty => a.difficulty == b.difficulty
    case QuestionCount => a.questionCount == b.questionCount
    case EndInterview => a.endInterview == b.endInterview
    case AskedQuestions => a.askedQuestions == b.askedQuestions
    case SummaryKey => a.summary == b.summary
    case SpokenClosing => a.spokenClosing == b.spokenClosing
    case SpokenTransition => a.spokenTransition == b.spokenTransition
  }

  /** The graph's merge of a node's update into the state. */
  function Apply(s: State, d: Delta): State
  {
    s.(
      currentQuestion := d.currentQuestion.GetOr(s.currentQuestion),
      lastAnswerText := d.lastAnswerText.GetOr(s.lastAnswerText),
      evaluation := d.evaluation.GetOr(s.evaluation),
      scoreHistory := d.scoreHistory.GetOr(s.scoreHistory),
      weakTopics := d.weakTopics.GetOr(s.weakTopics),
      difficulty := d.difficulty.GetOr(s.difficulty),
      questionCount := d.questionCount.GetOr(s.questionCount),
      endInterview := d.endInterview.GetOr(s.endInterview),
      askedQuestions := d.askedQuestions.GetOr(s.askedQuestions),
      summary := d.summary.GetOr(s.summary),
      spokenClosing := d.spokenClosing.GetOr(s.spokenClosing),
      spokenTransition := d.spokenTransition.GetOr(s.spokenTransition))
  }

  /** A key a node does not return keeps its value; role and experience are never returned. */
  lemma ApplyKeepsOthers(s: State, d: Delta, k: Key)
    requires k !in Keys(d)
    ensures Agree(s, Apply(s, d), k)
    ensures Apply(s, d).role == s.role && Apply(s, d).experience == s.experience
    ensures Apply(s, d).feedback == s.feedback
  {
  }

  /** `ask_question_node`: the new question becomes current and is appended to the asked list. */
  function AskQuestion(s: State, question: string): (d: Delta)
    ensures Keys(d) == {CurrentQuestion, AskedQuestions}
    ensures Apply(s, d).currentQuestion == Some(question)
    ensures Apply(s, d).askedQuestions == s.askedQuestions + [question]
  {
    Empty.(currentQuestion := Some(Some(question)), askedQuestions := Some(s.askedQuestions + [question]))
  }

  /** The prompt `await_answer_node` interrupts with. */
  function Prompt(s: State): Option<string>
  {
    s.currentQuestion
  }

  /** `await_answer_node` once resumed with `answer`. */
  function AwaitAnswer(s: State, answer: string): (d: Delta)
    ensures Keys(d) == {LastAnswerText}
    ensures Apply(s, d).lastAnswerText == Some(answer)
  {
    Empty.(lastAnswerText := Some(Some(answer)))
  }

  /** `evaluate_node`: the evaluation is stored and its score appended to the history. */
  function Evaluate(s: State, ev: Evaluation): (d: Delta)
    ensures Keys(d) == {EvaluationKey, ScoreHistory}
    ensures Apply(s, d).evaluation == Some(ev)
    ensures Apply(s, d).scoreHistory == s.scoreHistory + [ev.score]
  {
    Empty.(evaluation := Some(Some(ev)), scoreHistory := Some(s.scoreHistory + [ev.score]))
  }

  /**
   * `decision_node`: the difficulty and the end flag come from the
   * decision, the count goes up by one, and the evaluation's topic joins
   * the weak topics exactly when the decision says so. The stored
   * evaluation is required: the node reads its score.
   */
  function Decision(s: State): (d: Delta)
    requires s.evaluation.Some?
    ensures Keys(d) == {Difficulty, EndInterview, QuestionCount, WeakTopics}
    ensures var dec := Decide(s.difficulty, s.questionCount, s.evaluation.value.score);
      var s' := Apply(s, d);
      s'.difficulty == dec.difficulty && s'.endInterview == dec.endInterview
      && s'.questionCount == s.questionCount + 1
      && s'.weakTopics == (if dec.addWeakTopic then s.weakTopics + {s.evaluation.value.topic} else s.weakTopics)
  {
    var ev := s.evaluation.value;
    var dec := Decide(s.difficulty, s.questionCount, ev.score);
    var topics := if dec.addWeakTopic then s.weakTopics + {ev.topic} else s.weakTopics;
    Empty.(
      difficulty := Some(dec.difficulty), endInterview := Some(dec.endInterview),
      questionCount := Some(s.questionCount + 1), weakTopics := Some(topics))
  }

  /** A weak answer records its topic; any other answer leaves the weak topics as they were. */
  lemma DecisionWeakTopics(s: State)
    requires s.evaluation.Some?
    ensures var t := s.evaluation.value.topic;
      var s' := Apply(s, Decision(s));
      (s.evaluation.value.score < 5.0 ==> s'.weakTopics == s.weakTopics + {t} && s'.difficulty == "easy")
      && (s.evaluation.value.score >= 5.0 ==> s'.weakTopics == s.weakTopics)
  {
  }

  /** `transition_node`. */
  function Transition(s: State, transition: string): (d: Delta)
    ensures Keys(d) == {SpokenTransition}
    ensures Apply(s, d).spokenTransition == Some(transition)
  {
    Empty.(spokenTransition := Some(Some(transition)))
  }

  /** `end_node`: the summary of the score history and weak topics, and the closing. */
  function End(s: State, closing: string): (d: Delta)
    ensures Keys(d) == {SummaryKey, SpokenClosing}
    ensures Apply(s, d).summary == Some(Summarise(s.scoreHistory, s.weakTopics))
    ensures Apply(s, d).spokenClosing == Some(closing)
  {
    Empty.(summary := Some(Some(Summarise(s.scoreHistory, s.weakTopics))), spokenClosing := Some(Some(closing)))
  }
}
