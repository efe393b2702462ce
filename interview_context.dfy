/**
 * The shared client state of frontend/src/context/InterviewContext.jsx:
 * the interview record, its shallow-merge update, the theme preference and
 * the store object whose setters replace its fields.
 */
module InterviewContext {
  import opened Wrappers
  import opened Protocol

  /** One `{question, answer}` entry of the answer log. */
  datatype AnswerEntry = AnswerEntry(question: Option<string>, answer: string)

  /** One entry of the per-question feedback log shown on the results screen. */
  datatype FeedbackEntry = FeedbackEntry(
    questionNumber: int, question: Option<string>, answer: string,
    score: real, topic: string, strengths: seq<string>, weaknesses: seq<string>, feedback: string)

  /** The interview record; `null` in the program is `None` here. */
  datatype Interview = Interview(
    sessionId: Option<string>,
    role: Option<string>,
    roleDisplay: string,
    roleDescription: Option<string>,
    persona: string,
    experience: Option<string>,
    currentQuestion: Option<string>,
    questionText: Option<string>,
    feedbackText: Option<string>,
    audioPlaying: bool,
    isRecording: bool,
    questionNumber: int,
    totalQuestions: int,
    answers: seq<AnswerEntry>,
    summary: Option<Summary>,
    hintsUsed: int,
    questionsSkipped: int,
    questionWiseFeedback: seq<FeedbackEntry>)

  const InitialInterview := Interview(
    sessionId := None, role := None, roleDisplay := "", roleDescription := None,
    persona := "strict", experience := None, currentQuestion := None, questionText := None,
    feedbackText := None, audioPlaying := false, isRecording := false,
    questionNumber := 0, totalQuestions := 5, answers := [], summary := None,
    hintsUsed := 0, questionsSkipped := 0, questionWiseFeedback := [])

  /** The argument of `updateInterview`: `Some(v)` is a key the update supplies. */
  datatype Patch = Patch(
    sessionId: Option<Option<string>>,
    role: Option<Option<string>>,
    roleDisplay: Option<string>,
    roleDescription: Option<Option<string>>,
    persona: Option<string>,
    experience: Option<Option<string>>,
    currentQuestion: Option<Option<string>>,
    questionText: Option<Option<string>>,
    feedbackText: Option<Option<string>>,
    audioPlaying: Option<bool>,
    isRecording: Option<bool>,
    questionNumber: Option<int>,
    totalQuestions: Option<int>,
    answers: Option<seq<AnswerEntry>>,
    summary: Option<Option<Summary>>,
    hintsUsed: Option<int>,
    questionsSkipped: Option<int>,
    questionWiseFeedback: Option<seq<FeedbackEntry>>)

  /** The empty update `{}`; other updates are written as `NoChange.(key := Some(v))`. */
  const NoChange := Patch(
    None, None, None, None, None, None, None, None, None,
    None, None, None, None, None, None, None, None, None)

  /** The keys of the interview record. */
  datatype Field =
    | SessionId | Role | RoleDisplay | RoleDescription | Persona | Experience
    | CurrentQuestion | QuestionText | FeedbackText | AudioPlaying | IsRecording
    | QuestionNumber | TotalQuestions | Answers | SummaryKey | HintsUsed
    | QuestionsSkipped | QuestionWiseFeedback

  /** Whether an update supplies a key. */
  predicate Supplies(p: Patch, f: Field)
  {
    match f
    case SessionId => p.sessionId.Some?
    case Role => p.role.Some?
    case RoleDisplay => p.roleDisplay.Some?
    case RoleDescription => p.roleDescription.Some?
    case Persona => p.persona.Some?
    case Experience => p.experience.Some?
    case CurrentQuestion => p.currentQuestion.Some?
    case QuestionText => p.questionText.Some?
    case FeedbackText => p.feedbackText.Some?
    case AudioPlaying => p.audioPlaying.Some?
    case IsRecording => p.isRecording.Some?
    case QuestionNumber => p.questionNumber.Some?
    case TotalQuestions => p.totalQuestions.Some?
    case Answers => p.answers.Some?
    case SummaryKey => p.summary.Some?
    case HintsUsed => p.hintsUsed.Some?
    case QuestionsSkipped => p.questionsSkipped.Some?
    case QuestionWiseFeedback => p.questionWiseFeedback.Some?
  }

  /** Whether two records hold the same value under a key. */
  predicate Agree(a: Interview, b: Interview, f: Field)
  {
    match f
    case SessionId => a.sessionId == b.sessionId
    case Role => a.role == b.role
    case RoleDisplay => a.roleDisplay == b.roleDisplay
    case RoleDescription => a.roleDescription == b.roleDescription
    case Persona => a.persona == b.persona
    case Experience => a.experience == b.experience
    case CurrentQuestion => a.currentQuestion == b.currentQuestion
    case QuestionText => a.questionText == b.questionText
    case FeedbackText => a.feedbackText == b.feedbackText
    case AudioPlaying => a.audioPlaying == b.audioPlaying
    case IsRecording => a.isRecording == b.isRecording
    case QuestionNumber => a.questionNumber == b.questionNumber
    case TotalQuestions => a.totalQuestions == b.totalQuestions
    case Answers => a.answers == b.answers
    case SummaryKey => a.summary == b.summary
    case HintsUsed => a.hintsUsed == b.hintsUsed
    case QuestionsSkipped => a.questionsSkipped == b.questionsSkipped
    case QuestionWiseFeedback => a.questionWiseFeedback == b.questionWiseFeedback
  }

  /** `{ ...prev, ...updates }`. */
  function Merge(prev: Interview, p: Patch): Interview
  {
    Interview(
      sessionId := p.sessionId.GetOr(prev.sessionId),
      role := p.role.GetOr(prev.role),
      roleDisplay := p.roleDisplay.GetOr(prev.roleDisplay),
      roleDescription := p.roleDescription.GetOr(prev.roleDescription),
      persona := p.persona.GetOr(prev.persona),
      experience := p.experience.GetOr(prev.experience),
      currentQuestion := p.currentQuestion.GetOr(prev.currentQuestion),
      questionText := p.questionText.GetOr(prev.questionText),
      feedbackText := p.feedbackText.GetOr(prev.feedbackText),
      audioPlaying := p.audioPlaying.GetOr(prev.audioPlaying),
      isRecording := p.isRecording.GetOr(prev.isRecording),
      questionNumber := p.questionNumber.GetOr(prev.questionNumber),
      totalQuestions := p.totalQuestions.GetOr(prev.totalQuestions),
      answers := p.answers.GetOr(prev.answers),
      summary := p.summary.GetOr(prev.summary),
      hintsUsed := p.hintsUsed.GetOr(prev.hintsUsed),
      questionsSkipped := p.questionsSkipped.GetOr(prev.questionsSkipped),
      questionWiseFeedback := p.questionWiseFeedback.GetOr(prev.questionWiseFeedback))
  }

  /** A key the update does not supply keeps its previous value. */
  lemma MergeKeepsUnsupplied(prev: Interview, p: Patch, f: Field)
    requires !Supplies(p, f)
    ensures Agree(Merge(prev, p), prev, f)
  {
  }

  /** A key the update supplies gets the supplied value, whatever the previous record held. */
  lemma MergeOverwritesSupplied(prev: Interview, other: Interview, p: Patch, f: Field)
    requires Supplies(p, f)
    ensures Agree(Merge(prev, p), Merge(other, p), f)
  {
  }

  /** `{...p, ...q}`: the later update wins on shared keys. */
  function Then(p: Patch, q: Patch): Patch
  {
    Patch(
      if q.sessionId.Some? then q.sessionId else p.sessionId,
      if q.role.Some? then q.role else p.role,
      if q.roleDisplay.Some? then q.roleDisplay else p.roleDisplay,
      if q.roleDescription.Some? then q.roleDescription else p.roleDescription,
      if q.persona.Some? then q.persona else p.persona,
      if q.experience.Some? then q.experience else p.experience,
      if q.currentQuestion.Some? then q.currentQuestion else p.currentQuestion,
      if q.questionText.Some? then q.questionText else p.questionText,
      if q.feedbackText.Some? then q.feedbackText else p.feedbackText,
      if q.audioPlaying.Some? then q.audioPlaying else p.audioPlaying,
      if q.isRecording.Some? then q.isRecording else p.isRecording,
      if q.questionNumber.Some? then q.questionNumber else p.questionNumber,
      if q.totalQuestions.Some? then q.totalQuestions else p.totalQuestions,
      if q.answers.Some? then q.answers else p.answers,
      if q.summary.Some? then q.summary else p.summary,
      if q.hintsUsed.Some? then q.hintsUsed else p.hintsUsed,
      if q.questionsSkipped.Some? then q.questionsSkipped else p.questionsSkipped,
      if q.questionWiseFeedback.Some? then q.questionWiseFeedback else p.questionWiseFeedback)
  }

  /** Two successive updates are one update with both sets of keys. */
  lemma MergeComposes(prev: Interview, p: Patch, q: Patch)
    ensures Merge(Merge(prev, p), q) == Merge(prev, Then(p, q))
  {
  }

  lemma MergeIdentity(prev: Interview)
    ensures Merge(prev, NoChange) == prev
  {
  }

  datatype Theme = Light | Dark

  /** A stored 'light' or 'dark' wins; otherwise the system preference decides. */
  function PreferredTheme(stored: Option<string>, prefersDark: bool): (t: Theme)
    ensures stored == Some("light") ==> t == Light
    ensures stored == Some("dark") ==> t == Dark
    ensures stored != Some("light") && stored != Some("dark") ==> (t == Dark <==> prefersDark)
  {
    if stored == Some("light") then Light
    else if stored == Some("dark") then Dark
    else if prefersDark then Dark else Light
  }

  function Toggled(t: Theme): (r: Theme)
    ensures r != t
  {
    if t == Dark then Light else Dark
  }

  lemma ToggleInvolution(t: Theme)
    ensures Toggled(Toggled(t)) == t
  {
  }

  /** The provider's state: each setter replaces one field. */
  class InterviewStore {
    var currentScreen: string
    var backendAvailable: bool
    var theme: Theme
    var interview: Interview

    constructor(stored: Option<string>, prefersDark: bool)
      ensures currentScreen == "welcome" && !backendAvailable
      ensures theme == PreferredTheme(stored, prefersDark)
      ensures interview == InitialInterview
    {
      currentScreen := "welcome";
      backendAvailable := false;
      theme := PreferredTheme(stored, prefersDark);
      interview := InitialInterview;
    }

    /** The mount-time health check: available iff the parsed result is truthy (`null` on any failure). */
    method HealthChecked(result: Json)
      modifies this`backendAvailable
      ensures backendAvailable == JsonTruthy(result)
    {
      backendAvailable := JsonTruthy(result);
    }

    method UpdateInterview(p: Patch)
      modifies this`interview
      ensures interview == Merge(old(interview), p)
    {
      interview := Merge(interview, p);
    }

    method ToggleTheme()
      modifies this`theme
      ensures theme == Toggled(old(theme))
    {
      theme := Toggled(theme);
    }

    method NavigateTo(screen: string)
      modifies this`currentScreen
      ensures currentScreen == screen
    {
      currentScreen := screen;
    }
  }
}
