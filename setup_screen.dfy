/**
 * The setup form of frontend/src/components/screens/SetupScreen.jsx: its
 * submit handler guards on the backend and on a request already in flight,
 * normalises the form and, on the start reply, seeds the interview record.
 * The start request and its reply are two events: `Submit` sends, `Replied`
 * receives.
 */
module SetupScreen {
  import opened Wrappers
  import opened Text
  import opened Protocol
  import opened Roles
  import opened InterviewContext

  const BackendDownAlert := "Backend is not available. Please start the backend server first."
  const StartFailedAlert := "Failed to start interview. Please check backend connection."

  /** `formData`; every input writes a string. */
  datatype Form = Form(role: string, experience: string, jobDescription: string, persona: string)

  const InitialForm := Form("", "", "", "strict")

  /** The `name` of an input element. */
  datatype Input = RoleInput | ExperienceInput | JobDescriptionInput | PersonaInput

  /** `handleInputChange`: `{ ...prev, [name]: value }`. */
  function WithInput(f: Form, name: Input, value: string): (f': Form)
    ensures name == RoleInput ==> f' == f.(role := value)
    ensures name == ExperienceInput ==> f' == f.(experience := value)
    ensures name == JobDescriptionInput ==> f' == f.(jobDescription := value)
    ensures name == PersonaInput ==> f' == f.(persona := value)
  {
    match name
    case RoleInput => f.(role := value)
    case ExperienceInput => f.(experience := value)
    case JobDescriptionInput => f.(jobDescription := value)
    case PersonaInput => f.(persona := value)
  }

  /** `formData.persona === 'coach' ? 'coach' : 'strict'`. */
  function Persona(value: string): (p: string)
    ensures p == "coach" <==> value == "coach"
    ensures p == "coach" || p == "strict"
  {
    if value == "coach" then "coach" else "strict"
  }

  /** The arguments of `api.startInterview`. */
  datatype StartRequest = StartRequest(role: string, experience: string, jobDescription: string, persona: string)

  function Request(f: Form): (r: StartRequest)
    ensures r.role == MapRole(Some(f.role)) && r.experience == MapExperience(Some(f.experience))
    ensures r.jobDescription == f.jobDescription && r.persona == Persona(f.persona)
  {
    StartRequest(MapRole(Some(f.role)), MapExperience(Some(f.experience)), f.jobDescription, Persona(f.persona))
  }

  /** The `updateInterview` argument of a successful start. */
  function StartedPatch(f: Form, r: StartResult): Patch
  {
    var role := MapRole(Some(f.role));
    var experience := MapExperience(Some(f.experience));
    NoChange.(
      sessionId := Some(Some(r.sessionId)),
      currentQuestion := Some(r.question),
      questionNumber := Some(1),
      role := Some(Some(role)),
      experience := Some(Some(experience)),
      roleDescription := Some(Some(OrElse(Some(f.jobDescription), ""))),
      persona := Some(Persona(f.persona)),
      roleDisplay := Some(Roles.RoleDisplay(experience, role)),
      questionText := Some(r.question))
  }

  /**
   * A successful start sets question number 1, both the current question
   * and the question to speak to the reply's question, the session id, the
   * normalised role, experience and persona (the persona stored is the one
   * requested) and the job description; everything else is kept, so the
   * counters and logs of a fresh record stay at their initial values.
   */
  lemma StartedRecord(i: Interview, f: Form, r: StartResult)
    ensures var i' := Merge(i, StartedPatch(f, r));
      i'.questionNumber == 1
      && i'.currentQuestion == r.question && i'.questionText == r.question
      && i'.sessionId == Some(r.sessionId)
      && i'.role == Some(Request(f).role) && i'.experience == Some(Request(f).experience)
      && i'.persona == Request(f).persona
      && i'.roleDescription == Some(f.jobDescription)
      && i'.roleDisplay == Roles.RoleDisplay(Request(f).experience, Request(f).role)
      && i'.answers == i.answers && i'.hintsUsed == i.hintsUsed
      && i'.questionsSkipped == i.questionsSkipped && i'.questionWiseFeedback == i.questionWiseFeedback
      && i'.totalQuestions == i.totalQuestions && i'.summary == i.summary
  {
  }

  /** The setup screen's own state, over the shared store. */
  class Setup {
    const store: InterviewStore
    var form: Form
    var isSubmitting: bool
    /** The form captured by the request in flight, if any. */
    var pending: Option<Form>
    var requests: seq<StartRequest>
    var alerts: seq<string>

    /** A request in flight always has the guard up. */
    predicate Valid()
      reads this
    {
      pending.Some? ==> isSubmitting
    }

    constructor(store: InterviewStore)
      ensures Valid()
      ensures this.store == store && form == InitialForm && !isSubmitting
      ensures pending == None && requests == [] && alerts == []
    {
      this.store := store;
      form := InitialForm;
      isSubmitting := false;
      pending := None;
      requests := [];
      alerts := [];
    }

    method InputChanged(name: Input, value: string)
      requires Valid()
      modifies this
      ensures Valid()
      ensures form == WithInput(old(form), name, value)
      ensures isSubmitting == old(isSubmitting) && pending == old(pending)
      ensures requests == old(requests) && alerts == old(alerts)
    {
      form := WithInput(form, name, value);
    }

    /**
     * `handleSubmit` up to the request: an alert when the backend is down,
     * nothing while a submission is in flight, otherwise the guard goes up
     * and the normalised request is sent.
     */
    method Submit()
      requires Valid()
      modifies this
      ensures Valid()
      ensures !store.backendAvailable ==>
        (alerts == old(alerts) + [BackendDownAlert] && requests == old(requests)
        && isSubmitting == old(isSubmitting) && pending == old(pending))
      ensures store.backendAvailable && old(isSubmitting) ==>
        (alerts == old(alerts) && requests == old(requests) && isSubmitting && pending == old(pending))
      ensures store.backendAvailable && !old(isSubmitting) ==>
        (alerts == old(alerts) && requests == old(requests) + [Request(form)]
        && isSubmitting && pending == Some(form))
      ensures form == old(form)
    {
      if !store.backendAvailable {
        alerts := alerts + [BackendDownAlert];
        return;
      }
      if isSubmitting {
        return;
      }
      isSubmitting := true;
      pending := Some(form);
      requests := requests + [Request(form)];
    }

    /**
     * The start reply (`None`: the call threw). Success writes the started
     * record and opens the interview screen; failure alerts and lowers the
     * guard so the form can be sent again.
     */
    method Replied(reply: Option<StartResult>)
      requires Valid() && pending.Some?
      modifies this, store`interview, store`currentScreen
      ensures Valid()
      ensures pending == None && form == old(form) && requests == old(requests)
      ensures reply.Some? ==>
        (store.interview == Merge(old(store.interview), StartedPatch(old(pending.value), reply.value))
        && store.currentScreen == "interview" && isSubmitting && alerts == old(alerts))
      ensures reply.None? ==>
        (store.interview == old(store.interview) && store.currentScreen == old(store.currentScreen)
        && !isSubmitting && alerts == old(alerts) + [StartFailedAlert])
    {
      var sent := pending.value;
      pending := None;
      if reply.None? {
        alerts := alerts + [StartFailedAlert];
        isSubmitting := false;
        return;
      }
      store.UpdateInterview(StartedPatch(sent, reply.value));
      store.NavigateTo("interview");
    }
  }
}
