/**
 * The welcome screen of frontend/src/components/screens/WelcomeScreen.jsx:
 * the microphone permission flags it keeps and the gate in front of the
 * setup screen. The permission query, its later changes and the outcome of
 * the microphone request are inputs.
 */
module WelcomeScreen {
  import opened Wrappers
  import opened InterviewContext

  const BackendDownAlert := "Backend not available. Please check connection."
  const DeniedAlert := "Microphone access denied. Please enable microphone in your browser settings."
  const NoMicAlert := "No microphone found. Please check your device."
  const MicErrorPrefix := "Unable to access microphone: "

  /** `micAvailable` (`null` is `None`) and `permissionDenied`. */
  datatype Flags = Flags(micAvailable: Option<bool>, permissionDenied: bool)

  const InitialFlags := Flags(None, false)

  /** The flags after the first permission query reports `state`. */
  function Queried(f: Flags, state: string): (f': Flags)
    ensures state == "granted" ==> f' == Flags(Some(true), false)
    ensures state == "denied" ==> f' == Flags(Some(false), true)
    ensures state == "prompt" ==> f' == Flags(None, false)
    ensures state != "granted" && state != "denied" && state != "prompt" ==> f' == f
  {
    if state == "granted" then Flags(Some(true), false)
    else if state == "denied" then Flags(Some(false), true)
    else if state == "prompt" then Flags(None, false)
    else f
  }

  /** The flags after a later `change` event reports `state`: only granted and denied act. */
  function Changed(f: Flags, state: string): (f': Flags)
    ensures state == "granted" || state == "denied" ==> f' == Queried(f, state)
    ensures state != "granted" && state != "denied" ==> f' == f
  {
    if state == "granted" || state == "denied" then Queried(f, state) else f
  }

  /** A change to 'prompt' keeps what the flags said, unlike the first query. */
  lemma PromptChangeKeepsFlags(f: Flags)
    requires f.micAvailable.Some?
    ensures Changed(f, "prompt") == f && Queried(f, "prompt") != f
  {
  }

  /** The start button's `disabled`. */
  predicate StartDisabled(backendAvailable: bool, f: Flags)
  {
    !backendAvailable || f.permissionDenied
  }

  /** What `getUserMedia({ audio: true })` did: a stream, or an error with its name and message. */
  datatype MicRequest = Stream | Refused(name: string, message: string)

  /** The alert shown for a refused request. */
  function RefusalAlert(name: string, message: string): (a: string)
    ensures name == "NotAllowedError" ==> a == DeniedAlert
    ensures name == "NotFoundError" ==> a == NoMicAlert
    ensures name != "NotAllowedError" && name != "NotFoundError" ==> a == MicErrorPrefix + message
  {
    if name == "NotAllowedError" then DeniedAlert
    else if name == "NotFoundError" then NoMicAlert
    else MicErrorPrefix + message
  }

  /** The flags after a refused request: only a permission refusal marks the microphone denied. */
  function AfterRefusal(f: Flags, name: string): (f': Flags)
    ensures name == "NotAllowedError" ==> f' == Flags(Some(false), true)
    ensures name != "NotAllowedError" ==> f' == f
  {
    if name == "NotAllowedError" then Flags(Some(false), true) else f
  }

  /** After a permission refusal the start button stays disabled whatever the backend does. */
  lemma RefusalDisablesStart(f: Flags, message: string, backendAvailable: bool)
    ensures StartDisabled(backendAvailable, AfterRefusal(f, "NotAllowedError"))
  {
  }

  /** A granted permission leaves the button enabled exactly when the backend is up. */
  lemma GrantEnablesStart(f: Flags, backendAvailable: bool)
    ensures StartDisabled(backendAvailable, Queried(f, "granted")) <==> !backendAvailable
    ensures StartDisabled(backendAvailable, Changed(f, "granted")) <==> !backendAvailable
  {
  }

  class Welcome {
    const store: InterviewStore
    var flags: Flags
    var alerts: seq<string>

    constructor(store: InterviewStore)
      ensures this.store == store && flags == InitialFlags && alerts == []
    {
      this.store := store;
      flags := InitialFlags;
      alerts := [];
    }

    /**
     * `checkMicrophoneAccess`: the query's state (`None`: the Permissions
     * API threw, which leaves the microphone unknown).
     */
    method CheckMicrophoneAccess(state: Option<string>)
      modifies this`flags
      ensures flags == (if state.Some? then Queried(old(flags), state.value) else old(flags).(micAvailable := None))
    {
      if state.Some? {
        flags := Queried(flags, state.value);
      } else {
        flags := flags.(micAvailable := None);
      }
    }

    /** The permission status's `change` listener. */
    method PermissionChanged(state: string)
      modifies this`flags
      ensures flags == Changed(old(flags), state)
    {
      flags := Changed(flags, state);
    }

    /**
     * `handleStartInterview`: with the backend down only an alert; with the
     * microphone known to be available straight to setup; otherwise the
     * microphone is requested (`request`) and setup opens only when a stream
     * was granted.
     */
    method HandleStartInterview(request: MicRequest)
      modifies this, store`currentScreen
      ensures !store.backendAvailable ==>
        (alerts == old(alerts) + [BackendDownAlert] && flags == old(flags)
        && store.currentScreen == old(store.currentScreen))
      ensures store.backendAvailable && old(flags.micAvailable) == Some(true) ==>
        (alerts == old(alerts) && flags == old(flags) && store.currentScreen == "setup")
      ensures store.backendAvailable && old(flags.micAvailable) != Some(true) && request.Stream? ==>
        (alerts == old(alerts) && flags == Flags(Some(true), false) && store.currentScreen == "setup")
      ensures store.backendAvailable && old(flags.micAvailable) != Some(true) && request.Refused? ==>
        (alerts == old(alerts) + [RefusalAlert(request.name, request.message)]
        && flags == AfterRefusal(old(flags), request.name)
        && store.currentScreen == old(store.currentScreen))
    {
      if !store.backendAvailable {
        alerts := alerts + [BackendDownAlert];
        return;
      }
      if flags.micAvailable != Some(true) {
        match request {
          case Stream =>
            flags := Flags(Some(true), false);
            store.NavigateTo("setup");
          case Refused(name, message) =>
            flags := AfterRefusal(flags, name);
            alerts := alerts + [RefusalAlert(name, message)];
        }
      } else {
        store.NavigateTo("setup");
      }
    }

    predicate StartButtonDisabled()
      reads this, store
    {
      StartDisabled(store.backendAvailable, flags)
    }
  }
}
