# Spoken interview coach — a Dafny model

The system is a spoken mock-interview application. The candidate picks a
role and an experience level. A Python backend then runs the interview
as a graph of nodes. It asks a question, waits for the answer, evaluates
it, adapts the difficulty, and after the sixth evaluated answer closes
with a summary and a verdict. The browser clients speak each question,
record the spoken answer through a speech recognizer, post the answer
text, and branch on the reply: a coach feedback step, the next question,
or the results.

This project models the decision logic of both sides:

- **Turn orchestrator.** The React interview screen
  (`InterviewScreen.jsx`) is the class `InterviewScreen.Screen`. Each
  event handler is a method. Speech completion, recognition results and
  server replies are method parameters. Requests, alerts and speech are
  recorded as effects.
- **Shared record.** The interview record and its shallow-merge update
  (`InterviewContext.jsx`) are `InterviewContext.Merge` over a `Patch`,
  held by the class `InterviewStore`.
- **Earlier clients.** The plain-JavaScript client (`app.js`) is the
  class `LegacyApp.App`. The Next.js page (`page.tsx`) is the class
  `VoicePage.Page`, plus the retry loop `Retry.FetchWithRetry`.
- **Speech adapter.** `azureSpeech.js` becomes the classes
  `SpeechAdapter.TokenCache` and `SpeechAdapter.AzureRecognizer`. The
  clock is a `now` parameter.
- **Small screens.** The setup, welcome and review-card components are
  modelled.
- **Backend engine.** `agents.py`, `nodes.py`, `graph.py` and `main.py`
  are pure functions. The language model's outputs are free inputs.
- **Recognition results.** Both recognition result shapes and the three
  ways the clients accumulate text are specified by functions in
  `Transcript`. The loops that compute them are methods proved against
  those functions.
- **Integration.** `Integration` connects the server's responses to
  both clients. It also runs a whole strict session from the seeded
  state to the final response.

A few behaviours of the code differ from the comments written beside it;
the model follows the code:

- The silence auto-stop needs strictly more than 5000 ms of silence
  (`SILENCE_THRESHOLD`, page.tsx:189), although the comment at
  page.tsx:207 speaks of 3 seconds.
- The comment at page.tsx:357 lists three delays, 1 s, 1.5 s and 2.25 s.
  With the default three attempts only two are waited: no backoff
  follows the last attempt.
- The comment at page.tsx:95 says the session ends at 0. When the
  countdown reaches 1, the page instead resets itself two seconds
  later; nothing tells the server the session has ended.
- The interview screen has no guard against a second submission of the
  same answer.

## Model

| member | source | states |
|---|---|---|
| Text.TrimIdempotent | frontend/src/components/screens/InterviewScreen.jsx:130 | trimming (JavaScript whitespace) twice is trimming once |
| Text.TrimSkipsLeadingSpace | frontend/src/components/screens/InterviewScreen.jsx:130 | leading whitespace never changes the trimmed text |
| Text.JoinSnoc | backend/agents.py:14-15 | joining one more part appends the separator and that part |
| Text.DecimalRoundTrip | frontend/voice-interviewer/app/page.tsx:113 | the decimal rendering of a number reads back as that number |
| Text.PadStart | frontend/voice-interviewer/app/page.tsx:113 | padding reaches the width (or keeps a longer string), keeps the string as a suffix and fills only with the pad character |
| Roles.Lookup | frontend/src/components/screens/SetupScreen.jsx:49-50 | a table hit gives the table value; otherwise a non-empty raw value; otherwise the fallback; never empty |
| Roles.MapRoleIdempotent | frontend/js/app.js:608 | normalising an already normalised role changes nothing |
| Roles.MapExperienceIdempotent | frontend/js/app.js:609 | normalising an already normalised experience level changes nothing |
| SetupScreen.WithInput | frontend/src/components/screens/SetupScreen.jsx:15-18 | an input change overwrites exactly the named form field |
| SetupScreen.Persona | frontend/src/components/screens/SetupScreen.jsx:55 | the persona is "coach" exactly when the form says "coach", else "strict" |
| SetupScreen.Request | frontend/src/components/screens/SetupScreen.jsx:34-55 | the start request carries the mapped role and experience, the job description and the normalised persona |
| SetupScreen.StartedRecord | frontend/src/components/screens/SetupScreen.jsx:57-67 | a successful start stores question number 1, the question as current and spoken text, the session id, the mapped fields, the persona and job description (default ""), and leaves answers, counters, feedback and summary alone |
| SetupScreen.Setup.Submit | frontend/src/components/screens/SetupScreen.jsx:20-32 | backend down: alert only; already submitting: nothing; else one request sent and the form held pending |
| SetupScreen.Setup.Replied | frontend/src/components/screens/SetupScreen.jsx:53-75 | success merges the started record and opens the interview; failure alerts and clears the submitting flag so the form can be sent again |
| InterviewContext.MergeKeepsUnsupplied | frontend/src/context/InterviewContext.jsx:68-70 | a field the update does not supply keeps its previous value |
| InterviewContext.MergeOverwritesSupplied | frontend/src/context/InterviewContext.jsx:68-70 | a supplied field's value is the supplied one, whatever the previous record |
| InterviewContext.MergeComposes | frontend/src/context/InterviewContext.jsx:68-70 | two successive updates equal one combined update, the later winning |
| InterviewContext.MergeIdentity | frontend/src/context/InterviewContext.jsx:68-70 | an empty update changes nothing |
| InterviewContext.PreferredTheme | frontend/src/context/InterviewContext.jsx:19-24 | a stored "light" or "dark" wins; otherwise dark exactly when the system prefers dark |
| InterviewContext.ToggleInvolution | frontend/src/context/InterviewContext.jsx:72-74 | toggling the theme twice restores it |
| InterviewContext.InterviewStore.constructor | frontend/src/context/InterviewContext.jsx:15-57 | starts on "welcome", backend unavailable, with the preferred theme and the initial record (question 0 of 5, no answers, zero counters) |
| InterviewContext.InterviewStore.HealthChecked | frontend/src/context/InterviewContext.jsx:60-66 | the availability flag is the truthiness of the health result |
| InterviewContext.InterviewStore.UpdateInterview | frontend/src/context/InterviewContext.jsx:68-70 | the record becomes the merge of the old record and the update |
| InterviewContext.InterviewStore.ToggleTheme | frontend/src/context/InterviewContext.jsx:72-74 | the theme swaps |
| InterviewContext.InterviewStore.NavigateTo | frontend/src/context/InterviewContext.jsx:76-78 | the current screen becomes the argument |
| QAReview.ScoreLabel | frontend/src/components/QAReviewCard.jsx:12-14 | "Strong Answer" iff score ≥ 7, "Good Attempt" iff 5 ≤ score < 7, "Needs Review" iff score < 5 |
| QAReview.ColorMatchesLabel | frontend/src/components/QAReviewCard.jsx:8-14 | the colour band always agrees with the label band |
| QAReview.LabelMonotone | frontend/src/components/QAReviewCard.jsx:12-14 | a higher score never gets a lower label |
| QAReview.Render | frontend/src/components/QAReviewCard.jsx:6-14 | no feedback renders nothing; otherwise the header shows the label, its colour and the question number |
| QAReview.Card.constructor | frontend/src/components/QAReviewCard.jsx:4 | a card starts expanded iff its index is 0 |
| QAReview.Card.Click | frontend/src/components/QAReviewCard.jsx:20 | a click toggles the card |
| WelcomeScreen.Queried | frontend/src/components/screens/WelcomeScreen.jsx:18-27 | granted → (mic, not denied), denied → (no mic, denied), prompt → (unknown, not denied), other states change nothing |
| WelcomeScreen.Changed | frontend/src/components/screens/WelcomeScreen.jsx:29-37 | later changes update the flags only for granted and denied |
| WelcomeScreen.PromptChangeKeepsFlags | frontend/src/components/screens/WelcomeScreen.jsx:24-37 | a change to "prompt" keeps known flags, unlike the first query |
| WelcomeScreen.RefusalAlert | frontend/src/components/screens/WelcomeScreen.jsx:60-69 | the alert for a refused microphone request, by error name |
| WelcomeScreen.AfterRefusal | frontend/src/components/screens/WelcomeScreen.jsx:60-63 | only NotAllowedError marks the microphone denied |
| WelcomeScreen.RefusalDisablesStart | frontend/src/components/screens/WelcomeScreen.jsx:60-63 | after a NotAllowedError the start button is disabled |
| WelcomeScreen.GrantEnablesStart | frontend/src/components/screens/WelcomeScreen.jsx:18-37 | after a grant the start button is disabled iff the backend is unavailable |
| WelcomeScreen.Welcome.CheckMicrophoneAccess | frontend/src/components/screens/WelcomeScreen.jsx:14-42 | the queried state sets the flags; without the permissions interface the microphone is unknown |
| WelcomeScreen.Welcome.PermissionChanged | frontend/src/components/screens/WelcomeScreen.jsx:29-37 | a permission change applies the change mapping |
| WelcomeScreen.Welcome.HandleStartInterview | frontend/src/components/screens/WelcomeScreen.jsx:44-75 | backend down: alert only; microphone known: go to setup; else a granted request goes to setup and a refused one alerts and stays |
| SpeechAdapter.TokenCache.GetToken | frontend/src/utils/azureSpeech.js:10-34 | fetches iff no token is cached or now ≥ expiry; a cached token is returned unchanged; a good fetch caches for 540000 ms; a bad or thrown fetch fails and keeps the cache |
| SpeechAdapter.RefetchWindow | frontend/src/utils/azureSpeech.js:12-27 | a second request after a successful fetch refetches iff it comes 540000 ms or more later |
| SpeechAdapter.RecognizingEvent | frontend/src/utils/azureSpeech.js:81-95 | an interim SDK result becomes one non-final result at index 0, and nothing else does |
| SpeechAdapter.RecognizedEvent | frontend/src/utils/azureSpeech.js:97-113 | a final SDK result with text becomes one final result at index 0; NoMatch and empty text emit nothing |
| SpeechAdapter.AzureRecognizer.Start | frontend/src/utils/azureSpeech.js:52-153 | without the SDK only "sdk-not-loaded" is reported; a token failure reports the fetch's message (or "Failed to get speech token") and leaves the cache alone; a fresh cached token is reused unchanged, a good fetch is cached for 540000 ms; otherwise a recognizer exists, the transcript is reset and recording starts or its error is reported |
| SpeechAdapter.AzureRecognizer.Recognizing | frontend/src/utils/azureSpeech.js:81-95 | emits the normalised interim event |
| SpeechAdapter.AzureRecognizer.Recognized | frontend/src/utils/azureSpeech.js:97-113 | emits the normalised final event |
| SpeechAdapter.AzureRecognizer.Stop | frontend/src/utils/azureSpeech.js:155-179 | acts only with a recognizer while recording: clears recording and the recognizer, and fires end on success |
| SpeechAdapter.AzureRecognizer.Abort | frontend/src/utils/azureSpeech.js:181-183 | behaves exactly as stop |
| SpeechAdapter.AzureRecognizer.Canceled | frontend/src/utils/azureSpeech.js:115-121 | reports the error details (default "canceled") and then stops |
| SpeechAdapter.AzureRecognizer.SessionStopped | frontend/src/utils/azureSpeech.js:123-128 | fires end |
| SpeechAdapter.StopTwice | frontend/src/utils/azureSpeech.js:155-179 | a second stop after a completed one is a no-op: it adds no end event |
| SpeechAdapter.CreateSpeechRecognizer | frontend/src/utils/azureSpeech.js:192-207 | Azure iff its SDK is loaded; else the browser recognizer (continuous, interim, en-US); else the "No speech recognition available" error |
| SpeechAdapter.SpeakText | frontend/src/utils/azureSpeech.js:210-258 | rejects without the SDK; rejects with the token failure's message or the synthesis error's details; resolves iff the token is obtained and synthesis completes; the token cache as for `Start` |
| Transcript.SingleResult | frontend/src/components/screens/InterviewScreen.jsx:93-103 | one final result commits its text plus a space; one interim result is only interim |
| Transcript.ScanCommittedAndInterim | frontend/src/components/screens/InterviewScreen.jsx:91-103 | the loop from `resultIndex` computes the committed and interim text of the event's window |
| Transcript.ScanFinalAndInterim | frontend/voice-interviewer/app/page.tsx:220-231 | the loop computes the new final and the interim text of the window |
| Transcript.CommittedAppend | frontend/js/app.js:168-176 | committed text distributes over consecutive results |
| Transcript.InterimAppend | frontend/src/components/screens/InterviewScreen.jsx:93-103 | interim text is the concatenation over results |
| Transcript.FinalAppend | frontend/voice-interviewer/app/page.tsx:223-231 | new final text is the concatenation over results |
| Transcript.NoFinalCommitsNothing | frontend/src/components/screens/InterviewScreen.jsx:98-102 | an event without final results commits nothing |
| InterviewScreen.Branch | frontend/src/components/screens/InterviewScreen.jsx:232-334 | feedback step iff not final and step "feedback"; next question iff not final, not feedback and a question; otherwise finished |
| InterviewScreen.LogWith | frontend/src/components/screens/InterviewScreen.jsx:241-261 | with an evaluation exactly one entry is appended, with the submission's number, question and answer, the score and the feedback, missing strengths and weaknesses as []; without one the log is unchanged |
| InterviewScreen.AnswerToSend | frontend/src/components/screens/InterviewScreen.jsx:130 | the trimmed committed text, or if that is empty the trimmed displayed text; empty iff both are blank |
| InterviewScreen.InterimOnlyAnswer | frontend/src/components/screens/InterviewScreen.jsx:105-130 | with nothing committed, the answer is the trimmed interim text |
| InterviewScreen.DwellPanel | frontend/src/components/screens/InterviewScreen.jsx:215-218 | the corrected dwell timer moves evaluating to generating and leaves every other panel, so the feedback actions stay |
| InterviewScreen.DwellAsWrittenHidesFeedback | frontend/src/components/screens/InterviewScreen.jsx:215-218 | as written, the timer replaces the coach feedback panel and its buttons |
| InterviewScreen.SubmitStarted | frontend/src/components/screens/InterviewScreen.jsx:206-223 | a skip enters skipping and arms no timer; an answer enters evaluating and arms one; the transcript clears and exactly one answer post is made |
| InterviewScreen.StartRecordingWhileRecording | frontend/src/components/screens/InterviewScreen.jsx:71-74 | starting while a recognizer records changes nothing |
| InterviewScreen.StartRecordingStarts | frontend/src/components/screens/InterviewScreen.jsx:76-156 | otherwise the refs and flag reset and the chosen recognizer starts |
| InterviewScreen.StartRecordingUnavailable | frontend/src/components/screens/InterviewScreen.jsx:157-161 | without a recognizer the start fails with an alert and recording is off |
| InterviewScreen.AfterAnswer | frontend/src/components/screens/InterviewScreen.jsx:222-370 | the screen after each of the three branches and after a failed call (an alert only) |
| InterviewScreen.AnswerAlwaysRecorded | frontend/src/components/screens/InterviewScreen.jsx:226-362 | every successful reply appends exactly one answer entry (question and answer of the submission) |
| InterviewScreen.FeedbackStepRecord | frontend/src/components/screens/InterviewScreen.jsx:262-271 | the feedback step stores the feedback and the answer and keeps the question number |
| InterviewScreen.NextQuestionRecord | frontend/src/components/screens/InterviewScreen.jsx:320-332 | a next question advances the question number by exactly one from the submitted one |
| InterviewScreen.FinishedRecord | frontend/src/components/screens/InterviewScreen.jsx:339-365 | the final branch stores the summary, the answer and the feedback log |
| InterviewScreen.ExitKeepsCounters | frontend/src/components/screens/InterviewScreen.jsx:478-492 | leaving clears the session, question number, answers and summary but keeps the counters and the feedback log |
| InterviewScreen.Screen.constructor | frontend/src/components/screens/InterviewScreen.jsx:11-23 | the screen starts speaking with empty refs |
| InterviewScreen.Screen.StartRecording | frontend/src/components/screens/InterviewScreen.jsx:67-162 | the start as specified by `StartRecordingPost` |
| InterviewScreen.Screen.SpeakQuestion | frontend/src/components/screens/InterviewScreen.jsx:26-51 | a question is spoken at most once (single-flight flag); with no text the screen goes straight to listening |
| InterviewScreen.Screen.SpeechSettled | frontend/src/components/screens/InterviewScreen.jsx:32-43 | success and failure of question speech both reach listening and start recording |
| InterviewScreen.Screen.OnStart | frontend/src/components/screens/InterviewScreen.jsx:84-88 | recording on, panel listening |
| InterviewScreen.Screen.OnResult | frontend/src/components/screens/InterviewScreen.jsx:90-108 | committed text grows by the event's committed text; the displayed transcript is committed plus interim |
| InterviewScreen.Screen.OnError | frontend/src/components/screens/InterviewScreen.jsx:110-119 | alert, recording off, panel stays listening |
| InterviewScreen.Screen.OnEnd | frontend/src/components/screens/InterviewScreen.jsx:122-151 | after a user stop the answer to send is submitted and the flag cleared; otherwise recording restarts only if the recognizer was started from a render showing 'listening'. Recording is only started from renders showing 'speaking' or 'coach-feedback', so an unexpected end changes nothing |
| InterviewScreen.Screen.HandleDoneSpeaking | frontend/src/components/screens/InterviewScreen.jsx:164-179 | marks the user stop and stops a held recognizer |
| InterviewScreen.Screen.DwellElapsed | frontend/src/components/screens/InterviewScreen.jsx:214-218 | the 2000 ms timer applies the corrected dwell panel and the last-question loading flag |
| InterviewScreen.Screen.AnswerArrived | frontend/src/components/screens/InterviewScreen.jsx:222-370 | the reply updates screen, record and screen name together; a failure changes neither answers nor question number |
| InterviewScreen.Screen.ClickHint | frontend/src/components/screens/InterviewScreen.jsx:181-184 | no session: nothing; else one hint request |
| InterviewScreen.Screen.HintArrived | frontend/src/components/screens/InterviewScreen.jsx:185-203 | hints used goes up by exactly one only on success |
| InterviewScreen.Screen.ProceedAfterFeedback | frontend/src/components/screens/InterviewScreen.jsx:373-391 | from the feedback panel, success takes the next question and adds exactly one to the question number |
| InterviewScreen.Screen.TryAgainSameQuestion | frontend/src/components/screens/InterviewScreen.jsx:393-421 | the question number never changes; the question is spoken again or recording restarts |
| InterviewScreen.Screen.SkipQuestion | frontend/src/components/screens/InterviewScreen.jsx:425-441 | skips go up by exactly one and "" is submitted as a skip |
| InterviewScreen.Screen.EndSession | frontend/src/components/screens/InterviewScreen.jsx:443-465 | single-flight; a reply opens the results, storing a final summary |
| InterviewScreen.Screen.HandleLogoClick | frontend/src/components/screens/InterviewScreen.jsx:467-495 | only after confirmation: stop, end request, reset record, go to welcome |
| InterviewScreen.Screen.Unmount | frontend/src/components/screens/InterviewScreen.jsx:54-60 | a held recognizer is stopped |
| LegacyApp.Answered | frontend/js/app.js:302-315 | exactly one answer is pushed; the question number goes up by one iff not final and a question came back |
| LegacyApp.AnsweredScreen | frontend/js/app.js:310-357 | "speaking-2" iff the interview continues, else "results" |
| LegacyApp.AfterSubmit | frontend/js/app.js:247-361 | the recognition is always released; a failed call changes nothing else |
| LegacyApp.SubmitEffects | frontend/js/app.js:248-361 | the answer is always posted, a held recognition aborted, and an alert raised iff the call failed |
| LegacyApp.SubmitAllCounts | frontend/js/app.js:302-314 | over any run of submissions the log grows by one per success (old entries kept) and the number by one per continuing reply |
| LegacyApp.SetUp | frontend/js/app.js:608-612 | mapped role and experience, display name, job description default "", persona default "strict" |
| LegacyApp.Started | frontend/js/app.js:626-636 | a start sets question number 1, the question and its audio |
| LegacyApp.DefaultSetup | frontend/js/app.js:611-612 | an empty form gives persona "strict" and job description "" |
| LegacyApp.EndedSubmitsTrimmed | frontend/js/app.js:207-214 | recognition end stops recording and submits the trimmed transcript, even when blank |
| LegacyApp.App.Initialise | frontend/js/app.js:654-677 | availability iff the health check's result is truthy, the warning alert otherwise (a failed check returns `null`), welcome screen |
| LegacyApp.App.LoadScreen | frontend/js/app.js:45-50 | an unknown screen name changes nothing |
| LegacyApp.App.HandleStartInterview | frontend/js/app.js:566-579 | setup only while the backend is available |
| LegacyApp.App.StartRecording | frontend/js/app.js:143-158 | unsupported: alert; else the transcript resets and recognition starts |
| LegacyApp.App.OnStart | frontend/js/app.js:160-163 | recording on |
| LegacyApp.App.OnResult | frontend/js/app.js:165-179 | finals accumulate with a trailing space; the display is committed plus interim |
| LegacyApp.App.OnError | frontend/js/app.js:202-205 | recording off |
| LegacyApp.App.DoneSpeaking | frontend/js/app.js:229-233 | stops a held recognition |
| LegacyApp.App.SubmitAnswer | frontend/js/app.js:243-362 | the turn, effects and screen of a submission |
| LegacyApp.App.OnEnd | frontend/js/app.js:207-214 | submits the trimmed transcript |
| LegacyApp.App.HandleSetupComplete | frontend/js/app.js:582-645 | refused while the backend is down; else the set-up fields, then a start or an alert and welcome |
| Retry.BackoffGrows | frontend/voice-interviewer/app/page.tsx:358 | the first delay is 1000 ms and each next one is 1.5 times the previous |
| Retry.Caught | frontend/voice-interviewer/app/page.tsx:343-357 | a throw is caught as its message; a response becomes an error only when neither ok nor 4xx and attempts remain |
| Retry.AfterAfter | frontend/voice-interviewer/app/page.tsx:341-364 | counting fetches and delays composes across attempts |
| Retry.FetchWithRetry | frontend/voice-interviewer/app/page.tsx:336-365 | the loop's outcome, fetch count and delays equal the specification `FetchRun` |
| Retry.ClientErrorNotRetried | frontend/voice-interviewer/app/page.tsx:346-348 | a 4xx on any attempt is returned at once: one more fetch, no delay, no further attempt |
| Retry.ClientErrorAfterRetries | frontend/voice-interviewer/app/page.tsx:341-361 | if attempts before the k-th throw or answer neither ok nor 4xx and the k-th answers 4xx, that response is returned after the remaining fetches and the backoffs between them |
| Retry.FirstClientErrorReturned | frontend/voice-interviewer/app/page.tsx:341-361 | from the first attempt: the k-th fetch's 4xx is returned after k fetches and the k−1 backoffs 1000·1.5^(i−1) |
| Retry.LastResponseReturned | frontend/voice-interviewer/app/page.tsx:349-353 | the last attempt's response is returned as is |
| Retry.RetryShape | frontend/voice-interviewer/app/page.tsx:341-364 | fetches stay within the remaining attempts, one delay between consecutive fetches, none after the last, delays following the backoff |
| Retry.FetchesBounded | frontend/voice-interviewer/app/page.tsx:341-364 | at most `maxRetries` fetches, delays 1000·1.5^(k−1) |
| Retry.NoAttempts | frontend/voice-interviewer/app/page.tsx:364 | with no attempts allowed, "Max retries exceeded" and no fetch |
| Retry.AllThrownFrom | frontend/voice-interviewer/app/page.tsx:354-364 | if every remaining attempt throws, the last error is rethrown |
| Retry.AllThrownRethrowsLast | frontend/voice-interviewer/app/page.tsx:354-364 | if every attempt throws, the last error is rethrown |
| Retry.DefaultBackoff | frontend/voice-interviewer/app/page.tsx:336-358 | with the default 3 attempts the delays are 1000 then 1500 ms |
| Retry.ReturnedStatus | frontend/voice-interviewer/app/page.tsx:343-353 | a returned response is ok, a 4xx, or the last attempt's |
| VoicePage.SilenceBoundary | frontend/voice-interviewer/app/page.tsx:189-219 | exactly 5000 ms of silence does not stop, 5001 does; a result resets the wait; exceeding persists |
| VoicePage.RecognitionError | frontend/voice-interviewer/app/page.tsx:240-249 | unknown codes get the generic message |
| VoicePage.AnswerAfter | frontend/voice-interviewer/app/page.tsx:233-235 | new final text is appended after a space and the whole trimmed; no final text keeps the answer |
| VoicePage.FirstFinalResult | frontend/voice-interviewer/app/page.tsx:233-235 | the first final text becomes the trimmed answer |
| VoicePage.FinalAnswer | frontend/voice-interviewer/app/page.tsx:414 | a blank answer is sent as "The user did not provide an answer", else trimmed; never empty |
| VoicePage.ValidateInputs | frontend/voice-interviewer/app/page.tsx:322-332 | valid iff both fields are non-blank with a `length` of at least two UTF-16 code units; the role's message first |
| VoicePage.PadTwo | frontend/voice-interviewer/app/page.tsx:113 | a number below 100 pads to two digits that read back as it |
| VoicePage.ClockReadsBack | frontend/voice-interviewer/app/page.tsx:113 | "MM:SS" shows the minutes and the seconds |
| VoicePage.FormatTimeReadsBack | frontend/voice-interviewer/app/page.tsx:110-114 | formatTime shows seconds div 60 and seconds mod 60 as two zero-padded digits each |
| VoicePage.CountdownEffect | frontend/voice-interviewer/app/page.tsx:87-107 | the interval runs while above 1; at 1 the reset is scheduled |
| VoicePage.CountdownMessage | frontend/voice-interviewer/app/page.tsx:91-98 | the warning exactly at 300 and the timeout message at 1 |
| VoicePage.Tick | frontend/voice-interviewer/app/page.tsx:102-104 | an armed tick decrements by exactly one |
| VoicePage.CountdownRuns | frontend/voice-interviewer/app/page.tsx:87-107 | n ticks take n seconds off, the countdown stops at 1 and the reset is then due |
| VoicePage.SessionCountdown | frontend/voice-interviewer/app/page.tsx:82-107 | from 1800 the warning shows after 1500 ticks and the timeout after 1799 |
| VoicePage.WarningShowsFiveMinutes | frontend/voice-interviewer/app/page.tsx:91-114 | 300 s formats as 05:00 |
| VoicePage.ReRecordCapture | frontend/voice-interviewer/app/page.tsx:649 | the corrected re-record never arms the silence check |
| VoicePage.ReRecordAsWrittenArmsSilence | frontend/voice-interviewer/app/page.tsx:203-206 | as written, a re-record from review mode arms the silence auto-stop |
| VoicePage.Replied | frontend/voice-interviewer/app/page.tsx:426-451 | a failure shows its message and keeps the answer; a body clears it, leaves review mode and shows the next question or the closing |
| VoicePage.FailedSubmitKeepsAnswer | frontend/voice-interviewer/app/page.tsx:445-451 | a failure keeps the answer and question, and repeating it changes nothing more |
| VoicePage.SubmittedPostsOnce | frontend/voice-interviewer/app/page.tsx:405-452 | with a session exactly one non-empty answer is posted, then the reply's audio; without one nothing happens |
| VoicePage.Page.StartRecording | frontend/voice-interviewer/app/page.tsx:169-280 | no recognizer: error; else a held recognizer is stopped and a new one started, capturing the manual flag |
| VoicePage.Page.OnStart | frontend/voice-interviewer/app/page.tsx:191-216 | recording, unpaused, clock reset; silence check armed only outside manual mode |
| VoicePage.Page.SilenceCheck | frontend/voice-interviewer/app/page.tsx:204-214 | stops recognition only when armed and the silence exceeds the threshold |
| VoicePage.Page.OnResult | frontend/voice-interviewer/app/page.tsx:218-238 | resets the silence clock, replaces the interim display, appends the new final text |
| VoicePage.Page.OnError | frontend/voice-interviewer/app/page.tsx:240-257 | shows the message, stops recording and the silence check |
| VoicePage.Page.OnEnd | frontend/voice-interviewer/app/page.tsx:259-272 | review mode iff neither paused nor manual |
| VoicePage.Page.StopRecording | frontend/voice-interviewer/app/page.tsx:282-294 | stops everything and leaves manual mode |
| VoicePage.Page.TogglePause | frontend/voice-interviewer/app/page.tsx:296-314 | nothing without a recognizer; pause stops, resume starts, a failed resume restarts |
| VoicePage.Page.ReRecord | frontend/voice-interviewer/app/page.tsx:649 | corrected behaviour (see Findings): clears the answer, enters manual mode and starts recording without the silence check |
| VoicePage.Page.RecordingTick | frontend/voice-interviewer/app/page.tsx:67-75 | the recording time counts only while recording |
| VoicePage.Page.SessionStarted | frontend/voice-interviewer/app/page.tsx:78-85 | a new session sets the countdown to 1800 |
| VoicePage.Page.CountdownTick | frontend/voice-interviewer/app/page.tsx:87-107 | one countdown step and its message |
| VoicePage.Page.ResetInterview | frontend/voice-interviewer/app/page.tsx:454-483 | everything back to the initial page, countdown 0; a reset already scheduled by the timeout stays scheduled |
| VoicePage.Page.TimeoutReset | frontend/voice-interviewer/app/page.tsx:98 | the pending reset clears the session and is no longer pending |
| VoicePage.Page.SendAnswer | frontend/voice-interviewer/app/page.tsx:405-452 | the page and requests as `Submitted` specifies |
| VoicePage.Page.SubmitClicked | frontend/voice-interviewer/app/page.tsx:656 | disabled while loading, playing or recording; otherwise leaves review mode and sends the answer, so review mode is off afterwards whatever the reply |
| VoicePage.Page.SubmitShortcut | frontend/voice-interviewer/app/page.tsx:119-124 | Ctrl/Cmd+Enter sends only with a session, nothing loading and a non-blank answer under review, leaving review mode |
| VoicePage.AstralRoleAccepted | frontend/voice-interviewer/app/page.tsx:323 | a role of one character outside the Basic Multilingual Plane has length 2 and is accepted |
| Text.Utf16Length | frontend/voice-interviewer/app/page.tsx:323 | JavaScript's `length` lies between the number of characters and twice that |
| VoicePage.Page.AudioStarted | frontend/voice-interviewer/app/page.tsx:153 | audio playing |
| VoicePage.Page.AudioEnded | frontend/voice-interviewer/app/page.tsx:154-158 | audio stops and recording starts |
| Agents.Decide | backend/agents.py:187-207 | score < 5: easy and weak topic; ≥ 7: hard, no topic; otherwise the difficulty is kept; end iff question count ≥ 5 |
| Agents.WeakTopicIffEasier | backend/agents.py:191-197 | a topic is recorded exactly when the difficulty drops to easy |
| Agents.Average | backend/agents.py:215-219 | 0.0 for no scores, else the average times the count is the sum |
| Agents.SumBounds | backend/agents.py:216 | scores within bounds sum within count times the bounds |
| Agents.AverageBounds | backend/agents.py:215-219 | the average of scores within a range lies in that range |
| Agents.Verdict | backend/agents.py:222-231 | the five verdict bands at 8, 7, 6 and 5 |
| Agents.VerdictMonotone | backend/agents.py:222-231 | a higher average never gets a worse verdict |
| Agents.Summarise | backend/agents.py:233-237 | the summary's weak topics, average and matching verdict |
| Agents.AllStrongIsExcellent | backend/agents.py:215-223 | all scores at least 8 give "Excellent performance" |
| Agents.WeakTopicsLine | backend/agents.py:14 | the topics joined with ", ", or "None" |
| Agents.Bullets | backend/agents.py:15 | each question becomes "- q" |
| Agents.PreviousQuestionsShape | backend/agents.py:15 | "None" before any question; each further question adds one "\n- q" line |
| Nodes.ApplyKeepsOthers | backend/nodes.py:24-101 | a key a node does not return keeps its value |
| Nodes.AskQuestion | backend/nodes.py:24-28 | the new question is current and appended to the asked list |
| Nodes.AwaitAnswer | backend/nodes.py:38-39 | the resumed answer is stored |
| Nodes.Evaluate | backend/nodes.py:50-54 | the evaluation is stored and exactly its score appended |
| Nodes.Decision | backend/nodes.py:77-88 | difficulty and end flag from the decision, count up by one, the topic added iff the decision says so |
| Nodes.DecisionWeakTopics | backend/nodes.py:79-81 | a weak answer adds its topic; any other answer leaves the topics alone |
| Nodes.Transition | backend/nodes.py:90-92 | stores the spoken transition only |
| Nodes.End | backend/nodes.py:94-101 | stores the summary of the history and the closing |
| Graph.NextFollowsEdges | backend/graph.py:28-79 | the successor function is exactly the edge table plus the routed edge out of decide |
| Graph.StrictNeverAwaitsContinue | backend/graph.py:19-42 | the strict graph never declares or reaches await_continue |
| Graph.CoachGatesDecision | backend/graph.py:64-66 | in the coach graph evaluate always passes through await_continue before decide |
| Graph.StrictSuccessors | backend/graph.py:28-42 | strict nodes have one successor; decide goes to end iff the interview is over |
| Graph.CoachDecideFansOut | backend/graph.py:67-77 | coach decide reaches transition always and end too when the interview is over |
| Graph.CycleFollowsEdges | backend/graph.py:26-42 | the strict question cycle follows the graph's edges |
| Graph.Round | backend/graph.py:28-30 | one round adds one to the count, one score and one question |
| Graph.Cycle | backend/graph.py:31-42 | the round followed by the end (summary and closing) or by the transition |
| Graph.RunCounts | backend/graph.py:26-42 | n cycles add n to the count, the scores and the asked list |
| Graph.SixthAnswerEnds | backend/agents.py:201 | from count 0 no decision before the sixth answer ends the interview; the sixth does |
| Graph.NoSummaryBeforeEnd | backend/nodes.py:84-86 | before the sixth answer there is no summary |
| Server.StartState | backend/main.py:68-89 | the seeded state: easy, count 0, empty histories and topics, not ended |
| Server.StartResponse | backend/main.py:96-107 | 500 iff no interrupt, else the session with the prompted question |
| Server.SpokenText | backend/main.py:151-155 | transition, space and question, or the question alone |
| Server.SpokenTextEndsWithQuestion | backend/main.py:151-155 | the question is always spoken in full, last |
| Server.AnswerResponse | backend/main.py:125-164 | summary first (500 without the closing), then 500 without an interrupt, else the next question with its transition |
| Server.SummaryWins | backend/main.py:125-140 | a state with a summary always gives the final response |
| Integration.ClientSummary | backend/agents.py:233-237 | the client sees the average, the listed topics and the verdict |
| Integration.ScreenReply | backend/main.py:125-164 | the interview screen reads a final or a continuing response; errors reach it as failures |
| Integration.LegacyReply | backend/main.py:125-164 | the first client reads the same responses |
| Integration.ScreenBranchOfResponse | frontend/src/components/screens/InterviewScreen.jsx:232-365 | against this server the screen never takes the feedback step |
| Integration.ClientsAgree | frontend/js/app.js:310 | both clients agree on whether a response continues |
| Integration.StrictSession | backend/main.py:64-164 | answers one to five each get the next question after the transition; the sixth gets the final summary of six scores and the closing |

## Findings

| source | as written | input that shows it | evidently intended | confidence | as-written member | corrected member |
|---|---|---|---|---|---|---|
| frontend/src/components/screens/InterviewScreen.jsx:215-218 | the 2000 ms timer sets the panel to "generating" whatever it shows | a coach reply that arrives within 2 s of the submit shows the feedback panel, and the timer then replaces it with "generating", hiding Try Again and Next Question | switch to "generating" only from "evaluating" | medium, not executed | InterviewScreen.DwellAsWrittenHidesFeedback | InterviewScreen.DwellPanel |
| frontend/voice-interviewer/app/page.tsx:649 | the Re-record button sets `manualRecording` and calls `startRecording()` in one handler, so the new `onstart` still sees `false` | re-record from review mode (entered only with `manualRecording` false), then stay silent for 5 s: the manual recording auto-stops | re-record mode disarms the silence check for the new recording | medium, not executed | VoicePage.ReRecordAsWrittenArmsSilence | VoicePage.ReRecordCapture |

## Left out

- All JSX markup, CSS and animations, and the presentation-only files: `ScreenManager.jsx`, `App.jsx`, `router.js` and `tailwind-config.js`.
- `ResultsScreen.jsx`: display and PDF export only.
- The `app.js` iframe handling: the fade timers in `loadScreen`, `setupIframeMessaging` and the `innerHTML` panels.
- `api.js` (both copies): fetch wrappers whose results are method parameters. `playAudioFromBase64` and `recordAudio` are browser audio plumbing.
- Language-model calls, prompt wording, speech synthesis, Whisper, and the base64 encoding in `main.py`. Their outputs are free inputs.
- FastAPI routing, CORS and the debug prints.
- `feedback_node` (backend/nodes.py:57-65): neither graph adds it, so no run reaches it.
- The wiring gaps are kept abstract and not repaired:
  - backend/graph.py:11 imports an `await_continue_node` that nodes.py does not define.
  - backend/main.py:9 imports a `build_graph` that graph.py does not define.

  The graphs are modelled as declared, and the server takes a graph result as input.
- Real timers, intervals and concurrency. Timer firings and replies are separate method calls. The 500 ms, 200 ms, 300 ms and 1500 ms delays before a restart are collapsed into the triggering call. The 2000 ms dwell timer and the 2 s reset are kept as events.
- React's stale closures are kept only where they decide behaviour: the submit snapshot and the re-record capture. Every other handler reads the latest state, except that the interview screen's `onend` reads the panel of the render that started the recognizer (`ScreenState.endPanel`).
- Floating point: scores are exact reals. `round(avg, 2)`, `toFixed` and the progress percentages are left out.
- Agents.Summarise: the average is not rounded to two decimals, and the weak topics stay a set. `Integration.ClientSummary` takes the order that `list(...)` produced as a parameter.
- InterviewScreen.Screen.HintArrived: `playAudioFromBase64` is not imported in InterviewScreen.jsx. A reply that carries audio is modelled as counting the hint and then reporting the hint error, with the audio itself left out.
- SpeechAdapter.AzureRecognizer.Start: errors thrown while the SDK recognizer is configured are left out. The only failure that reaches the catch is a token failure.
