/**
 * The JSON payloads the browser client reads from the interview server,
 * as the client code sees them: a field the reply may lack is an `Option`.
 */
module Protocol {
  import opened Wrappers

  /** The end-of-interview summary the server computes (average, weak topics, verdict). */
  datatype Summary = Summary(averageScore: real, weakTopics: seq<string>, verdict: string)

  /** `result.evaluation`; strengths and weaknesses may be missing. */
  datatype EvaluationView = EvaluationView(
    score: real, topic: string,
    strengths: Option<seq<string>>, weaknesses: Option<seq<string>>)

  /** The reply to an answer submission. `final` is its truthiness. */
  datatype AnswerResult = AnswerResult(
    final: bool, step: Option<string>, question: Option<string>,
    evaluation: Option<EvaluationView>, feedback: Option<string>, summary: Option<Summary>)

  /** The reply to a session start. */
  datatype StartResult = StartResult(sessionId: string, question: Option<string>)

  /** The reply to "continue after coach feedback". */
  datatype ContinueResult = ContinueResult(question: Option<string>)

  /** The reply to a hint request; `audio` is base64 speech when present. */
  datatype HintResult = HintResult(hint: Option<string>, audio: Option<string>)

  /** The reply to an explicit end of session. */
  datatype EndResult = EndResult(final: bool, summary: Option<Summary>)

  /** A JSON value, for the health-check result. */
  datatype Json =
    | JNull
    | JBool(b: bool)
    | JNumber(n: real)
    | JString(s: string)
    | JArray(items: seq<Json>)
    | JObject(fields: seq<(string, Json)>)

  /** JavaScript truthiness of a parsed JSON value (`!!value`). */
  predicate JsonTruthy(j: Json)
  {
    match j
    case JNull => false
    case JBool(b) => b
    case JNumber(n) => n != 0.0
    case JString(s) => s != ""
    case JArray(_) => true
    case JObject(_) => true
  }
}
