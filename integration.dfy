/**
 * How the two clients read the server's answer responses: the interview
 * screen's three-way branch and the first client's continue test, applied
 * to what `answer_interview` returns, and the whole strict session from
 * the seeded state to its final response.
 */
module Integration {
  import opened Wrappers
  import opened Text
  import opened Protocol
  import opened Agents
  import opened Nodes
  import Graph
  import Server
  import InterviewScreen
  import LegacyApp

  /**
   * The summary as JSON, its weak-topic set listed in the order `listed`
   * that `list(...)` produced.
   */
  function ClientSummary(e: EndSummary, listed: seq<string>): (s: Summary)
    ensures s.averageScore == e.averageScore && s.verdict == e.verdict && s.weakTopics == listed
  {
    Summary(e.averageScore, listed, e.verdict)
  }

  /**
   * The reply the interview screen reads from an answer response; an error
   * status (or a start response) reaches it as a failed call.
   */
  function ScreenReply(resp: Server.Response, listed: seq<string>): (r: Option<AnswerResult>)
    ensures r.Some? <==> resp.Final? || resp.Continuing?
    ensures resp.Final? ==> r.value.final && r.value.summary == Some(ClientSummary(resp.summary, listed))
    ensures resp.Continuing? ==> !r.value.final && r.value.question == Some(resp.question)
    ensures r.Some? ==> r.value.step.None?
  {
    match resp
    case Final(summary, _) => Some(AnswerResult(true, None, None, None, None, Some(ClientSummary(summary, listed))))
    case Continuing(question, _, _) => Some(AnswerResult(false, None, Some(question), None, None, None))
    case _ => None
  }

  /** The reply the first client reads; `audio` is the encoded speech it carries. */
  function LegacyReply(resp: Server.Response, audio: string): (r: Option<LegacyApp.AnswerReply>)
    ensures r.Some? <==> resp.Final? || resp.Continuing?
    ensures resp.Final? ==> r.value.final
    ensures resp.Continuing? ==> !r.value.final && r.value.question == Some(resp.question)
  {
    match resp
    case Final(_, _) => Some(LegacyApp.AnswerReply(true, None, Some(audio)))
    case Continuing(question, _, _) => Some(LegacyApp.AnswerReply(false, Some(question), Some(audio)))
    case _ => None
  }

  /**
   * Against this server the interview screen never takes its coach-feedback
   * branch; a final response shows the results and a continuing one the
   * next question, unless that question is empty, which the client also
   * reads as the end.
   */
  lemma ScreenBranchOfResponse(resp: Server.Response, listed: seq<string>)
    requires resp.Final? || resp.Continuing?
    ensures var b := InterviewScreen.Branch(ScreenReply(resp, listed).value);
      b != InterviewScreen.FeedbackStep
      && (resp.Final? ==> b == InterviewScreen.Finished)
      && (resp.Continuing? && resp.question != "" ==> b == InterviewScreen.NextQuestion(resp.question))
      && (resp.Continuing? && resp.question == "" ==> b == InterviewScreen.Finished)
  {
  }

  /** Both clients agree on whether a response continues the interview. */
  lemma ClientsAgree(resp: Server.Response, listed: seq<string>, audio: string)
    requires resp.Final? || resp.Continuing?
    ensures LegacyApp.Continues(LegacyReply(resp, audio).value)
      <==> InterviewScreen.Branch(ScreenReply(resp, listed).value).NextQuestion?
  {
  }

  /**
   * The response to the last of the answers `xs` in a strict session from
   * `start`: the final one once the decision ended the interview, otherwise
   * the one paused on the next question `next`.
   */
  function ResponseAfter(start: State, xs: seq<Graph.Exchange>, next: string): Server.Response
  {
    var s := Graph.Run(start, xs);
    if s.endInterview then Server.AnswerResponse(Server.ResultOf(s, None))
    else
      var asked := Apply(s, AskQuestion(s, next));
      Server.AnswerResponse(Server.ResultOf(asked, Some(next)))
  }

  /**
   * A strict session from `start_interview`'s state: answers one to five
   * each get the next question, spoken after the transition the last cycle
   * produced; the sixth gets the final response with the summary of all six
   * scores and the closing.
   */
  lemma StrictSession(req: Server.StartRequest, xs: seq<Graph.Exchange>, next: string)
    requires 1 <= |xs| <= EndAfter + 1
    ensures var start := Server.StartState(req);
      var resp := ResponseAfter(start, xs, next);
      var last := xs[|xs| - 1];
      (|xs| <= EndAfter ==>
        resp == Server.Continuing(next, Some(last.transition), Server.SpokenText(Some(last.transition), next)))
      && (|xs| == EndAfter + 1 ==>
        resp.Final? && resp.closing == Some(last.closing)
        && resp.summary == Summarise(Graph.Run(start, xs).scoreHistory, Graph.Run(start, xs).weakTopics)
        && |Graph.Run(start, xs).scoreHistory| == EndAfter + 1)
  {
    var start := Server.StartState(req);
    var prefix := xs[..|xs| - 1];
    var before := Graph.Run(start, prefix);
    var s := Graph.Run(start, xs);
    assert s == Graph.Cycle(before, xs[|xs| - 1]);
    Graph.RunCounts(start, xs);
    Graph.RunCounts(start, prefix);
    if |xs| <= EndAfter {
      Graph.NoSummaryBeforeEnd(start, xs);
    } else {
      Graph.SixthAnswerEnds(start, xs);
    }
  }
}
