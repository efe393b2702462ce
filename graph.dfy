/**
 * The two interview graphs of backend/graph.py as transition relations
 * over node names, and the strict graph's run as a function of the
 * language model's outputs and the candidate's answers. The graph
 * library's own scheduling is not modelled: a node's successors are the
 * targets of its plain edges plus the target its conditional edge picks.
 */
module Graph {
  import opened Wrappers
  import opened Agents
  import opened Nodes

  datatype NodeName = Ask | AwaitAnswer | EvaluateNode | AwaitContinue | Decide | TransitionNode | EndNode | Finish

  datatype Persona = Strict | Coach

  /** Both graphs start at "ask". */
  const Entry := Ask

  /** The `add_edge` edges of each graph. */
  function Edges(p: Persona): set<(NodeName, NodeName)>
  {
    match p
    case Strict =>
      {(Ask, AwaitAnswer), (AwaitAnswer, EvaluateNode), (EvaluateNode, Decide),
       (TransitionNode, Ask), (EndNode, Finish)}
    case Coach =>
      {(Ask, AwaitAnswer), (AwaitAnswer, EvaluateNode), (EvaluateNode, AwaitContinue),
       (AwaitContinue, Decide), (Decide, TransitionNode), (TransitionNode, Ask), (EndNode, Finish)}
  }

  /** The conditional edge out of "decide", the same in both graphs. */
  function Route(endInterview: bool): NodeName
  {
    if endInterview then EndNode else TransitionNode
  }

  /** The nodes each graph declares. */
  function Declared(p: Persona): set<NodeName>
  {
    match p
    case Strict => {Ask, AwaitAnswer, EvaluateNode, TransitionNode, Decide, EndNode}
    case Coach => {Ask, AwaitAnswer, EvaluateNode, AwaitContinue, Decide, TransitionNode, EndNode}
  }

  /**
   * The nodes run after `n` when the state's end flag is `endInterview`:
   * the plain edges' targets plus, out of "decide", the routed one.
   */
  function Next(p: Persona, n: NodeName, endInterview: bool): set<NodeName>
  {
    match n
    case Ask => {AwaitAnswer}
    case AwaitAnswer => {EvaluateNode}
    case EvaluateNode => if p == Strict then {Decide} else {AwaitContinue}
    case AwaitContinue => if p == Strict then {} else {Decide}
    case Decide => if p == Strict then {Route(endInterview)} else {TransitionNode, Route(endInterview)}
    case TransitionNode => {Ask}
    case EndNode => {Finish}
    case Finish => {}
  }

  /** `Next` is exactly the edge table read off for one node. */
  lemma NextFollowsEdges(p: Persona, n: NodeName, m: NodeName, endInterview: bool)
    ensures m in Next(p, n, endInterview) <==> (n, m) in Edges(p) || (n == Decide && m == Route(endInterview))
  {
  }

  /**
   * The strict graph never mentions "await_continue": it declares no such
   * node and no edge reaches or leaves it.
   */
  lemma StrictNeverAwaitsContinue(n: NodeName, endInterview: bool)
    ensures AwaitContinue !in Declared(Strict)
    ensures AwaitContinue !in Next(Strict, n, endInterview)
    ensures Next(Strict, AwaitContinue, endInterview) == {}
  {
  }

  /** In the coach graph an evaluation always goes through "await_continue" before "decide". */
  lemma CoachGatesDecision(endInterview: bool)
    ensures Next(Coach, EvaluateNode, endInterview) == {AwaitContinue}
    ensures Next(Coach, AwaitContinue, endInterview) == {Decide}
    ensures forall n :: Decide in Next(Coach, n, endInterview) <==> n == AwaitContinue
  {
  }

  /**
   * The strict graph is deterministic: each node has one successor, and
   * "decide" goes to "end" exactly when the interview is over.
   */
  lemma StrictSuccessors(endInterview: bool)
    ensures forall n :: n in Declared(Strict) ==> |Next(Strict, n, endInterview)| == 1
    ensures Next(Strict, Decide, endInterview) == (if endInterview then {EndNode} else {TransitionNode})
    ensures Next(Strict, Finish, endInterview) == {}
  {
  }

  /**
   * The coach graph declares both a plain decide -> transition edge and the
   * conditional one, so a decision that ends the interview is followed by
   * both "transition" and "end".
   */
  lemma CoachDecideFansOut()
    ensures Next(Coach, Decide, true) == {TransitionNode, EndNode}
    ensures Next(Coach, Decide, false) == {TransitionNode}
  {
  }

  /** The path of one question in the strict graph, from "ask" back to "ask" or to the end. */
  function CyclePath(endInterview: bool): seq<NodeName>
  {
    [Ask, AwaitAnswer, EvaluateNode, Decide, Route(endInterview), if endInterview then Finish else Ask]
  }

  /** Each step of the cycle follows an edge of the strict graph. */
  lemma CycleFollowsEdges(endInterview: bool)
    ensures forall i :: 0 <= i < |CyclePath(endInterview)| - 1 ==>
      CyclePath(endInterview)[i + 1] in Next(Strict, CyclePath(endInterview)[i], endInterview)
  {
    StrictSuccessors(endInterview);
  }

  /** What the outside world supplies for one question: model outputs and the answer. */
  datatype Exchange = Exchange(question: string, answer: string, evaluation: Evaluation, transition: string, closing: string)

  /** ask -> await_answer -> evaluate -> decide. */
  function Round(s: State, x: Exchange): (s': State)
    ensures s'.questionCount == s.questionCount + 1
    ensures s'.scoreHistory == s.scoreHistory + [x.evaluation.score]
    ensures s'.askedQuestions == s.askedQuestions + [x.question]
    ensures s'.endInterview <==> s.questionCount >= EndAfter
    ensures s'.lastAnswerText == Some(x.answer) && s'.currentQuestion == Some(x.question)
  {
    var asked := Apply(s, AskQuestion(s, x.question));
    var answered := Apply(asked, Nodes.AwaitAnswer(asked, x.answer));
    var evaluated := Apply(answered, Evaluate(answered, x.evaluation));
    Apply(evaluated, Nodes.Decision(evaluated))
  }

  /** One full cycle: the round, then "transition" or "end" as the decision routes it. */
  function Cycle(s: State, x: Exchange): (s': State)
    ensures var r := Round(s, x);
      s'.questionCount == r.questionCount && s'.scoreHistory == r.scoreHistory
      && s'.askedQuestions == r.askedQuestions && s'.endInterview == r.endInterview
      && (r.endInterview ==> s'.summary == Some(Summarise(r.scoreHistory, r.weakTopics)))
      && (!r.endInterview ==> s'.summary == s.summary)
      && (r.endInterview ==> s'.spokenClosing == Some(x.closing))
      && (!r.endInterview ==> s'.spokenTransition == Some(x.transition))
  {
    var r := Round(s, x);
    if r.endInterview then Apply(r, End(r, x.closing)) else Apply(r, Transition(r, x.transition))
  }

  /** The strict run over the exchanges for successive questions. */
  function Run(s: State, xs: seq<Exchange>): State
    decreases |xs|
  {
    if xs == [] then s else Cycle(Run(s, xs[..|xs| - 1]), xs[|xs| - 1])
  }

  /**
   * After any number of cycles the count has gone up by one per cycle
   * and the score history and the asked list by one entry each; the end
   * flag is the one set by the last decision.
   */
  lemma {:induction false} RunCounts(s: State, xs: seq<Exchange>)
    ensures var s' := Run(s, xs);
      s'.questionCount == s.questionCount + |xs|
      && |s'.scoreHistory| == |s.scoreHistory| + |xs|
      && |s'.askedQuestions| == |s.askedQuestions| + |xs|
      && (xs != [] ==> (s'.endInterview <==> s.questionCount + |xs| - 1 >= EndAfter))
    decreases |xs|
  {
    if xs != [] {
      RunCounts(s, xs[..|xs| - 1]);
    }
  }

  /**
   * From a fresh count of 0 the strict graph ends on the sixth evaluated
   * answer: no earlier decision ends it, and the sixth one does.
   */
  lemma SixthAnswerEnds(s: State, xs: seq<Exchange>)
    requires s.questionCount == 0
    ensures 1 <= |xs| <= EndAfter ==> !Run(s, xs).endInterview
    ensures |xs| == EndAfter + 1 ==> Run(s, xs).endInterview && Run(s, xs).summary.Some?
  {
    RunCounts(s, xs);
    if |xs| == EndAfter + 1 {
      var before := Run(s, xs[..|xs| - 1]);
      RunCounts(s, xs[..|xs| - 1]);
      assert before.questionCount == EndAfter;
    }
  }

  /** Before the sixth answer no summary exists, so every response so far continues the interview. */
  lemma {:induction false} NoSummaryBeforeEnd(s: State, xs: seq<Exchange>)
    requires s.questionCount == 0 && s.summary.None?
    requires |xs| <= EndAfter
    ensures Run(s, xs).summary.None?
    ensures xs != [] ==> !Run(s, xs).endInterview
    decreases |xs|
  {
    if xs != [] {
      NoSummaryBeforeEnd(s, xs[..|xs| - 1]);
      RunCounts(s, xs[..|xs| - 1]);
    }
  }
}
