/**
 * The rule-based parts of backend/agents.py: `decision_agent`, the average
 * and verdict of `end_interview_agent`, and the two context strings of
 * `ask_question_agent`. Every language-model call is left to its callers,
 * which receive the model's output as a parameter.
 */
module Agents {
  import opened Text

  /** `Evaluation` of backend/models.py. */
  datatype Evaluation = Evaluation(score: real, topic: string, strengths: seq<string>, weaknesses: seq<string>)

  /** The dict `decision_agent` returns. */
  datatype Decision = Decision(difficulty: string, addWeakTopic: bool, endInterview: bool)

  /** The number of decisions after which the interview ends. */
  const EndAfter := 5

  /**
   * `decision_agent`: a weak answer (below 5) makes the next question easy
   * and records its topic, a strong one (7 or more) makes it hard, and
   * anything between keeps the difficulty. The interview ends once five
   * questions have been counted.
   */
  function Decide(difficulty: string, questionCount: int, score: real): (d: Decision)
    ensures score < 5.0 ==> d.difficulty == "easy" && d.addWeakTopic
    ensures score >= 7.0 ==> d.difficulty == "hard" && !d.addWeakTopic
    ensures 5.0 <= score < 7.0 ==> d.difficulty == difficulty && !d.addWeakTopic
    ensures d.endInterview <==> questionCount >= EndAfter
  {
    var end := questionCount >= EndAfter;
    if score < 5.0 then Decision("easy", true, end)
    else if score >= 7.0 then Decision("hard", false, end)
    else Decision(difficulty, false, end)
  }

  /** A topic is recorded exactly for the answers that would also make the next question easy. */
  lemma WeakTopicIffEasier(difficulty: string, questionCount: int, score: real)
    requires difficulty != "easy"
    ensures Decide(difficulty, questionCount, score).addWeakTopic
      <==> Decide(difficulty, questionCount, score).difficulty == "easy"
  {
  }

  function Sum(xs: seq<real>): real
  {
    if xs == [] then 0.0 else Sum(xs[..|xs| - 1]) + xs[|xs| - 1]
  }

  /** `sum(h) / len(h) if h else 0.0`. */
  function Average(xs: seq<real>): (avg: real)
    ensures xs == [] ==> avg == 0.0
    ensures xs != [] ==> avg * (|xs| as real) == Sum(xs)
  {
    if xs == [] then 0.0 else Sum(xs) / (|xs| as real)
  }

  /** Scores between `lo` and `hi` sum to between `n * lo` and `n * hi`. */
  lemma {:induction false} SumBounds(xs: seq<real>, lo: real, hi: real)
    requires forall i :: 0 <= i < |xs| ==> lo <= xs[i] <= hi
    ensures (|xs| as real) * lo <= Sum(xs) <= (|xs| as real) * hi
  {
    if xs != [] {
      SumBounds(xs[..|xs| - 1], lo, hi);
    }
  }

  /** Dividing bounds on a total by a positive count. */
  lemma DivideBounds(total: real, n: real, lo: real, hi: real)
    requires n > 0.0 && n * lo <= total <= n * hi
    ensures lo <= total / n <= hi
  {
    var q := total / n;
    assert q * n == total;
  }

  /** The average of scores within a range lies within that range. */
  lemma AverageBounds(xs: seq<real>, lo: real, hi: real)
    requires xs != []
    requires forall i :: 0 <= i < |xs| ==> lo <= xs[i] <= hi
    ensures lo <= Average(xs) <= hi
  {
    SumBounds(xs, lo, hi);
    DivideBounds(Sum(xs), |xs| as real, lo, hi);
  }

  /** The verdict bands of `end_interview_agent`. */
  function Verdict(avg: real): (v: string)
    ensures avg >= 8.0 ==> v == "Excellent performance"
    ensures 7.0 <= avg < 8.0 ==> v == "Good performance"
    ensures 6.0 <= avg < 7.0 ==> v == "Satisfactory performance"
    ensures 5.0 <= avg < 6.0 ==> v == "Needs improvement"
    ensures avg < 5.0 ==> v == "Significant gaps identified"
  {
    if avg >= 8.0 then "Excellent performance"
    else if avg >= 7.0 then "Good performance"
    else if avg >= 6.0 then "Satisfactory performance"
    else if avg >= 5.0 then "Needs improvement"
    else "Significant gaps identified"
  }

  /** The verdicts from worst to best. */
  function VerdictRank(v: string): nat
  {
    if v == "Excellent performance" then 4
    else if v == "Good performance" then 3
    else if v == "Satisfactory performance" then 2
    else if v == "Needs improvement" then 1
    else 0
  }

  /** A higher average never gets a worse verdict. */
  lemma VerdictMonotone(a: real, b: real)
    requires a <= b
    ensures VerdictRank(Verdict(a)) <= VerdictRank(Verdict(b))
  {
  }

  /** The summary dict the end node stores; the weak topics are a set. */
  datatype EndSummary = EndSummary(averageScore: real, weakTopics: set<string>, verdict: string)

  /**
   * The summary of `end_interview_agent` (without the rounding of the
   * average to two decimals).
   */
  function Summarise(scores: seq<real>, weakTopics: set<string>): (s: EndSummary)
    ensures s.weakTopics == weakTopics
    ensures scores == [] ==> s.averageScore == 0.0 && s.verdict == "Significant gaps identified"
    ensures scores != [] ==> s.averageScore * (|scores| as real) == Sum(scores)
    ensures s.verdict == Verdict(s.averageScore)
  {
    var avg := Average(scores);
    EndSummary(avg, weakTopics, Verdict(avg))
  }

  /** Every score at least 8 (on the 0 to 10 scale) earns the best verdict. */
  lemma AllStrongIsExcellent(scores: seq<real>, weakTopics: set<string>)
    requires scores != []
    requires forall i :: 0 <= i < |scores| ==> 8.0 <= scores[i] <= 10.0
    ensures Summarise(scores, weakTopics).verdict == "Excellent performance"
  {
    AverageBounds(scores, 8.0, 10.0);
  }

  /**
   * The weak-topic line of the question prompt, the set given in its
   * iteration order `listed`: joined with ", ", or "None" when empty.
   */
  function WeakTopicsLine(listed: seq<string>): (line: string)
    ensures listed == [] ==> line == "None"
    ensures listed != [] ==> line == Join(listed, ", ")
  {
    if listed != [] then Join(listed, ", ") else "None"
  }

  function Bullets(qs: seq<string>): (bs: seq<string>)
    ensures |bs| == |qs|
    ensures forall i :: 0 <= i < |qs| ==> bs[i] == "- " + qs[i]
  {
    if qs == [] then [] else Bullets(qs[..|qs| - 1]) + ["- " + qs[|qs| - 1]]
  }

  /** The previous-questions block: one "- q" line per question, or "None" when the join is empty. */
  function PreviousQuestions(asked: seq<string>): string
  {
    var joined := Join(Bullets(asked), "\n");
    if joined == "" then "None" else joined
  }

  /** A join of non-empty parts is non-empty. */
  lemma {:induction false} JoinNonEmpty(parts: seq<string>, sep: string)
    requires parts != [] && parts[0] != ""
    ensures Join(parts, sep) != ""
  {
    if |parts| > 1 {
      assert Join(parts, sep) == parts[0] + sep + Join(parts[1..], sep);
      assert |Join(parts, sep)| >= |parts[0]|;
    }
  }

  /**
   * The block is "None" exactly when no question was asked yet (each bullet
   * is non-empty); a further question adds one line.
   */
  lemma PreviousQuestionsShape(asked: seq<string>, q: string)
    ensures PreviousQuestions([]) == "None"
    ensures PreviousQuestions([q]) == "- " + q
    ensures asked != [] ==> PreviousQuestions(asked + [q]) == PreviousQuestions(asked) + "\n- " + q
  {
    if asked != [] {
      var bs := Bullets(asked);
      assert bs[0] == "- " + asked[0];
      JoinNonEmpty(bs, "\n");
      assert Bullets(asked + [q]) == bs + ["- " + q] by {
        assert (asked + [q])[..|asked|] == asked;
      }
      JoinSnoc(bs, "- " + q, "\n");
      assert Join(bs + ["- " + q], "\n") != "" by {
        JoinNonEmpty(bs + ["- " + q], "\n");
      }
    }
  }
}
