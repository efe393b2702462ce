/**
 * The per-question review card of frontend/src/components/QAReviewCard.jsx:
 * its score band (label and colour, each a chained conditional with its own
 * thresholds), its null guard and its expand toggle.
 */
module QAReview {
  import opened Wrappers
  import opened InterviewContext

  const StrongColor := "bg-green-50 text-green-700 border-green-100"
  const GoodColor := "bg-amber-50 text-amber-700 border-amber-100"
  const WeakColor := "bg-red-50 text-red-700 border-red-100"

  /** `scoreColor`. */
  function ScoreColor(score: real): string
  {
    if score >= 7.0 then StrongColor
    else if score >= 5.0 then GoodColor
    else WeakColor
  }

  /** `scoreLabel`. */
  function ScoreLabel(score: real): (text: string)
    ensures text == "Strong Answer" <==> score >= 7.0
    ensures text == "Good Attempt" <==> 5.0 <= score < 7.0
    ensures text == "Needs Review" <==> score < 5.0
  {
    if score >= 7.0 then "Strong Answer"
    else if score >= 5.0 then "Good Attempt"
    else "Needs Review"
  }

  /** The colour each label is meant to be shown in. */
  function LabelColor(text: string): string
  {
    if text == "Strong Answer" then StrongColor
    else if text == "Good Attempt" then GoodColor
    else WeakColor
  }

  /** The labels ordered from weakest to strongest. */
  function LabelRank(text: string): nat
  {
    if text == "Strong Answer" then 2
    else if text == "Good Attempt" then 1
    else 0
  }

  /** The two chains use the same thresholds: every score gets its label's colour. */
  lemma ColorMatchesLabel(score: real)
    ensures ScoreColor(score) == LabelColor(ScoreLabel(score))
  {
  }

  /** A higher score never gets a weaker label. */
  lemma LabelMonotone(a: real, b: real)
    requires a <= b
    ensures LabelRank(ScoreLabel(a)) <= LabelRank(ScoreLabel(b))
  {
  }

  /** What a card shows in its header. */
  datatype Header = Header(questionNumber: int, question: Option<string>, caption: string, color: string, score: real)

  /** The rendered card: nothing for a null entry. */
  function Render(feedback: Option<FeedbackEntry>): (h: Option<Header>)
    ensures feedback.None? <==> h.None?
    ensures feedback.Some? ==>
      (h.value.caption == ScoreLabel(feedback.value.score)
      && h.value.color == LabelColor(h.value.caption)
      && h.value.questionNumber == feedback.value.questionNumber)
  {
    if feedback.None? then None
    else
      var f := feedback.value;
      ColorMatchesLabel(f.score);
      Some(Header(f.questionNumber, f.question, ScoreLabel(f.score), ScoreColor(f.score), f.score))
  }

  /** One card's `isExpanded` state. */
  class Card {
    var isExpanded: bool

    /** Only the first card starts expanded. */
    constructor(index: int)
      ensures isExpanded <==> index == 0
    {
      isExpanded := index == 0;
    }

    /** A click on the header flips the state. */
    method Click()
      modifies this
      ensures isExpanded == !old(isExpanded)
    {
      isExpanded := !isExpanded;
    }
  }
}
