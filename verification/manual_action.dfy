/** The manual-action screen: the user confirms an off-line step by ticking
    a box, and only then can continue with a fixed answer.  Heading and body
    fall back from the question fields to the action fields. */
module ManualAction {
  import opened Wrappers
  import Types

  /** The answer the Continue button always sends. */
  const Completed := "Action Completed"

  /** Clicking the confirmation row flips the tick. */
  function ClickConfirm(done: bool): (r: bool)
    ensures r != done
  {
    !done
  }

  /** Continue is disabled until the box is ticked. */
  predicate ContinueDisabled(done: bool) {
    !done
  }

  /** What Continue sends: the fixed answer, and nothing while disabled. */
  function Continue(done: bool): (r: Option<string>)
    ensures r.Some? <==> !ContinueDisabled(done)
    ensures r.Some? ==> r.value == Completed
  {
    if done then Some(Completed) else None
  }

  /** Two clicks restore the tick, and from the untouched screen the user
      can continue exactly after an odd number of clicks. */
  lemma ConfirmClicks(done: bool)
    ensures ClickConfirm(ClickConfirm(done)) == done
    ensures Continue(ClickConfirm(false)) == Some(Completed)
    ensures Continue(ClickConfirm(ClickConfirm(false))) == None
  {
  }

  /** JavaScript `a || b` on two optional strings: `a` when it is a
      non-empty string, otherwise `b`. */
  function Either(a: Option<string>, b: Option<string>): (r: Option<string>)
    ensures a.Some? && a.value != "" ==> r == a
    ensures !(a.Some? && a.value != "") ==> r == b
  {
    if a.Some? && a.value != "" then a else b
  }

  /** The heading: the question text, or the action title when the
      question text is empty. */
  function Heading(c: Types.UIContent): Option<string> {
    Either(Some(c.questionText), c.actionTitle)
  }

  /** The body: the explanation, or the action description when the
      explanation is missing or empty. */
  function Body(c: Types.UIContent): Option<string> {
    Either(c.explanation, c.actionDescription)
  }

  /** Whatever the content, the heading is one of its two sources and is
      the action title only when the question text is empty; likewise for
      the body. */
  lemma FallbacksPickASource(c: Types.UIContent)
    ensures Heading(c) == Some(c.questionText) || Heading(c) == c.actionTitle
    ensures Heading(c) != Some(c.questionText) ==> c.questionText == ""
    ensures Body(c) == c.explanation || Body(c) == c.actionDescription
    ensures Body(c) != c.explanation ==> c.explanation.None? || c.explanation.value == ""
    ensures c.questionText == "" && c.actionTitle.Some? ==> Heading(c) == c.actionTitle
  {
  }
}
