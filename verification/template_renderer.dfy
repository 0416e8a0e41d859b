/** The step renderer of both client designs: the template name of a step
    picks the screen component, and the step's automatic decisions are
    listed as notices (current design) or handed to a sidebar (earlier
    "cosmos" design). */
module TemplateRenderer {
  import opened Wrappers
  import opened Types
  import Choice

  /** The screen component drawn for a step. */
  datatype Screen =
    | FreeTextScreen
    | ChoiceScreen(kind: Choice.Kind)
    | ManualActionScreen
    | ExplanationScreen
    | FinalOutputScreen
    | UnknownTemplate(message: string)

  /** The `switch` on the template string. */
  function Dispatch(template: string): Screen {
    if template == "free_text" then FreeTextScreen
    else if template == "single_choice" then ChoiceScreen(Choice.SingleChoice)
    else if template == "multi_choice" then ChoiceScreen(Choice.MultiChoice)
    else if template == "manual_action" then ManualActionScreen
    else if template == "explanation_only" then ExplanationScreen
    else if template == "summary" || template == "final_output" then FinalOutputScreen
    else UnknownTemplate("Unknown template: " + template)
  }

  /** The screen each of the seven templates is meant to get. */
  function ScreenFor(t: UITemplate): Screen {
    match t
    case FreeText => FreeTextScreen
    case SingleChoice => ChoiceScreen(Choice.SingleChoice)
    case MultiChoice => ChoiceScreen(Choice.MultiChoice)
    case ExplanationOnly => ExplanationScreen
    case ManualAction => ManualActionScreen
    case Summary => FinalOutputScreen
    case FinalOutputTemplate => FinalOutputScreen
  }

  /** The switch gives every template name its screen, and falls through to
      the unknown-template message exactly for strings that name none of
      the seven templates. */
  lemma DispatchCoversTemplates(template: string)
    ensures ParseTemplate(template).Some? ==> Dispatch(template) == ScreenFor(ParseTemplate(template).value)
    ensures Dispatch(template).UnknownTemplate? <==> ParseTemplate(template).None?
    ensures Dispatch(template).UnknownTemplate? ==>
      Dispatch(template).message == "Unknown template: " + template
    ensures forall t: UITemplate :: Dispatch(TemplateName(t)) == ScreenFor(t)
  {
    TemplatesAreSeven();
  }

  /** The summary and final-output templates share one screen, and the
      first-turn template the prompt asks for is not rendered. */
  lemma RendererCorners()
    ensures Dispatch("summary") == Dispatch("final_output") == FinalOutputScreen
    ensures Dispatch("idea_analysis") == UnknownTemplate("Unknown template: idea_analysis")
  {
    DispatchCoversTemplates("idea_analysis");
    IdeaAnalysisIsNotATemplate();
    assert Dispatch(TemplateName(Summary)) == ScreenFor(Summary);
    assert Dispatch(TemplateName(FinalOutputTemplate)) == ScreenFor(FinalOutputTemplate);
  }

  /** One automatic-decision notice. */
  datatype Notice = Notice(title: string, reason: string)

  const NoticePrefix := "\U{26A1} Auto-Decision: "

  /** The notices of the current design: one per decision, in order, and
      none at all when the list is missing or empty. */
  function Notices(decisions: Option<seq<AutoDecision>>): (r: seq<Notice>)
    ensures decisions.None? ==> r == []
    ensures decisions.Some? ==> |r| == |decisions.value|
    ensures decisions.Some? ==> forall i :: 0 <= i < |r| ==>
      r[i].title == NoticePrefix + decisions.value[i].decision && r[i].reason == decisions.value[i].reason
  {
    match decisions
    case None => []
    case Some(ds) =>
      if |ds| > 0 then
        seq(|ds|, i requires 0 <= i < |ds| => Notice(NoticePrefix + ds[i].decision, ds[i].reason))
      else []
  }

  /** The current renderer's output; `loading` is accepted and unused. */
  datatype Rendered = Rendered(notices: seq<Notice>, screen: Screen)

  function Render(step: AIResponse, loading: bool): (r: Rendered)
    ensures r.screen == Dispatch(step.template)
    ensures |r.notices| == (if step.content.autoDecisions.Some? then |step.content.autoDecisions.value| else 0)
  {
    Rendered(Notices(step.content.autoDecisions), Dispatch(step.template))
  }

  /** The earlier design's output: the sidebar's decision list and the
      screen. */
  datatype CosmosRendered = CosmosRendered(sidebar: seq<AutoDecision>, screen: Screen)

  /** The sidebar gets `auto_decisions || []`. */
  function RenderCosmos(step: AIResponse): (r: CosmosRendered)
    ensures step.content.autoDecisions.None? ==> r.sidebar == []
    ensures step.content.autoDecisions.Some? ==> r.sidebar == step.content.autoDecisions.value
    ensures r.screen == Dispatch(step.template)
  {
    CosmosRendered(step.content.autoDecisions.GetOr([]), Dispatch(step.template))
  }

  /** Loading does not change what is drawn, both designs pick the same
      screen, and the notices name exactly the decisions the sidebar
      receives. */
  lemma DesignsAgree(step: AIResponse)
    ensures Render(step, true) == Render(step, false)
    ensures Render(step, true).screen == RenderCosmos(step).screen
    ensures |Render(step, true).notices| == |RenderCosmos(step).sidebar|
    ensures forall i :: 0 <= i < |RenderCosmos(step).sidebar| ==>
      Render(step, true).notices[i].reason == RenderCosmos(step).sidebar[i].reason
  {
  }
}
