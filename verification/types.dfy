/** The server's shared datatypes (server/src/types.ts): the per-session
    interview state, the UI templates the client can render, the content of
    one screen and the structured reply the language model produces. */
module Types {
  import opened Wrappers
  import opened Json

  /** One question/answer pair of the interview history. */
  datatype HistoryEntry = HistoryEntry(question: string, answer: string)

  /** The interview state of one session.  The `string | null` fields are
      `Option<string>` with `None` for null. */
  datatype ProjectState = ProjectState(
    ideaSummary: Option<string>,
    targetUser: Option<string>,
    problemStatement: Option<string>,
    appType: Option<string>,
    resolvedDecisions: map<string, Value>,
    unresolvedDecisions: seq<string>,
    manualPrerequisites: seq<string>,
    assumptions: seq<string>,
    history: seq<HistoryEntry>,
    isComplete: bool)

  /** `Partial<ProjectState>`: every top-level key may be absent (`None`). */
  datatype StateUpdates = StateUpdates(
    ideaSummary: Option<Option<string>>,
    targetUser: Option<Option<string>>,
    problemStatement: Option<Option<string>>,
    appType: Option<Option<string>>,
    resolvedDecisions: Option<map<string, Value>>,
    unresolvedDecisions: Option<seq<string>>,
    manualPrerequisites: Option<seq<string>>,
    assumptions: Option<seq<string>>,
    history: Option<seq<HistoryEntry>>,
    isComplete: Option<bool>)

  /** The empty partial state `{}`. */
  const NoUpdates := StateUpdates(None, None, None, None, None, None, None, None, None, None)

  /** A partial state holding only `history`. */
  function HistoryOnly(h: seq<HistoryEntry>): StateUpdates {
    NoUpdates.(history := Some(h))
  }

  /** The seven UI templates. */
  datatype UITemplate =
    | FreeText
    | SingleChoice
    | MultiChoice
    | ExplanationOnly
    | ManualAction
    | Summary
    | FinalOutputTemplate

  /** The wire name of a template. */
  function TemplateName(t: UITemplate): string {
    match t
    case FreeText => "free_text"
    case SingleChoice => "single_choice"
    case MultiChoice => "multi_choice"
    case ExplanationOnly => "explanation_only"
    case ManualAction => "manual_action"
    case Summary => "summary"
    case FinalOutputTemplate => "final_output"
  }

  const TemplateNames: set<string> :=
    {"free_text", "single_choice", "multi_choice", "explanation_only", "manual_action", "summary", "final_output"}

  /** Reads a wire name back as a template; `None` for any other string. */
  function ParseTemplate(s: string): (r: Option<UITemplate>)
    ensures r.Some? <==> s in TemplateNames
    ensures r.Some? ==> TemplateName(r.value) == s
  {
    if s == "free_text" then Some(FreeText)
    else if s == "single_choice" then Some(SingleChoice)
    else if s == "multi_choice" then Some(MultiChoice)
    else if s == "explanation_only" then Some(ExplanationOnly)
    else if s == "manual_action" then Some(ManualAction)
    else if s == "summary" then Some(Summary)
    else if s == "final_output" then Some(FinalOutputTemplate)
    else None
  }

  /** Every template has a distinct wire name among exactly seven, and the
      name reads back as the same template. */
  lemma TemplatesAreSeven()
    ensures |TemplateNames| == 7
    ensures forall t: UITemplate :: TemplateName(t) in TemplateNames
    ensures forall t: UITemplate :: ParseTemplate(TemplateName(t)) == Some(t)
    ensures forall t, u: UITemplate :: TemplateName(t) == TemplateName(u) ==> t == u
  {
    assert |TemplateNames| == 7;
  }

  /** The first-turn template the prompt demands is not one of the seven. */
  lemma IdeaAnalysisIsNotATemplate()
    ensures "idea_analysis" !in TemplateNames
    ensures ParseTemplate("idea_analysis") == None
  {
  }

  datatype ChoiceOption = ChoiceOption(value: string, displayLabel: string, explanation: Option<string>)

  datatype AutoDecision = AutoDecision(decision: string, reason: string)

  datatype ManualGuide = ManualGuide(title: string, steps: seq<string>)

  /** What one screen shows; every field but the question text is optional. */
  datatype UIContent = UIContent(
    questionText: string,
    explanation: Option<string>,
    options: Option<seq<ChoiceOption>>,
    actionTitle: Option<string>,
    actionDescription: Option<string>,
    summaryText: Option<string>,
    autoDecisions: Option<seq<AutoDecision>>,
    projectName: Option<string>,
    appTagline: Option<string>,
    featuresList: Option<seq<string>>,
    techStackRecommendation: Option<seq<string>>,
    megaPrompt: Option<string>,
    agentsMd: Option<string>,
    manualGuides: Option<seq<ManualGuide>>)

  /** A screen with only a question text. */
  function PlainContent(questionText: string): UIContent {
    UIContent(questionText, None, None, None, None, None, None, None, None, None, None, None, None, None)
  }

  datatype ResponseType = QuestionStep | FinalOutputStep | ErrorStep

  datatype Progress = Progress(current: int, total: int)

  /** One step produced by the language model.  `template` keeps the raw
      string: the reply is not schema-checked, so any string can arrive. */
  datatype AIResponse = AIResponse(
    kind: ResponseType,
    template: string,
    content: UIContent,
    projectStateUpdates: Option<StateUpdates>,
    isEducational: Option<bool>,
    progress: Option<Progress>)

  function HistoryJson(h: seq<HistoryEntry>): (r: Value)
    ensures r.Arr? && |r.items| == |h|
    ensures forall i :: 0 <= i < |h| ==> r.items[i].Obj? && r.items[i].fields.Keys == {"question", "answer"}
    ensures forall i :: 0 <= i < |h| ==>
      r.items[i].fields["question"] == Str(h[i].question) && r.items[i].fields["answer"] == Str(h[i].answer)
  {
    Arr(seq(|h|, i requires 0 <= i < |h| =>
      Obj(map["question" := Str(h[i].question), "answer" := Str(h[i].answer)])))
  }

  /** The value `JSON.parse(JSON.stringify(state))` yields: an object with
      one member per field, under the field's snake_case key. */
  function ToJson(s: ProjectState): Value {
    Obj(map[
      "idea_summary" := NullableStr(s.ideaSummary),
      "target_user" := NullableStr(s.targetUser),
      "problem_statement" := NullableStr(s.problemStatement),
      "app_type" := NullableStr(s.appType),
      "resolved_decisions" := Obj(s.resolvedDecisions),
      "unresolved_decisions" := StrArray(s.unresolvedDecisions),
      "manual_prerequisites" := StrArray(s.manualPrerequisites),
      "assumptions" := StrArray(s.assumptions),
      "history" := HistoryJson(s.history),
      "is_complete" := Bool(s.isComplete)])
  }
}
