/** The numeric part of `getSystemPrompt` (server/src/prompts.ts): from the
    parsed session state it derives the question number, the dynamic turn
    limit, the count of critical decisions, the early-exit and first-turn
    flags and the limit banner, and assembles the prompt around them.  The
    instruction prose itself is abbreviated to its headings; `systemPrompt`
    stands for the fixed SYSTEM_PROMPT text. */
module Prompts {
  import opened Wrappers
  import opened Json
  import opened Text
  import Types

  /** `(parsed.history?.length ?? 0) + 1`: one more than the number of
      history entries, and 1 when the history is missing or has no length. */
  function QuestionNumber(parsed: Value): (r: nat)
    ensures r >= 1
    ensures !(parsed.Obj? && "history" in parsed.fields) ==> r == 1
    ensures parsed.Obj? && "history" in parsed.fields && parsed.fields["history"].Arr? ==>
      r == |parsed.fields["history"].items| + 1
    ensures parsed.Obj? && "history" in parsed.fields && !parsed.fields["history"].Arr? && !parsed.fields["history"].Str? ==>
      r == 1
  {
    var h := Member(Some(parsed), "history");
    (if h.Some? && Length(h.value).Some? then Length(h.value).value else 0) + 1
  }

  /** `parsed.resolved_decisions` (undefined when absent). */
  function Decisions(parsed: Value): Option<Value> {
    Member(Some(parsed), "resolved_decisions")
  }

  /** `Object.keys(parsed.resolved_decisions || {}).length`. */
  function ResolvedCount(parsed: Value): nat {
    KeyCount(Or(Decisions(parsed), Obj(map[])))
  }

  /** `(parsed.idea_summary || '').length > 100`. */
  predicate IdeaIsLong(parsed: Value) {
    var v := Or(Member(Some(parsed), "idea_summary"), Str(""));
    Length(v).Some? && Length(v).value > 100
  }

  /** `(parsed.resolved_decisions?.user_roles || '').includes(',')`, for a
      string (substring test) or an array (element test). */
  predicate HasMultipleRoles(parsed: Value) {
    match Or(Member(Decisions(parsed), "user_roles"), Str(""))
    case Str(s) => ',' in s
    case Arr(a) => Str(",") in a
    case _ => false
  }

  /** `(parsed.resolved_decisions?.integrations || []).length > 0`. */
  predicate HasIntegrations(parsed: Value) {
    var n := Length(Or(Member(Decisions(parsed), "integrations"), Arr([])));
    n.Some? && n.value > 0
  }

  /** The complexity-based turn limit: 5, plus 1 for a long idea, plus 2 for
      several user roles, plus 2 for integrations, capped at 10. */
  function DynamicLimit(parsed: Value): (r: nat)
    ensures 5 <= r <= 10
    ensures r == 5 + (if IdeaIsLong(parsed) then 1 else 0)
                   + (if HasMultipleRoles(parsed) then 2 else 0)
                   + (if HasIntegrations(parsed) then 2 else 0)
  {
    var limit := 5;
    var limit := if IdeaIsLong(parsed) then limit + 1 else limit;
    var limit := if HasMultipleRoles(parsed) then limit + 2 else limit;
    var limit := if HasIntegrations(parsed) then limit + 2 else limit;
    if limit < 10 then limit else 10
  }

  const CriticalDecisions: seq<string> := ["user_roles", "core_workflow", "data_model", "auth_method"]

  /** How many of `names` have a truthy value among the decisions. */
  function CountTruthy(decisions: Option<Value>, names: seq<string>): (r: nat)
    ensures r <= |names|
    ensures r == |names| <==> forall i :: 0 <= i < |names| ==> TruthyOpt(Member(decisions, names[i]))
    ensures r == 0 <==> forall i :: 0 <= i < |names| ==> !TruthyOpt(Member(decisions, names[i]))
  {
    if |names| == 0 then 0
    else
      var rest := CountTruthy(decisions, names[1..]);
      assert forall i :: 1 <= i < |names| ==> names[i] == names[1..][i - 1];
      (if TruthyOpt(Member(decisions, names[0])) then 1 else 0) + rest
  }

  /** Counting distributes over concatenation; with `CountTruthySingle`
      this determines the count of every list. */
  lemma {:induction false} CountTruthyAppend(decisions: Option<Value>, a: seq<string>, b: seq<string>)
    ensures CountTruthy(decisions, a + b) == CountTruthy(decisions, a) + CountTruthy(decisions, b)
    decreases |a|
  {
    if |a| == 0 {
      assert a + b == b;
    } else {
      assert (a + b)[1..] == a[1..] + b;
      CountTruthyAppend(decisions, a[1..], b);
    }
  }

  /** 1 when `key` names a truthy decision, 0 otherwise. */
  function Flag(decisions: Option<Value>, key: string): (r: nat)
    ensures r == 1 <==> TruthyOpt(Member(decisions, key))
    ensures r <= 1
  {
    if TruthyOpt(Member(decisions, key)) then 1 else 0
  }

  /** A single name counts 1 exactly when its decision is truthy. */
  lemma CountTruthySingle(decisions: Option<Value>, key: string)
    ensures CountTruthy(decisions, [key]) == Flag(decisions, key)
  {
    assert [key][1..] == [];
  }

  /** `criticalDecisions.filter(d => parsed.resolved_decisions?.[d]).length`:
      one for each of the four critical keys that has a truthy decision. */
  function CriticalResolved(parsed: Value): (r: nat)
    ensures r <= 4
    ensures var d := Decisions(parsed);
      r == Flag(d, "user_roles") + Flag(d, "core_workflow") + Flag(d, "data_model") + Flag(d, "auth_method")
  {
    var d := Decisions(parsed);
    CriticalCount(d);
    CountTruthy(d, CriticalDecisions)
  }

  lemma CriticalCount(d: Option<Value>)
    ensures CountTruthy(d, CriticalDecisions)
      == Flag(d, "user_roles") + Flag(d, "core_workflow") + Flag(d, "data_model") + Flag(d, "auth_method")
  {
    assert CriticalDecisions == ["user_roles"] + (["core_workflow"] + (["data_model"] + ["auth_method"]));
    CountTruthyAppend(d, ["user_roles"], ["core_workflow"] + (["data_model"] + ["auth_method"]));
    CountTruthyAppend(d, ["core_workflow"], ["data_model"] + ["auth_method"]);
    CountTruthyAppend(d, ["data_model"], ["auth_method"]);
    CountTruthySingle(d, "user_roles");
    CountTruthySingle(d, "core_workflow");
    CountTruthySingle(d, "data_model");
    CountTruthySingle(d, "auth_method");
  }

  /** Every critical decision except possibly the one at `open` is
      truthy. */
  predicate AllResolvedBut(d: Option<Value>, open: nat) {
    forall i :: 0 <= i < |CriticalDecisions| && i != open ==> TruthyOpt(Member(d, CriticalDecisions[i]))
  }

  /** The early exit is offered exactly from question 4 on, when at most one
      of the four critical decisions is still open. */
  lemma EarlyExitRule(parsed: Value)
    ensures ShouldEarlyExit(parsed) <==>
      QuestionNumber(parsed) >= 4 && exists open: nat :: open < |CriticalDecisions| && AllResolvedBut(Decisions(parsed), open)
  {
    var d := Decisions(parsed);
    var c := CriticalDecisions;
    assert c[0] == "user_roles" && c[1] == "core_workflow" && c[2] == "data_model" && c[3] == "auth_method";
    var sum := Flag(d, c[0]) + Flag(d, c[1]) + Flag(d, c[2]) + Flag(d, c[3]);
    assert CriticalResolved(parsed) == sum;
    if sum >= 3 {
      var open: nat := if Flag(d, c[0]) == 0 then 0 else if Flag(d, c[1]) == 0 then 1
        else if Flag(d, c[2]) == 0 then 2 else 3;
      assert AllResolvedBut(d, open);
    }
    forall open: nat | open < |c| && AllResolvedBut(d, open) ensures sum >= 3 {
      assert forall i :: 0 <= i < |c| && i != open ==> Flag(d, c[i]) == 1;
    }
  }


  predicate ShouldEarlyExit(parsed: Value) {
    CriticalResolved(parsed) >= 3 && QuestionNumber(parsed) >= 4
  }

  predicate IsFirstTurn(parsed: Value) {
    QuestionNumber(parsed) == 1
  }

  /** For the JSON of a session state, the question number is one more
      than the number of answered turns, the first turn is the one with an
      empty history, and the early exit depends on the stored decisions. */
  lemma StateQuestionNumber(s: Types.ProjectState)
    ensures QuestionNumber(Types.ToJson(s)) == |s.history| + 1
    ensures IsFirstTurn(Types.ToJson(s)) <==> s.history == []
    ensures Decisions(Types.ToJson(s)) == Some(Obj(s.resolvedDecisions))
    ensures ShouldEarlyExit(Types.ToJson(s)) <==>
      |s.history| >= 3 && exists open: nat :: open < |CriticalDecisions| && AllResolvedBut(Some(Obj(s.resolvedDecisions)), open)
  {
    EarlyExitRule(Types.ToJson(s));
  }

  datatype Banner = HardStop | FinalQuestion | NoBanner

  /** The limit banner: hard stop once the limit is reached, a final-question
      warning one turn before, nothing otherwise. */
  function BannerFor(questionNumber: int, limit: int): (b: Banner)
    ensures b == HardStop <==> questionNumber >= limit
    ensures b == FinalQuestion <==> questionNumber == limit - 1
    ensures b == NoBanner <==> questionNumber < limit - 1
  {
    if questionNumber >= limit then HardStop
    else if questionNumber >= limit - 1 then FinalQuestion
    else NoBanner
  }

  /** Everything `getSystemPrompt` computes before it assembles the text. */
  datatype PromptPlan = PromptPlan(
    questionNumber: nat,
    limit: nat,
    criticalResolved: nat,
    resolvedCount: nat,
    firstTurn: bool,
    earlyExit: bool,
    banner: Banner)

  function PlanFor(parsed: Value): (p: PromptPlan)
    ensures 5 <= p.limit <= 10 && p.criticalResolved <= 4
    ensures p.firstTurn <==> p.questionNumber == 1
    ensures p.earlyExit <==> p.criticalResolved >= 3 && p.questionNumber >= 4
    ensures p.banner == HardStop <==> p.questionNumber >= p.limit
  {
    var q := QuestionNumber(parsed);
    var limit := DynamicLimit(parsed);
    PromptPlan(q, limit, CriticalResolved(parsed), ResolvedCount(parsed),
      IsFirstTurn(parsed), ShouldEarlyExit(parsed), BannerFor(q, limit))
  }

  /** An early exit is never offered on the first turn, and the first turn
      never carries the hard-stop banner (the limit is at least 5). */
  lemma FirstTurnFlags(parsed: Value)
    requires IsFirstTurn(parsed)
    ensures !ShouldEarlyExit(parsed)
    ensures PlanFor(parsed).banner == NoBanner
  {
  }

  const ContextHeading := "\n\nCURRENT SESSION CONTEXT\n\nCurrent Project State:\n"
  const AnswerHeading := "\n\nLast User Answer:\n"
  const ProgressHeading := "\n\nDYNAMIC PROGRESS TRACKING\n\nCURRENT STATUS:\n- Question Number: "
  const FirstTurnBlock := "\nFIRST TURN - MANDATORY IDEA ANALYSIS\nUse template = \"idea_analysis\".\n"
  const EarlyExitBlock := "\nEARLY EXIT AVAILABLE\n"
  const HardStopHeading := "\nHARD STOP - LIMIT REACHED\nYou have asked "
  const FinalQuestionBlock := "\nFINAL QUESTION - APPROACHING LIMIT\n"
  const RemindersHeading := "\n\nCRITICAL REMINDERS\n"
  const FirstTurnReminder := "5. FIRST TURN: You MUST use template=\"idea_analysis\"\n"
  const Closing := "\nReturn valid JSON ONLY.\n"

  /** The banner block. */
  function BannerText(b: Banner, limit: nat): string {
    match b
    case HardStop => HardStopHeading + (NatToString(limit) + " questions.\n")
    case FinalQuestion => FinalQuestionBlock
    case NoBanner => ""
  }

  /** Only the hard-stop banner carries the hard-stop heading, and it names
      the limit; the other two never do. */
  lemma BannerTextShape(b: Banner, limit: nat)
    ensures BannerText(b, limit) != "" <==> b != NoBanner
    ensures Contains(BannerText(b, limit), HardStopHeading) <==> b == HardStop
    ensures b == HardStop ==> Contains(BannerText(b, limit), NatToString(limit))
  {
    match b
    case HardStop =>
      var tail := NatToString(limit) + " questions.\n";
      assert HardStopHeading <= HardStopHeading + tail;
      ContainsMiddle(HardStopHeading, NatToString(limit), " questions.\n");
      assert HardStopHeading + NatToString(limit) + " questions.\n" == HardStopHeading + tail;
    case FinalQuestion =>
      ShorterNotContained(FinalQuestionBlock, HardStopHeading);
    case NoBanner =>
      ShorterNotContained("", HardStopHeading);
  }

  /** The first-turn block, present exactly on the first turn. */
  function FirstTurnSection(firstTurn: bool): (r: string)
    ensures r != "" <==> firstTurn
  {
    if firstTurn then FirstTurnBlock else ""
  }

  /** The first-turn line of the reminders, present exactly on the first turn. */
  function FirstTurnReminderLine(firstTurn: bool): (r: string)
    ensures r != "" <==> firstTurn
  {
    if firstTurn then FirstTurnReminder else ""
  }

  /** The early-exit block, present exactly when an early exit applies. */
  function EarlyExitSection(earlyExit: bool): (r: string)
    ensures r != "" <==> earlyExit
  {
    if earlyExit then EarlyExitBlock else ""
  }

  /** The status lines: question number, limit, critical and total
      decision counts. */
  function StatusBlock(p: PromptPlan): string {
    ProgressHeading + NatToString(p.questionNumber)
    + "\n- YOUR LIMIT FOR THIS PROJECT: " + NatToString(p.limit)
    + "\n- Critical Decisions Resolved: " + NatToString(p.criticalResolved) + "/4"
    + "\n- Total Decisions Made: " + NatToString(p.resolvedCount) + "\n\n"
  }

  /** `"<s>"`: a string in double quotes. */
  function Quoted(s: string): (r: string)
    ensures Contains(r, s)
  {
    ContainsMiddle("\"", s, "\"");
    "\"" + s + "\""
  }

  /** The prompt up to the quoted answer. */
  function Context(systemPrompt: string, stateJson: string, lastAnswer: string): seq<string> {
    [systemPrompt, ContextHeading, stateJson, AnswerHeading, Quoted(lastAnswer)]
  }

  /** The progress part: status lines, then the optional first-turn,
      early-exit and banner blocks. */
  function Progress(p: PromptPlan): seq<string> {
    [StatusBlock(p), FirstTurnSection(p.firstTurn), EarlyExitSection(p.earlyExit), BannerText(p.banner, p.limit)]
  }

  /** The closing reminders. */
  function Reminders(p: PromptPlan): seq<string> {
    [RemindersHeading, FirstTurnReminderLine(p.firstTurn), Closing]
  }

  /** The prompt text for a plan: the three groups in order. */
  function Prompt(systemPrompt: string, stateJson: string, lastAnswer: string, plan: PromptPlan): string {
    Join(Context(systemPrompt, stateJson, lastAnswer), "") + (Join(Progress(plan), "") + Join(Reminders(plan), ""))
  }

  /** `getSystemPrompt(stateJson, lastAnswer)`; `parsed` is what
      `JSON.parse(stateJson || "{}")` yields. */
  function GetSystemPrompt(systemPrompt: string, stateJson: string, parsed: Value, lastAnswer: string): (r: string)
    ensures systemPrompt <= r
    ensures Contains(r, stateJson)
    ensures Contains(r, Quoted(lastAnswer))
  {
    var plan := PlanFor(parsed);
    PromptStartsWithInstructions(systemPrompt, stateJson, lastAnswer, plan);
    PromptQuotesInputs(systemPrompt, stateJson, lastAnswer, plan);
    Prompt(systemPrompt, stateJson, lastAnswer, plan)
  }

  /** The prompt begins with the fixed instructions. */
  lemma PromptStartsWithInstructions(systemPrompt: string, stateJson: string, lastAnswer: string, plan: PromptPlan)
    ensures systemPrompt <= Prompt(systemPrompt, stateJson, lastAnswer, plan)
  {
    var ctx := Join(Context(systemPrompt, stateJson, lastAnswer), "");
    JoinStartsWithFirst(Context(systemPrompt, stateJson, lastAnswer), "");
    PrefixTransitive(systemPrompt, ctx, ctx + (Join(Progress(plan), "") + Join(Reminders(plan), "")));
  }

  /** The prompt quotes the state and the answer verbatim. */
  lemma PromptQuotesInputs(systemPrompt: string, stateJson: string, lastAnswer: string, plan: PromptPlan)
    ensures var r := Prompt(systemPrompt, stateJson, lastAnswer, plan);
      Contains(r, stateJson) && Contains(r, Quoted(lastAnswer))
  {
    var ctx := Context(systemPrompt, stateJson, lastAnswer);
    var rest := Join(Progress(plan), "") + Join(Reminders(plan), "");
    JoinContainsPart(ctx, "", 2);
    JoinContainsPart(ctx, "", 4);
    ContainsAppend(Join(ctx, ""), rest, stateJson);
    ContainsAppend(Join(ctx, ""), rest, Quoted(lastAnswer));
  }

  /** The first-turn block and reminder appear when the plan is a first
      turn. */
  lemma PromptFirstTurn(systemPrompt: string, stateJson: string, lastAnswer: string, plan: PromptPlan)
    requires plan.firstTurn
    ensures var r := Prompt(systemPrompt, stateJson, lastAnswer, plan);
      Contains(r, FirstTurnBlock) && Contains(r, FirstTurnReminder)
  {
    var ctx := Join(Context(systemPrompt, stateJson, lastAnswer), "");
    var progress := Progress(plan);
    var reminders := Reminders(plan);
    InMiddleGroup(ctx, progress, Join(reminders, ""), 1);
    InLastGroup(ctx, Join(progress, ""), reminders, 1);
  }

  /** The early-exit block appears when the plan offers an early exit. */
  lemma PromptEarlyExit(systemPrompt: string, stateJson: string, lastAnswer: string, plan: PromptPlan)
    requires plan.earlyExit
    ensures Contains(Prompt(systemPrompt, stateJson, lastAnswer, plan), EarlyExitBlock)
  {
    var ctx := Join(Context(systemPrompt, stateJson, lastAnswer), "");
    var progress := Progress(plan);
    InMiddleGroup(ctx, progress, Join(Reminders(plan), ""), 2);
  }

  /** The banner the plan chose appears. */
  lemma PromptBanner(systemPrompt: string, stateJson: string, lastAnswer: string, plan: PromptPlan)
    ensures var r := Prompt(systemPrompt, stateJson, lastAnswer, plan);
      && (plan.banner == HardStop ==> Contains(r, HardStopHeading))
      && (plan.banner == FinalQuestion ==> Contains(r, FinalQuestionBlock))
  {
    var ctx := Join(Context(systemPrompt, stateJson, lastAnswer), "");
    var progress := Progress(plan);
    var rest := Join(Reminders(plan), "");
    InMiddleGroup(ctx, progress, rest, 3);
    if plan.banner == HardStop {
      BannerTextShape(plan.banner, plan.limit);
      ContainsTransitive(ctx + (Join(progress, "") + rest), progress[3], HardStopHeading);
    }
  }

  lemma InMiddleGroup(a: string, parts: seq<string>, c: string, i: nat)
    requires i < |parts|
    ensures Contains(a + (Join(parts, "") + c), parts[i])
  {
    JoinContainsPart(parts, "", i);
    ContainsAppend(Join(parts, ""), c, parts[i]);
    ContainsPrepend(a, Join(parts, "") + c, parts[i]);
  }

  lemma InLastGroup(a: string, b: string, parts: seq<string>, i: nat)
    requires i < |parts|
    ensures Contains(a + (b + Join(parts, "")), parts[i])
  {
    JoinContainsPart(parts, "", i);
    ContainsPrepend(b, Join(parts, ""), parts[i]);
    ContainsPrepend(a, b + Join(parts, ""), parts[i]);
  }

  /** The prompt for a parsed state carries the first-turn block on the first
      turn, the early-exit block when an early exit applies, the hard stop
      once the limit is reached and the final-question warning one turn
      before it. */
  lemma PromptBlocks(systemPrompt: string, stateJson: string, parsed: Value, lastAnswer: string)
    ensures var r := GetSystemPrompt(systemPrompt, stateJson, parsed, lastAnswer);
      && (IsFirstTurn(parsed) ==> Contains(r, FirstTurnBlock) && Contains(r, FirstTurnReminder))
      && (ShouldEarlyExit(parsed) ==> Contains(r, EarlyExitBlock))
      && (QuestionNumber(parsed) >= DynamicLimit(parsed) ==> Contains(r, HardStopHeading))
      && (QuestionNumber(parsed) == DynamicLimit(parsed) - 1 ==> Contains(r, FinalQuestionBlock))
  {
    var plan := PlanFor(parsed);
    if plan.firstTurn {
      PromptFirstTurn(systemPrompt, stateJson, lastAnswer, plan);
    }
    if plan.earlyExit {
      PromptEarlyExit(systemPrompt, stateJson, lastAnswer, plan);
    }
    PromptBanner(systemPrompt, stateJson, lastAnswer, plan);
  }

}
