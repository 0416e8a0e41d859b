/** The build-team timeline of the earlier "cosmos" client design: the
    agent plan text is parsed as JSON and drawn as numbered phases, each
    listing its agents with a title-cased name, an icon, a colour and a
    role badge. */
module AgentTimeline {
  import opened Wrappers
  import opened Text

  datatype Agent = Agent(name: string, role: string, tasks: seq<string>)

  datatype Phase = Phase(id: int, name: string, duration: string, agents: seq<Agent>)

  /** A parsed plan; `phases` and `instructions` are `None` when the member
      is missing. */
  datatype Plan = Plan(projectName: string, totalPhases: int, estimatedDays: int, phases: Option<seq<Phase>>,
                       instructions: Option<string>)

  /** What `JSON.parse` made of the plan text: it threw, it produced a
      falsy value such as `null`, or it produced a plan. */
  datatype Parsed = Unparsable | Falsy | Parsed(plan: Plan)

  datatype Icon = UsersIcon | CodeIcon | TestTubeIcon | ShieldIcon | RocketIcon

  /** The icon of each known agent. */
  const AgentIcons: map<string, Icon> := map[
    "project-planner" := UsersIcon,
    "frontend-specialist" := CodeIcon,
    "backend-specialist" := CodeIcon,
    "test-engineer" := TestTubeIcon,
    "security-auditor" := ShieldIcon,
    "devops-engineer" := RocketIcon,
    "database-architect" := CodeIcon,
    "mobile-developer" := CodeIcon,
    "ai-ml-engineer" := CodeIcon]

  /** The gradient of each known agent. */
  const AgentColors: map<string, string> := map[
    "project-planner" := "from-blue-500 to-cyan-400",
    "frontend-specialist" := "from-violet-500 to-purple-400",
    "backend-specialist" := "from-emerald-500 to-teal-400",
    "test-engineer" := "from-amber-500 to-yellow-400",
    "security-auditor" := "from-red-500 to-orange-400",
    "devops-engineer" := "from-indigo-500 to-blue-400",
    "database-architect" := "from-pink-500 to-rose-400",
    "mobile-developer" := "from-cyan-500 to-sky-400",
    "ai-ml-engineer" := "from-fuchsia-500 to-pink-400"]

  const FallbackColor := "from-gray-500 to-gray-400"

  /** The agent's icon, or the users icon for an unknown agent. */
  function IconFor(name: string): (r: Icon)
    ensures name !in AgentIcons ==> r == UsersIcon
    ensures name in AgentIcons ==> r == AgentIcons[name]
  {
    if name in AgentIcons then AgentIcons[name] else UsersIcon
  }

  /** The agent's gradient, or gray for an unknown agent. */
  function ColorFor(name: string): (r: string)
    ensures name !in AgentColors ==> r == FallbackColor
    ensures name in AgentColors ==> r == AgentColors[name]
  {
    if name in AgentColors then AgentColors[name] else FallbackColor
  }

  /** Every agent with an icon has a colour and the other way round, and no
      known agent is drawn gray. */
  lemma KnownAgentsAgree()
    ensures AgentIcons.Keys == AgentColors.Keys
    ensures forall name :: name in AgentColors ==> ColorFor(name) != FallbackColor
  {
  }

  datatype Badge = LeadBadge | ParallelBadge | PlainBadge

  /** The role badge: 'Lead' first, then 'Parallel', then anything else. */
  function BadgeFor(role: string): (r: Badge)
    ensures r == LeadBadge <==> role == "Lead"
    ensures r == ParallelBadge <==> role == "Parallel"
  {
    if role == "Lead" then LeadBadge
    else if role == "Parallel" then ParallelBadge
    else PlainBadge
  }

  datatype Marker = PrimaryMarker | FinalMarker | SecondaryMarker

  /** The phase marker: the first phase is primary, the last one (unless it
      is also the first) green, the rest secondary. */
  function MarkerFor(index: nat, count: nat): (r: Marker)
    ensures r == PrimaryMarker <==> index == 0
    ensures r == FinalMarker <==> index != 0 && index == count - 1
  {
    if index == 0 then PrimaryMarker
    else if index == count - 1 then FinalMarker
    else SecondaryMarker
  }

  /** In a timeline of `count` phases exactly one marker is primary, and a
      green marker appears only on the last of at least two phases. */
  lemma MarkersOfTimeline(count: nat)
    requires count >= 1
    ensures forall i :: 0 <= i < count ==> (MarkerFor(i, count) == PrimaryMarker <==> i == 0)
    ensures forall i :: 0 <= i < count ==> (MarkerFor(i, count) == FinalMarker <==> count >= 2 && i == count - 1)
    ensures count == 1 ==> MarkerFor(0, 1) == PrimaryMarker
  {
  }

  /** `w.charAt(0).toUpperCase() + w.slice(1)`. */
  function Capitalize(w: string): (r: string)
    ensures |r| == |w|
  {
    if |w| == 0 then "" else [UpperChar(w[0])] + w[1..]
  }

  function CapitalizeAll(words: seq<string>): (r: seq<string>)
    ensures |r| == |words|
  {
    seq(|words|, i requires 0 <= i < |words| => Capitalize(words[i]))
  }

  /** The agent's title: its name split at '-', each piece capitalised,
      joined with spaces. */
  function DisplayName(name: string): string {
    Join(CapitalizeAll(Split(name, '-')), " ")
  }

  /** The same title described character by character: every '-' becomes a
      space and the character starting the name or following a '-' is
      upper-cased; all other characters are kept. */
  function TitleCase(s: string, atStart: bool): (r: string)
    ensures |r| == |s|
  {
    if |s| == 0 then ""
    else if s[0] == '-' then " " + TitleCase(s[1..], true)
    else [if atStart then UpperChar(s[0]) else s[0]] + TitleCase(s[1..], false)
  }

  /** The pieces of a split with only the first one optionally capitalised
      differently from the rest. */
  function Styled(words: seq<string>, capitalizeFirst: bool): seq<string>
    requires |words| >= 1
  {
    [if capitalizeFirst then Capitalize(words[0]) else words[0]] + CapitalizeAll(words[1..])
  }

  lemma JoinPrefixFirst(prefix: string, first: string, rest: seq<string>, sep: string)
    ensures Join([prefix + first] + rest, sep) == prefix + Join([first] + rest, sep)
  {
    if |rest| > 0 {
      assert ([prefix + first] + rest)[1..] == rest;
      assert ([first] + rest)[1..] == rest;
    }
  }

  /** Capitalising every piece is styling with the first one capitalised. */
  lemma StyledAll(words: seq<string>)
    requires |words| >= 1
    ensures CapitalizeAll(words) == Styled(words, true)
  {
    var all := CapitalizeAll(words);
    var tail := CapitalizeAll(words[1..]);
    forall i | 1 <= i < |words| ensures all[i] == tail[i - 1] {
      assert words[1..][i - 1] == words[i];
    }
    assert all == [all[0]] + tail;
  }

  /** A leading '-' ends an empty piece: the title gains a space and the
      next piece starts capitalised. */
  lemma HyphenStep(s: string, atStart: bool)
    requires |s| > 0 && s[0] == '-'
    ensures Join(Styled(Split(s, '-'), atStart), " ")
      == " " + Join(Styled(Split(s[1..], '-'), true), " ")
  {
    var rest := Split(s[1..], '-');
    var capitalized := CapitalizeAll(rest);
    assert Styled(Split(s, '-'), atStart) == [""] + capitalized by {
      assert Split(s, '-') == [""] + rest;
      assert ([""] + rest)[1..] == rest;
    }
    assert Join([""] + capitalized, " ") == " " + Join(capitalized, " ") by {
      assert ([""] + capitalized)[1..] == capitalized;
    }
    StyledAll(rest);
  }

  /** Any other leading character starts the current piece. */
  lemma CharStep(s: string, atStart: bool)
    requires |s| > 0 && s[0] != '-'
    ensures Join(Styled(Split(s, '-'), atStart), " ")
      == [if atStart then UpperChar(s[0]) else s[0]] + Join(Styled(Split(s[1..], '-'), false), " ")
  {
    var rest := Split(s[1..], '-');
    var c := if atStart then UpperChar(s[0]) else s[0];
    assert Split(s, '-') == [[s[0]] + rest[0]] + rest[1..];
    assert Styled(Split(s, '-'), atStart) == [[c] + rest[0]] + CapitalizeAll(rest[1..]);
    JoinPrefixFirst([c], rest[0], CapitalizeAll(rest[1..]), " ");
  }

  lemma {:induction false} StyledIsTitleCase(s: string, atStart: bool)
    ensures Join(Styled(Split(s, '-'), atStart), " ") == TitleCase(s, atStart)
    decreases |s|
  {
    if |s| > 0 {
      if s[0] == '-' {
        StyledIsTitleCase(s[1..], true);
        HyphenStep(s, atStart);
      } else {
        StyledIsTitleCase(s[1..], false);
        CharStep(s, atStart);
      }
    }
  }

  /** The split-capitalise-join title agrees with the character-by-character
      description; in particular it is exactly as long as the name. */
  lemma DisplayNameIsTitleCase(name: string)
    ensures DisplayName(name) == TitleCase(name, true)
    ensures |DisplayName(name)| == |name|
  {
    StyledIsTitleCase(name, true);
    StyledAll(Split(name, '-'));
  }

  /** The Agents figure: `phases.reduce((acc, p) => acc + p.agents.length, 0)`. */
  function AgentCount(phases: seq<Phase>): nat
    decreases |phases|
  {
    if |phases| == 0 then 0
    else AgentCount(phases[..|phases| - 1]) + |phases[|phases| - 1].agents|
  }

  /** Every agent of the plan, phase by phase. */
  function AllAgents(phases: seq<Phase>): seq<Agent>
    decreases |phases|
  {
    if |phases| == 0 then [] else phases[0].agents + AllAgents(phases[1..])
  }

  lemma {:induction false} AllAgentsAppend(phases: seq<Phase>, last: Phase)
    ensures AllAgents(phases + [last]) == AllAgents(phases) + last.agents
    decreases |phases|
  {
    if |phases| > 0 {
      assert (phases + [last])[1..] == phases[1..] + [last];
      AllAgentsAppend(phases[1..], last);
    }
  }

  /** The Agents figure counts every agent of every phase. */
  lemma {:induction false} AgentCountIsAllAgents(phases: seq<Phase>)
    ensures AgentCount(phases) == |AllAgents(phases)|
    decreases |phases|
  {
    if |phases| > 0 {
      var front := phases[..|phases| - 1];
      AgentCountIsAllAgents(front);
      AllAgentsAppend(front, phases[|phases| - 1]);
      assert front + [phases[|phases| - 1]] == phases;
    }
  }

  datatype AgentView = AgentView(title: string, icon: Icon, gradient: string, badge: Badge, role: string, tasks: seq<string>)

  datatype PhaseView = PhaseView(marker: Marker, id: int, name: string, duration: string, agents: seq<AgentView>)

  /** What the component draws. */
  datatype View =
    | RawText(text: string)
    | NoPlan
    | Timeline(phaseFigure: int, dayFigure: int, agentFigure: nat, phases: seq<PhaseView>, instructionsCard: Option<string>)

  function ViewAgent(a: Agent): AgentView {
    AgentView(DisplayName(a.name), IconFor(a.name), ColorFor(a.name), BadgeFor(a.role), a.role, a.tasks)
  }

  function ViewPhase(p: Phase, index: nat, count: nat): PhaseView {
    PhaseView(MarkerFor(index, count), p.id, p.name, p.duration,
      seq(|p.agents|, j requires 0 <= j < |p.agents| => ViewAgent(p.agents[j])))
  }

  /** Unparsable text is shown raw; a falsy plan or one without phases
      gives the "No agent plan available." notice; otherwise the timeline
      is drawn phase by phase, followed by the "How to Use This Plan" card
      when the instructions are a non-empty string. */
  function Render(parsed: Parsed, agentMd: string): (r: View)
    ensures r.RawText? <==> parsed.Unparsable?
    ensures r.RawText? ==> r.text == agentMd
    ensures r.NoPlan? <==> parsed.Falsy? || (parsed.Parsed? && parsed.plan.phases.None?)
    ensures r.Timeline? ==> |r.phases| == |parsed.plan.phases.value|
    ensures r.Timeline? ==> (r.instructionsCard.Some? <==> parsed.plan.instructions.Some? && parsed.plan.instructions.value != "")
    ensures r.Timeline? && r.instructionsCard.Some? ==> r.instructionsCard == parsed.plan.instructions
  {
    match parsed
    case Unparsable => RawText(agentMd)
    case Falsy => NoPlan
    case Parsed(plan) =>
      match plan.phases
      case None => NoPlan
      case Some(phases) =>
        Timeline(plan.totalPhases, plan.estimatedDays, AgentCount(phases),
          seq(|phases|, i requires 0 <= i < |phases| => ViewPhase(phases[i], i, |phases|)),
          if plan.instructions.Some? && plan.instructions.value != "" then plan.instructions else None)
  }

  /** A drawn timeline counts every agent and shows each one under its
      phase, titled character by character from its name, with the gray
      users fallback for an unknown name. */
  lemma TimelineShowsEveryAgent(plan: Plan, agentMd: string, i: nat, j: nat)
    requires plan.phases.Some? && i < |plan.phases.value| && j < |plan.phases.value[i].agents|
    ensures Render(Parsed(plan), agentMd).agentFigure == |AllAgents(plan.phases.value)|
    ensures var a := plan.phases.value[i].agents[j];
      var v := Render(Parsed(plan), agentMd).phases[i].agents[j];
      v.title == TitleCase(a.name, true) && v.role == a.role
      && (a.name !in AgentIcons ==> v.icon == UsersIcon && v.gradient == FallbackColor)
  {
    AgentCountIsAllAgents(plan.phases.value);
    DisplayNameIsTitleCase(plan.phases.value[i].agents[j].name);
  }
}
