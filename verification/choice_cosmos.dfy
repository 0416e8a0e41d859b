/** The option picker of the earlier "cosmos" client design: the same
    click rule as the current picker, plus a free-form custom answer that
    competes with, or in multi-choice joins, the clicked options. */
module ChoiceCosmos {
  import opened Wrappers
  import opened Text
  import Choice

  /** What the picker holds: the clicked values, the custom answer as typed
      and whether the custom input is shown. */
  datatype Picker = Picker(selected: seq<string>, custom: string, showCustom: bool)

  const Fresh := Picker([], "", false)

  /** Clicking an option discards the custom answer, hides the custom input
      and applies the current picker's toggle rule to the selection. */
  function ToggleOption(kind: Choice.Kind, p: Picker, value: string): (r: Picker)
    ensures r.custom == "" && !r.showCustom
    ensures r.selected == Choice.Toggle(kind, p.selected, value)
  {
    Picker(Choice.Toggle(kind, p.selected, value), "", false)
  }

  /** Typing into the custom input: the text is kept as typed, and a
      non-empty text empties the selection in single-choice only. */
  function CustomInputChange(kind: Choice.Kind, p: Picker, text: string): (r: Picker)
    ensures r.custom == text && r.showCustom == p.showCustom
    ensures kind == Choice.MultiChoice || text == "" ==> r.selected == p.selected
    ensures kind == Choice.SingleChoice && text != "" ==> r.selected == []
  {
    if kind == Choice.SingleChoice && text != "" then p.(custom := text, selected := [])
    else p.(custom := text)
  }

  /** Clicking the custom-answer row only reveals the input. */
  function OpenCustom(p: Picker): (r: Picker)
    ensures r.showCustom
    ensures r.selected == p.selected && r.custom == p.custom
  {
    p.(showCustom := true)
  }

  /** The confirm button is enabled iff something is selected or the
      trimmed custom answer is non-empty. */
  predicate CanSubmit(p: Picker) {
    |p.selected| > 0 || |Trim(p.custom)| > 0
  }

  /** The answer sent on confirm.  A non-blank custom answer wins; in
      multi-choice it is appended after the clicked options.  Without one,
      the clicked options are sent as the current picker sends them. */
  function Submit(kind: Choice.Kind, p: Picker): (r: Option<string>)
    ensures r.Some? <==> CanSubmit(p)
    ensures Trim(p.custom) == [] ==> r == Choice.Submit(p.selected)
    ensures Trim(p.custom) != [] && (kind == Choice.SingleChoice || p.selected == []) ==>
      r == Some(Trim(p.custom))
    ensures Trim(p.custom) != [] && kind == Choice.MultiChoice && p.selected != [] ==>
      r == Some(Join(p.selected + [Trim(p.custom)], ", "))
  {
    var answer := Trim(p.custom);
    if answer != "" then
      if kind == Choice.MultiChoice && |p.selected| > 0 then
        Some(Join(p.selected + [answer], ", "))
      else Some(answer)
    else if |p.selected| > 0 then Some(Join(p.selected, ", "))
    else None
  }

  /** One user action on the picker.  Typing is only possible once the
      custom input has been revealed. */
  datatype Action = Click(value: string) | Type(text: string) | Reveal

  function Step(kind: Choice.Kind, p: Picker, a: Action): Picker {
    match a
    case Click(v) => ToggleOption(kind, p, v)
    case Type(t) => if p.showCustom then CustomInputChange(kind, p, t) else p
    case Reveal => OpenCustom(p)
  }

  /** The picker after performing `actions` in order on a fresh one. */
  function Replay(kind: Choice.Kind, actions: seq<Action>): Picker
    decreases |actions|
  {
    if |actions| == 0 then Fresh
    else Step(kind, Replay(kind, actions[..|actions| - 1]), actions[|actions| - 1])
  }

  /** In multi-choice, a custom answer extends what the current picker
      would send for the same clicks by ", " and the trimmed text. */
  lemma MultiCustomExtendsSelection(p: Picker)
    requires Trim(p.custom) != [] && p.selected != []
    ensures Submit(Choice.MultiChoice, p)
      == Some(Choice.Submit(p.selected).value + ", " + Trim(p.custom))
  {
    JoinAppend(p.selected, ", ", Trim(p.custom));
  }

  /** In single-choice, whatever actions were taken, at most one option is
      selected and it is one the user clicked. */
  lemma {:induction false} SingleSelectsAtMostOne(actions: seq<Action>)
    ensures |Replay(Choice.SingleChoice, actions).selected| <= 1
    ensures forall x :: x in Replay(Choice.SingleChoice, actions).selected ==> Click(x) in actions
    decreases |actions|
  {
    if |actions| > 0 {
      var front := actions[..|actions| - 1];
      SingleSelectsAtMostOne(front);
      assert actions == front + [actions[|actions| - 1]];
    }
  }

  /** In single-choice the submitted answer is either the trimmed custom
      text or exactly one clicked option, never a combination. */
  lemma SingleChoiceAnswer(actions: seq<Action>)
    ensures var p := Replay(Choice.SingleChoice, actions);
      Submit(Choice.SingleChoice, p).Some? ==>
        Submit(Choice.SingleChoice, p).value == Trim(p.custom)
        || (p.selected == [Submit(Choice.SingleChoice, p).value]
            && Click(Submit(Choice.SingleChoice, p).value) in actions)
  {
    SingleSelectsAtMostOne(actions);
  }
}
