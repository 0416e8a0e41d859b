/** The option picker of the current client design: a selection of option
    values kept in click order, replaced wholesale in single-choice mode and
    toggled value by value in multi-choice mode, and submitted as one
    comma-separated answer. */
module Choice {
  import opened Wrappers
  import opened Text

  /** The two templates the picker serves. */
  datatype Kind = SingleChoice | MultiChoice

  /** No value is selected twice. */
  predicate Distinct(s: seq<string>) {
    forall i, j :: 0 <= i < j < |s| ==> s[i] != s[j]
  }

  /** The selection with every copy of `value` filtered out, order kept. */
  function Without(s: seq<string>, value: string): (r: seq<string>)
    ensures forall x :: x in r <==> x in s && x != value
    ensures |r| <= |s|
    ensures value in s ==> |r| < |s|
  {
    if |s| == 0 then []
    else (if s[0] == value then [] else [s[0]]) + Without(s[1..], value)
  }

  /** Clicking an option: single-choice selects exactly that option; in
      multi-choice a selected option is removed and any other is appended
      after the earlier clicks. */
  function Toggle(kind: Kind, selected: seq<string>, value: string): (r: seq<string>)
    ensures kind == SingleChoice ==> r == [value]
    ensures kind == MultiChoice ==>
      forall x :: (x in r) == ((x in selected) != (x == value))
    ensures kind == MultiChoice && value !in selected ==> r == selected + [value]
    ensures kind == MultiChoice && value in selected ==> |r| < |selected|
  {
    match kind
    case SingleChoice => [value]
    case MultiChoice =>
      if value in selected then Without(selected, value) else selected + [value]
  }

  /** The confirm button is disabled while nothing is selected. */
  predicate ConfirmDisabled(selected: seq<string>) {
    |selected| == 0
  }

  /** The answer sent on confirm: the selections in click order, joined by
      ", ", or nothing at all for an empty selection. */
  function Submit(selected: seq<string>): (r: Option<string>)
    ensures r.Some? <==> !ConfirmDisabled(selected)
    ensures |selected| == 1 ==> r == Some(selected[0])
  {
    if |selected| > 0 then Some(Join(selected, ", ")) else None
  }

  /** The selection after clicking `values` in order on a fresh picker. */
  function Clicks(kind: Kind, values: seq<string>): seq<string>
    decreases |values|
  {
    if |values| == 0 then []
    else Toggle(kind, Clicks(kind, values[..|values| - 1]), values[|values| - 1])
  }

  lemma {:induction false} WithoutKeepsDistinct(s: seq<string>, value: string)
    requires Distinct(s)
    ensures Distinct(Without(s, value))
    decreases |s|
  {
    if |s| > 0 {
      WithoutKeepsDistinct(s[1..], value);
      var rest := Without(s[1..], value);
      assert forall k :: 0 <= k < |s[1..]| ==> s[1..][k] == s[k + 1] != s[0];
      assert s[0] !in rest;
    }
  }

  /** Toggling never introduces a duplicate. */
  lemma ToggleKeepsDistinct(kind: Kind, selected: seq<string>, value: string)
    requires Distinct(selected)
    ensures Distinct(Toggle(kind, selected, value))
  {
    if kind == MultiChoice && value in selected {
      WithoutKeepsDistinct(selected, value);
    }
  }

  lemma {:induction false} WithoutAbsent(s: seq<string>, value: string)
    requires value !in s
    ensures Without(s, value) == s
    decreases |s|
  {
    if |s| > 0 {
      WithoutAbsent(s[1..], value);
      assert [s[0]] + s[1..] == s;
    }
  }

  lemma {:induction false} WithoutLast(s: seq<string>, value: string)
    requires value !in s
    ensures Without(s + [value], value) == s
    decreases |s|
  {
    if |s| == 0 {
      assert Without([value], value) == [] + Without([], value);
    } else {
      assert (s + [value])[1..] == s[1..] + [value];
      WithoutLast(s[1..], value);
      assert [s[0]] + s[1..] == s;
    }
  }

  /** Clicking an unselected option twice in multi-choice restores the
      selection exactly. */
  lemma ToggleTwiceRestores(selected: seq<string>, value: string)
    requires value !in selected
    ensures Toggle(MultiChoice, Toggle(MultiChoice, selected, value), value) == selected
  {
    WithoutLast(selected, value);
  }

  /** Clicking a selected option twice moves it to the end of the click
      order; the selection is restored only when it was already last. */
  lemma ToggleTwiceMovesToEnd(selected: seq<string>, value: string)
    requires Distinct(selected) && value in selected
    ensures Toggle(MultiChoice, Toggle(MultiChoice, selected, value), value)
      == Without(selected, value) + [value]
    ensures selected[|selected| - 1] == value ==>
      Toggle(MultiChoice, Toggle(MultiChoice, selected, value), value) == selected
  {
    if selected[|selected| - 1] == value {
      var front := selected[..|selected| - 1];
      assert selected == front + [value];
      assert forall k :: 0 <= k < |front| ==> front[k] == selected[k] != value;
      WithoutLast(front, value);
    }
  }

  /** In multi-choice, clicking distinct options one after another selects
      exactly them, in click order. */
  lemma {:induction false} ClickOrder(values: seq<string>)
    requires Distinct(values)
    ensures Clicks(MultiChoice, values) == values
    decreases |values|
  {
    if |values| > 0 {
      var front := values[..|values| - 1];
      var last := values[|values| - 1];
      assert Distinct(front);
      ClickOrder(front);
      assert forall k :: 0 <= k < |front| ==> front[k] == values[k] != last;
      assert front + [last] == values;
    }
  }

  /** In single-choice, the selection after any clicks is the last option
      clicked. */
  lemma SingleKeepsLastClick(values: seq<string>)
    requires |values| > 0
    ensures Clicks(SingleChoice, values) == [values[|values| - 1]]
    ensures Submit(Clicks(SingleChoice, values)) == Some(values[|values| - 1])
  {
  }

  /** A submitted answer begins with the first selection and mentions every
      selection. */
  lemma SubmitListsSelections(selected: seq<string>)
    requires |selected| > 0
    ensures selected[0] <= Submit(selected).value
    ensures forall i :: 0 <= i < |selected| ==> Contains(Submit(selected).value, selected[i])
  {
    JoinStartsWithFirst(selected, ", ");
    forall i | 0 <= i < |selected|
      ensures Contains(Submit(selected).value, selected[i])
    {
      JoinContainsPart(selected, ", ", i);
    }
  }
}
