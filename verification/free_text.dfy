/** The free-text answer box, identical in the current and the earlier
    "cosmos" client design: the typed value is sent as typed once it has a
    non-blank character, by the Next button or by Enter without Shift. */
module FreeText {
  import opened Wrappers
  import opened Text

  /** The Next button is disabled while the value is blank. */
  predicate NextDisabled(value: string) {
    Trim(value) == ""
  }

  /** What clicking Next sends: the untrimmed value, and nothing for a
      blank value. */
  function Submit(value: string): (r: Option<string>)
    ensures r.Some? <==> !NextDisabled(value)
    ensures r.Some? ==> r.value == value
    ensures r.Some? ==> exists c :: c in r.value && !IsWhitespace(c)
  {
    if Trim(value) != "" then
      assert Trim(value)[0] in value by { TrimmedHeadOccurs(value); }
      Some(value)
    else None
  }

  lemma TrimmedHeadOccurs(value: string)
    requires Trim(value) != ""
    ensures Trim(value)[0] in value && !IsWhitespace(Trim(value)[0])
  {
    var k := TrimInfix(value);
    assert value[k] == Trim(value)[0];
  }

  /** A key press in the box. */
  datatype Key = Key(name: string, shiftKey: bool)

  /** The effect of a key press: whether the newline is suppressed and
      what is sent. */
  datatype KeyEffect = KeyEffect(preventDefault: bool, sent: Option<string>)

  /** Enter without Shift suppresses the newline and submits; every other
      key, Shift+Enter included, is left to the text box. */
  function OnKeyDown(key: Key, value: string): (r: KeyEffect)
    ensures r.preventDefault <==> key.name == "Enter" && !key.shiftKey
    ensures !r.preventDefault ==> r.sent.None?
  {
    if key.name == "Enter" && !key.shiftKey then KeyEffect(true, Submit(value))
    else KeyEffect(false, None)
  }

  /** Enter sends exactly what the Next button sends, Shift+Enter never
      sends, and neither sends a blank value. */
  lemma EnterMatchesNext(value: string)
    ensures OnKeyDown(Key("Enter", false), value).sent == Submit(value)
    ensures OnKeyDown(Key("Enter", true), value).sent == None
    ensures OnKeyDown(Key("Enter", false), value).sent.Some? <==> !NextDisabled(value)
  {
  }
}
