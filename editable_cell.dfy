/** The inline editor of the admin tables (`EditableCell`, written out the
    same way in the team/player table and in the game table). It shows the
    text of its value, lets the user edit a copy, and on blur or Enter
    hands the edited text to its `onSave` callback, but only when the text
    differs from what the value shows. */
module EditableCell {
  import opened Wrappers
  import opened Text
  import opened Records

  /** The "only if changed" rule of `finishEditing`: the edited text is
      compared, as a string, with the value's own text (`""` for null). */
  predicate ShouldSave(temp: string, value: Value) {
    temp != CellText(value)
  }

  class Cell {
    var value: Value
    var editing: bool
    var tempValue: string

    /** A cell starts out showing its value, not editing. */
    constructor (v: Value)
      ensures value == v && !editing && tempValue == CellText(v)
    {
      value := v;
      editing := false;
      tempValue := CellText(v);
    }

    /** The effect on a new `value` prop: the edit buffer is reset to it. */
    method SetValue(v: Value)
      modifies this
      ensures value == v && tempValue == CellText(v) && editing == old(editing)
    {
      value := v;
      tempValue := CellText(v);
    }

    /** A click on the shown text. */
    method StartEditing()
      modifies this
      ensures editing && value == old(value) && tempValue == old(tempValue)
    {
      editing := true;
    }

    /** Typing into the input. */
    method Type(text: string)
      modifies this
      ensures tempValue == text && value == old(value) && editing == old(editing)
    {
      tempValue := text;
    }

    /** Blur or Enter: leave edit mode and return the text to save, if any. */
    method FinishEditing() returns (save: Option<string>)
      modifies this
      ensures !editing && value == old(value) && tempValue == old(tempValue)
      ensures save.Some? <==> ShouldSave(tempValue, value)
      ensures save.Some? ==> save.value == tempValue
    {
      editing := false;
      if tempValue != CellText(value) {
        save := Some(tempValue);
      } else {
        save := None;
      }
    }
  }

  /** Opening and closing the editor without typing never saves, and neither
      does retyping the text the value already shows. */
  lemma UnchangedTextNeverSaves(v: Value)
    ensures !ShouldSave(CellText(v), v)
  {
  }

  /** For a number the shown text reads back as that number, so a save
      happens exactly when the user typed different text. */
  lemma NumberTextRoundTrip(n: int)
    ensures ParseInt(CellText(VInt(n))) == Some(n)
    ensures ToNumber(CellText(VInt(n))) == Some(n)
  {
    ParseIntOfIntToString(n);
    ToNumberOfIntToString(n);
  }

  /** The rule compares text, not numbers: "05" typed over 5 is saved,
      although `Number` gives the same 5 back. */
  lemma LeadingZeroIsSaved()
    ensures ShouldSave("05", VInt(5))
    ensures ToNumber("05") == Some(5)
  {
    assert CellText(VInt(5)) == "5";
    assert "05"[0] != "5"[0];
    assert Trim("05") == "05" by {
      assert TrimStart("05") == "05";
      assert TrimEnd("05") == "05";
    }
    assert DigitsValue("05"[..1]) == 0;
  }

  /** An empty edit of a field that is null is not a change. */
  lemma EmptyEditOfNullNotSaved()
    ensures !ShouldSave("", VNull)
  {
  }
}
