/** The `todo-input` form (components/todo/scripts/todo-input.js): submitting it always
    prevents the browser's own submission, emits the text as one `onSubmit` event when the
    field is not empty, and then clears the field. */
module TodoInput {
  import opened Dom

  /** What one submission does: whether the default action was prevented, the text of the
      `onSubmit` event if one was emitted, and the field's value afterwards. */
  datatype SubmitOutcome = SubmitOutcome(defaultPrevented: bool, emitted: Option<string>, field: string)

  function Submitted(value: string): (r: SubmitOutcome)
    ensures r.defaultPrevented
    ensures value == "" ==> r.emitted == None && r.field == value
    ensures value != "" ==> r.emitted == Some(value) && r.field == ""
    ensures r.field == value || r.field == ""
  {
    if value == "" then SubmitOutcome(true, None, value) else SubmitOutcome(true, Some(value), "")
  }

  /** A second submission right after a first one emits nothing: the field is empty. */
  lemma ResubmitEmitsNothing(value: string)
    ensures Submitted(Submitted(value).field).emitted == None
    ensures Submitted(Submitted(value).field).field == ""
  {
  }

  class TodoInputElement {
    /** The value of the text field. */
    var value: string

    constructor ()
      ensures value == ""
    {
      value := "";
    }

    /** The user types `text` into the field. */
    method Type(text: string)
      modifies this
      ensures value == text
    {
      value := text;
    }

    method OnSubmit() returns (defaultPrevented: bool, emitted: Option<string>)
      modifies this
      ensures SubmitOutcome(defaultPrevented, emitted, value) == Submitted(old(value))
    {
      defaultPrevented := true;
      if value == "" {
        return defaultPrevented, None;
      }
      emitted := Some(value);
      value := "";
    }
  }
}
