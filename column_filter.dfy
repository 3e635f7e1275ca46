/**
 * The filter control in a column header: a funnel button that opens a
 * popover with a text input, or, once the column is filtered, a button that
 * clears the filter. `value` is the parent's current filter for the column;
 * the draft text in the input is `inputValue`. A handler that reports a new
 * filter to the parent returns it, so the caller's `onChange` is the
 * returned value.
 */
module ColumnFilter {
  import opened Wrappers

  /** What the header shows next to its label. */
  datatype Control = ClearButton | FilterPopover(open: bool)

  class Filter {
    var value: string
    var inputValue: string
    var open: bool

    /** The draft starts as the parent's filter, the popover closed. */
    constructor(initial: string)
      ensures value == initial && inputValue == initial && !open
    {
      value := initial;
      inputValue := initial;
      open := false;
    }

    /** An active filter shows only the clear button; no filter shows the popover. */
    function Shown(): (c: Control)
      reads this
      ensures c.ClearButton? <==> value != ""
      ensures c.FilterPopover? ==> c.open == open
    {
      if value != "" then ClearButton else FilterPopover(open)
    }

    /** The parent re-rendered with a new filter; the draft is not re-read from it. */
    method ValueChanged(v: string)
      modifies this
      ensures value == v && inputValue == old(inputValue) && open == old(open)
    {
      value := v;
    }

    /** "Apply": report the draft and close the popover. */
    method Apply() returns (emitted: string)
      modifies this
      ensures emitted == old(inputValue) && !open
      ensures inputValue == old(inputValue) && value == old(value)
    {
      emitted := inputValue;
      open := false;
    }

    /** The clear button: empty the draft and report the empty filter; the popover's state is left alone. */
    method Clear() returns (emitted: string)
      modifies this
      ensures emitted == "" && inputValue == ""
      ensures open == old(open) && value == old(value)
    {
      inputValue := "";
      emitted := "";
    }

    /** The popover opens or closes; opening re-reads the draft from the parent's filter. */
    method OpenChange(isOpen: bool)
      modifies this
      ensures open == isOpen && value == old(value)
      ensures isOpen ==> inputValue == value
      ensures !isOpen ==> inputValue == old(inputValue)
    {
      open := isOpen;
      if isOpen {
        inputValue := value;
      }
    }

    /** Typing edits the draft only; nothing is reported. */
    method Type(text: string)
      modifies this
      ensures inputValue == text && open == old(open) && value == old(value)
    {
      inputValue := text;
    }

    /** A key press in the input: Enter is "Apply", any other key does nothing here. */
    method KeyDown(key: string) returns (emitted: Option<string>)
      modifies this
      ensures key == "Enter" ==> emitted == Some(old(inputValue)) && !open
      ensures key != "Enter" ==> emitted == None && open == old(open)
      ensures inputValue == old(inputValue) && value == old(value)
    {
      if key == "Enter" {
        var s := Apply();
        emitted := Some(s);
      } else {
        emitted := None;
      }
    }

    /** Applying a draft that the parent then stores: a non-empty draft swaps the popover for the clear button. */
    method ApplyAndStore() returns (emitted: string)
      modifies this
      ensures emitted == old(inputValue) && value == emitted
      ensures old(inputValue) != "" ==> Shown() == ClearButton
      ensures old(inputValue) == "" ==> Shown() == FilterPopover(false)
    {
      emitted := Apply();
      ValueChanged(emitted);
    }
  }
}
