/**
  The floating "+" entry of the calendar screen: a plus button that turns into
  a text field, and turns back once a fade-out animation has completed after a
  submit, or after leaving an empty field. The animations themselves are not
  modelled; their completion callbacks are events of their own.
*/
module TodoQueryInput {

  /** The control rendered in the dock. */
  datatype Control = PlusButton | TextField

  class EntryState {
    var showInput: bool
    var text: string
    /** Fade-out animations started and not yet completed; each ends by hiding the field. */
    var pendingHides: nat

    constructor()
      ensures !showInput && text == "" && pendingHides == 0
    {
      showInput := false;
      text := "";
      pendingHides := 0;
    }

    /** Exactly one control is rendered, chosen by `showInput`. */
    function Rendered(): (c: Control)
      reads this
      ensures c == TextField <==> showInput
      ensures c == PlusButton <==> !showInput
    {
      if showInput then TextField else PlusButton
    }

    /** The field's `onChangeText` (the field exists only while `showInput` holds). */
    method OnChangeText(value: string)
      requires showInput
      modifies this
      ensures text == value
      ensures showInput == old(showInput) && pendingHides == old(pendingHides)
    {
      text := value;
    }

    /** A press on the plus button (rendered only while `showInput` is false). */
    method HandlePressPlus()
      requires !showInput
      modifies this
      ensures showInput && Rendered() == TextField
      ensures text == old(text) && pendingHides == old(pendingHides)
    {
      showInput := true;
    }

    /** Submit: the text is cleared whatever it was, and a fade-out that hides the field starts. */
    method AddSchedule()
      requires showInput
      modifies this
      ensures text == "" && pendingHides == old(pendingHides) + 1
      ensures showInput == old(showInput)
    {
      text := "";
      pendingHides := pendingHides + 1;
    }

    /** Leaving the field: an empty field starts the fade-out; a filled one stays as it is. */
    method OnBlur()
      requires showInput
      modifies this
      ensures text == old(text) && showInput == old(showInput)
      ensures pendingHides == old(pendingHides) + (if old(text) == "" then 1 else 0)
    {
      if text == "" {
        pendingHides := pendingHides + 1;
      }
    }

    /** A fade-out completes: its callback hides the field, bringing the plus button back. */
    method HideAnimationDone()
      requires pendingHides > 0
      modifies this
      ensures !showInput && Rendered() == PlusButton
      ensures text == old(text) && pendingHides == old(pendingHides) - 1
    {
      showInput := false;
      pendingHides := pendingHides - 1;
    }
  }
}
