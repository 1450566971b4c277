/**
  The dialog that asks how to add a new event: a category chosen from a fixed
  list of pills and a "todo" switch, confirmed or cancelled. The choice is
  initialised once, when the dialog is mounted, and showing or hiding the
  dialog does not reset it.
*/
module EventCreateModal {

  /** The category pills, in display order: work, personal, health, travel, other. */
  const CATEGORIES: seq<string> := ["업무", "개인", "건강", "여행", "기타"]

  /** The category chosen at mount ("other"). */
  const DEFAULT_CATEGORY: string := "기타"

  /** What `onConfirm` receives. */
  datatype Choice = Choice(category: string, isTodo: bool)

  class Modal {
    var visible: bool
    var category: string
    var isTodo: bool

    /** The chosen category is always one of the pills. */
    predicate Valid()
      reads this
    {
      category in CATEGORIES
    }

    constructor(visible: bool)
      ensures Valid() && category == DEFAULT_CATEGORY && isTodo && this.visible == visible
    {
      this.visible := visible;
      category := DEFAULT_CATEGORY;
      isTodo := true;
    }

    /** The one highlighted pill: the position of the chosen category in the list. */
    function ActivePill(): (i: nat)
      requires Valid()
      reads this
      ensures i < |CATEGORIES| && CATEGORIES[i] == category
      ensures forall j :: 0 <= j < |CATEGORIES| && j != i ==> CATEGORIES[j] != category
    {
      if category == CATEGORIES[0] then 0
      else if category == CATEGORIES[1] then 1
      else if category == CATEGORIES[2] then 2
      else if category == CATEGORIES[3] then 3
      else 4
    }

    /** A press on the pill of `c`, one of the rendered categories. */
    method PressPill(c: string)
      requires Valid() && c in CATEGORIES
      modifies this
      ensures Valid() && category == c
      ensures isTodo == old(isTodo) && visible == old(visible)
    {
      category := c;
    }

    /** The switch's `onValueChange`. */
    method SetIsTodo(value: bool)
      requires Valid()
      modifies this
      ensures Valid() && isTodo == value
      ensures category == old(category) && visible == old(visible)
    {
      isTodo := value;
    }

    /** The confirm button: `onConfirm` gets the current choice, which stays as it is. */
    method Confirm() returns (choice: Choice)
      requires Valid()
      ensures choice.category in CATEGORIES
      ensures choice == Choice(category, isTodo)
    {
      choice := Choice(category, isTodo);
    }

    /** The cancel button: `onClose` is called and the choice stays as it is. */
    method Cancel() returns (closeCalled: bool)
      requires Valid()
      ensures closeCalled
    {
      closeCalled := true;
    }

    /** A new `visible` prop: the dialog shows or hides, the choice is kept. */
    method SetVisible(v: bool)
      requires Valid()
      modifies this
      ensures Valid() && visible == v
      ensures category == old(category) && isTodo == old(isTodo)
    {
      visible := v;
    }
  }
}
