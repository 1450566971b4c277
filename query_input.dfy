/**
  The text dock of the chat sheet: a text field whose content is replaced on
  every change and handed to `onAddTodo` on submit, unless it is blank.
*/
module QueryInput {
  import opened Wrappers
  import JsString

  /** What a submit does: the text left in the field, and the call made to `onAddTodo`, if any. */
  datatype Submission = Submission(text: string, added: Option<string>)

  /**
    `addSchedule`: blank text (empty or white space only) is left alone and
    nothing is reported; otherwise the text, untrimmed, goes to `onAddTodo`
    and the field is cleared.
  */
  function Submit(text: string): (r: Submission)
    ensures r.added == None <==> JsString.AllWhiteSpace(text)
    ensures r.added == None ==> r.text == text
    ensures r.added != None ==> r.added == Some(text) && r.text == ""
  {
    JsString.TrimEmptyIffAllWhiteSpace(text);
    if JsString.Trim(text) == [] then Submission(text, None)
    else Submission("", Some(text))
  }

  /** Two submits in a row report the text at most once, and the second changes nothing. */
  lemma {:induction false} SubmitTwiceReportsOnce(text: string)
    ensures var first := Submit(text);
      && Submit(first.text).added == None
      && Submit(first.text).text == first.text
      && (first.added == Some(text) || first.added == None)
  {
    var first := Submit(text);
    if first.added != None {
      assert first.text == "";
      assert JsString.AllWhiteSpace(first.text);
    }
  }

  class InputState {
    var text: string

    constructor()
      ensures text == ""
    {
      text := "";
    }

    /** `onChangeText`: the field takes the new value and nothing else changes. */
    method OnChangeText(val: string)
      modifies this
      ensures text == val
    {
      text := val;
    }

    /** `addSchedule`, with the call to `onAddTodo` returned as `added`. */
    method AddSchedule() returns (added: Option<string>)
      modifies this
      ensures Submission(text, added) == Submit(old(text))
    {
      if JsString.Trim(text) == [] {
        return None;
      }
      added := Some(text);
      text := "";
    }

    /**
      `handleFocus`, run on focus of the field and on a press of the row:
      `onExpand` is called exactly when it was provided.
    */
    method HandleFocus(onExpand: Option<()>) returns (expandCalled: bool)
      ensures expandCalled <==> onExpand.Some?
    {
      expandCalled := onExpand.Some?;
    }
  }
}
