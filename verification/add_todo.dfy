/** The one-line add form above the task list: `handleSubmit` and the submit
    button's `disabled` rule. `onAdd` is the caller's handler; whether the promise
    it returns rejects is a parameter. */
module AddTodo {
  import opened Base
  import opened Text

  class AddForm {
    var text: string
    var isSubmitting: bool

    constructor ()
      ensures text == "" && !isSubmitting
    {
      text := "";
      isSubmitting := false;
    }

    /** The submit button is disabled while the text is blank or a submission
        is in flight. */
    function SubmitDisabled(): (disabled: bool)
      reads this
      ensures disabled <==> AllWhitespace(text) || isSubmitting
    {
      IsBlank(text) || isSubmitting
    }

    /** `handleSubmit` up to the awaited `onAdd`: a blank text is ignored;
        otherwise the form is marked busy and `onAdd` receives the trimmed text. */
    method BeginSubmit() returns (request: Option<string>)
      modifies this
      ensures text == old(text)
      ensures request.None? <==> AllWhitespace(old(text))
      ensures request.None? ==> isSubmitting == old(isSubmitting)
      ensures request.Some? ==> request.value == Trim(old(text)) && request.value != "" && isSubmitting
    {
      if IsBlank(text) {
        return None;
      }
      isSubmitting := true;
      request := Some(Trim(text));
    }

    /** `handleSubmit` once `onAdd` has settled: the text is cleared only when
        it fulfilled, and the `finally` clears the busy flag either way. */
    method SettleSubmit(onAddRejected: bool)
      modifies this
      ensures text == (if onAddRejected then old(text) else "")
      ensures !isSubmitting
    {
      if !onAddRejected {
        text := "";
      }
      isSubmitting := false;
    }

    /** The whole `handleSubmit`; `raised` says the rejection of `onAdd`
        propagates to the caller, since the handler has no `catch`. */
    method HandleSubmit(onAddRejected: bool) returns (request: Option<string>, raised: bool)
      modifies this
      ensures request.None? <==> AllWhitespace(old(text))
      ensures request.None? ==> text == old(text) && isSubmitting == old(isSubmitting) && !raised
      ensures request.Some? ==> request.value == Trim(old(text)) && request.value != ""
      ensures request.Some? ==> !isSubmitting && raised == onAddRejected
      ensures request.Some? ==> text == if onAddRejected then old(text) else ""
    {
      raised := false;
      request := BeginSubmit();
      if request.Some? {
        assert isSubmitting;
        raised := onAddRejected;
        SettleSubmit(onAddRejected);
      }
    }
  }
}
