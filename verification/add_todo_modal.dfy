/** The "Add task" dialog: `handleSubmit` and the AI suggestion handlers
    (`handleAISuggest`, `handleAIApprove`, `handleAIReject`,
    `handleAIDeleteItem`). The suggestion service is external; what its promise
    settles to is a parameter. */
module AddTodoModal {
  import opened Base
  import opened Text
  import opened TaskForm

  /** What `getAISuggestions` settles to. */
  datatype SuggestOutcome = Suggested(items: seq<string>) | SuggestFailed(thrown: Thrown)

  const SuggestFailure: string := "Failed to get AI suggestions"

  /** `xs.filter((_, i) => i !== idx)`. */
  function DropIndex<T>(xs: seq<T>, idx: int): (r: seq<T>)
    ensures 0 <= idx < |xs| ==> r == xs[..idx] + xs[idx + 1..]
    ensures !(0 <= idx < |xs|) ==> r == xs
  {
    if xs == [] then []
    else
      var rest := DropIndex(xs[1..], idx - 1);
      assert 0 < idx < |xs| ==> xs[..idx] == [xs[0]] + xs[1..][..idx - 1];
      (if idx == 0 then [] else [xs[0]]) + rest
  }

  class ModalForm {
    var title: string
    var description: string
    var priority: PriorityChoice
    var deadline: string
    var aiLoading: bool
    var aiSuggestions: Option<seq<string>>
    var aiError: Option<string>

    constructor ()
      ensures title == "" && description == "" && priority == NoPriority && deadline == ""
      ensures !aiLoading && aiSuggestions == None && aiError == None
    {
      title, description, priority, deadline := "", "", NoPriority, "";
      aiLoading, aiSuggestions, aiError := false, None, None;
    }

    /** `handleSubmit`: a blank title changes nothing and calls nobody;
        otherwise `onAdd` gets the normalised task, the four fields go back to
        their initial values and `onClose` is called. */
    method HandleSubmit() returns (request: Option<NewTask>, closed: bool)
      modifies this`title, this`description, this`priority, this`deadline
      ensures request == Submission(old(title), old(description), old(priority), old(deadline))
      ensures request.None? <==> AllWhitespace(old(title))
      ensures closed <==> request.Some?
      ensures request.Some? ==> title == "" && description == "" && priority == NoPriority && deadline == ""
      ensures request.None? ==>
        title == old(title) && description == old(description) && priority == old(priority) && deadline == old(deadline)
    {
      request := Submission(title, description, priority, deadline);
      closed := request.Some?;
      if closed {
        ClearFields();
      }
    }

    /** The four `set…` calls that put the form back to its initial values. */
    method ClearFields()
      modifies this`title, this`description, this`priority, this`deadline
      ensures title == "" && description == "" && priority == NoPriority && deadline == ""
    {
      title, description, priority, deadline := "", "", NoPriority, "";
    }

    /** The "Add with AI" button is disabled while a request is in flight or
        the title is blank. */
    function SuggestDisabled(): (disabled: bool)
      reads this
      ensures disabled <==> aiLoading || AllWhitespace(title)
    {
      aiLoading || IsBlank(title)
    }

    /** `handleAISuggest` up to the awaited request: a blank title changes
        nothing; otherwise the loading flag is raised, the error cleared and the
        trimmed title is the query. */
    method BeginAISuggest() returns (query: Option<string>)
      modifies this`aiLoading, this`aiError
      ensures query.None? <==> AllWhitespace(old(title))
      ensures query.None? ==> aiLoading == old(aiLoading) && aiError == old(aiError)
      ensures query.Some? ==> query.value == Trim(old(title)) && aiLoading && aiError == None
    {
      if IsBlank(title) {
        query := None;
      } else {
        query := Some(Trim(title));
        aiLoading, aiError := true, None;
      }
    }

    /** `handleAISuggest` once the request has settled: the suggestions are
        stored, or the error message is set and the old suggestions stay; the
        `finally` lowers the loading flag. */
    method SettleAISuggest(outcome: SuggestOutcome)
      modifies this`aiLoading, this`aiSuggestions, this`aiError
      ensures !aiLoading
      ensures outcome.Suggested? ==> aiSuggestions == Some(outcome.items) && aiError == old(aiError)
      ensures outcome.SuggestFailed? ==>
        aiSuggestions == old(aiSuggestions) && aiError == Some(MessageOr(outcome.thrown, SuggestFailure))
    {
      match outcome {
        case Suggested(items) =>
          aiSuggestions := Some(items);
        case SuggestFailed(thrown) =>
          aiError := Some(MessageOr(thrown, SuggestFailure));
      }
      aiLoading := false;
    }

    /** The whole `handleAISuggest`. */
    method HandleAISuggest(outcome: SuggestOutcome) returns (query: Option<string>)
      modifies this`aiLoading, this`aiSuggestions, this`aiError
      ensures query.None? <==> AllWhitespace(old(title))
      ensures query.None? ==> aiLoading == old(aiLoading) && aiError == old(aiError) && aiSuggestions == old(aiSuggestions)
      ensures query.Some? ==> query.value == Trim(old(title)) && !aiLoading
      ensures query.Some? && outcome.Suggested? ==> aiSuggestions == Some(outcome.items) && aiError == None
      ensures query.Some? && outcome.SuggestFailed? ==>
        aiSuggestions == old(aiSuggestions) && aiError == Some(MessageOr(outcome.thrown, SuggestFailure))
    {
      query := BeginAISuggest();
      if query.Some? {
        SettleAISuggest(outcome);
      }
    }

    /** `handleAIApprove`: the suggestions, one per line, become the
        description and the list is closed; without suggestions nothing happens. */
    method HandleAIApprove()
      modifies this`description, this`aiSuggestions
      ensures old(aiSuggestions).Some? ==> description == Join(old(aiSuggestions).value, "\n") && aiSuggestions == None
      ensures old(aiSuggestions).None? ==> description == old(description) && aiSuggestions == None
    {
      if aiSuggestions.Some? {
        description := Join(aiSuggestions.value, "\n");
        aiSuggestions := None;
      }
    }

    /** `handleAIReject`: suggestions and error are both cleared. */
    method HandleAIReject()
      modifies this`aiSuggestions, this`aiError
      ensures aiSuggestions == None && aiError == None
    {
      aiSuggestions := None;
      aiError := None;
    }

    /** `handleAIDeleteItem(idx)`: exactly the suggestion at `idx` goes, the
        others keep their order; an index out of range or no suggestions leave
        everything as it was. */
    method HandleAIDeleteItem(idx: int)
      modifies this`aiSuggestions
      ensures aiSuggestions == if old(aiSuggestions).None? then None else Some(DropIndex(old(aiSuggestions).value, idx))
      ensures old(aiSuggestions).Some? && 0 <= idx < |old(aiSuggestions).value| ==>
        var xs := old(aiSuggestions).value;
        aiSuggestions == Some(xs[..idx] + xs[idx + 1..])
      ensures old(aiSuggestions).Some? && !(0 <= idx < |old(aiSuggestions).value|) ==> aiSuggestions == old(aiSuggestions)
    {
      if aiSuggestions.None? {
        return;
      }
      aiSuggestions := Some(DropIndex(aiSuggestions.value, idx));
    }
  }
}
