/** The inline add form of the task list: the priority flag colour and label
    (`getFlagColor`, `getLabel`), `handleSubmit`, `handleKeyDown` and the rule
    that disables "Add task". `onAdd` and `onCancel` are the caller's handlers;
    a call to them is reported in the results. */
module InlineAddTask {
  import opened Base
  import opened Text
  import opened TaskForm

  /** The priority values the two switches name a level for. */
  predicate IsLevelKey(priority: Option<string>) {
    priority == Some("low") || priority == Some("medium") || priority == Some("high")
  }

  /** `getFlagColor(priority)`: the Tailwind colour class of the flag icon. */
  function FlagColor(priority: Option<string>): (color: string)
    ensures priority == Some("low") ==> color == "text-green-500"
    ensures priority == Some("medium") ==> color == "text-yellow-500"
    ensures priority == Some("high") ==> color == "text-red-500"
    ensures color == "text-gray-400" <==> !IsLevelKey(priority)
  {
    match priority
    case Some("low") => "text-green-500"
    case Some("medium") => "text-yellow-500"
    case Some("high") => "text-red-500"
    case _ => "text-gray-400"
  }

  /** `getLabel(priority)`: the text shown beside the flag. */
  function Label(priority: Option<string>): (caption: string)
    ensures priority == Some("low") ==> caption == "Low"
    ensures priority == Some("medium") ==> caption == "Medium"
    ensures priority == Some("high") ==> caption == "High"
    ensures caption == "No priority" <==> !IsLevelKey(priority)
  {
    match priority
    case Some("low") => "Low"
    case Some("medium") => "Medium"
    case Some("high") => "High"
    case _ => "No priority"
  }

  /** Label and colour agree: the fallback label goes with the grey flag, and
      different levels get different labels and colours. For the select's own
      values, the fallback is shown exactly for "none". */
  lemma LabelMatchesColor(p: Option<string>, q: Option<string>, choice: PriorityChoice)
    ensures Label(p) == "No priority" <==> FlagColor(p) == "text-gray-400"
    ensures IsLevelKey(p) && IsLevelKey(q) && p != q ==> Label(p) != Label(q) && FlagColor(p) != FlagColor(q)
    ensures Label(Some(ChoiceKey(choice))) == "No priority" <==> choice == NoPriority
  {
  }

  class InlineForm {
    var title: string
    var description: string
    var priority: PriorityChoice
    var deadline: string

    constructor ()
      ensures title == "" && description == "" && priority == NoPriority && deadline == ""
    {
      title, description, priority, deadline := "", "", NoPriority, "";
    }

    /** "Add task" is disabled exactly while the title is blank. */
    function SubmitDisabled(): (disabled: bool)
      reads this
      ensures disabled <==> AllWhitespace(title)
    {
      IsBlank(title)
    }

    /** `handleSubmit`: a blank title calls nobody and changes nothing;
        otherwise `onAdd` gets the normalised task, the fields are reset and
        `onCancel` closes the form. The submit goes through exactly when the
        button was enabled. */
    method HandleSubmit() returns (request: Option<NewTask>, cancelled: bool)
      modifies this`title, this`description, this`priority, this`deadline
      ensures request == Submission(old(title), old(description), old(priority), old(deadline))
      ensures request.Some? <==> !old(SubmitDisabled())
      ensures cancelled <==> request.Some?
      ensures request.Some? ==> title == "" && description == "" && priority == NoPriority && deadline == ""
      ensures request.None? ==>
        title == old(title) && description == old(description) && priority == old(priority) && deadline == old(deadline)
    {
      request := Submission(title, description, priority, deadline);
      cancelled := request.Some?;
      if cancelled {
        ClearFields();
      }
    }

    /** The four `set…` calls that put the form back to its initial values. */
    method ClearFields()
      modifies this`title, this`description, this`priority, this`deadline
      ensures title == "" && description == "" && priority == NoPriority && deadline == ""
    {
      title, description, priority, deadline := "", "", NoPriority, "";
    }

    /** `handleKeyDown`: Escape, and only Escape, cancels; no field changes. */
    method HandleKeyDown(key: string) returns (cancelled: bool)
      ensures cancelled <==> key == "Escape"
    {
      cancelled := key == "Escape";
    }
  }
}
