/** The submission rule the two task forms share (the modal and the inline
    form): the title is trimmed and must not be blank, a blank description is
    dropped, the "none" priority becomes null and an empty deadline is dropped. */
module TaskForm {
  import opened Base
  import opened Text
  import opened TodoTypes

  /** The value of the priority select: "none" or a level. */
  datatype PriorityChoice = NoPriority | Chosen(level: Priority)

  /** The select's option value for a choice. */
  function ChoiceKey(choice: PriorityChoice): (key: string)
    ensures key == "none" <==> choice == NoPriority
  {
    match choice
    case NoPriority => "none"
    case Chosen(Low) => "low"
    case Chosen(Medium) => "medium"
    case Chosen(High) => "high"
  }

  /** The arguments handed to `onAdd`; `undefined` and `null` are both `None`. */
  datatype NewTask = NewTask(
    title: string,
    description: Option<string>,
    priority: Option<Priority>,
    deadline: Option<string>)

  /** What a submit hands to `onAdd`, or `None` when the title is blank and
      nothing is submitted. */
  function Submission(title: string, description: string, priority: PriorityChoice, deadline: string)
    : (r: Option<NewTask>)
    ensures r.None? <==> AllWhitespace(title)
    ensures r.Some? ==> r.value.title == Trim(title) && r.value.title != ""
    ensures r.Some? ==> (r.value.description.None? <==> AllWhitespace(description))
    ensures r.Some? && r.value.description.Some? ==> r.value.description.value == Trim(description)
    ensures r.Some? ==> (r.value.priority.None? <==> priority == NoPriority)
    ensures r.Some? && priority.Chosen? ==> r.value.priority == Some(priority.level)
    ensures r.Some? ==> (r.value.deadline.None? <==> deadline == "")
    ensures r.Some? && deadline != "" ==> r.value.deadline == Some(deadline)
  {
    if IsBlank(title) then None
    else
      Some(NewTask(
        Trim(title),
        if IsBlank(description) then None else Some(Trim(description)),
        if priority.Chosen? then Some(priority.level) else None,
        if deadline == "" then None else Some(deadline)))
  }

  /** Filling the form with a submitted task's values and submitting again
      hands `onAdd` the same task: the normalisation is idempotent. */
  lemma ResubmitIsIdentity(title: string, description: string, priority: PriorityChoice, deadline: string)
    requires Submission(title, description, priority, deadline).Some?
    ensures var t := Submission(title, description, priority, deadline).value;
      Submission(
        t.title,
        if t.description.Some? then t.description.value else "",
        if t.priority.Some? then Chosen(t.priority.value) else NoPriority,
        if t.deadline.Some? then t.deadline.value else "") == Some(t)
  {
    TrimIdempotent(title);
    TrimIdempotent(description);
  }
}
