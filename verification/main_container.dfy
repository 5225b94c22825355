/** The section views of the task list: `getFilteredTodos` and `getSectionTitle` of
    the main content pane. The view is a pure
    function of the task list, the local start of today and of tomorrow (both
    instants in milliseconds), and the section key chosen in the sidebar. */
module MainContainer {
  import opened Base
  import opened TodoTypes

  datatype Section = Inbox | Today | Upcoming | Overdue | NoDeadline | Completed

  /** The section a sidebar key selects; any key the switch does not name
      falls back to the inbox. */
  function SectionOf(key: string): (s: Section)
    ensures s == Today <==> key == "today"
    ensures s == Upcoming <==> key == "upcoming"
    ensures s == Overdue <==> key == "overdue"
    ensures s == NoDeadline <==> key == "nodeadline"
    ensures s == Completed <==> key == "completed"
  {
    match key
    case "today" => Today
    case "upcoming" => Upcoming
    case "overdue" => Overdue
    case "nodeadline" => NoDeadline
    case "completed" => Completed
    case _ => Inbox
  }

  /** The filter predicate of one branch of `getFilteredTodos`. */
  predicate InSection(t: Todo, section: Section, today: int, tomorrow: int)
    ensures InSection(t, section, today, tomorrow) ==> (t.completed <==> section == Completed)
    ensures section in {Inbox, Completed} ==> (InSection(t, section, today, tomorrow) <==> (t.completed <==> section == Completed))
  {
    match section
    case Today => !t.completed && t.deadline.Some? && today <= t.deadline.value < tomorrow
    case Upcoming => !t.completed && t.deadline.Some? && t.deadline.value >= tomorrow
    case Overdue => !t.completed && t.deadline.Some? && t.deadline.value < today
    case NoDeadline => !t.completed && t.deadline.None?
    case Completed => t.completed
    case Inbox => !t.completed
  }

  /** `todos.filter(...)` with the predicate of `section`. */
  function Filter(todos: seq<Todo>, section: Section, today: int, tomorrow: int): (r: seq<Todo>)
    ensures |r| <= |todos|
    ensures forall i :: 0 <= i < |r| ==> InSection(r[i], section, today, tomorrow)
  {
    if todos == [] then []
    else
      (if InSection(todos[0], section, today, tomorrow) then [todos[0]] else [])
      + Filter(todos[1..], section, today, tomorrow)
  }

  /** `getFilteredTodos()`. */
  function FilteredTodos(todos: seq<Todo>, today: int, tomorrow: int, key: string): (r: seq<Todo>)
    ensures forall i :: 0 <= i < |r| ==> InSection(r[i], SectionOf(key), today, tomorrow)
  {
    Filter(todos, SectionOf(key), today, tomorrow)
  }

  /** The heading of each view. */
  function Heading(section: Section): (heading: string)
    ensures heading == "Inbox" <==> section == Inbox
    ensures section == Today ==> heading == "Today"
    ensures section == Upcoming ==> heading == "Upcoming"
    ensures section == Overdue ==> heading == "Overdue"
    ensures section == NoDeadline ==> heading == "No Deadline"
    ensures section == Completed ==> heading == "Completed"
  {
    match section
    case Inbox => "Inbox"
    case Today => "Today"
    case Upcoming => "Upcoming"
    case Overdue => "Overdue"
    case NoDeadline => "No Deadline"
    case Completed => "Completed"
  }

  /** Distinct views have distinct headings, so the heading names the view. */
  lemma HeadingNamesView(s: Section, u: Section)
    ensures Heading(s) == Heading(u) <==> s == u
  {
  }

  /** `getSectionTitle()`: the heading shown above the list. */
  function SectionTitle(key: string): (title: string)
    ensures title == Heading(SectionOf(key))
    ensures title == "Inbox" <==> SectionOf(key) == Inbox
  {
    match key
    case "inbox" => "Inbox"
    case "today" => "Today"
    case "upcoming" => "Upcoming"
    case "completed" => "Completed"
    case "overdue" => "Overdue"
    case "nodeadline" => "No Deadline"
    case _ => "Inbox"
  }

  /** A key the switches do not know behaves exactly like "inbox". */
  lemma UnknownKeyIsInbox(todos: seq<Todo>, today: int, tomorrow: int, key: string)
    requires key !in {"inbox", "today", "upcoming", "overdue", "nodeadline", "completed"}
    ensures FilteredTodos(todos, today, tomorrow, key) == FilteredTodos(todos, today, tomorrow, "inbox")
    ensures SectionTitle(key) == "Inbox" == SectionTitle("inbox")
  {
  }

  /** Every view keeps the order of the task list: it only drops tasks. */
  lemma {:induction false} FilterIsSubsequence(todos: seq<Todo>, section: Section, today: int, tomorrow: int)
    ensures IsSubsequence(Filter(todos, section, today, tomorrow), todos)
  {
    if todos != [] {
      var rest := Filter(todos[1..], section, today, tomorrow);
      FilterIsSubsequence(todos[1..], section, today, tomorrow);
      if InSection(todos[0], section, today, tomorrow) {
        assert Filter(todos, section, today, tomorrow) == [todos[0]] + rest;
        assert ([todos[0]] + rest)[1..] == rest;
      } else {
        assert Filter(todos, section, today, tomorrow) == rest;
      }
    }
  }

  /** A view holds every occurrence of each task its predicate accepts and no
      other task. */
  lemma {:induction false} FilterMultiset(todos: seq<Todo>, section: Section, today: int, tomorrow: int)
    ensures forall t :: multiset(Filter(todos, section, today, tomorrow))[t] ==
                       if InSection(t, section, today, tomorrow) then multiset(todos)[t] else 0
  {
    if todos != [] {
      FilterMultiset(todos[1..], section, today, tomorrow);
      assert todos == [todos[0]] + todos[1..];
    }
  }

  /** A task is in a view exactly when it is in the list and the view's
      predicate accepts it. */
  lemma FilterMembership(todos: seq<Todo>, section: Section, today: int, tomorrow: int, t: Todo)
    ensures t in Filter(todos, section, today, tomorrow) <==> t in todos && InSection(t, section, today, tomorrow)
  {
    FilterMultiset(todos, section, today, tomorrow);
    assert t in Filter(todos, section, today, tomorrow) <==> multiset(Filter(todos, section, today, tomorrow))[t] > 0;
  }

  /** "completed" and "inbox" split the list: together they hold each task as
      often as the list does, so their lengths add up to the list's. */
  lemma {:induction false} CompletedInboxPartition(todos: seq<Todo>, today: int, tomorrow: int)
    ensures multiset(Filter(todos, Completed, today, tomorrow)) + multiset(Filter(todos, Inbox, today, tomorrow))
      == multiset(todos)
    ensures |Filter(todos, Completed, today, tomorrow)| + |Filter(todos, Inbox, today, tomorrow)| == |todos|
  {
    var done, open := Filter(todos, Completed, today, tomorrow), Filter(todos, Inbox, today, tomorrow);
    FilterMultiset(todos, Completed, today, tomorrow);
    FilterMultiset(todos, Inbox, today, tomorrow);
    assert multiset(done) + multiset(open) == multiset(todos);
    assert |multiset(done) + multiset(open)| == |multiset(todos)|;
  }

  /** With today no later than tomorrow, "today", "upcoming", "overdue" and
      "nodeadline" split the inbox, so their lengths add up to its length. */
  lemma {:induction false} InboxPartition(todos: seq<Todo>, today: int, tomorrow: int)
    requires today <= tomorrow
    ensures multiset(Filter(todos, Today, today, tomorrow)) + multiset(Filter(todos, Upcoming, today, tomorrow))
      + multiset(Filter(todos, Overdue, today, tomorrow)) + multiset(Filter(todos, NoDeadline, today, tomorrow))
      == multiset(Filter(todos, Inbox, today, tomorrow))
    ensures |Filter(todos, Today, today, tomorrow)| + |Filter(todos, Upcoming, today, tomorrow)|
      + |Filter(todos, Overdue, today, tomorrow)| + |Filter(todos, NoDeadline, today, tomorrow)|
      == |Filter(todos, Inbox, today, tomorrow)|
  {
    var today_, upcoming, overdue, none, inbox :=
      Filter(todos, Today, today, tomorrow), Filter(todos, Upcoming, today, tomorrow),
      Filter(todos, Overdue, today, tomorrow), Filter(todos, NoDeadline, today, tomorrow),
      Filter(todos, Inbox, today, tomorrow);
    FilterMultiset(todos, Today, today, tomorrow);
    FilterMultiset(todos, Upcoming, today, tomorrow);
    FilterMultiset(todos, Overdue, today, tomorrow);
    FilterMultiset(todos, NoDeadline, today, tomorrow);
    FilterMultiset(todos, Inbox, today, tomorrow);
    var sum := multiset(today_) + multiset(upcoming) + multiset(overdue) + multiset(none);
    forall t: Todo
      ensures sum[t] == multiset(inbox)[t]
    {
      OneDeadlineBucket(t, today, tomorrow);
    }
    assert sum == multiset(inbox);
    assert |sum| == |multiset(inbox)|;
  }

  /** Each open task passes exactly one of the four deadline predicates, and
      a completed task none of them. */
  lemma OneDeadlineBucket(t: Todo, today: int, tomorrow: int)
    requires today <= tomorrow
    ensures (if InSection(t, Today, today, tomorrow) then 1 else 0)
      + (if InSection(t, Upcoming, today, tomorrow) then 1 else 0)
      + (if InSection(t, Overdue, today, tomorrow) then 1 else 0)
      + (if InSection(t, NoDeadline, today, tomorrow) then 1 else 0)
      == if InSection(t, Inbox, today, tomorrow) then 1 else 0
  {
  }

  /** No view other than "completed" shows a completed task. */
  lemma NoCompletedOutsideCompleted(todos: seq<Todo>, section: Section, today: int, tomorrow: int, t: Todo)
    requires section != Completed
    requires t in Filter(todos, section, today, tomorrow)
    ensures !t.completed
  {
  }

  /** An incomplete task with deadline d lies in "today" when today <= d < tomorrow,
      in "upcoming" when d >= tomorrow and in "overdue" when d < today, and in
      exactly one of the three; it is never in "nodeadline" and always in "inbox". */
  lemma DeadlineBuckets(todos: seq<Todo>, today: int, tomorrow: int, t: Todo)
    requires today <= tomorrow
    requires t in todos && !t.completed && t.deadline.Some?
    ensures var d := t.deadline.value;
      && (t in Filter(todos, Today, today, tomorrow) <==> today <= d < tomorrow)
      && (t in Filter(todos, Upcoming, today, tomorrow) <==> d >= tomorrow)
      && (t in Filter(todos, Overdue, today, tomorrow) <==> d < today)
    ensures
      (if t in Filter(todos, Today, today, tomorrow) then 1 else 0)
      + (if t in Filter(todos, Upcoming, today, tomorrow) then 1 else 0)
      + (if t in Filter(todos, Overdue, today, tomorrow) then 1 else 0) == 1
    ensures t !in Filter(todos, NoDeadline, today, tomorrow)
    ensures t in Filter(todos, Inbox, today, tomorrow)
  {
    FilterMembership(todos, Today, today, tomorrow, t);
    FilterMembership(todos, Upcoming, today, tomorrow, t);
    FilterMembership(todos, Overdue, today, tomorrow, t);
    FilterMembership(todos, NoDeadline, today, tomorrow, t);
    FilterMembership(todos, Inbox, today, tomorrow, t);
  }

  /** An incomplete task without a deadline is in "nodeadline" and "inbox" and
      in none of "today", "upcoming" and "overdue". */
  lemma NoDeadlineBucket(todos: seq<Todo>, today: int, tomorrow: int, t: Todo)
    requires t in todos && !t.completed && t.deadline.None?
    ensures t in Filter(todos, NoDeadline, today, tomorrow)
    ensures t in Filter(todos, Inbox, today, tomorrow)
    ensures t !in Filter(todos, Today, today, tomorrow)
    ensures t !in Filter(todos, Upcoming, today, tomorrow)
    ensures t !in Filter(todos, Overdue, today, tomorrow)
  {
    FilterMembership(todos, Today, today, tomorrow, t);
    FilterMembership(todos, Upcoming, today, tomorrow, t);
    FilterMembership(todos, Overdue, today, tomorrow, t);
    FilterMembership(todos, NoDeadline, today, tomorrow, t);
    FilterMembership(todos, Inbox, today, tomorrow, t);
  }

  /** "completed" holds exactly the completed tasks of the list and "inbox"
      exactly the others. */
  lemma CompletedAndInboxMembers(todos: seq<Todo>, today: int, tomorrow: int, t: Todo)
    ensures t in Filter(todos, Completed, today, tomorrow) <==> t in todos && t.completed
    ensures t in Filter(todos, Inbox, today, tomorrow) <==> t in todos && !t.completed
  {
    FilterMembership(todos, Completed, today, tomorrow, t);
    FilterMembership(todos, Inbox, today, tomorrow, t);
  }
}
