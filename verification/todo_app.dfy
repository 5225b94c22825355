/** The task list of the to-do page: `addTodo`, `toggleTodo`, `deleteTodo` and
    the completed/total counters. The simulated server delay, the console
    logging and the toasts' styling are not modelled; each handler applies its
    list transform once the delay has elapsed. */
module TodoApp {
  import opened Base
  import opened TodoTypes
  import MainContainer

  /** Some task of the list has this id. */
  predicate HasId(todos: seq<Todo>, id: int) {
    exists i :: 0 <= i < |todos| && todos[i].id == id
  }

  /** `todos.find(todo => todo.id === id)`: the first task with this id. */
  function Find(todos: seq<Todo>, id: int): (r: Option<Todo>)
    ensures r.None? <==> !HasId(todos, id)
    ensures r.Some? ==> exists i :: 0 <= i < |todos| && todos[i] == r.value && r.value.id == id &&
                                    forall j :: 0 <= j < i ==> todos[j].id != id
  {
    if todos == [] then None
    else if todos[0].id == id then Some(todos[0])
    else
      var r := Find(todos[1..], id);
      assert HasId(todos[1..], id) ==> HasId(todos, id) by {
        if HasId(todos[1..], id) {
          var i :| 0 <= i < |todos[1..]| && todos[1..][i].id == id;
          assert todos[i + 1].id == id;
        }
      }
      assert HasId(todos, id) ==> HasId(todos[1..], id) by {
        if HasId(todos, id) {
          var i :| 0 <= i < |todos| && todos[i].id == id;
          assert todos[1..][i - 1].id == id;
        }
      }
      if r.Some? then
        var i :| 0 <= i < |todos[1..]| && todos[1..][i] == r.value && r.value.id == id &&
                 forall j :: 0 <= j < i ==> todos[1..][j].id != id;
        assert todos[i + 1] == r.value;
        r
      else r
  }

  /** The task with its completion flag flipped and every other field kept. */
  function Flip(t: Todo): (r: Todo)
    ensures r.completed == !t.completed
    ensures r.id == t.id && r.title == t.title && r.deadline == t.deadline && r.priority == t.priority
  {
    t.(completed := !t.completed)
  }

  /** `prev.map(todo => todo.id === id ? { ...todo, completed: !todo.completed } : todo)`. */
  function Toggled(todos: seq<Todo>, id: int): (r: seq<Todo>)
    ensures |r| == |todos|
    ensures forall i :: 0 <= i < |todos| ==> r[i] == if todos[i].id == id then Flip(todos[i]) else todos[i]
  {
    if todos == [] then []
    else [if todos[0].id == id then Flip(todos[0]) else todos[0]] + Toggled(todos[1..], id)
  }

  /** `prev.filter(todo => todo.id !== id)`. */
  function Deleted(todos: seq<Todo>, id: int): (r: seq<Todo>)
    ensures |r| <= |todos|
    ensures forall i :: 0 <= i < |r| ==> r[i].id != id
  {
    if todos == [] then []
    else (if todos[0].id != id then [todos[0]] else []) + Deleted(todos[1..], id)
  }

  /** The number of completed tasks, counted one task at a time. */
  function CompletedCount(todos: seq<Todo>): (n: nat)
    ensures n <= |todos|
  {
    if todos == [] then 0
    else (if todos[0].completed then 1 else 0) + CompletedCount(todos[1..])
  }

  /** Toggling an id no task has leaves the list as it was. */
  lemma ToggleAbsent(todos: seq<Todo>, id: int)
    requires !HasId(todos, id)
    ensures Toggled(todos, id) == todos
  {
  }

  /** Toggling flips `completed` on the tasks with that id and only there: their
      other fields, the other tasks, the length and the order stay. */
  lemma ToggleOnlyTouchesId(todos: seq<Todo>, id: int, i: int)
    requires 0 <= i < |todos|
    ensures var t, u := todos[i], Toggled(todos, id)[i];
      && u.id == t.id && u.title == t.title && u.deadline == t.deadline && u.priority == t.priority
      && (u.completed <==> (if t.id == id then !t.completed else t.completed))
  {
  }

  /** Toggling the same id twice restores the list. */
  lemma {:induction false} ToggleTwice(todos: seq<Todo>, id: int)
    ensures Toggled(Toggled(todos, id), id) == todos
  {
    if todos != [] {
      ToggleTwice(todos[1..], id);
      assert Toggled(todos, id)[1..] == Toggled(todos[1..], id);
    }
  }

  /** Deleting keeps the remaining tasks in their original order. */
  lemma {:induction false} DeleteIsSubsequence(todos: seq<Todo>, id: int)
    ensures IsSubsequence(Deleted(todos, id), todos)
  {
    if todos != [] {
      var rest := Deleted(todos[1..], id);
      DeleteIsSubsequence(todos[1..], id);
      if todos[0].id != id {
        assert Deleted(todos, id) == [todos[0]] + rest;
        assert ([todos[0]] + rest)[1..] == rest;
      } else {
        assert Deleted(todos, id) == rest;
      }
    }
  }

  /** Deleting removes every task with the id and keeps every occurrence of
      every other task. */
  lemma {:induction false} DeleteMultiset(todos: seq<Todo>, id: int)
    ensures forall t :: multiset(Deleted(todos, id))[t] == if t.id == id then 0 else multiset(todos)[t]
  {
    if todos != [] {
      DeleteMultiset(todos[1..], id);
      assert todos == [todos[0]] + todos[1..];
    }
  }

  /** Deleting an id no task has leaves the list as it was. */
  lemma {:induction false} DeleteAbsent(todos: seq<Todo>, id: int)
    requires !HasId(todos, id)
    ensures Deleted(todos, id) == todos
  {
    if todos != [] {
      assert forall i :: 0 <= i < |todos[1..]| ==> todos[1..][i] == todos[i + 1];
      DeleteAbsent(todos[1..], id);
      assert todos == [todos[0]] + todos[1..];
    }
  }

  /** The counter agrees with the length of the "completed" view, and the
      counters of completed and open tasks add up to the list's length. */
  lemma {:induction false} CompletedCountIsCompletedView(todos: seq<Todo>, today: int, tomorrow: int)
    ensures CompletedCount(todos) == |MainContainer.Filter(todos, MainContainer.Completed, today, tomorrow)|
    ensures |todos| - CompletedCount(todos) == |MainContainer.Filter(todos, MainContainer.Inbox, today, tomorrow)|
  {
    if todos != [] {
      CompletedCountIsCompletedView(todos[1..], today, tomorrow);
    }
    MainContainer.CompletedInboxPartition(todos, today, tomorrow);
  }

  /** Toggling an id that exactly one task carries moves the completed count by
      one, up when that task was open and down when it was completed. */
  lemma {:induction false} ToggleCount(todos: seq<Todo>, id: int, k: int)
    requires 0 <= k < |todos| && todos[k].id == id
    requires forall j :: 0 <= j < |todos| && j != k ==> todos[j].id != id
    ensures CompletedCount(Toggled(todos, id)) == CompletedCount(todos) + (if todos[k].completed then -1 else 1)
  {
    if k == 0 {
      ToggleAbsent(todos[1..], id);
      assert Toggled(todos, id)[1..] == todos[1..];
    } else {
      ToggleCount(todos[1..], id, k - 1);
      assert Toggled(todos, id)[1..] == Toggled(todos[1..], id);
    }
  }

  /** A toast: title and description. */
  datatype Toast = Toast(title: string, description: string)

  /** The toast `toggleTodo` shows, chosen by the task's state before the flip. */
  function ToggleToast(before: Todo): (toast: Toast)
    ensures toast.title == "Todo marked as incomplete" <==> before.completed
    ensures toast.description == "Keep going!" <==> before.completed
    ensures !before.completed ==> toast == Toast("Todo completed!", "Great job! \U{F8FF}\U{00FC}\U{00E9}\U{00E2}")
  {
    // The description for an open task keeps the source's literal, whose
    // emoji is stored mis-encoded: U+F8FF U+00FC U+00E9 U+00E2.
    if before.completed then Toast("Todo marked as incomplete", "Keep going!")
    else Toast("Todo completed!", "Great job! \U{F8FF}\U{00FC}\U{00E9}\U{00E2}")
  }

  /** Two clicks on the toggle of an open task within the await: both
      `BeginToggle`s find the task still open, so both toasts say "Todo
      completed!", and the two `SettleToggle`s flip it twice, leaving the list
      as it was, with the task open. */
  lemma {:induction false} ToggleClickedTwiceWhilePending(todos: seq<Todo>, k: int)
    requires 0 <= k < |todos| && !todos[k].completed
    requires forall j :: 0 <= j < |todos| && j != k ==> todos[j].id != todos[k].id
    ensures Find(todos, todos[k].id) == Some(todos[k])
    ensures ToggleToast(Find(todos, todos[k].id).value).title == "Todo completed!"
    ensures Toggled(Toggled(todos, todos[k].id), todos[k].id) == todos
    ensures !Toggled(Toggled(todos, todos[k].id), todos[k].id)[k].completed
  {
    var id := todos[k].id;
    var found := Find(todos, id);
    assert HasId(todos, id) by { assert todos[k].id == id; }
    assert found.value == todos[k] by {
      var i :| 0 <= i < |todos| && todos[i] == found.value && found.value.id == id;
      assert i == k;
    }
    ToggleTwice(todos, id);
  }

  /** The state of the to-do page component. */
  class TodoList {
    var todos: seq<Todo>
    var loading: bool
    var error: Option<string>

    /** `useState<Todo[]>([])`, `useState(true)`, `useState(null)`. */
    constructor ()
      ensures todos == [] && loading && error == None
    {
      todos := [];
      loading := true;
      error := None;
    }

    /** `addTodo(text)`: the new task, stamped with the clock reading `now`,
        goes to the head of the list. */
    method AddTodo(text: string, now: int)
      modifies this
      ensures todos == [Todo(now, text, false, None, None)] + old(todos)
      ensures |todos| == |old(todos)| + 1 && !todos[0].completed && todos[1..] == old(todos)
      ensures loading == old(loading) && error == old(error)
    {
      todos := [Todo(now, text, false, None, None)] + todos;
    }

    /** The part of `toggleTodo(id)` before its await: `todos.find` on the
        list as rendered when the click happened. Nothing changes. */
    method BeginToggle(id: int) returns (found: Option<Todo>)
      ensures found.None? <==> !HasId(todos, id)
      ensures found == Find(todos, id)
    {
      found := Find(todos, id);
    }

    /** The part after the await: the functional update flips the tasks with
        the id in the list as it is then, and the toast is chosen by the task
        `BeginToggle` found earlier. */
    method SettleToggle(id: int, found: Todo) returns (toast: Toast)
      modifies this`todos
      ensures todos == Toggled(old(todos), id)
      ensures toast == ToggleToast(found)
    {
      todos := Toggled(todos, id);
      toast := ToggleToast(found);
    }

    /** `toggleTodo(id)` with nothing else happening during its await: nothing
        happens when no task has the id; otherwise the matching tasks are
        flipped and the toast is chosen by the first match. */
    method ToggleTodo(id: int) returns (toast: Option<Toast>)
      modifies this
      ensures todos == Toggled(old(todos), id)
      ensures toast.None? <==> !HasId(old(todos), id)
      ensures toast.None? ==> todos == old(todos)
      ensures toast.Some? ==> toast.value == ToggleToast(Find(old(todos), id).value)
      ensures loading == old(loading) && error == old(error)
    {
      var found := BeginToggle(id);
      if found.None? {
        ToggleAbsent(todos, id);
        return None;
      }
      var shown := SettleToggle(id, found.value);
      toast := Some(shown);
    }

    /** `deleteTodo(id)`. */
    method DeleteTodo(id: int)
      modifies this
      ensures todos == Deleted(old(todos), id)
      ensures !HasId(old(todos), id) ==> todos == old(todos)
      ensures loading == old(loading) && error == old(error)
    {
      if !HasId(todos, id) {
        DeleteAbsent(todos, id);
      }
      todos := Deleted(todos, id);
    }

    /** `completedCount`. */
    function Completed(): (n: nat)
      reads this
      ensures n <= Total()
    {
      CompletedCount(todos)
    }

    /** `totalCount`. */
    function Total(): (n: nat)
      reads this
      ensures n == |todos|
    {
      |todos|
    }
  }
}
