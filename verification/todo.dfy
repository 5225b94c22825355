/** The task record shared by every component. */
module TodoTypes {
  import opened Base

  /** The priorities a task can carry ("low" | "medium" | "high"). */
  datatype Priority = Low | Medium | High

  /** One task. Deadlines are instants in milliseconds since the epoch. */
  datatype Todo = Todo(
    id: int,
    title: string,
    completed: bool,
    deadline: Option<int>,
    priority: Option<Priority>)
}
