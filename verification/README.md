# To-do client core, modelled in Dafny

This project models the logic of a small React to-do client. The logic is:

- the section views of the task list: inbox, today, upcoming, overdue, no deadline and completed;
- the list updates of the to-do page: add, toggle, delete and the counters;
- the submit rules of the four forms: the one-line add form, the "Add task" dialog with its AI suggestions, the inline add form, and the sign-in/sign-up dialog;
- the URL construction and response check of the `request` helper.

Rendering, styling, routing, network and storage are outside the model.

Files and modules:

- `base.dfy` (`Base`): `Option`, thrown JavaScript values (`Thrown`), and the subsequence relation.
- `todo.dfy` (`TodoTypes`): the task record `Todo(id, title, completed, deadline, priority)`. Deadlines are integer instants.
- `text.dfy` (`Text`): `String.prototype.trim` with the ECMAScript whitespace set, `Array.prototype.join`, and a line split that undoes the join.
- `main_container.dfy` (`MainContainer`): `getFilteredTodos` and `getSectionTitle`.
- `todo_app.dfy` (`TodoApp`): the list transforms and the class `TodoList` holding the page state.
- `add_todo.dfy` (`AddTodo`): the one-line add form (class `AddForm`).
- `task_form.dfy` (`TaskForm`): the submit normalisation shared by the dialog and the inline form.
- `add_todo_modal.dfy` (`AddTodoModal`): the "Add task" dialog (class `ModalForm`).
- `inline_add_task.dfy` (`InlineAddTask`): the inline form (class `InlineForm`), plus the flag colour and label maps.
- `auth_modal.dfy` (`AuthModal`): the sign-in/sign-up dialog (class `AuthForm`).
- `request.dfy` (`Request`): URL and response rule of `request`.

Modelling conventions:

- Calls into code outside the model are parameters or results. This covers `onAdd`, `onClose`, `onCancel`, `login`, `register`, `getAISuggestions` and `fetch`.
  - `getAISuggestions` is imported from src/lib/api.ts (src/components/AddTodoModal.tsx:30), but src/lib/api.ts as it stands exports no such function. Only the outcome of the call is modelled: a list of suggestions or a thrown value.
  - A handler that awaits a promise is split at the `await`. `Begin…` holds the synchronous part, so the state it leaves is what the page shows while the call is pending. `Settle…` holds the rest, and takes how the promise settled as a parameter. `Handle…` is the two run in sequence.
  - On the to-do page, `toggleTodo` is split the same way. `BeginToggle` is the `find` on the rendered list, and `SettleToggle` is the update after the 300 ms timer; `ToggleTodo` is the two run with nothing in between. `addTodo` and `deleteTodo` read no page state before their timer, and their updates run on the latest list. Each is therefore one step, `AddTodo` and `DeleteTodo`.
  - A call the handler makes is returned as a result: the arguments given to `onAdd`, or a flag saying `onClose`/`onCancel` was called.
- JavaScript `undefined` and `null` are both `None`.
- A thrown value is `ErrorObject(message)` for an `Error` instance, whose message may be empty. Any other thrown value is `OtherValue`.
- The source uses several names for the same task fields: `text` in `TodoApp.tsx`, `title` elsewhere, `deadline_at` in `MainContainer.tsx` and `deadlineAt` in `types/todo.ts`. The model has one record with `title` and `deadline`.
- The code has no optimistic update with rollback, no `completedAt` bookkeeping and no sort order. The to-do page changes its list only after the simulated call has resolved, and the model follows the code.
- `request` treats any `pathOrUrl` that starts with "http" as an absolute URL. That includes a relative path such as "httpbin/x". `Request.Url` states this behaviour as written.

## Model

| member | source | states |
|---|---|---|
| `Base.MessageOr` | src/components/AddTodoModal.tsx:80-84 | an `Error` gives its own message, any other thrown value gives the fallback |
| `Text.TrimStart` | src/components/AddTodo.tsx:16 | the result is a suffix of the input, everything cut is whitespace, and it does not start with whitespace |
| `Text.TrimEnd` | src/components/AddTodo.tsx:16 | the result is a prefix of the input, everything cut is whitespace, and it does not end with whitespace |
| `Text.Trim` | src/components/AddTodo.tsx:16 | `trim()` is empty exactly when every character is whitespace; a non-empty result starts and ends with non-whitespace |
| `Text.TrimIsInfix` | src/components/AddTodo.tsx:20 | `trim()` returns the infix that follows the leading whitespace; only whitespace is removed, and only at the two ends |
| `Text.TrimIdempotent` | src/components/AddTodoModal.tsx:58 | trimming a trimmed string changes nothing |
| `Text.Join` | src/components/AddTodoModal.tsx:92 | joining a single line gives that line |
| `Text.SplitLines` | src/components/AddTodoModal.tsx:92 | the source has no split here; this is `split("\n")`, the inverse against which the join is stated. Splitting gives at least one piece, and no piece holds a line feed |
| `Text.IsBlank` | src/components/AddTodo.tsx:16 | `!s.trim()` holds exactly when every character of `s` is whitespace |
| `Text.SplitJoinRoundTrip` | src/components/AddTodoModal.tsx:92 | splitting the `"\n"` join of a non-empty list of single-line suggestions gives back exactly that list |
| `MainContainer.SectionOf` | src/components/MainContainer.tsx:77-102 | each of the five named keys selects its own section; every other key, "inbox" included, selects the inbox |
| `MainContainer.InSection` | src/components/MainContainer.tsx:79-102 | the six filter predicates; a task in any view is completed exactly when the view is "completed", and "inbox"/"completed" accept exactly the open/completed tasks |
| `MainContainer.Filter` | src/components/MainContainer.tsx:77-103 | a view is no longer than the list, and each task in it passes that section's predicate |
| `MainContainer.FilteredTodos` | src/components/MainContainer.tsx:71-104 | every task shown passes the predicate of the section the key selects |
| `MainContainer.Heading` | src/components/MainContainer.tsx:35-46 | each view's heading is stated: "Inbox", "Today", "Upcoming", "Overdue", "No Deadline", "Completed"; "Inbox" only for the inbox |
| `MainContainer.HeadingNamesView` | src/components/MainContainer.tsx:35-46 | two views have the same heading exactly when they are the same view |
| `MainContainer.SectionTitle` | src/components/MainContainer.tsx:33-50 | the title is the heading of the view the same key selects for `getFilteredTodos`, unknown keys included; so it is "Inbox" exactly when the inbox is shown |
| `MainContainer.UnknownKeyIsInbox` | src/components/MainContainer.tsx:100-102 | an unrecognised key gives the same view and the same title as "inbox" |
| `MainContainer.FilterIsSubsequence` | src/components/MainContainer.tsx:77-103 | every view is an order-preserving subsequence of the list |
| `MainContainer.FilterMultiset` | src/components/MainContainer.tsx:77-103 | a view holds each accepted task as often as the list does, and no other task |
| `MainContainer.FilterMembership` | src/components/MainContainer.tsx:77-103 | a task is in a view iff it is in the list and passes the section's predicate |
| `MainContainer.CompletedAndInboxMembers` | src/components/MainContainer.tsx:98-102 | "completed" holds exactly the completed tasks, "inbox" exactly the open ones |
| `MainContainer.CompletedInboxPartition` | src/components/MainContainer.tsx:98-102 | "completed" and "inbox" together are a permutation of the list, and their lengths sum to its length |
| `MainContainer.OneDeadlineBucket` | src/components/MainContainer.tsx:78-97 | with today <= tomorrow, an open task passes exactly one of the today/upcoming/overdue/nodeadline predicates, and a completed task passes none |
| `MainContainer.InboxPartition` | src/components/MainContainer.tsx:77-103 | with today <= tomorrow, today + upcoming + overdue + nodeadline is a permutation of the inbox, and their lengths sum to the inbox's |
| `MainContainer.NoCompletedOutsideCompleted` | src/components/MainContainer.tsx:78-102 | no view except "completed" shows a completed task |
| `MainContainer.DeadlineBuckets` | src/components/MainContainer.tsx:78-95 | an open task with deadline d is in "today" iff today <= d < tomorrow, in "upcoming" iff d >= tomorrow and in "overdue" iff d < today; it is in exactly one of the three, never in "nodeadline", and always in "inbox" |
| `MainContainer.NoDeadlineBucket` | src/components/MainContainer.tsx:96-97 | an open task without a deadline is in "nodeadline" and "inbox" and in none of today/upcoming/overdue |
| `TodoApp.Find` | src/components/TodoApp.tsx:88-89 | no result iff no task has the id; otherwise the result is the first task with that id |
| `TodoApp.Flip` | src/components/TodoApp.tsx:96 | the spread copy flips `completed` and keeps id, title, deadline and priority |
| `TodoApp.Toggled` | src/components/TodoApp.tsx:94-98 | same length; position i holds the task flipped if its id matches, and unchanged otherwise |
| `TodoApp.Deleted` | src/components/TodoApp.tsx:122 | no longer than the list, and no remaining task has the id |
| `TodoApp.CompletedCount` | src/components/TodoApp.tsx:151 | the count never exceeds the list length |
| `TodoApp.ToggleAbsent` | src/components/TodoApp.tsx:88-89 | toggling an id no task has leaves the list unchanged |
| `TodoApp.ToggleOnlyTouchesId` | src/components/TodoApp.tsx:94-98 | toggling changes only `completed`, and only on tasks with that id; ids, titles, deadlines, priorities and order stay |
| `TodoApp.ToggleTwice` | src/components/TodoApp.tsx:94-98 | toggling the same id twice restores the list |
| `TodoApp.ToggleCount` | src/components/TodoApp.tsx:94-98 | when exactly one task carries the id, a toggle moves the completed count by one: down if that task was completed, up if it was open |
| `TodoApp.DeleteIsSubsequence` | src/components/TodoApp.tsx:122 | deletion keeps the remaining tasks in their original order |
| `TodoApp.DeleteMultiset` | src/components/TodoApp.tsx:122 | deletion removes every task with the id and keeps every occurrence of every other task |
| `TodoApp.DeleteAbsent` | src/components/TodoApp.tsx:122 | deleting an absent id leaves the list unchanged |
| `TodoApp.CompletedCountIsCompletedView` | src/components/TodoApp.tsx:151-152 | the completed counter equals the length of the "completed" view, and total minus completed equals the length of the "inbox" view |
| `TodoApp.ToggleToast` | src/components/TodoApp.tsx:102-105 | the toast title is "Todo marked as incomplete", and the description "Keep going!", exactly when the task was completed before the toggle; otherwise the toast is "Todo completed!" with "Great job! " followed by the source's mis-encoded emoji, U+F8FF U+00FC U+00E9 U+00E2 |
| `TodoApp.TodoList.constructor` | src/components/TodoApp.tsx:17-19 | the list starts empty, loading, and with no error |
| `TodoApp.TodoList.AddTodo` | src/components/TodoApp.tsx:56-68 | the list becomes `[new task] + old list`: one longer, the new task open, the old tasks in their order |
| `TodoApp.TodoList.BeginToggle` | src/components/TodoApp.tsx:88-89 | the task found is the first one with the id in the list as rendered, and none iff no task has it; nothing changes |
| `TodoApp.TodoList.SettleToggle` | src/components/TodoApp.tsx:94-105 | the list as it is after the timer becomes `Toggled(list, id)`, and the toast is chosen by the task found before the timer |
| `TodoApp.ToggleClickedTwiceWhilePending` | src/components/TodoApp.tsx:86-105 | two clicks on an open task before the first timer fires both find it open, so both toasts say "Todo completed!". The two updates flip it twice, leaving the list unchanged and the task open |
| `TodoApp.TodoList.ToggleTodo` | src/components/TodoApp.tsx:86-105 | with no other update during the timer, the list becomes `Toggled(old, id)`; an absent id changes nothing and shows no toast; otherwise the toast follows the first match's state before the toggle |
| `TodoApp.TodoList.DeleteTodo` | src/components/TodoApp.tsx:117-122 | the list becomes `Deleted(old, id)`; an absent id changes nothing |
| `TodoApp.TodoList.Completed` | src/components/TodoApp.tsx:151-152 | `completedCount` never exceeds `totalCount` |
| `TodoApp.TodoList.Total` | src/components/TodoApp.tsx:152 | `totalCount` is the number of tasks in the list; minus `completedCount` it is the inbox length (`CompletedCountIsCompletedView`) |
| `TaskForm.ChoiceKey` | src/components/AddTodoModal.tsx:227-245 | the select value is "none" exactly for no priority |
| `TaskForm.Submission` | src/components/AddTodoModal.tsx:57-63 | a blank title gives no submission. Otherwise: the title is trimmed and non-empty; the description is trimmed, or absent iff blank; the priority is null iff "none", else the chosen level; the deadline is absent iff "" |
| `TaskForm.ResubmitIsIdentity` | src/components/InlineAddTask.tsx:100-106 | submitting the fields of a submitted task again gives the same task; the normalisation is idempotent |
| `AddTodo.AddForm.constructor` | src/components/AddTodo.tsx:10-11 | the text starts empty and no submission is in flight |
| `AddTodo.AddForm.SubmitDisabled` | src/components/AddTodo.tsx:40 | the button is disabled exactly when the text is all whitespace or a submission is in flight |
| `AddTodo.AddForm.BeginSubmit` | src/components/AddTodo.tsx:16-20 | a blank text calls nothing and changes nothing; otherwise `isSubmitting` is set before `onAdd` receives the trimmed, non-empty text |
| `AddTodo.AddForm.SettleSubmit` | src/components/AddTodo.tsx:20-25 | the text is cleared only when `onAdd` fulfilled; `isSubmitting` is false either way |
| `AddTodo.AddForm.HandleSubmit` | src/components/AddTodo.tsx:13-26 | a blank text changes nothing. Otherwise `onAdd` gets `text.trim()`; the text is cleared on success and kept on rejection; `isSubmitting` ends false; a rejection propagates |
| `AddTodoModal.DropIndex` | src/components/AddTodoModal.tsx:104 | an index in range removes exactly that element and keeps the rest in order; any other index changes nothing |
| `AddTodoModal.ModalForm.constructor` | src/components/AddTodoModal.tsx:45-53 | the fields start empty, with priority "none", no suggestions, no error and not loading |
| `AddTodoModal.ModalForm.HandleSubmit` | src/components/AddTodoModal.tsx:55-70 | a blank title calls neither `onAdd` nor `onClose` and resets nothing. Otherwise `onAdd` gets the `Submission` value, the four fields return to "", "", "none", "", and `onClose` is called |
| `AddTodoModal.ModalForm.ClearFields` | src/components/AddTodoModal.tsx:64-67 | title, description, priority and deadline return to "", "", "none", "" |
| `AddTodoModal.ModalForm.SuggestDisabled` | src/components/AddTodoModal.tsx:152 | "Add with AI" is disabled exactly while loading or while the title is blank |
| `AddTodoModal.ModalForm.BeginAISuggest` | src/components/AddTodoModal.tsx:73-77 | a blank title touches nothing; otherwise loading is raised, the error is cleared, and the query is the trimmed title |
| `AddTodoModal.ModalForm.SettleAISuggest` | src/components/AddTodoModal.tsx:78-87 | success stores the suggestions. Failure sets the error to the message or "Failed to get AI suggestions" and keeps the old suggestions. Loading ends false either way |
| `AddTodoModal.ModalForm.HandleAISuggest` | src/components/AddTodoModal.tsx:72-88 | a blank title touches no state; otherwise loading ends false, with the suggestions stored or the failure message set |
| `AddTodoModal.ModalForm.HandleAIApprove` | src/components/AddTodoModal.tsx:90-95 | with suggestions, the description becomes their `"\n"` join and the suggestions are cleared; without suggestions nothing changes |
| `AddTodoModal.ModalForm.HandleAIReject` | src/components/AddTodoModal.tsx:97-100 | suggestions and error both become null |
| `AddTodoModal.ModalForm.HandleAIDeleteItem` | src/components/AddTodoModal.tsx:102-105 | removes exactly the suggestion at `idx` and keeps the rest in order; an out-of-range index or null suggestions change nothing |
| `InlineAddTask.FlagColor` | src/components/InlineAddTask.tsx:54-68 | low, medium and high map to green, yellow and red; every other value, undefined included, maps to "text-gray-400" |
| `InlineAddTask.Label` | src/components/InlineAddTask.tsx:70-82 | low, medium and high map to "Low", "Medium" and "High"; every other value, undefined included, maps to "No priority" |
| `InlineAddTask.LabelMatchesColor` | src/components/InlineAddTask.tsx:54-82 | the fallback label goes with the grey flag; distinct levels get distinct labels and colours; among the select's values, only "none" shows "No priority" |
| `InlineAddTask.InlineForm.constructor` | src/components/InlineAddTask.tsx:85-90 | the fields start empty with priority "none" |
| `InlineAddTask.InlineForm.SubmitDisabled` | src/components/InlineAddTask.tsx:225 | "Add task" is disabled exactly when the title is all whitespace |
| `InlineAddTask.InlineForm.HandleSubmit` | src/components/InlineAddTask.tsx:98-113 | the submit goes through exactly when the button was enabled. A blank title calls neither `onAdd` nor `onCancel` and changes nothing. Otherwise `onAdd` gets the `Submission` value, the fields reset, and `onCancel` is called |
| `InlineAddTask.InlineForm.ClearFields` | src/components/InlineAddTask.tsx:107-110 | the four fields return to their initial values |
| `InlineAddTask.InlineForm.HandleKeyDown` | src/components/InlineAddTask.tsx:115-119 | `onCancel` is called exactly when the key is "Escape" |
| `AuthModal.RegisterCheck` | src/components/AuthModal.tsx:29-36 | the username message iff the username is blank; the mismatch message iff the username is present and the passwords differ; otherwise no error |
| `AuthModal.SubmitCall` | src/components/AuthModal.tsx:26-37 | sign-in always calls `login(email, password)`. Sign-up calls `register(...)` exactly when the username is present and the passwords match |
| `AuthModal.FailureMessage` | src/components/AuthModal.tsx:41 | an `Error` gives its message, anything else gives "Đã có lỗi xảy ra" |
| `AuthModal.UsernameCheckedFirst` | src/components/AuthModal.tsx:29-36 | a blank username reports the username message even when the passwords also differ |
| `AuthModal.AuthForm.constructor` | src/components/AuthModal.tsx:15-20 | the dialog opens in sign-in mode with empty fields and no error |
| `AuthModal.AuthForm.BeginSubmit` | src/components/AuthModal.tsx:24-37 | the error is cleared first; a failed sign-up check leaves its message and makes no call; otherwise the call is `SubmitCall` |
| `AuthModal.AuthForm.SettleSubmit` | src/components/AuthModal.tsx:39-42 | `onClose` runs exactly when the call returned; a rejection sets the error to its message |
| `AuthModal.AuthForm.HandleSubmit` | src/components/AuthModal.tsx:22-43 | `onClose` is called only when a call was made and it returned, in which case the error is null; a failed check leaves its message; a rejection leaves its message or "Đã có lỗi xảy ra" |
| `Request.StartsWith` | src/lib/utils.ts:15 | `startsWith` holds exactly when the prefix fits and agrees with `s` character by character |
| `Request.Url` | src/lib/utils.ts:15 | a string starting with "http" is used unchanged. Anything else becomes the base URL followed by the path. A "/" is inserted unless the path starts with one, so the base is a prefix, a "/" follows it, and the path is a suffix |
| `Request.Check` | src/lib/utils.ts:21-24 | rejected exactly when the status is not ok or `success` is `false`. A rejection carries the body's non-empty message, else "Request failed". An accepted response yields the body's `data` |

## Left out

- Network and storage: `fetch`, `res.json()` and the headers in `request` (src/lib/utils.ts:16-20); all of src/lib/api.ts; the session provider in src/hooks/use-auth.tsx. Their results are parameters.
- `fetchTodos` (src/components/TodoApp.tsx:25-53): it loads a fixed mock list after a timer. The `loading` and `error` fields are kept and are left unchanged by the list updates.
- Timers, console logging, the toasts of `addTodo`/`deleteTodo`, and the `catch` branches of `addTodo`, `toggleTodo` (src/components/TodoApp.tsx:106-113) and `deleteTodo`. Those branches cannot run, because the only awaited call is a timer.
- Dates. Deadlines are integer instants, and the start of today and of tomorrow are parameters. This leaves out the local-midnight computation (src/components/MainContainer.tsx:72-75) and ISO 8601 parsing.
- Unparseable deadlines. A `deadline_at` string that parses to an invalid date compares false against both bounds. Such an open task shows in "inbox" only, in none of the four deadline sections. `Option<int>` cannot represent it.
- `getSectionDescription`, and all rendering, styling and focus effects.
- The dialog's flag colour and label ternaries (src/components/AddTodoModal.tsx:204-221). They use "text-gray-500" and "Priority" as fallbacks; only the inline form's maps are modelled.
- The `createdAt`, `description` and `completedAt` fields of the task record, which no modelled operation reads.
- JavaScript numbers are modelled as unbounded integers. An index `idx` that is not an integer would delete nothing; this is not modelled.
- Request.Check: `success` is modelled as an optional boolean and `message` as an optional string. A non-boolean `success` behaves like any value other than `false` and is not represented. A truthy non-string `message` is not represented either.
- The sign-in/sign-up mode links (src/components/AuthModal.tsx:119,130) and the `loading` flag that disables the submit button.
- React's batching and stale closures. Each step runs to completion on the state it starts from. The part of a handler after its `await` is a separate step only where the handler reads state before the `await` (the forms and `toggleTodo`).
