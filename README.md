# Task and project stores of the voice-driven task manager

This project models the two in-memory stores of the task manager. Both hold
the user's todos and projects. The reducer store also holds the chat log and
three UI flags.

- **The reducer store** (`lib/store/useStore.ts`, module `Store`). Every
  action replaces the whole state through Zustand's `set`. Each one is modelled
  as a total function from the old `State` to the new one:
  - `addTodo` appends with id `length + 1`.
  - `updateTodoStatus` advances matching todos one step round the status cycle
    pending, in progress, completed.
  - `deleteTodo` filters by id.
  - `addProject`, `updateProject` (a shallow merge) and `deleteProject` do the
    same on the projects.
  - `addChatMessage` appends a user message with id `length + 1`.
  - `setChatOpen`, `setActiveChatTask` and `setError` set one field each.

  The `Action` datatype, `Step` and `Run` let the chat-log invariant, and
  which part of the state each action may write, be stated across any
  sequence of actions.
- **The mock task service** (`app/data/services/taskService.ts`, module
  `MockService`). The service changes two module-level lists in place. It is
  modelled as a class `TaskService` with two `seq` fields that its methods
  reassign:
  - `createTodo` and `createProject` push a new entry whose id is the largest
    id plus one.
  - `updateTodoStatus` writes the status of the first match.
  - `deleteTodo` finds the first match and splices it out.
  - `deleteProject` first removes the project's todos in a loop, one `findIndex`
    and `splice` per todo, and then splices out the project.

  Every failure ("Todo not found", "Project not found") is detected before
  anything is changed. The proofs show that a failed call leaves both lists as
  they were.
- **Shared parts.** Module `Seqs` holds the list primitives both stores use:
  `filter`, `findIndex` (an imperative linear search), `splice(k, 1)` and
  `Math.max` (an imperative loop). Module `Tasks` holds the entities and the
  status map.

Entity shapes: a todo is taken from `lib/constants/dummy-data.ts:3-22`, plus
the ISO `timestamp` string the service stamps on todos it creates. The `Todo`
type is not declared in `app/types/task.ts`. A project keeps `id`, `name` and
`tasks`. A chat message follows `app/types/chat.ts:1-7`. Dates are opaque
values supplied by the caller: an `Instant` for the store, a `string` for the
service.

Identifiers and cascades:

- **The reducer store's ids can repeat.** It assigns ids as `length + 1`,
  not the largest id plus one. `Store.AddTodoKeepsDenseIds` shows the next id
  is fresh while the ids are 1, …, n (for instance while only the last todo
  has been deleted). `Store.AddAfterDeleteReusesId` shows that deleting any
  todo but the last and then adding one produces two todos with the same id.
  Projects get their ids the same way (`Store.AddProjectKeepsDenseIds`).
- **The mock service's ids are not monotonic.** Its new id is the largest id
  *currently present* plus one. Deleting the todo or project with the largest
  id and then creating one hands out the deleted id again
  (`MockService.CreateTodoAfterDeleteReusesId`,
  `MockService.CreateProjectAfterDeleteReusesId`). While nothing is deleted,
  every new id is greater than every id before it.
- **Only the service's `deleteProject` cascades.** The reducer store's
  `deleteProject` leaves the todos as they are.
- **Unknown ids.** The store's actions do nothing for an unknown id, while
  the service's operations fail with an error.
- **The service's cascade relies on distinct todo ids.** For each todo of the
  project, it removes the first todo *carrying that todo's id*. This equals
  "remove every todo of the project" only when todo ids are distinct
  (`MockService.CascadeRemovesProjectTodos`). With a duplicated id it removes
  a todo of another project and leaves an orphan behind
  (`MockService.CascadeMissesDuplicateId`). The service never creates a
  duplicate id itself: `TaskService.Valid` (distinct ids) is preserved by
  every method.

## Model

| member | source | states |
|---|---|---|
| `Tasks.NextStatus` | lib/store/useStore.ts:49-54 | the status map moves one step forward in the cycle pending → in_progress → completed → pending (rank + 1 mod 3) |
| `Tasks.NextStatusCycle` | lib/store/useStore.ts:49-54 | one or two steps always change the status; three steps bring it back |
| `Store.Initial` | lib/store/useStore.ts:33-39 | the store starts with the fixture todos and projects, an empty chat log (whose ids are trivially 1, 2, 3, …), no active chat task, chat closed and no error |
| `Store.AddTodo` | lib/store/useStore.ts:42-44 | exactly one todo is appended at the end, with id old length + 1 and the draft's other fields; earlier todos are unchanged and in order; nothing else in the state changes |
| `Store.AddTodoKeepsDenseIds` | lib/store/useStore.ts:43 | while the todo ids are 1, 2, …, n, the added todo gets a fresh id and the ids become 1, …, n + 1 |
| `Store.AddProjectKeepsDenseIds` | lib/store/useStore.ts:66 | while the project ids are 1, 2, …, n, the added project gets a fresh id and the ids become 1, …, n + 1 |
| `Store.AddAfterDeleteReusesId` | lib/store/useStore.ts:42-62 | after deleting a todo other than the last, the next added todo gets the same id as the former last todo, which is still present: ids are no longer distinct |
| `Store.UpdateTodoStatus` | lib/store/useStore.ts:46-58 | the list keeps its length and order; only `status` can change, it advances one step exactly for todos whose id matches, all other todos and the rest of the state are unchanged |
| `Store.UpdateTodoStatusThrice` | lib/store/useStore.ts:46-58 | three updates of the same id restore the original state |
| `Store.UpdateTodoStatusUnknownId` | lib/store/useStore.ts:46-58 | an id no todo carries leaves the state unchanged |
| `Store.DeleteTodo` | lib/store/useStore.ts:60-62 | every todo with the id is gone and every todo with another id keeps its number of copies; the survivors are a subsequence of the old list (relative order kept), and nothing else changes |
| `Store.DeleteTodoIdempotent` | lib/store/useStore.ts:60-62 | deleting the same id twice equals deleting it once |
| `Store.AddProject` | lib/store/useStore.ts:65-67 | exactly one project is appended with id old length + 1 and the given name and tasks; nothing else changes |
| `Store.Merge` | lib/store/useStore.ts:71 | in the shallow merge each field comes from the patch when the patch sets it and from the project otherwise |
| `Store.MergeIdempotent` | lib/store/useStore.ts:71 | merging a patch twice equals merging it once; the empty patch changes nothing |
| `Store.UpdateProject` | lib/store/useStore.ts:69-73 | same length; projects with the id receive the merge, every other project is unchanged, and so is the rest of the state, the todos included |
| `Store.UpdateProjectIdempotent` | lib/store/useStore.ts:69-73 | applying the same update twice equals applying it once, even when the patch renames the id |
| `Store.DeleteProject` | lib/store/useStore.ts:75-77 | every project with the id is gone and every project with another id keeps its number of copies, in order; the todos are untouched (no cascade) and nothing else changes |
| `Store.DeleteProjectIdempotent` | lib/store/useStore.ts:75-77 | deleting the same project id twice equals deleting it once |
| `Store.AddChatMessage` | lib/store/useStore.ts:80-91 | exactly one message is appended, with id old length + 1, sender user and the given text, task and timestamp; earlier messages are unchanged and nothing else changes |
| `Store.AddChatMessageKeepsDenseIds` | lib/store/useStore.ts:84 | if message i has id i + 1 before, the same holds after the append |
| `Store.StepOnlyAppendsChat` | lib/store/useStore.ts:41-98 | no action rewrites or removes a chat message: the old log is a prefix of the new one, and the invariant "message i has id i + 1" is kept |
| `Store.RunKeepsDenseChatIds` | lib/store/useStore.ts:33-98 | every sequence of actions from a state satisfying that invariant (the initial state among them) keeps it and keeps the old log as a prefix |
| `Store.SetChatOpen` | lib/store/useStore.ts:93 | sets `isChatOpen` and changes no other field |
| `Store.SetActiveChatTask` | lib/store/useStore.ts:95 | sets `activeChatTask` and changes no other field |
| `Store.SetError` | lib/store/useStore.ts:98 | sets `error` and changes no other field |
| `Store.Step` | lib/store/useStore.ts:41-98 | each action writes only its own part of the state: only the todo actions change the todos (so `deleteProject` leaves them alone), only the project actions change the projects, only `addChatMessage` changes the chat log |
| `Store.Run` | lib/store/useStore.ts:41-98 | a run of actions containing no todo action leaves the todos unchanged; likewise for the projects and for the chat log |
| `Seqs.Filter` | lib/store/useStore.ts:61 | the kept elements pass the test, every element that passes is kept, and the result is a subsequence of the input (copies are counted by `Seqs.FilterCount`) |
| `Seqs.FilterCount` | lib/store/useStore.ts:61 | `filter` keeps every copy of an element that passes the test and no copy of one that fails it |
| `Seqs.FilterIdempotent` | lib/store/useStore.ts:61 | filtering twice by the same test equals filtering once |
| `Seqs.IndexWhere` | app/data/services/taskService.ts:34 | `findIndex`: -1 exactly when no element matches; otherwise the index of a match with no match before it |
| `Seqs.FindIndex` | app/data/services/taskService.ts:34 | the linear search returns exactly the `findIndex` result |
| `Seqs.RemoveAt` | app/data/services/taskService.ts:36 | `splice(k, 1)`: one element shorter, elements before `k` unchanged, elements after it move down by one |
| `Seqs.RemoveAtMultiset` | app/data/services/taskService.ts:36 | `splice(k, 1)` removes exactly one copy of the element at `k` and nothing else |
| `Seqs.MaxOf` | app/data/services/taskService.ts:16 | `Math.max` of a non-empty list returns an element of the list that is at least every element |
| `MockService.TaskService.constructor` | app/data/services/taskService.ts:2 | the service starts from the given todo and project lists |
| `MockService.TaskService.CreateTodo` | app/data/services/taskService.ts:14-24 | appends one pending todo with the given text, project and timestamp; its id is one more than an existing id and greater than every existing id; projects unchanged; distinct ids preserved |
| `MockService.TaskService.UpdateTodoStatus` | app/data/services/taskService.ts:26-31 | with no match, fails with "Todo not found" and changes nothing; otherwise sets the first match's status, returns the updated todo, and changes no other todo, field or list |
| `MockService.TaskService.DeleteTodo` | app/data/services/taskService.ts:33-37 | with no match, fails with "Todo not found" and changes nothing; otherwise removes exactly the first match (length − 1); with distinct ids no todo with the id remains and the others keep their order |
| `MockService.TaskService.CreateProject` | app/data/services/taskService.ts:39-47 | appends one project with the given name, no tasks and an id one more than an existing id and greater than every existing id; todos unchanged |
| `MockService.TaskService.DeleteProject` | app/data/services/taskService.ts:49-59 | with no project of the id, fails with "Project not found" and touches neither list; otherwise the projects lose exactly the first match, and the todos are what the cascade loop (`TaskService.RemoveEach`) leaves; with distinct todo ids these are exactly the todos of other projects, in order, and none refers to the deleted project |
| `MockService.RemoveFirstWithId` | app/data/services/taskService.ts:34-36 | `findIndex` by id then `splice`: the list loses at most one todo |
| `MockService.RemoveFirstWithIdRemovesFirst` | app/data/services/taskService.ts:55-56 | the list is unchanged exactly when no todo has the id; otherwise exactly one copy of the first todo with the id is removed, and every todo with another id survives |
| `MockService.RemoveEachById` | app/data/services/taskService.ts:54-57 | the cascade loop as a function of the list and the victims: at most one todo goes per victim |
| `MockService.RemoveEachByIdKeepsOthers` | app/data/services/taskService.ts:54-57 | for any list, distinct ids or not, the cascade adds no todo and no copy, and every todo whose id no victim carries survives |
| `MockService.TaskService.RemoveEach` | app/data/services/taskService.ts:54-57 | the `forEach` loop of `findIndex` and `splice` leaves exactly `RemoveEachById` of the old todos and does not touch the projects |
| `MockService.CreateTodoAfterDeleteReusesId` | app/data/services/taskService.ts:16-36 | a service holding todos 1 and 2 that deletes todo 2 and then creates a todo gives the new todo id 2 again |
| `MockService.CreateProjectAfterDeleteReusesId` | app/data/services/taskService.ts:41-58 | a service holding projects 1 and 2 that deletes project 2 and then creates a project gives the new project id 2 again |
| `MockService.RemoveFirstWithIdIsFilter` | app/data/services/taskService.ts:34-36 | with distinct ids, removing the first todo with an id removes every todo with that id |
| `MockService.RemoveEachIsFilter` | app/data/services/taskService.ts:54-57 | with distinct ids, the cascade loop keeps exactly the todos whose ids are not among the victims', in order |
| `MockService.CascadeRemovesProjectTodos` | app/data/services/taskService.ts:52-57 | with distinct ids, the cascade over the project's todos keeps exactly the todos outside the project, in their original order |
| `MockService.CascadeMissesDuplicateId` | app/data/services/taskService.ts:53-57 | with two todos sharing id 1 in projects 2 and 7, deleting project 7 removes the project-2 todo and leaves the project-7 todo behind |

## Left out

- The speech-capture controller, the transcript router, the chat dialog and
  every other React component are not part of this model. They only render
  store state and call the actions modelled here. The speech-recognition hook
  wraps an asynchronous browser capability.
- `getTodos` and `getProjects` are left out: they return the live lists,
  which are the class's fields.
- The `async`/`Promise` wrapping: each service call is a synchronous method
  that returns `Ok` or `Err`. A thrown `Error` is an `Err` whose message is
  given by `MockService.Message`.
- `new Date()` and `toISOString()` are not modelled: timestamps are
  parameters, and no clock is modelled.
- Zustand's subscription, re-rendering and the initial fixture data
  (`dummyTodos`, `dummyProjects`) are left out. `set` with a partial state is
  modelled as replacing just those fields.
- MockService.TaskService.CreateTodo: requires a non-empty todo list, because
  `Math.max()` of no ids is `-Infinity`. The id the source then produces is
  not a number the model can represent. The same holds for
  MockService.TaskService.CreateProject and the project list.
- Aliasing: the service's `find` returns the stored object, and its status is
  written in place. The model treats a todo as a value. Any other reference to
  the same object, such as a project's `tasks` list, does not see the write.
- The service's status parameter is typed `TaskStatus` (`app/types/task.ts:1`),
  whose values differ from a todo's status. The model uses the todo statuses.
- The service's projects have more fields (`app/types/task.ts:24-34`). The
  model keeps `id`, `name` and `tasks`, the only fields `createProject` sets.
- A `Partial<Project>` patch field that is explicitly `undefined` overwrites
  the project's field with `undefined`. The model does not tell "absent" from
  "undefined": both leave the field as it was.
- JavaScript numbers are doubles. Ids above 2^53 lose precision, while the
  model's integers are unbounded.
- `mockTodos` is imported from `app/data/mock/tasks.ts`, which does not export
  it (it exports `mockTasks`). The service's lists are therefore constructor
  parameters.
