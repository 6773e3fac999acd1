/**
 The entities both stores hold: todos, projects and chat messages.
 */
module Tasks {

  /** The three statuses a todo can be in. */
  datatype Status = Pending | InProgress | Completed

  /**
   A todo. `projectId` is absent for an unassigned todo; `timestamp` is the
   ISO creation string the mock service stamps on the todos it creates, and is
   absent on the fixture todos.
   */
  datatype Todo = Todo(
    id: int,
    text: string,
    status: Status,
    projectId: Option<int>,
    timestamp: Option<string>)

  /** A project: an id, a name and the todos listed under it. */
  datatype Project = Project(id: int, name: string, tasks: seq<Todo>)

  datatype Sender = User | Assistant

  /** Milliseconds since the epoch; supplied by the caller, never read from a clock. */
  type Instant = int

  datatype ChatMessage = ChatMessage(
    id: int,
    text: string,
    sender: Sender,
    timestamp: Instant,
    taskId: Option<int>)

  datatype Option<T> = None | Some(value: T)

  /** The position of a status in the cycle pending, in progress, completed. */
  function Rank(s: Status): (r: nat)
    ensures r < 3
  {
    match s
    case Pending => 0
    case InProgress => 1
    case Completed => 2
  }

  /** The status map of the reducer: one step round the cycle. */
  function NextStatus(s: Status): (r: Status)
    ensures Rank(r) == (Rank(s) + 1) % 3
  {
    match s
    case Pending => InProgress
    case InProgress => Completed
    case Completed => Pending
  }

  /** Three steps round the cycle come back to where they started. */
  lemma NextStatusCycle(s: Status)
    ensures NextStatus(s) != s && NextStatus(NextStatus(s)) != s
    ensures NextStatus(NextStatus(NextStatus(s))) == s
  {
  }

  /** The id lists the mock service hands to `Math.max`. */
  function TodoIds(todos: seq<Todo>): seq<int>
  {
    seq(|todos|, i requires 0 <= i < |todos| => todos[i].id)
  }

  function ProjectIds(projects: seq<Project>): seq<int>
  {
    seq(|projects|, i requires 0 <= i < |projects| => projects[i].id)
  }

  /** No two todos of the list share an id. */
  ghost predicate UniqueTodoIds(todos: seq<Todo>)
  {
    forall i, j :: 0 <= i < j < |todos| ==> todos[i].id != todos[j].id
  }

  /** No two projects of the list share an id. */
  ghost predicate UniqueProjectIds(projects: seq<Project>)
  {
    forall i, j :: 0 <= i < j < |projects| ==> projects[i].id != projects[j].id
  }

  /** The todo tests that `filter` and `findIndex` are called with. */

  function HasId(id: int): Todo -> bool
  {
    (t: Todo) => t.id == id
  }

  function NotId(id: int): Todo -> bool
  {
    (t: Todo) => t.id != id
  }

  function InProject(id: int): Todo -> bool
  {
    (t: Todo) => t.projectId == Some(id)
  }

  function NotInProject(id: int): Todo -> bool
  {
    (t: Todo) => t.projectId != Some(id)
  }

  function ProjectHasId(id: int): Project -> bool
  {
    (p: Project) => p.id == id
  }

  function ProjectNotId(id: int): Project -> bool
  {
    (p: Project) => p.id != id
  }
}
