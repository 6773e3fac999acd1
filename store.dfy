/**
 The reducer store: one immutable `State` and one total function per action,
 each mapping the old state to the new one the way the store's `set` updater
 does (array spread to append, `map` to update, `filter` to delete, object
 spread to merge).
 */
module Store {
  import opened Tasks
  import opened Seqs

  datatype State = State(
    todos: seq<Todo>,
    projects: seq<Project>,
    chatMessages: seq<ChatMessage>,
    activeChatTask: Option<int>,
    isChatOpen: bool,
    error: Option<string>)

  /** A `Partial<Project>`: each field the patch sets overrides the project's. */
  datatype ProjectPatch = ProjectPatch(
    id: Option<int>,
    name: Option<string>,
    tasks: Option<seq<Todo>>)

  /** The identifiers `length + 1` produces when nothing is ever removed: 1, 2, 3, ... */
  ghost predicate DenseTodoIds(todos: seq<Todo>)
  {
    forall i :: 0 <= i < |todos| ==> todos[i].id == i + 1
  }

  /** The identifiers `addProject` produces when no project is ever removed. */
  ghost predicate DenseProjectIds(projects: seq<Project>)
  {
    forall i :: 0 <= i < |projects| ==> projects[i].id == i + 1
  }

  ghost predicate DenseChatIds(messages: seq<ChatMessage>)
  {
    forall i :: 0 <= i < |messages| ==> messages[i].id == i + 1
  }

  /** The state the store is created with, from the given fixture lists. */
  function Initial(todos: seq<Todo>, projects: seq<Project>): (s: State)
    ensures s.todos == todos && s.projects == projects
    ensures s.chatMessages == [] && DenseChatIds(s.chatMessages)
    ensures s.activeChatTask == None && !s.isChatOpen && s.error == None
  {
    State(todos, projects, [], None, false, None)
  }

  // Task actions

  /**
   Appends the given todo with its id replaced by the list length plus one;
   nothing else changes.
   */
  function AddTodo(s: State, todo: Todo): (r: State)
    ensures |r.todos| == |s.todos| + 1 && r.todos[..|s.todos|] == s.todos
    ensures var t := r.todos[|s.todos|];
      t.id == |s.todos| + 1 && t.text == todo.text && t.status == todo.status &&
      t.projectId == todo.projectId && t.timestamp == todo.timestamp
    ensures r.(todos := s.todos) == s
  {
    s.(todos := s.todos + [todo.(id := |s.todos| + 1)])
  }

  /** The element-wise step of `updateTodoStatus`. */
  function Advance(t: Todo, id: int): Todo
  {
    if t.id == id then t.(status := NextStatus(t.status)) else t
  }

  /**
   Advances the status of every todo whose id is `id` one step round the
   cycle; the list keeps its length and order, and no other field of any todo,
   and no other part of the state, changes.
   */
  function UpdateTodoStatus(s: State, id: int): (r: State)
    ensures |r.todos| == |s.todos|
    ensures forall i :: 0 <= i < |s.todos| ==>
      r.todos[i].(status := s.todos[i].status) == s.todos[i] &&
      r.todos[i].status == (if s.todos[i].id == id then NextStatus(s.todos[i].status) else s.todos[i].status)
    ensures r.(todos := s.todos) == s
  {
    s.(todos := seq(|s.todos|, i requires 0 <= i < |s.todos| => Advance(s.todos[i], id)))
  }

  /**
   Removes every todo whose id is `id`: the survivors are exactly the other
   todos, each with as many copies as before, in their original order;
   nothing else changes.
   */
  function DeleteTodo(s: State, id: int): (r: State)
    ensures forall t :: t in r.todos ==> t in s.todos && t.id != id
    ensures forall t :: t in s.todos && t.id != id ==> t in r.todos
    ensures forall t :: multiset(r.todos)[t] == if t.id != id then multiset(s.todos)[t] else 0
    ensures Subsequence(r.todos, s.todos)
    ensures r.(todos := s.todos) == s
  {
    var todos := Filter(s.todos, NotId(id));
    assert forall t :: multiset(todos)[t] == if t.id != id then multiset(s.todos)[t] else 0 by {
      forall t {
        FilterCount(s.todos, NotId(id), t);
      }
    }
    s.(todos := todos)
  }

  // Project actions

  /** Appends the given project with its id replaced by the list length plus one. */
  function AddProject(s: State, project: Project): (r: State)
    ensures |r.projects| == |s.projects| + 1 && r.projects[..|s.projects|] == s.projects
    ensures var p := r.projects[|s.projects|];
      p.id == |s.projects| + 1 && p.name == project.name && p.tasks == project.tasks
    ensures r.(projects := s.projects) == s
  {
    s.(projects := s.projects + [project.(id := |s.projects| + 1)])
  }

  function Override<T>(patch: Option<T>, current: T): T
  {
    match patch
    case Some(v) => v
    case None => current
  }

  /** `{ ...p, ...patch }`: a field comes from the patch when the patch sets it. */
  function Merge(p: Project, patch: ProjectPatch): (r: Project)
    ensures patch.id.Some? ==> r.id == patch.id.value
    ensures patch.id.None? ==> r.id == p.id
    ensures patch.name.Some? ==> r.name == patch.name.value
    ensures patch.name.None? ==> r.name == p.name
    ensures patch.tasks.Some? ==> r.tasks == patch.tasks.value
    ensures patch.tasks.None? ==> r.tasks == p.tasks
  {
    Project(Override(patch.id, p.id), Override(patch.name, p.name), Override(patch.tasks, p.tasks))
  }

  /**
   Merges `patch` into the projects whose id is `id` and leaves every other
   project, and every other part of the state (the todos among them), as it was.
   */
  function UpdateProject(s: State, id: int, patch: ProjectPatch): (r: State)
    ensures |r.projects| == |s.projects|
    ensures forall i :: 0 <= i < |s.projects| && s.projects[i].id != id ==> r.projects[i] == s.projects[i]
    ensures forall i :: 0 <= i < |s.projects| && s.projects[i].id == id ==> r.projects[i] == Merge(s.projects[i], patch)
    ensures r.(projects := s.projects) == s
  {
    s.(projects := seq(|s.projects|, i requires 0 <= i < |s.projects| =>
      if s.projects[i].id == id then Merge(s.projects[i], patch) else s.projects[i]))
  }

  /**
   Removes every project whose id is `id`, keeping the others, copies
   included, in order. The
   todos are not touched: the store does not cascade.
   */
  function DeleteProject(s: State, id: int): (r: State)
    ensures forall p :: p in r.projects ==> p in s.projects && p.id != id
    ensures forall p :: p in s.projects && p.id != id ==> p in r.projects
    ensures forall p :: multiset(r.projects)[p] == if p.id != id then multiset(s.projects)[p] else 0
    ensures Subsequence(r.projects, s.projects)
    ensures r.todos == s.todos
    ensures r.(projects := s.projects) == s
  {
    var projects := Filter(s.projects, ProjectNotId(id));
    assert forall p :: multiset(projects)[p] == if p.id != id then multiset(s.projects)[p] else 0 by {
      forall p {
        FilterCount(s.projects, ProjectNotId(id), p);
      }
    }
    s.(projects := projects)
  }

  // Chat actions

  /**
   Appends one message from the user with id equal to the log length plus one,
   the given text, task reference and timestamp; nothing else changes.
   */
  function AddChatMessage(s: State, text: string, taskId: Option<int>, now: Instant): (r: State)
    ensures |r.chatMessages| == |s.chatMessages| + 1
    ensures r.chatMessages[..|s.chatMessages|] == s.chatMessages
    ensures var m := r.chatMessages[|s.chatMessages|];
      m.id == |s.chatMessages| + 1 && m.text == text && m.sender == User &&
      m.timestamp == now && m.taskId == taskId
    ensures r.(chatMessages := s.chatMessages) == s
  {
    s.(chatMessages := s.chatMessages + [ChatMessage(|s.chatMessages| + 1, text, User, now, taskId)])
  }

  /** Each setter changes its own field and nothing else. */
  function SetChatOpen(s: State, isOpen: bool): (r: State)
    ensures r.isChatOpen == isOpen
    ensures r.(isChatOpen := s.isChatOpen) == s
  {
    s.(isChatOpen := isOpen)
  }

  function SetActiveChatTask(s: State, taskId: Option<int>): (r: State)
    ensures r.activeChatTask == taskId
    ensures r.(activeChatTask := s.activeChatTask) == s
  {
    s.(activeChatTask := taskId)
  }

  // Error handling

  function SetError(s: State, error: Option<string>): (r: State)
    ensures r.error == error
    ensures r.(error := s.error) == s
  {
    s.(error := error)
  }

  /** The store's public actions, as one value each. */
  datatype Action =
    | AddTodoAction(todo: Todo)
    | UpdateTodoStatusAction(id: int)
    | DeleteTodoAction(id: int)
    | AddProjectAction(project: Project)
    | UpdateProjectAction(id: int, patch: ProjectPatch)
    | DeleteProjectAction(id: int)
    | AddChatMessageAction(text: string, taskId: Option<int>, now: Instant)
    | SetChatOpenAction(isOpen: bool)
    | SetActiveChatTaskAction(taskId: Option<int>)
    | SetErrorAction(error: Option<string>)
  {
    /** The actions that write the todo list. */
    predicate OnTodos()
    {
      AddTodoAction? || UpdateTodoStatusAction? || DeleteTodoAction?
    }

    /** The actions that write the project list. */
    predicate OnProjects()
    {
      AddProjectAction? || UpdateProjectAction? || DeleteProjectAction?
    }
  }

  /**
   One action applied to the state. Each action writes only its own part of
   the state: `deleteProject` in particular leaves the todos alone.
   */
  function Step(s: State, a: Action): (r: State)
    ensures !a.OnTodos() ==> r.todos == s.todos
    ensures !a.OnProjects() ==> r.projects == s.projects
    ensures !a.AddChatMessageAction? ==> r.chatMessages == s.chatMessages
  {
    match a
    case AddTodoAction(todo) => AddTodo(s, todo)
    case UpdateTodoStatusAction(id) => UpdateTodoStatus(s, id)
    case DeleteTodoAction(id) => DeleteTodo(s, id)
    case AddProjectAction(project) => AddProject(s, project)
    case UpdateProjectAction(id, patch) => UpdateProject(s, id, patch)
    case DeleteProjectAction(id) => DeleteProject(s, id)
    case AddChatMessageAction(text, taskId, now) => AddChatMessage(s, text, taskId, now)
    case SetChatOpenAction(isOpen) => SetChatOpen(s, isOpen)
    case SetActiveChatTaskAction(taskId) => SetActiveChatTask(s, taskId)
    case SetErrorAction(error) => SetError(s, error)
  }

  /**
   The state after the actions run one after another, first to last. A run
   with no todo action leaves the todos as they were, whatever it does to the
   projects; likewise for the projects and the chat log.
   */
  function Run(s: State, actions: seq<Action>): (r: State)
    ensures (forall i :: 0 <= i < |actions| ==> !actions[i].OnTodos()) ==> r.todos == s.todos
    ensures (forall i :: 0 <= i < |actions| ==> !actions[i].OnProjects()) ==> r.projects == s.projects
    ensures (forall i :: 0 <= i < |actions| ==> !actions[i].AddChatMessageAction?) ==> r.chatMessages == s.chatMessages
    decreases |actions|
  {
    if actions == [] then s else Run(Step(s, actions[0]), actions[1..])
  }

  // Properties

  /** While no todo has been deleted, `length + 1` is a fresh id and keeps the ids 1, 2, 3, ... */
  lemma AddTodoKeepsDenseIds(s: State, todo: Todo)
    requires DenseTodoIds(s.todos)
    ensures DenseTodoIds(AddTodo(s, todo).todos)
    ensures forall t :: t in s.todos ==> t.id != AddTodo(s, todo).todos[|s.todos|].id
  {
  }

  /** While no project has been deleted, `length + 1` is a fresh project id. */
  lemma AddProjectKeepsDenseIds(s: State, project: Project)
    requires DenseProjectIds(s.projects)
    ensures DenseProjectIds(AddProject(s, project).projects)
    ensures forall p :: p in s.projects ==> p.id != AddProject(s, project).projects[|s.projects|].id
  {
  }

  /**
   Once a todo other than the last has been deleted, `length + 1` is no longer
   fresh: the next todo added gets the id of the last todo, which is still there.
   */
  lemma {:induction false} AddAfterDeleteReusesId(s: State, k: int, todo: Todo)
    requires DenseTodoIds(s.todos)
    requires 1 <= k < |s.todos|
    ensures var r := AddTodo(DeleteTodo(s, k), todo);
      |r.todos| == |s.todos| &&
      r.todos[|s.todos| - 2] == s.todos[|s.todos| - 1] &&
      r.todos[|s.todos| - 1].id == s.todos[|s.todos| - 1].id &&
      !UniqueTodoIds(r.todos)
  {
    var n := |s.todos|;
    DeleteDenseId(s.todos, k);
    var d := s.(todos := RemoveAt(s.todos, k - 1));
    assert DeleteTodo(s, k) == d;
    var r := AddTodo(d, todo);
    assert r.todos[n - 2] == s.todos[n - 1];
    assert r.todos[n - 2].id == r.todos[n - 1].id;
  }

  /** With ids 1, 2, 3, ..., deleting id `k` takes out just the todo at index `k - 1`. */
  lemma DeleteDenseId(todos: seq<Todo>, k: int)
    requires DenseTodoIds(todos)
    requires 1 <= k <= |todos|
    ensures Filter(todos, NotId(k)) == RemoveAt(todos, k - 1)
  {
    forall i | 0 <= i < |todos| && i != k - 1 ensures NotId(k)(todos[i]) {
      assert todos[i].id == i + 1;
    }
    FilterRemoveAt(todos, NotId(k), k - 1);
  }

  /** Three status updates on the same id restore the original state. */
  lemma UpdateTodoStatusThrice(s: State, id: int)
    ensures UpdateTodoStatus(UpdateTodoStatus(UpdateTodoStatus(s, id), id), id) == s
  {

  }

  /** An id no todo carries leaves the state unchanged. */
  lemma UpdateTodoStatusUnknownId(s: State, id: int)
    requires forall t :: t in s.todos ==> t.id != id
    ensures UpdateTodoStatus(s, id) == s
  {

  }

  /** Deleting an id twice is deleting it once. */
  lemma DeleteTodoIdempotent(s: State, id: int)
    ensures DeleteTodo(DeleteTodo(s, id), id) == DeleteTodo(s, id)
  {
    FilterIdempotent(s.todos, NotId(id));
  }

  /** Deleting a project id twice is deleting it once. */
  lemma DeleteProjectIdempotent(s: State, id: int)
    ensures DeleteProject(DeleteProject(s, id), id) == DeleteProject(s, id)
  {
    FilterIdempotent(s.projects, ProjectNotId(id));
  }

  /** Merging the same patch twice is merging it once; the empty patch changes nothing. */
  lemma MergeIdempotent(p: Project, patch: ProjectPatch)
    ensures Merge(Merge(p, patch), patch) == Merge(p, patch)
    ensures Merge(p, ProjectPatch(None, None, None)) == p
  {
  }

  /**
   Applying the same update twice is applying it once, even when the patch
   renames the id: a renamed project no longer matches, and one that still
   matches has already received the patch.
   */
  lemma UpdateProjectIdempotent(s: State, id: int, patch: ProjectPatch)
    ensures UpdateProject(UpdateProject(s, id, patch), id, patch) == UpdateProject(s, id, patch)
  {

  }

  /** Appending a message keeps the ids 1, 2, 3, ... of the log. */
  lemma AddChatMessageKeepsDenseIds(s: State, text: string, taskId: Option<int>, now: Instant)
    requires DenseChatIds(s.chatMessages)
    ensures DenseChatIds(AddChatMessage(s, text, taskId, now).chatMessages)
  {
  }

  /**
   No action removes or rewrites a chat message: the log after any action
   extends the log before it.
   */
  lemma StepOnlyAppendsChat(s: State, a: Action)
    ensures |s.chatMessages| <= |Step(s, a).chatMessages|
    ensures Step(s, a).chatMessages[..|s.chatMessages|] == s.chatMessages
    ensures DenseChatIds(s.chatMessages) ==> DenseChatIds(Step(s, a).chatMessages)
  {
  }

  /**
   From any state whose chat ids run 1, 2, 3, ... (the initial state among
   them), every run of actions keeps them so, and keeps the old log as a prefix.
   */
  lemma {:induction false} RunKeepsDenseChatIds(s: State, actions: seq<Action>)
    requires DenseChatIds(s.chatMessages)
    ensures DenseChatIds(Run(s, actions).chatMessages)
    ensures |s.chatMessages| <= |Run(s, actions).chatMessages|
    ensures Run(s, actions).chatMessages[..|s.chatMessages|] == s.chatMessages
    decreases |actions|
  {
    if actions != [] {
      var next := Step(s, actions[0]);
      StepOnlyAppendsChat(s, actions[0]);
      RunKeepsDenseChatIds(next, actions[1..]);
      var final := Run(next, actions[1..]).chatMessages;
      assert final[..|s.chatMessages|] == final[..|next.chatMessages|][..|s.chatMessages|];
    }
  }
}
