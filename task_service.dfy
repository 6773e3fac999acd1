/**
 The mock task service: two module-level lists, the todos and the projects,
 changed in place by `push`, a field write and `splice`. Every call either
 succeeds or fails with a "not found" error before it changes anything.
 */
module MockService {
  import opened Tasks
  import opened Seqs

  datatype ServiceError = TodoNotFound | ProjectNotFound

  /** The message of the `Error` the service throws. */
  function Message(e: ServiceError): string
  {
    match e
    case TodoNotFound => "Todo not found"
    case ProjectNotFound => "Project not found"
  }

  /** A call that returns a value, or throws. */
  datatype Result<T> = Ok(value: T) | Err(error: ServiceError)

  /** What `findIndex` by id followed by `splice(index, 1)` makes of a list: at most one todo goes. */
  function RemoveFirstWithId(todos: seq<Todo>, id: int): (r: seq<Todo>)
    ensures |todos| - 1 <= |r| <= |todos|
  {
    var k := IndexWhere(todos, HasId(id));
    if k == -1 then todos else RemoveAt(todos, k)
  }

  /**
   What the cascade loop of `deleteProject` makes of a list: for each victim in
   turn, the first todo carrying the victim's id is removed. At most one todo
   goes per victim.
   */
  function RemoveEachById(todos: seq<Todo>, victims: seq<Todo>): (r: seq<Todo>)
    ensures |todos| - |victims| <= |r| <= |todos|
    decreases |victims|
  {
    if victims == [] then todos
    else RemoveFirstWithId(RemoveEachById(todos, victims[..|victims| - 1]), victims[|victims| - 1].id)
  }

  function IdsOf(todos: seq<Todo>): set<int>
  {
    set t | t in todos :: t.id
  }

  function NotAmong(ids: set<int>): Todo -> bool
  {
    (t: Todo) => t.id !in ids
  }

  /** The lists the service keeps: each in its original order, ids left to the callers. */
  class TaskService {
    var todos: seq<Todo>
    var projects: seq<Project>

    /** The invariant the service maintains when it is started from lists with distinct ids. */
    ghost predicate Valid()
      reads this
    {
      UniqueTodoIds(todos) && UniqueProjectIds(projects)
    }

    constructor (todos: seq<Todo>, projects: seq<Project>)
      ensures this.todos == todos && this.projects == projects
    {
      this.todos := todos;
      this.projects := projects;
    }

    /**
     Appends a pending todo whose id is one more than the largest id present,
     hence larger than every id present.
     */
    method CreateTodo(text: string, projectId: Option<int>, timestamp: string) returns (todo: Todo)
      requires |todos| > 0
      modifies this
      ensures todos == old(todos) + [todo] && projects == old(projects)
      ensures todo.text == text && todo.status == Pending
      ensures todo.projectId == projectId && todo.timestamp == Some(timestamp)
      ensures forall t :: t in old(todos) ==> t.id < todo.id
      ensures exists t :: t in old(todos) && todo.id == t.id + 1
      ensures old(Valid()) ==> Valid()
    {
      var maxId := MaxOf(TodoIds(todos));
      ghost var w :| 0 <= w < |todos| && todos[w].id == maxId;
      todo := Todo(maxId + 1, text, Pending, projectId, Some(timestamp));
      assert forall i :: 0 <= i < |todos| ==> todos[i].id <= maxId by {
        forall i | 0 <= i < |todos| ensures todos[i].id <= maxId {
          assert TodoIds(todos)[i] in TodoIds(todos);
        }
      }
      assert todos[w] in todos && todo.id == todos[w].id + 1;
      todos := todos + [todo];
    }

    /**
     Sets the status of the first todo with the given id, or fails with
     "Todo not found" and changes nothing. No other todo, and no other field,
     changes.
     */
    method UpdateTodoStatus(id: int, status: Status) returns (r: Result<Todo>)
      modifies this
      ensures projects == old(projects)
      ensures var k := IndexWhere(old(todos), HasId(id));
        if k == -1 then r == Err(TodoNotFound) && todos == old(todos)
        else r == Ok(old(todos)[k].(status := status)) && todos == old(todos)[k := old(todos)[k].(status := status)]
      ensures old(Valid()) ==> Valid()
    {
      var k := FindIndex(todos, HasId(id));
      if k == -1 {
        return Err(TodoNotFound);
      }
      todos := todos[k := todos[k].(status := status)];
      r := Ok(todos[k]);
    }

    /**
     Removes the first todo with the given id, or fails with "Todo not found"
     and changes nothing. With distinct ids, no todo with that id remains.
     */
    method DeleteTodo(id: int) returns (r: Result<()>)
      modifies this
      ensures projects == old(projects)
      ensures var k := IndexWhere(old(todos), HasId(id));
        if k == -1 then r == Err(TodoNotFound) && todos == old(todos)
        else r == Ok(()) && todos == RemoveAt(old(todos), k)
      ensures r.Ok? ==> |todos| == |old(todos)| - 1
      ensures old(UniqueTodoIds(todos)) ==> todos == Filter(old(todos), NotId(id))
      ensures old(Valid()) ==> Valid()
    {
      var k := FindIndex(todos, HasId(id));
      if k == -1 {
        FilterKeepsAll(todos, NotId(id));
        return Err(TodoNotFound);
      }
      ghost var before := todos;
      todos := RemoveAt(todos, k);
      if UniqueTodoIds(before) {
        RemoveFirstWithIdIsFilter(before, id);
        UniqueRemoveAt(before, k);
      }
      r := Ok(());
    }

    /** Appends a project with no tasks whose id is one more than the largest id present. */
    method CreateProject(name: string) returns (project: Project)
      requires |projects| > 0
      modifies this
      ensures projects == old(projects) + [project] && todos == old(todos)
      ensures project.name == name && project.tasks == []
      ensures forall p :: p in old(projects) ==> p.id < project.id
      ensures exists p :: p in old(projects) && project.id == p.id + 1
      ensures old(Valid()) ==> Valid()
    {
      var maxId := MaxOf(ProjectIds(projects));
      ghost var w :| 0 <= w < |projects| && projects[w].id == maxId;
      project := Project(maxId + 1, name, []);
      assert forall i :: 0 <= i < |projects| ==> projects[i].id <= maxId by {
        forall i | 0 <= i < |projects| ensures projects[i].id <= maxId {
          assert ProjectIds(projects)[i] in ProjectIds(projects);
        }
      }
      assert projects[w] in projects && project.id == projects[w].id + 1;
      projects := projects + [project];
    }

    /**
     The cascade loop of `deleteProject`: for each victim in turn, looks up the
     first todo with the victim's id and splices it out if there is one.
     */
    method RemoveEach(victims: seq<Todo>)
      modifies this
      ensures todos == RemoveEachById(old(todos), victims) && projects == old(projects)
    {
      ghost var before := todos;
      var i := 0;
      while i < |victims|
        invariant 0 <= i <= |victims|
        invariant todos == RemoveEachById(before, victims[..i])
        invariant projects == old(projects)
      {
        var todoIndex := FindIndex(todos, HasId(victims[i].id));
        RemoveEachStep(before, victims, i);
        if todoIndex != -1 {
          todos := RemoveAt(todos, todoIndex);
        }
        i := i + 1;
      }
      assert victims[..i] == victims;
    }

    /**
     Fails with "Project not found", touching neither list, when no project has
     the id. Otherwise removes, for each todo of the project in turn, the first
     todo with that todo's id, and then the first project with the id. With
     distinct todo ids this removes exactly the project's todos: none survives,
     and every other todo keeps its place in order.
     */
    method DeleteProject(id: int) returns (r: Result<()>)
      modifies this
      ensures var k := IndexWhere(old(projects), ProjectHasId(id));
        (k == -1 ==> r == Err(ProjectNotFound) && todos == old(todos) && projects == old(projects)) &&
        (k != -1 ==> r == Ok(()) && projects == RemoveAt(old(projects), k) &&
                     todos == RemoveEachById(old(todos), Filter(old(todos), InProject(id))))
      ensures r.Ok? && old(UniqueTodoIds(todos)) ==> todos == Filter(old(todos), NotInProject(id))
      ensures r.Ok? && old(UniqueTodoIds(todos)) ==> forall t :: t in todos ==> t.projectId != Some(id)
      ensures old(Valid()) ==> Valid()
    {
      var index := FindIndex(projects, ProjectHasId(id));
      if index == -1 {
        return Err(ProjectNotFound);
      }
      var projectTodos := Filter(todos, InProject(id));
      ghost var before := todos;
      RemoveEach(projectTodos);
      if UniqueTodoIds(before) {
        CascadeRemovesProjectTodos(before, id);
        UniqueFilter(before, NotInProject(id));
      }
      if UniqueProjectIds(projects) {
        UniqueProjectsRemoveAt(projects, index);
      }
      projects := RemoveAt(projects, index);
      r := Ok(());
    }
  }

  /**
   The service's ids are not monotonic: deleting the todo with the largest id
   and then creating a todo hands out the deleted id again.
   */
  method CreateTodoAfterDeleteReusesId() returns (deleted: int, created: int)
    ensures created == deleted
  {
    var service := new TaskService([Todo(1, "a", Pending, None, None), Todo(2, "b", Pending, None, None)], []);
    deleted := 2;
    var r := service.DeleteTodo(deleted);
    var todo := service.CreateTodo("c", None, "2024-01-01T00:00:00.000Z");
    created := todo.id;
  }

  /** The same for projects: a new project can get the id of a deleted one. */
  method CreateProjectAfterDeleteReusesId() returns (deleted: int, created: int)
    ensures created == deleted
  {
    var service := new TaskService([], [Project(1, "a", []), Project(2, "b", [])]);
    deleted := 2;
    var r := service.DeleteProject(deleted);
    var project := service.CreateProject("c");
    created := project.id;
  }

  // Properties of the lists the service keeps

  /** One more round of the cascade loop removes the first todo with the next victim's id. */
  lemma RemoveEachStep(todos: seq<Todo>, victims: seq<Todo>, i: nat)
    requires i < |victims|
    ensures RemoveEachById(todos, victims[..i + 1]) == RemoveFirstWithId(RemoveEachById(todos, victims[..i]), victims[i].id)
  {
    assert victims[..i + 1][..i] == victims[..i];
  }

  /**
   `findIndex` by id and `splice`: the list is unchanged exactly when no todo
   has the id; otherwise one copy of the first todo with the id is gone, and
   every todo with another id survives.
   */
  lemma RemoveFirstWithIdRemovesFirst(todos: seq<Todo>, id: int)
    ensures RemoveFirstWithId(todos, id) == todos <==> forall t :: t in todos ==> t.id != id
    ensures var k := IndexWhere(todos, HasId(id));
      k != -1 ==> multiset(RemoveFirstWithId(todos, id)) + multiset{todos[k]} == multiset(todos)
    ensures forall t :: t in todos && t.id != id ==> t in RemoveFirstWithId(todos, id)
  {
    var k := IndexWhere(todos, HasId(id));
    if k != -1 {
      RemoveAtMultiset(todos, k);
    }
  }

  /**
   The cascade loop never adds a todo or a copy of one, and every todo whose
   id no victim carries survives it, whether or not ids are distinct.
   */
  lemma {:induction false} RemoveEachByIdKeepsOthers(todos: seq<Todo>, victims: seq<Todo>)
    ensures multiset(RemoveEachById(todos, victims)) <= multiset(todos)
    ensures forall t :: t in todos && t.id !in IdsOf(victims) ==> t in RemoveEachById(todos, victims)
    decreases |victims|
  {
    if victims != [] {
      var front, last := victims[..|victims| - 1], victims[|victims| - 1];
      assert victims == front + [last];
      assert IdsOf(victims) == IdsOf(front) + {last.id};
      RemoveEachByIdKeepsOthers(todos, front);
      RemoveFirstWithIdRemovesFirst(RemoveEachById(todos, front), last.id);
    }
  }

  /** Taking an element out keeps the ids distinct. */
  lemma UniqueRemoveAt(todos: seq<Todo>, k: nat)
    requires k < |todos| && UniqueTodoIds(todos)
    ensures UniqueTodoIds(RemoveAt(todos, k))
  {

  }

  lemma UniqueProjectsRemoveAt(projects: seq<Project>, k: nat)
    requires k < |projects| && UniqueProjectIds(projects)
    ensures UniqueProjectIds(RemoveAt(projects, k))
  {

  }

  /** Filtering keeps the ids distinct. */
  lemma {:induction false} UniqueFilter(todos: seq<Todo>, keep: Todo -> bool)
    requires UniqueTodoIds(todos)
    ensures UniqueTodoIds(Filter(todos, keep))
  {
    if todos != [] {
      var tail := todos[1..];
      assert UniqueTodoIds(tail) by {
        forall i, j | 0 <= i < j < |tail| ensures tail[i].id != tail[j].id {
          assert tail[i] == todos[i + 1] && tail[j] == todos[j + 1];
        }
      }
      UniqueFilter(tail, keep);
      var rest := Filter(tail, keep);
      if keep(todos[0]) {
        forall j | 0 <= j < |rest| ensures rest[j].id != todos[0].id {
          var m :| 0 <= m < |tail| && tail[m] == rest[j];
          assert todos[m + 1] == rest[j];
        }
        UniqueCons(todos[0], rest);
        assert Filter(todos, keep) == [todos[0]] + rest;
      } else {
        assert Filter(todos, keep) == rest;
      }
    }
  }

  /** A todo whose id no todo of a list with distinct ids has can go in front of it. */
  lemma UniqueCons(t: Todo, rest: seq<Todo>)
    requires UniqueTodoIds(rest)
    requires forall j :: 0 <= j < |rest| ==> rest[j].id != t.id
    ensures UniqueTodoIds([t] + rest)
  {

  }

  /** With distinct ids, removing the first todo with an id removes every todo with it. */
  lemma RemoveFirstWithIdIsFilter(todos: seq<Todo>, id: int)
    requires UniqueTodoIds(todos)
    ensures RemoveFirstWithId(todos, id) == Filter(todos, NotId(id))
  {
    var k := IndexWhere(todos, HasId(id));
    if k == -1 {
      FilterKeepsAll(todos, NotId(id));
    } else {
      forall i | 0 <= i < |todos| && i != k ensures NotId(id)(todos[i]) {
        if i > k {
          assert todos[k].id != todos[i].id;
        }
      }
      FilterRemoveAt(todos, NotId(id), k);
    }
  }

  /**
   With distinct ids, the cascade loop removes exactly the todos whose ids
   belong to the victims, and keeps the rest in order.
   */
  lemma {:induction false} RemoveEachIsFilter(todos: seq<Todo>, victims: seq<Todo>)
    requires UniqueTodoIds(todos)
    ensures RemoveEachById(todos, victims) == Filter(todos, NotAmong(IdsOf(victims)))
    decreases |victims|
  {
    if victims == [] {
      FilterKeepsAll(todos, NotAmong(IdsOf(victims)));
    } else {
      var front, last := victims[..|victims| - 1], victims[|victims| - 1];
      assert victims == front + [last];
      assert IdsOf(victims) == IdsOf(front) + {last.id};
      RemoveEachIsFilter(todos, front);
      var kept := Filter(todos, NotAmong(IdsOf(front)));
      UniqueFilter(todos, NotAmong(IdsOf(front)));
      RemoveFirstWithIdIsFilter(kept, last.id);
      FilterFilter(todos, NotAmong(IdsOf(front)), NotId(last.id), NotAmong(IdsOf(victims)));
    }
  }

  /**
   With distinct todo ids, the cascade of `deleteProject` leaves exactly the
   todos of other projects (and the unassigned ones), in their original order.
   */
  lemma CascadeRemovesProjectTodos(todos: seq<Todo>, id: int)
    requires UniqueTodoIds(todos)
    ensures RemoveEachById(todos, Filter(todos, InProject(id))) == Filter(todos, NotInProject(id))
  {
    var victims := Filter(todos, InProject(id));
    RemoveEachIsFilter(todos, victims);
    forall t | t in todos ensures NotAmong(IdsOf(victims))(t) <==> NotInProject(id)(t) {
      var j :| 0 <= j < |todos| && todos[j] == t;
      if t.projectId == Some(id) {
        assert t in victims;
      }
    }
    FilterAgree(todos, NotAmong(IdsOf(victims)), NotInProject(id));
  }

  /**
   Without distinct ids the cascade can miss: deleting project 7 removes the
   first todo with id 1, which belongs to project 2, and the todo of project 7
   that also has id 1 survives.
   */
  lemma CascadeMissesDuplicateId()
    ensures var other := Todo(1, "a", Pending, Some(2), None);
      var orphan := Todo(1, "b", Pending, Some(7), None);
      RemoveEachById([other, orphan], Filter([other, orphan], InProject(7))) == [orphan]
  {

  }
}
