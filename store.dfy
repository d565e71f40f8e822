/** The root store: the four slices together, and one method per thunk that does what a
    dispatch of that thunk does — run its payload creator, then hand the settled action to every
    reducer that listens to it (the owning slice's `fulfilled`/`settled` handler and the task
    slice's cascades). Also the consistency between todolist ids and task-map keys. */
module AppStore {
  import opened Common
  import opened ArrayOps
  import opened AppStatus
  import opened Todolists
  import opened Tasks
  import opened Auth

  /** The two domain slices side by side. */
  datatype Domain = Domain(todolists: seq<DomainTodolist>, tasks: map<string, seq<DomainTask>>)

  /** The fulfilled todolist lifecycle actions the task slice reacts to. */
  datatype TodolistEvent = Created(todolist: Todolist) | Deleted(id: string)
  {
    /** The todolist the action is about. */
    function TodolistIdOf(): string
    {
      if Created? then todolist.id else id
    }
  }

  /** Every todolist id is unique and has a task list, and every task-list key is a todolist. */
  ghost predicate Consistent(d: Domain)
  {
    UniqueIds(d.todolists) && Ids(d.todolists) == d.tasks.Keys
  }

  /** One fulfilled action, seen by both slices: `addTodolist` prepends the row and creates the
      key with an empty list; `removeTodolist` removes the first row with the id and deletes the
      key. No other task list is touched. */
  function Apply(d: Domain, e: TodolistEvent): (r: Domain)
    ensures e.Created? ==>
      && |r.todolists| == |d.todolists| + 1
      && r.todolists[0] == Augment(e.todolist) && r.todolists[1..] == d.todolists
      && r.tasks.Keys == d.tasks.Keys + {e.todolist.id} && r.tasks[e.todolist.id] == []
    ensures e.Deleted? ==>
      && r.tasks.Keys == d.tasks.Keys - {e.id}
      && (NoMatch(d.todolists, TodolistId, e.id) ==> r.todolists == d.todolists)
      && (!NoMatch(d.todolists, TodolistId, e.id) ==> |r.todolists| == |d.todolists| - 1)
    ensures forall k :: k in r.tasks && k != e.TodolistIdOf() ==> k in d.tasks && r.tasks[k] == d.tasks[k]
  {
    match e
    case Created(tl) => Domain([Augment(tl)] + d.todolists, d.tasks[tl.id := []])
    case Deleted(id) => Domain(RemoveFirst(d.todolists, TodolistId, id), d.tasks - {id})
  }

  /** A run of fulfilled lifecycle actions, in order. Each action adds or removes at most one
      row, so the number of rows moves by at most the number of actions. */
  function Run(d: Domain, events: seq<TodolistEvent>): (r: Domain)
    ensures |d.todolists| - |events| <= |r.todolists| <= |d.todolists| + |events|
    decreases |events|
  {
    if events == [] then d else Run(Apply(d, events[0]), events[1..])
  }

  /** Running two batches one after the other is running their concatenation: the store's
      state depends only on the order of the fulfilled actions, not on how they are grouped. */
  lemma {:induction false} RunAppend(d: Domain, a: seq<TodolistEvent>, b: seq<TodolistEvent>)
    ensures Run(d, a + b) == Run(Run(d, a), b)
    decreases |a|
  {
    if a == [] {
      assert a + b == b;
    } else {
      assert (a + b)[0] == a[0];
      assert (a + b)[1..] == a[1..] + b;
      RunAppend(Apply(d, a[0]), a[1..], b);
    }
  }

  /** Every todolist the run creates gets an id not present at that moment. */
  ghost predicate FreshIds(d: Domain, events: seq<TodolistEvent>)
    decreases |events|
  {
    events == [] ||
    ((events[0].Created? ==> events[0].todolist.id !in Ids(d.todolists))
     && FreshIds(Apply(d, events[0]), events[1..]))
  }

  /** One creation with a fresh id, or one deletion, keeps the slices consistent. */
  lemma {:induction false} ApplyKeepsConsistent(d: Domain, e: TodolistEvent)
    requires Consistent(d)
    requires e.Created? ==> e.todolist.id !in Ids(d.todolists)
    ensures Consistent(Apply(d, e))
  {
    match e
    case Created(tl) =>
      PrependIds(d.todolists, tl);
    case Deleted(id) =>
      RemoveFirstIds(d.todolists, id);
  }

  /** Cascade consistency: from a consistent state, any run of creations with fresh ids and
      deletions ends consistent. */
  lemma {:induction false} RunKeepsConsistent(d: Domain, events: seq<TodolistEvent>)
    requires Consistent(d) && FreshIds(d, events)
    ensures Consistent(Run(d, events))
    decreases |events|
  {
    if events != [] {
      ApplyKeepsConsistent(d, events[0]);
      RunKeepsConsistent(Apply(d, events[0]), events[1..]);
    }
  }

  /** Creating a todolist with a fresh id and then deleting it restores both slices. */
  lemma CreateThenDelete(d: Domain, tl: Todolist)
    requires tl.id !in d.tasks
    ensures Run(d, [Created(tl), Deleted(tl.id)]) == d
  {
    var c := Apply(d, Created(tl));
    assert IsFirstMatch(c.todolists, TodolistId, tl.id, 0);
    assert RemoveFirst(c.todolists, TodolistId, tl.id) == d.todolists;
    assert c.tasks - {tl.id} == d.tasks;
    assert Apply(c, Deleted(tl.id)) == d;
    var events := [Created(tl), Deleted(tl.id)];
    assert events[1..] == [Deleted(tl.id)] && [Deleted(tl.id)][1..] == [];
    assert Run(d, events) == Run(c, [Deleted(tl.id)]) == Run(d, []);
  }

  class Store {
    const app: AppState
    const auth: AuthState
    const todolists: TodolistsState
    const tasks: TasksState

    /** A fresh store: every slice at its initial state. */
    constructor (ghost storedToken: Option<string>)
      ensures fresh(app) && fresh(auth) && fresh(todolists) && fresh(tasks)
      ensures !auth.isLoggedIn && !auth.isInitialized && auth.token == storedToken
      ensures todolists.lists == [] && tasks.byTodolist == map[]
      ensures app.status == Idle && app.error == None
    {
      app := new AppState();
      auth := new AuthState(storedToken);
      todolists := new TodolistsState();
      tasks := new TasksState();
    }

    ghost function DomainOf(): Domain
      reads todolists, tasks
    {
      Domain(todolists.lists, tasks.byTodolist)
    }

    /** `dispatch(fetchTasks(todolistId))`. */
    method FetchTasks(todolistId: string, response: Response<seq<DomainTask>>)
      returns (r: Settled<FetchTasksResult>)
      modifies app, tasks
      ensures app.ReportedResponse(response)
      ensures response.Received? ==>
        && r == Fulfilled(FetchTasksResult(todolistId, response.data))
        && tasks.byTodolist == old(tasks.byTodolist)[todolistId := response.data]
      ensures response.Thrown? ==> r == Rejected && tasks.byTodolist == old(tasks.byTodolist)
    {
      r := FetchTasksPayload(app, todolistId, response);
      if r.Fulfilled? {
        tasks.FetchTasksFulfilled(r.payload.todolistId, r.payload.tasks);
      }
    }

    /** `dispatch(removeTask({ todolistId, taskId }))`. */
    method RemoveTask(todolistId: string, taskId: string, outcome: Outcome<()>)
      returns (r: Settled<RemoveTaskArg>)
      requires outcome.Success? ==> todolistId in tasks.byTodolist
      modifies app, tasks
      ensures app.Reported(outcome)
      ensures outcome.Success? ==>
        && r == Fulfilled(RemoveTaskArg(todolistId, taskId))
        && tasks.byTodolist == old(tasks.byTodolist)[todolistId := RemoveFirst(old(tasks.byTodolist)[todolistId], TaskId, taskId)]
      ensures !outcome.Success? ==> r == Rejected && tasks.byTodolist == old(tasks.byTodolist)
    {
      r := RemoveTaskPayload(app, RemoveTaskArg(todolistId, taskId), outcome);
      if r.Fulfilled? {
        tasks.RemoveTaskFulfilled(r.payload.todolistId, r.payload.taskId);
      }
    }

    /** `dispatch(addTask({ title, todolistId }))`. The new task goes to the list named by the
        server's item, whose key the handler needs. */
    method AddTask(arg: AddTaskArg, outcome: Outcome<DomainTask>)
      returns (r: Settled<DomainTask>)
      requires outcome.Success? ==> outcome.payload.todoListId in tasks.byTodolist
      modifies app, tasks
      ensures app.Reported(outcome)
      ensures outcome.Success? ==>
        var task := outcome.payload;
        && r == Fulfilled(task)
        && tasks.byTodolist == old(tasks.byTodolist)[task.todoListId := [task] + old(tasks.byTodolist)[task.todoListId]]
      ensures !outcome.Success? ==> r == Rejected && tasks.byTodolist == old(tasks.byTodolist)
    {
      r := AddTaskPayload(app, arg, outcome);
      if r.Fulfilled? {
        tasks.AddTaskFulfilled(r.payload);
      }
    }

    /** `dispatch(updateTask({ taskId, todolistId, domainModel }))`; `sent` is the model the
        remote call received, `None` when the call was not made. */
    method UpdateTask(arg: UpdateTaskArg, outcome: Outcome<()>)
      returns (r: Settled<UpdateTaskArg>, sent: Option<UpdateTaskModel>)
      modifies app, tasks
      ensures arg.todolistId !in old(tasks.byTodolist) ==>
        && r == Rejected && sent == None
        && app.status == Failed && app.error.Some? && app.statusLog == old(app.statusLog) + [Failed]
      ensures arg.todolistId in old(tasks.byTodolist) ==>
        var found := Find(old(tasks.byTodolist)[arg.todolistId], TaskId, arg.taskId);
        && (found == None ==>
              && r == Rejected && sent == None && app.error == Some("Task not found")
              && app.status == old(app.status) && app.statusLog == old(app.statusLog))
        && (found.Some? ==>
              && sent == Some(BuildUpdateModel(found.value, arg.domainModel))
              && app.Reported(outcome)
              && r == if outcome.Success? then Fulfilled(arg) else Rejected)
      ensures r.Fulfilled? ==>
        && arg.todolistId in old(tasks.byTodolist)
        && tasks.byTodolist == old(tasks.byTodolist)[arg.todolistId :=
             MergeFirst(old(tasks.byTodolist)[arg.todolistId], arg.taskId, arg.domainModel)]
      ensures r.Rejected? ==> tasks.byTodolist == old(tasks.byTodolist)
    {
      r, sent := UpdateTaskPayload(app, tasks, arg, outcome);
      if r.Fulfilled? {
        tasks.UpdateTaskFulfilled(r.payload.todolistId, r.payload.taskId, r.payload.domainModel);
      }
    }

    /** `dispatch(fetchTodolists())`. The task map is not touched. */
    method FetchTodolists(response: Response<seq<Todolist>>)
      returns (r: Settled<seq<Todolist>>)
      modifies app, todolists
      ensures app.ReportedResponse(response)
      ensures response.Received? ==> r == Fulfilled(response.data) && todolists.lists == AugmentAll(response.data)
      ensures response.Thrown? ==> r == Rejected && todolists.lists == old(todolists.lists)
    {
      r := FetchTodolistsPayload(app, response);
      if r.Fulfilled? {
        todolists.FetchTodolistsFulfilled(r.payload);
      }
    }

    /** `dispatch(removeTodolist(id))`: the row is marked `loading` first; on success both the
        row and its task-map key go; on failure the row stays, still marked `loading`. */
    method RemoveTodolist(id: string, outcome: Outcome<()>)
      returns (r: Settled<string>)
      modifies app, todolists, tasks
      ensures app.Reported(outcome)
      ensures outcome.Success? ==>
        && r == Fulfilled(id)
        && todolists.lists == RemoveFirst(old(todolists.lists), TodolistId, id)
        && tasks.byTodolist == old(tasks.byTodolist) - {id}
        && DomainOf() == Apply(old(DomainOf()), Deleted(id))
      ensures !outcome.Success? ==>
        && r == Rejected
        && todolists.lists == ChangeFirst(old(todolists.lists), id, EntityStatusTo(Loading))
        && tasks.byTodolist == old(tasks.byTodolist)
      ensures Consistent(old(DomainOf())) ==> Consistent(DomainOf())
    {
      ghost var before := DomainOf();
      r := RemoveTodolistPayload(app, todolists, id, outcome);
      if r.Fulfilled? {
        todolists.RemoveTodolistFulfilled(r.payload);
        tasks.RemoveTodolistFulfilled(r.payload);
        RemoveAfterMarking(before.todolists, id, Loading);
        if Consistent(before) {
          ApplyKeepsConsistent(before, Deleted(id));
        }
      } else {
        SameIdsAt(before.todolists, todolists.lists);
      }
    }

    /** `dispatch(updateTodolistTitle({ id, title }))`. */
    method UpdateTodolistTitle(id: string, title: string, outcome: Outcome<()>)
      returns (r: Settled<UpdateTitleArg>)
      modifies app, todolists
      ensures app.Reported(outcome)
      ensures outcome.Success? ==>
        r == Fulfilled(UpdateTitleArg(id, title)) && todolists.lists == ChangeFirst(old(todolists.lists), id, TitleTo(title))
      ensures !outcome.Success? ==> r == Rejected && todolists.lists == old(todolists.lists)
    {
      r := UpdateTodolistTitlePayload(app, UpdateTitleArg(id, title), outcome);
      if r.Fulfilled? {
        todolists.UpdateTodolistTitleFulfilled(r.payload.id, r.payload.title);
      }
    }

    /** `dispatch(addTodolist(title))`: on success the row is prepended and its task-map key is
        created with an empty list. */
    method AddTodolist(title: string, outcome: Outcome<Todolist>)
      returns (r: Settled<Todolist>)
      modifies app, todolists, tasks
      ensures app.Reported(outcome)
      ensures outcome.Success? ==>
        var tl := outcome.payload;
        && r == Fulfilled(tl)
        && todolists.lists == [Augment(tl)] + old(todolists.lists)
        && tasks.byTodolist == old(tasks.byTodolist)[tl.id := []]
        && DomainOf() == Apply(old(DomainOf()), Created(tl))
      ensures !outcome.Success? ==>
        r == Rejected && todolists.lists == old(todolists.lists) && tasks.byTodolist == old(tasks.byTodolist)
      ensures Consistent(old(DomainOf())) && (outcome.Success? ==> outcome.payload.id !in Ids(old(todolists.lists))) ==>
        Consistent(DomainOf())
    {
      ghost var before := DomainOf();
      r := AddTodolistPayload(app, title, outcome);
      if r.Fulfilled? {
        todolists.AddTodolistFulfilled(r.payload);
        tasks.AddTodolistFulfilled(r.payload);
        if Consistent(before) && r.payload.id !in Ids(before.todolists) {
          ApplyKeepsConsistent(before, Created(r.payload));
        }
      }
    }

    /** `dispatch(login(data))`. */
    method Login(outcome: Outcome<string>)
      returns (r: Settled<bool>)
      modifies app, auth
      ensures app.Reported(outcome)
      ensures outcome.Success? ==> r == Fulfilled(true) && auth.isLoggedIn && auth.token == Some(outcome.payload)
      ensures !outcome.Success? ==>
        r == Rejected && auth.isLoggedIn == old(auth.isLoggedIn) && auth.token == old(auth.token)
      ensures auth.isInitialized == old(auth.isInitialized)
    {
      r := LoginPayload(app, auth, outcome);
      if r.Fulfilled? {
        auth.SetIsLoggedIn(r.payload);
      }
    }

    /** `dispatch(logout())`. */
    method Logout(outcome: Outcome<()>)
      returns (r: Settled<bool>)
      modifies app, auth, todolists, tasks
      ensures app.Reported(outcome)
      ensures outcome.Success? ==>
        && r == Fulfilled(false) && !auth.isLoggedIn && auth.token == None
        && todolists.lists == [] && tasks.byTodolist == map[]
        && Consistent(DomainOf())
      ensures !outcome.Success? ==>
        && r == Rejected && auth.isLoggedIn == old(auth.isLoggedIn) && auth.token == old(auth.token)
        && todolists.lists == old(todolists.lists) && tasks.byTodolist == old(tasks.byTodolist)
      ensures auth.isInitialized == old(auth.isInitialized)
    {
      r := LogoutPayload(app, auth, tasks, todolists, outcome);
      if r.Fulfilled? {
        auth.SetIsLoggedIn(r.payload);
      }
    }

    /** `dispatch(initializeApp())`: whatever the outcome, the session is initialized once it
        settles. */
    method InitializeApp(outcome: Outcome<()>)
      returns (r: Settled<bool>)
      modifies app, auth
      ensures app.Reported(outcome)
      ensures auth.isInitialized
      ensures outcome.Success? ==> r == Fulfilled(true) && auth.isLoggedIn
      ensures !outcome.Success? ==> r == Rejected && auth.isLoggedIn == old(auth.isLoggedIn)
      ensures auth.token == old(auth.token)
    {
      r := InitializeAppPayload(app, outcome);
      if r.Fulfilled? {
        auth.SetIsLoggedIn(r.payload);
      }
      auth.InitializeAppSettled();
    }
  }
}
