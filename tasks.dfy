/** The task slice: a map from todolist id to that todolist's ordered tasks, its fulfilled
    handlers, the cascades it runs when a todolist is created or deleted, and its thunks'
    payload creators. */
module Tasks {
  import opened Common
  import opened ArrayOps
  import opened AppStatus
  import Todolists

  /** A task as the server sends it. `status` and `priority` are the ordinals of the server's
      enumerations. */
  datatype DomainTask = DomainTask(
    description: string, title: string, status: int, priority: int,
    startDate: string, deadline: string,
    id: string, todoListId: string, order: int, addedDate: string)

  /** The complete set of mutable fields the server expects in an update. */
  datatype UpdateTaskModel = UpdateTaskModel(
    status: int, title: string, deadline: string, description: string, priority: int, startDate: string)

  /** `Partial<UpdateTaskModel>`: `Some` for a key the caller supplies, `None` for an absent key. */
  datatype UpdateTaskDomainModel = UpdateTaskDomainModel(
    status: Option<int>, title: Option<string>, deadline: Option<string>,
    description: Option<string>, priority: Option<int>, startDate: Option<string>)

  /** The key every `findIndex`/`find` of this slice compares with: `t.id`. */
  function TaskId(t: DomainTask): string { t.id }

  /** One key of an object spread: the later object's value wins when it has the key. */
  function Pick<T>(patch: Option<T>, current: T): T
  {
    if patch.Some? then patch.value else current
  }

  /** The mutable fields of a task, as the server's update model. */
  function ModelOf(t: DomainTask): UpdateTaskModel
  {
    UpdateTaskModel(t.status, t.title, t.deadline, t.description, t.priority, t.startDate)
  }

  /** `{ status: task.status, title: task.title, ..., startDate: task.startDate, ...domainModel }`:
      the server payload of `updateTask`. */
  function BuildUpdateModel(t: DomainTask, dm: UpdateTaskDomainModel): (m: UpdateTaskModel)
    ensures dm.status.Some? ==> m.status == dm.status.value
    ensures dm.status.None? ==> m.status == t.status
    ensures dm.title.Some? ==> m.title == dm.title.value
    ensures dm.title.None? ==> m.title == t.title
    ensures dm.deadline.Some? ==> m.deadline == dm.deadline.value
    ensures dm.deadline.None? ==> m.deadline == t.deadline
    ensures dm.description.Some? ==> m.description == dm.description.value
    ensures dm.description.None? ==> m.description == t.description
    ensures dm.priority.Some? ==> m.priority == dm.priority.value
    ensures dm.priority.None? ==> m.priority == t.priority
    ensures dm.startDate.Some? ==> m.startDate == dm.startDate.value
    ensures dm.startDate.None? ==> m.startDate == t.startDate
  {
    var base := ModelOf(t);
    UpdateTaskModel(
      Pick(dm.status, base.status), Pick(dm.title, base.title), Pick(dm.deadline, base.deadline),
      Pick(dm.description, base.description), Pick(dm.priority, base.priority),
      Pick(dm.startDate, base.startDate))
  }

  /** `{ ...tasks[index], ...domainModel }`: the in-memory overlay. The task keeps its identity
      and position fields, and its mutable fields become exactly what was sent to the server. */
  function Merge(t: DomainTask, dm: UpdateTaskDomainModel): (r: DomainTask)
    ensures r.id == t.id && r.todoListId == t.todoListId && r.order == t.order && r.addedDate == t.addedDate
    ensures ModelOf(r) == BuildUpdateModel(t, dm)
  {
    t.(description := Pick(dm.description, t.description),
       title := Pick(dm.title, t.title),
       status := Pick(dm.status, t.status),
       priority := Pick(dm.priority, t.priority),
       startDate := Pick(dm.startDate, t.startDate),
       deadline := Pick(dm.deadline, t.deadline))
  }

  /** The partial model with no key at all. */
  const NoChanges := UpdateTaskDomainModel(None, None, None, None, None, None)

  /** An empty partial model changes nothing, locally or on the server. */
  lemma MergeNoChanges(t: DomainTask)
    ensures Merge(t, NoChanges) == t
    ensures BuildUpdateModel(t, NoChanges) == ModelOf(t)
  {
  }

  /** Applying the same partial model twice is the same as applying it once. */
  lemma MergeIdempotent(t: DomainTask, dm: UpdateTaskDomainModel)
    ensures Merge(Merge(t, dm), dm) == Merge(t, dm)
  {
  }

  /** A model with only `title` replaces the title and nothing else. */
  lemma MergeTitleOnly(t: DomainTask, title: string)
    ensures Merge(t, NoChanges.(title := Some(title))) == t.(title := title)
  {
  }

  /** `updateTask.fulfilled` on one list: `index = findIndex(taskId); if (index !== -1)
      tasks[index] = { ...tasks[index], ...domainModel }`. */
  function MergeFirst(ts: seq<DomainTask>, taskId: string, dm: UpdateTaskDomainModel): (r: seq<DomainTask>)
    ensures |r| == |ts|
    ensures NoMatch(ts, TaskId, taskId) ==> r == ts
    ensures forall j :: 0 <= j < |ts| ==>
      r[j] == if IsFirstMatch(ts, TaskId, taskId, j) then Merge(ts[j], dm) else ts[j]
  {
    var i := FindIndex(ts, TaskId, taskId);
    if i < 0 then ts
    else
      FoundIsOnlyFirstMatch(ts, TaskId, taskId, i);
      ts[i := Merge(ts[i], dm)]
  }

  /** The task that `updateTask` read from the state is the one its fulfilled handler overwrites,
      and it becomes the overlay of the model: local and server state agree afterwards. */
  lemma {:induction false} MergeFirstAgreesWithPayload(ts: seq<DomainTask>, taskId: string, dm: UpdateTaskDomainModel)
    requires Find(ts, TaskId, taskId).Some?
    ensures Find(MergeFirst(ts, taskId, dm), TaskId, taskId).Some?
    ensures ModelOf(Find(MergeFirst(ts, taskId, dm), TaskId, taskId).value)
         == BuildUpdateModel(Find(ts, TaskId, taskId).value, dm)
  {
    var i := FindIndex(ts, TaskId, taskId);
    var r := MergeFirst(ts, taskId, dm);
    assert IsFirstMatch(ts, TaskId, taskId, i);
    assert r[i] == Merge(ts[i], dm);
    assert IsFirstMatch(r, TaskId, taskId, i) by {
      forall k | 0 <= k < i ensures TaskId(r[k]) != taskId {
        assert r[k] == ts[k];
      }
    }
  }

  /** The arguments of `removeTask`, returned as its payload. */
  datatype RemoveTaskArg = RemoveTaskArg(todolistId: string, taskId: string)

  /** The arguments of `addTask`. */
  datatype AddTaskArg = AddTaskArg(title: string, todolistId: string)

  /** The arguments of `updateTask`, returned as its payload. */
  datatype UpdateTaskArg = UpdateTaskArg(taskId: string, todolistId: string, domainModel: UpdateTaskDomainModel)

  /** The payload of `fetchTasks`. */
  datatype FetchTasksResult = FetchTasksResult(todolistId: string, tasks: seq<DomainTask>)

  /** The task slice: `initialState: {} as TasksStateType`. */
  class TasksState {
    var byTodolist: map<string, seq<DomainTask>>

    constructor ()
      ensures byTodolist == map[]
    {
      byTodolist := map[];
    }

    /** `clearTasks`: the reducer returns a fresh empty object. */
    method ClearTasks()
      modifies this
      ensures byTodolist == map[]
    {
      byTodolist := map[];
    }

    /** `fetchTasks.fulfilled`: `state[todolistId] = tasks`, whether or not the key existed. */
    method FetchTasksFulfilled(todolistId: string, tasks: seq<DomainTask>)
      modifies this
      ensures byTodolist == old(byTodolist)[todolistId := tasks]
    {
      byTodolist := byTodolist[todolistId := tasks];
    }

    /** `removeTask.fulfilled`: `splice` of the first task with that id. The handler indexes
        `state[todolistId]` unchecked, so the key must be present. */
    method RemoveTaskFulfilled(todolistId: string, taskId: string)
      requires todolistId in byTodolist
      modifies this
      ensures byTodolist == old(byTodolist)[todolistId := RemoveFirst(old(byTodolist)[todolistId], TaskId, taskId)]
    {
      byTodolist := byTodolist[todolistId := RemoveFirst(byTodolist[todolistId], TaskId, taskId)];
    }

    /** `addTask.fulfilled`: `unshift` onto the list of the task's own todolist, whose key must be
        present. */
    method AddTaskFulfilled(task: DomainTask)
      requires task.todoListId in byTodolist
      modifies this
      ensures byTodolist == old(byTodolist)[task.todoListId := [task] + old(byTodolist)[task.todoListId]]
    {
      byTodolist := byTodolist[task.todoListId := [task] + byTodolist[task.todoListId]];
    }

    /** `updateTask.fulfilled`: the first task with that id is overlaid with the partial model.
        The key must be present. */
    method UpdateTaskFulfilled(todolistId: string, taskId: string, dm: UpdateTaskDomainModel)
      requires todolistId in byTodolist
      modifies this
      ensures byTodolist == old(byTodolist)[todolistId := MergeFirst(old(byTodolist)[todolistId], taskId, dm)]
    {
      byTodolist := byTodolist[todolistId := MergeFirst(byTodolist[todolistId], taskId, dm)];
    }

    /** Cascade on `addTodolist.fulfilled`: the new todolist gets an empty task list. */
    method AddTodolistFulfilled(todolist: Todolists.Todolist)
      modifies this
      ensures byTodolist == old(byTodolist)[todolist.id := []]
    {
      byTodolist := byTodolist[todolist.id := []];
    }

    /** Cascade on `removeTodolist.fulfilled`: `delete state[id]`. */
    method RemoveTodolistFulfilled(id: string)
      modifies this
      ensures byTodolist == old(byTodolist) - {id}
    {
      byTodolist := byTodolist - {id};
    }
  }

  /** Payload creator of `fetchTasks`: no result-code check, only the thrown case fails. */
  method FetchTasksPayload(app: AppState, todolistId: string, response: Response<seq<DomainTask>>)
    returns (r: Settled<FetchTasksResult>)
    modifies app
    ensures app.ReportedResponse(response)
    ensures r == if response.Received? then Fulfilled(FetchTasksResult(todolistId, response.data)) else Rejected
  {
    app.SetAppStatus(Loading);
    match response
    case Received(items) =>
      app.SetAppStatus(Succeeded);
      r := Fulfilled(FetchTasksResult(todolistId, items));
    case Thrown(message) =>
      app.HandleServerNetworkError(message);
      r := Rejected;
  }

  /** Payload creator of `removeTask`: on success its argument is the payload. */
  method RemoveTaskPayload(app: AppState, arg: RemoveTaskArg, outcome: Outcome<()>)
    returns (r: Settled<RemoveTaskArg>)
    modifies app
    ensures app.Reported(outcome)
    ensures r == if outcome.Success? then Fulfilled(arg) else Rejected
  {
    app.SetAppStatus(Loading);
    match outcome
    case Success(_) =>
      app.SetAppStatus(Succeeded);
      r := Fulfilled(arg);
    case AppFailure(messages) =>
      app.HandleServerAppError(messages);
      r := Rejected;
    case NetworkFailure(message) =>
      app.HandleServerNetworkError(message);
      r := Rejected;
  }

  /** Payload creator of `addTask`: on success the server's new item is the payload. */
  method AddTaskPayload(app: AppState, arg: AddTaskArg, outcome: Outcome<DomainTask>)
    returns (r: Settled<DomainTask>)
    modifies app
    ensures app.Reported(outcome)
    ensures r == if outcome.Success? then Fulfilled(outcome.payload) else Rejected
  {
    app.SetAppStatus(Loading);
    match outcome
    case Success(item) =>
      app.SetAppStatus(Succeeded);
      r := Fulfilled(item);
    case AppFailure(messages) =>
      app.HandleServerAppError(messages);
      r := Rejected;
    case NetworkFailure(message) =>
      app.HandleServerNetworkError(message);
      r := Rejected;
  }

  /** Payload creator of `updateTask`. It reads the current task from the state; `sent` is the
      model passed to the remote call, `None` when no call is made.
      - the key is missing: `.find` on `undefined` throws, and the catch publishes a network error;
      - no task has that id: only the error "Task not found" is published;
      - otherwise the full model is built, `loading` is published and the call is made. */
  method UpdateTaskPayload(app: AppState, tasks: TasksState, arg: UpdateTaskArg, outcome: Outcome<()>)
    returns (r: Settled<UpdateTaskArg>, sent: Option<UpdateTaskModel>)
    modifies app
    ensures arg.todolistId !in tasks.byTodolist ==>
      && r == Rejected && sent == None
      && app.status == Failed && app.error.Some? && app.statusLog == old(app.statusLog) + [Failed]
    ensures arg.todolistId in tasks.byTodolist ==>
      var found := Find(tasks.byTodolist[arg.todolistId], TaskId, arg.taskId);
      && (found == None ==>
            && r == Rejected && sent == None && app.error == Some("Task not found")
            && app.status == old(app.status) && app.statusLog == old(app.statusLog))
      && (found.Some? ==>
            && sent == Some(BuildUpdateModel(found.value, arg.domainModel))
            && app.Reported(outcome)
            && r == if outcome.Success? then Fulfilled(arg) else Rejected)
  {
    if arg.todolistId !in tasks.byTodolist {
      // `.find` on a missing key throws; the catch reports it as a network error. The text is
      // a placeholder for whatever the engine puts in the error: only `error.Some?` is promised.
      app.HandleServerNetworkError("missing todolist key");
      return Rejected, None;
    }
    var task := Find(tasks.byTodolist[arg.todolistId], TaskId, arg.taskId);
    if task == None {
      app.SetAppError("Task not found");
      return Rejected, None;
    }
    var model := BuildUpdateModel(task.value, arg.domainModel);
    app.SetAppStatus(Loading);
    sent := Some(model);
    match outcome
    case Success(_) =>
      app.SetAppStatus(Succeeded);
      r := Fulfilled(arg);
    case AppFailure(messages) =>
      app.HandleServerAppError(messages);
      r := Rejected;
    case NetworkFailure(message) =>
      app.HandleServerNetworkError(message);
      r := Rejected;
  }
}
