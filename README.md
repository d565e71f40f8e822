# Todolist client state synchronisation, modelled in Dafny

This project models the client-side state-synchronisation layer of a todolist manager built on
Redux Toolkit: the task slice, the todolist slice and the session (auth) slice, together with the
process-wide app status that every thunk writes.

- **Task slice** (`tasks.dfy`, module `Tasks`): a map from todolist id to that todolist's ordered
  tasks (class `TasksState`). Its `fulfilled` handlers replace a list (`fetchTasks`), prepend a
  task (`addTask`), splice out the first task with an id (`removeTask`), and overlay a partial
  model onto the first task with an id (`updateTask`). It also reacts to todolist creation and
  removal (new key with `[]`; `delete` of the key), and `clearTasks` returns `{}`.
- **Todolist slice** (`todolists.dfy`, module `Todolists`): an ordered sequence of todolists, each
  with the client-only `filter` and `entityStatus` (class `TodolistsState`). Updates go to the
  first row with the id, and an absent id is a silent no-op.
- **Session slice** (`auth.dfy`, module `Auth`): `{ isLoggedIn, isInitialized }` plus the stored
  token (a ghost field). `initializeApp` sets `isInitialized` when it settles, whatever the
  outcome. `logout` clears both domain slices.
- **App status** (`app_status.dfy`, module `AppStatus`): `{ status, error }`, plus a ghost log of
  every status value written, so contracts can say "loading, then succeeded" or "loading, then
  failed" or "no status written at all".
- **Shared pieces** (`common.dfy`): the remote answer as an input,
  `Outcome = Success(payload) | AppFailure(messages) | NetworkFailure(message)`; the two-way
  `Response = Received(data) | Thrown(message)` for the two list fetches, which never look at a
  result code; `Settled = Fulfilled(payload) | Rejected` for how a thunk ends (rejected with
  `null`); and `findIndex`, `find` and `splice` (module `ArrayOps`) as functions whose contracts
  pin down "the first entry with this id".
- **Root store** (`store.dfy`, module `AppStore`): class `Store` holds the four slices. It has one
  method per thunk, which does what dispatching that thunk does. It runs the payload creator
  (status writes, error handling, the remote answer given as a parameter). Then it hands a
  fulfilled action to every reducer that listens: the owning slice's handler, and the task
  slice's cascades for todolist creation and removal. Each method states which parts change on
  each outcome. Its `modifies` clause says which slices it may touch at all. The module also
  proves that todolist ids and task-map keys stay in step across runs of creations and
  deletions.

In these places the model follows the code:
- `fetchTasks` and `fetchTodolists` never inspect a result code. Any answer that does not throw
  is a success, so these two thunks have only a success path and a thrown path.
- `updateTask` with a todolist id that has no key throws inside `.find`. That throw lands in the
  catch, which publishes a network error: status `failed` and some message, and no remote call.
- The "Task not found" path writes only the app error. The status is left as it was.
- A failed `removeTodolist` leaves the row's `entityStatus` at `loading`.
- `isInitialized` is set on every settle of `initializeApp`, not just the first one. Nothing
  ever writes `false` to it.

## Model

| member | source | states |
|---|---|---|
| `ArrayOps.FindIndex` | src/features/todolists/model/tasksSlice.ts:88 | the answer is -1 exactly when no entry has the id; otherwise it is the first entry with the id |
| `ArrayOps.Find` | src/features/todolists/model/tasksSlice.ts:126 | `find` returns nothing exactly when no entry has the id; otherwise it returns the first entry with the id |
| `ArrayOps.RemoveFirst` | src/features/todolists/model/tasksSlice.ts:88-91 | with no match the sequence is unchanged; otherwise the length drops by one, entries before the first match stay put, and later ones shift down by one |
| `ArrayOps.FindIndexSameKeys` | src/features/todolists/model/todolistsSlice.ts:44 | `findIndex` by id depends only on the ids at each position |
| `AppStatus.AppState.SetAppStatus` | src/features/todolists/model/tasksSlice.ts:52 | the status is written and logged; the error is untouched |
| `AppStatus.AppState.SetAppError` | src/features/todolists/model/tasksSlice.ts:129 | the error is written; the status and the log are untouched |
| `AppStatus.AppState.HandleServerAppError` | src/features/todolists/model/tasksSlice.ts:77 | a non-success result code makes the status `failed` and sets some error message |
| `AppStatus.AppState.HandleServerNetworkError` | src/features/todolists/model/tasksSlice.ts:57 | a thrown error makes the status `failed` and sets some error message |
| `Todolists.Augment` | src/features/todolists/model/todolistsSlice.ts:146 | the server's todolist is kept verbatim, with `filter` `all` and `entityStatus` `idle` |
| `Todolists.AugmentAll` | src/features/todolists/model/todolistsSlice.ts:68-70 | same length and order as the server list; each row is the server row with `filter` `all` and `entityStatus` `idle` |
| `Todolists.Changed` | src/features/todolists/model/todolistsSlice.ts:37-48 | the assignment `state[index].<field> = value`: the named field (`filter`, `entityStatus` or `title`) takes the new value and every other field of the row is kept |
| `Todolists.ChangeFirst` | src/features/todolists/model/todolistsSlice.ts:37-48 | only the first row with the id is changed, by `Changed`; every other row is kept, the length is kept, and an absent id leaves the sequence unchanged (also the shape of `updateTodolistTitle.fulfilled`, lines 118-123) |
| `Todolists.SameIdsAt` | src/features/todolists/model/todolistsSlice.ts:43-48 | two collections with equal ids position by position have the same id set and are unique together |
| `Todolists.PrependIds` | src/features/todolists/model/todolistsSlice.ts:145-147 | prepending a row adds exactly its id; with a fresh id, ids stay unique |
| `Todolists.SpliceIds` | src/features/todolists/model/todolistsSlice.ts:93-96 | with unique ids, splicing out row `i` removes exactly its id and keeps ids unique |
| `Todolists.RemoveFirstIds` | src/features/todolists/model/todolistsSlice.ts:92-97 | with unique ids, removing the first row with `id` removes `id` from the id set and keeps ids unique |
| `Todolists.RemoveAfterMarking` | src/features/todolists/model/todolistsSlice.ts:76-97 | marking the row `loading` and then removing it gives the same sequence as removing it alone |
| `Todolists.TodolistsState.constructor` | src/features/todolists/model/todolistsSlice.ts:18 | the slice starts empty |
| `Todolists.TodolistsState.ChangeTodolistFilter` | src/features/todolists/model/todolistsSlice.ts:37-42 | the new sequence is `ChangeFirst` of the old one with `FilterTo(filter)` |
| `Todolists.TodolistsState.ChangeTodolistEntityStatus` | src/features/todolists/model/todolistsSlice.ts:43-48 | the new sequence is `ChangeFirst` of the old one with `EntityStatusTo(status)` |
| `Todolists.TodolistsState.ClearTodolists` | src/features/todolists/model/todolistsSlice.ts:52-54 | the sequence becomes empty |
| `Todolists.TodolistsState.FetchTodolistsFulfilled` | src/features/todolists/model/todolistsSlice.ts:68-70 | the whole sequence is replaced by the augmented server list |
| `Todolists.TodolistsState.RemoveTodolistFulfilled` | src/features/todolists/model/todolistsSlice.ts:92-97 | the first row with the id is removed; otherwise nothing changes |
| `Todolists.TodolistsState.UpdateTodolistTitleFulfilled` | src/features/todolists/model/todolistsSlice.ts:118-123 | the new sequence is `ChangeFirst` of the old one with `TitleTo(title)` |
| `Todolists.TodolistsState.AddTodolistFulfilled` | src/features/todolists/model/todolistsSlice.ts:145-147 | the augmented new todolist is prepended to the old sequence |
| `Todolists.FetchTodolistsPayload` | src/features/todolists/model/todolistsSlice.ts:55-66 | publishes `loading`, then `succeeded` and fulfils with the server list, or `failed` and rejects when the call throws |
| `Todolists.RemoveTodolistPayload` | src/features/todolists/model/todolistsSlice.ts:73-90 | marks the row `loading` before the call and never clears the mark; fulfils with the id only on Success |
| `Todolists.UpdateTodolistTitlePayload` | src/features/todolists/model/todolistsSlice.ts:100-116 | publishes `loading`, then `succeeded` and fulfils with its argument only on Success, else `failed` and rejects |
| `Todolists.AddTodolistPayload` | src/features/todolists/model/todolistsSlice.ts:126-143 | publishes `loading`, then `succeeded` and fulfils with the server's new item only on Success, else `failed` and rejects |
| `Tasks.BuildUpdateModel` | src/features/todolists/model/tasksSlice.ts:133-141 | each of the six fields takes the partial model's value when present and the current task's value when absent |
| `Tasks.Merge` | src/features/todolists/model/tasksSlice.ts:163 | id, todolist id, order and added date are kept; the mutable fields become exactly the model sent to the server |
| `Tasks.MergeNoChanges` | src/features/todolists/model/tasksSlice.ts:133-141 | an empty partial model changes neither the task nor the server payload |
| `Tasks.MergeIdempotent` | src/features/todolists/model/tasksSlice.ts:163 | overlaying the same partial model twice equals overlaying it once |
| `Tasks.MergeTitleOnly` | src/features/todolists/model/tasksSlice.ts:163 | a model with only `title` replaces the title and nothing else |
| `Tasks.MergeFirst` | src/features/todolists/model/tasksSlice.ts:159-165 | only the first task with the id is replaced by its overlay; positions and other tasks are kept; no match leaves the list unchanged |
| `Tasks.MergeFirstAgreesWithPayload` | src/features/todolists/model/tasksSlice.ts:124-165 | after the fulfilled handler, the updated task's mutable fields equal the model sent to the server for the task read before the call |
| `Tasks.TasksState.constructor` | src/features/todolists/model/tasksSlice.ts:17 | the slice starts as the empty map |
| `Tasks.TasksState.ClearTasks` | src/features/todolists/model/tasksSlice.ts:44-46 | the map becomes empty |
| `Tasks.TasksState.FetchTasksFulfilled` | src/features/todolists/model/tasksSlice.ts:62-64 | the key is set to the server list verbatim; other keys are unchanged |
| `Tasks.TasksState.RemoveTaskFulfilled` | src/features/todolists/model/tasksSlice.ts:86-92 | only the list under the key changes, by removing its first task with the id |
| `Tasks.TasksState.AddTaskFulfilled` | src/features/todolists/model/tasksSlice.ts:113-116 | the new task is prepended to its own todolist's list; other keys are unchanged |
| `Tasks.TasksState.UpdateTaskFulfilled` | src/features/todolists/model/tasksSlice.ts:159-165 | only the list under the key changes, by `MergeFirst` |
| `Tasks.TasksState.AddTodolistFulfilled` | src/features/todolists/model/tasksSlice.ts:172-174 | the new todolist's key maps to the empty list |
| `Tasks.TasksState.RemoveTodolistFulfilled` | src/features/todolists/model/tasksSlice.ts:175-177 | the key is deleted; other keys are unchanged |
| `Tasks.FetchTasksPayload` | src/features/todolists/model/tasksSlice.ts:48-60 | publishes `loading`, then `succeeded` and fulfils with the id and the list, or `failed` and rejects when the call throws |
| `Tasks.RemoveTaskPayload` | src/features/todolists/model/tasksSlice.ts:68-84 | publishes `loading`, then `succeeded` and fulfils with its argument only on Success, else `failed` and rejects |
| `Tasks.AddTaskPayload` | src/features/todolists/model/tasksSlice.ts:96-111 | publishes `loading`, then `succeeded` and fulfils with the server's item only on Success, else `failed` and rejects |
| `Tasks.UpdateTaskPayload` | src/features/todolists/model/tasksSlice.ts:119-157 | missing key: network error with no call; no such task: only "Task not found", no status write and no call; otherwise the overlaid model is sent after `loading` |
| `Auth.AuthState.constructor` | src/features/auth/model/authSlice.ts:15-18 | starts logged out and uninitialised |
| `Auth.AuthState.SetIsLoggedIn` | src/features/auth/model/authSlice.ts:47-49 | `isLoggedIn` takes the payload's value (the same handler for login, logout and initializeApp) |
| `Auth.AuthState.InitializeAppSettled` | src/features/auth/model/authSlice.ts:99-101 | `isInitialized` becomes true |
| `Auth.LoginPayload` | src/features/auth/model/authSlice.ts:28-45 | on Success it stores the token and fulfils with `true`; otherwise the token is kept and it rejects; status `loading` then `succeeded`/`failed` |
| `Auth.LogoutPayload` | src/features/auth/model/authSlice.ts:52-70 | on Success it empties both domain slices, removes the token and fulfils with `false`; on failure they are all unchanged |
| `Auth.InitializeAppPayload` | src/features/auth/model/authSlice.ts:77-94 | publishes `loading`, then `succeeded` and fulfils with `true` only on Success, else `failed` and rejects |
| `AppStore.Apply` | src/features/todolists/model/tasksSlice.ts:172-177 | one fulfilled `addTodolist` or `removeTodolist` as both slices see it (with the todolist handlers at todolistsSlice.ts:92-97 and 145-147): a creation puts the augmented row first, keeps the rest, and adds the key with `[]`; a deletion drops the key, removes one row when the id is present and changes nothing in the collection otherwise; no other task list changes |
| `AppStore.Run` | src/features/todolists/model/tasksSlice.ts:172-177 | a sequence of those actions applied in order; the number of rows moves by at most the number of actions |
| `AppStore.RunAppend` | src/features/todolists/model/tasksSlice.ts:172-177 | running two batches one after the other equals running their concatenation, so the state depends only on the order of the fulfilled actions |
| `AppStore.ApplyKeepsConsistent` | src/features/todolists/model/tasksSlice.ts:172-177 | one fulfilled creation with a fresh id, or one deletion, keeps ids unique and equal to the task-map keys |
| `AppStore.RunKeepsConsistent` | src/features/todolists/model/tasksSlice.ts:172-177 | any run of creations with fresh ids and deletions, from a consistent state, ends consistent |
| `AppStore.CreateThenDelete` | src/features/todolists/model/todolistsSlice.ts:92-97 | creating a todolist with a fresh id and then deleting it restores both slices exactly |
| `AppStore.Store.constructor` | src/features/auth/model/authSlice.ts:15-18 | every slice starts at its initial state: logged out, uninitialised, no todolists, no tasks |
| `AppStore.Store.FetchTasks` | src/features/todolists/model/tasksSlice.ts:48-65 | on success the key holds the server list verbatim and other keys are kept; when the call throws the map is unchanged and it rejects |
| `AppStore.Store.RemoveTask` | src/features/todolists/model/tasksSlice.ts:68-93 | on Success the first task with the id is removed from that list only; on either failure the map is unchanged and it rejects |
| `AppStore.Store.AddTask` | src/features/todolists/model/tasksSlice.ts:96-117 | on Success the new task heads its list and the rest is the old list; on either failure the map is unchanged and it rejects |
| `AppStore.Store.UpdateTask` | src/features/todolists/model/tasksSlice.ts:119-166 | the payload-creator cases above; fulfilled only on Success with a found task, then only that task is overlaid; the map is unchanged whenever it rejects |
| `AppStore.Store.FetchTodolists` | src/features/todolists/model/todolistsSlice.ts:55-71 | on success the collection becomes the augmented server list; when the call throws it is unchanged; task keys are never touched |
| `AppStore.Store.RemoveTodolist` | src/features/todolists/model/todolistsSlice.ts:73-98 | on Success the row and its task key are removed; on failure the length is kept and the row stays `loading`; consistency is kept either way |
| `AppStore.Store.UpdateTodolistTitle` | src/features/todolists/model/todolistsSlice.ts:100-124 | on Success only the title of the first row with the id changes; on failure nothing changes |
| `AppStore.Store.AddTodolist` | src/features/todolists/model/todolistsSlice.ts:126-148 | on Success the augmented row is prepended and its task key maps to `[]`; on failure both slices are unchanged; consistency is kept with a fresh id |
| `AppStore.Store.Login` | src/features/auth/model/authSlice.ts:28-51 | on Success logged in with the token stored; on failure the login flag and the token are unchanged; `isInitialized` untouched |
| `AppStore.Store.Logout` | src/features/auth/model/authSlice.ts:52-76 | on Success logged out, token removed, both domain slices empty; on failure the login flag, the token and both slices are unchanged |
| `AppStore.Store.InitializeApp` | src/features/auth/model/authSlice.ts:77-102 | `isInitialized` is true after it settles on any outcome; logged in on Success, login flag unchanged otherwise |

## Left out

- The HTTP clients (`tasksApi`, `todolistsApi`, `authApi`) are not part of this model. Each remote call is replaced by its answer, given as an `Outcome` or `Response` parameter. The arguments that go only to the server (login credentials, the title of a new task or todolist) have no effect on the state and are not modelled beyond that.
- `handleServerAppError`, `handleServerNetworkError` and the app slice are not part of this model. Their contracts promise only the effect this core relies on: status `failed` and some error message. The exact message text is not specified. It is also assumed that `setAppStatus` leaves the error alone and that the app slice starts at `idle` with no error.
- Browser storage is not modelled: the token is a ghost field of `Auth.AuthState`.
- Asynchrony and interleaving are not modelled. Each thunk runs as one atomic method given its remote answer. No slice handles `pending`; the only handler that sees `rejected` is `initializeApp`'s `settled`, which sets `isInitialized`.
- Redux Toolkit itself (slice builders, Immer drafts, selectors) is library code. In-place draft updates are modelled as reassignment of the slice's `seq` or `map` field.
- `AppStore.Store.RemoveTask`, `AppStore.Store.AddTask`, `Tasks.TasksState.RemoveTaskFulfilled`, `Tasks.TasksState.AddTaskFulfilled` and `Tasks.TasksState.UpdateTaskFulfilled`: these handlers index the task map without checking the key, and a missing key would make the reducer throw. Key presence is a precondition here instead of a modelled throw.
- `Tasks.UpdateTaskDomainModel`: a key that is present but holds `undefined` would also override in a JavaScript spread. That case is not modelled; a present key always carries a value.
- Field types are simplified: task `status` and `priority` are plain integers (the enumerations are not part of this model), and dates are strings. Nullability of server fields is not modelled.
- The unused read of `isLoggedIn` in `fetchTasks` (src/features/todolists/model/tasksSlice.ts:50) has no effect and is not modelled.
- The commented-out reducers and `*TC` thunks are not active code and are not modelled.
- src/app/Main.tsx is presentation and routing. It only dispatches `addTodolist`, which is modelled.
- Consistency between todolist ids and task-map keys is proved only for creations and deletions. `fetchTasks` can create a key for any id, and `fetchTodolists` replaces the todolist ids without touching task keys, so neither keeps it.
