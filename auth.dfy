/** The session slice: `{ isLoggedIn, isInitialized }`, the stored token, and the payload creators
    of `login`, `logout` and `initializeApp`. */
module Auth {
  import opened Common
  import opened AppStatus
  import Tasks
  import Todolists

  class AuthState {
    var isLoggedIn: bool
    var isInitialized: bool
    /** The value under the browser-storage key "sn-token". */
    ghost var token: Option<string>

    /** `initialState: { isLoggedIn: false, isInitialized: false }`; the stored token is
        whatever a previous session left. */
    constructor (ghost storedToken: Option<string>)
      ensures !isLoggedIn && !isInitialized && token == storedToken
    {
      isLoggedIn := false;
      isInitialized := false;
      token := storedToken;
    }

    /** The `fulfilled` handler of `login`, `logout` and `initializeApp`:
        `state.isLoggedIn = action.payload.isLoggedIn`. */
    method SetIsLoggedIn(value: bool)
      modifies this`isLoggedIn
      ensures isLoggedIn == value
    {
      isLoggedIn := value;
    }

    /** The `settled` handler of `initializeApp`: `state.isInitialized = true`, on either
        outcome. No handler writes `false`. */
    method InitializeAppSettled()
      modifies this`isInitialized
      ensures isInitialized
    {
      isInitialized := true;
    }
  }

  /** Payload creator of `login`: on success the issued token is stored and the payload is
      `{ isLoggedIn: true }`. */
  method LoginPayload(app: AppState, auth: AuthState, outcome: Outcome<string>)
    returns (r: Settled<bool>)
    modifies app, auth`token
    ensures app.Reported(outcome)
    ensures outcome.Success? ==> r == Fulfilled(true) && auth.token == Some(outcome.payload)
    ensures !outcome.Success? ==> r == Rejected && auth.token == old(auth.token)
  {
    app.SetAppStatus(Loading);
    match outcome
    case Success(issued) =>
      app.SetAppStatus(Succeeded);
      auth.token := Some(issued);
      r := Fulfilled(true);
    case AppFailure(messages) =>
      app.HandleServerAppError(messages);
      r := Rejected;
    case NetworkFailure(message) =>
      app.HandleServerNetworkError(message);
      r := Rejected;
  }

  /** Payload creator of `logout`: on success it clears both domain slices, removes the token,
      and the payload is `{ isLoggedIn: false }`; on failure nothing but the app status changes. */
  method LogoutPayload(
    app: AppState, auth: AuthState, tasks: Tasks.TasksState, todolists: Todolists.TodolistsState,
    outcome: Outcome<()>)
    returns (r: Settled<bool>)
    modifies app, auth`token, tasks, todolists
    ensures app.Reported(outcome)
    ensures outcome.Success? ==>
      && r == Fulfilled(false)
      && tasks.byTodolist == map[] && todolists.lists == [] && auth.token == None
    ensures !outcome.Success? ==>
      && r == Rejected
      && tasks.byTodolist == old(tasks.byTodolist) && todolists.lists == old(todolists.lists)
      && auth.token == old(auth.token)
  {
    app.SetAppStatus(Loading);
    match outcome
    case Success(_) =>
      app.SetAppStatus(Succeeded);
      tasks.ClearTasks();
      todolists.ClearTodolists();
      auth.token := None;
      r := Fulfilled(false);
    case AppFailure(messages) =>
      app.HandleServerAppError(messages);
      r := Rejected;
    case NetworkFailure(message) =>
      app.HandleServerNetworkError(message);
      r := Rejected;
  }

  /** Payload creator of `initializeApp` (the "who am I" call): on success the payload is
      `{ isLoggedIn: true }`. */
  method InitializeAppPayload(app: AppState, outcome: Outcome<()>)
    returns (r: Settled<bool>)
    modifies app
    ensures app.Reported(outcome)
    ensures r == if outcome.Success? then Fulfilled(true) else Rejected
  {
    app.SetAppStatus(Loading);
    match outcome
    case Success(_) =>
      app.SetAppStatus(Succeeded);
      r := Fulfilled(true);
    case AppFailure(messages) =>
      app.HandleServerAppError(messages);
      r := Rejected;
    case NetworkFailure(message) =>
      app.HandleServerNetworkError(message);
      r := Rejected;
  }
}
