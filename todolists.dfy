/** The todolist slice: an ordered sequence of todolists, each carrying the client-only `filter`
    and `entityStatus`, its plain reducers, its fulfilled handlers and its thunks' payload
    creators. */
module Todolists {
  import opened Common
  import opened ArrayOps
  import opened AppStatus

  datatype FilterValues = All | Active | Completed

  /** A todolist as the server sends it. */
  datatype Todolist = Todolist(id: string, title: string, addedDate: string, order: int)

  /** `DomainTodolist = Todolist & { filter, entityStatus }`. */
  datatype DomainTodolist = DomainTodolist(
    id: string, title: string, addedDate: string, order: int,
    filter: FilterValues, entityStatus: RequestStatus)

  /** The key every `findIndex` of this slice compares with: `tl.id`. */
  function TodolistId(d: DomainTodolist): string { d.id }

  /** The part of a row that came from the server. */
  function ServerPart(d: DomainTodolist): Todolist
  {
    Todolist(d.id, d.title, d.addedDate, d.order)
  }

  /** `{ ...tl, filter: "all", entityStatus: "idle" }`. */
  function Augment(tl: Todolist): (d: DomainTodolist)
    ensures ServerPart(d) == tl && d.filter == All && d.entityStatus == Idle
  {
    DomainTodolist(tl.id, tl.title, tl.addedDate, tl.order, All, Idle)
  }

  /** `todolists.map(tl => ({ ...tl, filter: "all", entityStatus: "idle" }))`. */
  function AugmentAll(tls: seq<Todolist>): (r: seq<DomainTodolist>)
    ensures |r| == |tls|
    ensures forall i :: 0 <= i < |tls| ==>
      ServerPart(r[i]) == tls[i] && r[i].filter == All && r[i].entityStatus == Idle
  {
    seq(|tls|, i requires 0 <= i < |tls| => Augment(tls[i]))
  }

  /** The ids present in the collection. */
  ghost function Ids(s: seq<DomainTodolist>): set<string>
  {
    set j | 0 <= j < |s| :: s[j].id
  }

  /** No id occurs twice. */
  ghost predicate UniqueIds(s: seq<DomainTodolist>)
  {
    forall i, j :: 0 <= i < j < |s| ==> s[i].id != s[j].id
  }

  /** The one-field assignments the slice makes at `state[index]`. */
  datatype RowChange = FilterTo(filter: FilterValues) | EntityStatusTo(status: RequestStatus) | TitleTo(title: string)

  /** `state[index].<field> = value`: the named field takes the new value, every other field of
      the row is kept. */
  function Changed(d: DomainTodolist, change: RowChange): (r: DomainTodolist)
    ensures ServerPart(r).(title := d.title) == ServerPart(d)
    ensures r.filter == if change.FilterTo? then change.filter else d.filter
    ensures r.entityStatus == if change.EntityStatusTo? then change.status else d.entityStatus
    ensures r.title == if change.TitleTo? then change.title else d.title
  {
    match change
    case FilterTo(f) => d.(filter := f)
    case EntityStatusTo(st) => d.(entityStatus := st)
    case TitleTo(t) => d.(title := t)
  }

  /** The reducer shape shared by `changeTodolistFilter`, `changeTodolistEntityStatus` and
      `updateTodolistTitle.fulfilled`: `index = findIndex(tl => tl.id === id); if (index !== -1)
      state[index].<field> = value`. Only the first row with `id` changes; an absent id is a
      no-op. */
  function ChangeFirst(s: seq<DomainTodolist>, id: string, change: RowChange): (r: seq<DomainTodolist>)
    ensures |r| == |s|
    ensures NoMatch(s, TodolistId, id) ==> r == s
    ensures forall j :: 0 <= j < |s| ==>
      r[j] == if IsFirstMatch(s, TodolistId, id, j) then Changed(s[j], change) else s[j]
  {
    var i := FindIndex(s, TodolistId, id);
    if i < 0 then s
    else
      FoundIsOnlyFirstMatch(s, TodolistId, id, i);
      s[i := Changed(s[i], change)]
  }

  /** Two collections with the same id at every position have the same ids, and one has unique
      ids exactly when the other does. */
  lemma SameIdsAt(s: seq<DomainTodolist>, t: seq<DomainTodolist>)
    requires |s| == |t| && forall j :: 0 <= j < |s| ==> s[j].id == t[j].id
    ensures Ids(s) == Ids(t)
    ensures UniqueIds(s) <==> UniqueIds(t)
  {
    forall x | x in Ids(s) ensures x in Ids(t) {
      var j :| 0 <= j < |s| && s[j].id == x;
      assert t[j].id == x;
    }
    forall x | x in Ids(t) ensures x in Ids(s) {
      var j :| 0 <= j < |t| && t[j].id == x;
      assert s[j].id == x;
    }
  }

  /** Prepending a row adds its id; with a fresh id the ids stay unique. */
  lemma {:induction false} PrependIds(s: seq<DomainTodolist>, tl: Todolist)
    ensures Ids([Augment(tl)] + s) == Ids(s) + {tl.id}
    ensures UniqueIds(s) && tl.id !in Ids(s) ==> UniqueIds([Augment(tl)] + s)
  {
    var r := [Augment(tl)] + s;
    forall x | x in Ids(r) ensures x in Ids(s) + {tl.id} {
      var j :| 0 <= j < |r| && r[j].id == x;
      if j > 0 {
        assert s[j - 1].id == x;
      }
    }
    forall x | x in Ids(s) + {tl.id} ensures x in Ids(r) {
      if x == tl.id {
        assert r[0].id == x;
      } else {
        var j :| 0 <= j < |s| && s[j].id == x;
        assert r[j + 1].id == x;
      }
    }
    if UniqueIds(s) && tl.id !in Ids(s) {
      forall i, j | 0 <= i < j < |r| ensures r[i].id != r[j].id {
        if i == 0 {
          assert r[j].id == s[j - 1].id;
          assert s[j - 1].id in Ids(s);
        } else {
          assert r[i].id == s[i - 1].id && r[j].id == s[j - 1].id;
        }
      }
    }
  }

  /** With unique ids, `splice(i, 1)` removes exactly the id of row `i` and keeps the ids unique. */
  lemma SpliceIds(s: seq<DomainTodolist>, i: int)
    requires UniqueIds(s) && 0 <= i < |s|
    ensures UniqueIds(s[..i] + s[i + 1..])
    ensures Ids(s[..i] + s[i + 1..]) == Ids(s) - {s[i].id}
  {
    var r := s[..i] + s[i + 1..];
    assert forall j :: 0 <= j < |r| ==> r[j] == s[if j < i then j else j + 1];
    forall x | x in Ids(r) ensures x in Ids(s) - {s[i].id} {
      var j :| 0 <= j < |r| && r[j].id == x;
      var k := if j < i then j else j + 1;
      assert r[j] == s[k] && k != i;
    }
    forall x | x in Ids(s) - {s[i].id} ensures x in Ids(r) {
      var k :| 0 <= k < |s| && s[k].id == x;
      var j := if k < i then k else k - 1;
      assert r[j] == s[k];
    }
    forall a, b | 0 <= a < b < |r| ensures r[a].id != r[b].id {
      var ka := if a < i then a else a + 1;
      var kb := if b < i then b else b + 1;
      assert r[a] == s[ka] && r[b] == s[kb] && ka < kb;
    }
  }

  /** With unique ids, removing the first row with `id` removes `id` from the collection and
      keeps the ids unique. */
  lemma {:induction false} RemoveFirstIds(s: seq<DomainTodolist>, id: string)
    requires UniqueIds(s)
    ensures UniqueIds(RemoveFirst(s, TodolistId, id))
    ensures Ids(RemoveFirst(s, TodolistId, id)) == Ids(s) - {id}
  {
    var i := FindIndex(s, TodolistId, id);
    if i >= 0 {
      assert RemoveFirst(s, TodolistId, id) == s[..i] + s[i + 1..];
      SpliceIds(s, i);
    }
  }

  /** The `loading` mark that `removeTodolist` puts on the row goes away with the row: marking
      first and removing afterwards gives the same collection as removing alone. */
  lemma {:induction false} RemoveAfterMarking(s: seq<DomainTodolist>, id: string, status: RequestStatus)
    ensures RemoveFirst(ChangeFirst(s, id, EntityStatusTo(status)), TodolistId, id) == RemoveFirst(s, TodolistId, id)
  {
    var m := ChangeFirst(s, id, EntityStatusTo(status));
    FindIndexSameKeys(s, m, TodolistId, id);
    var i := FindIndex(s, TodolistId, id);
    if i >= 0 {
      assert IsFirstMatch(m, TodolistId, id, i);
      var a := RemoveFirst(m, TodolistId, id);
      var b := RemoveFirst(s, TodolistId, id);
      assert |a| == |b|;
      forall j | 0 <= j < |a| ensures a[j] == b[j] {
        if j < i {
          assert a[j] == m[j] && b[j] == s[j];
        } else {
          assert a[j] == m[j + 1] && b[j] == s[j + 1];
        }
      }
    }
  }

  /** The todolist slice: `initialState: [] as DomainTodolist[]`. */
  class TodolistsState {
    var lists: seq<DomainTodolist>

    constructor ()
      ensures lists == []
    {
      lists := [];
    }

    /** `changeTodolistFilter`. */
    method ChangeTodolistFilter(id: string, filter: FilterValues)
      modifies this
      ensures lists == ChangeFirst(old(lists), id, FilterTo(filter))
    {
      lists := ChangeFirst(lists, id, FilterTo(filter));
    }

    /** `changeTodolistEntityStatus`. */
    method ChangeTodolistEntityStatus(id: string, status: RequestStatus)
      modifies this
      ensures lists == ChangeFirst(old(lists), id, EntityStatusTo(status))
    {
      lists := ChangeFirst(lists, id, EntityStatusTo(status));
    }

    /** `clearTodolists`: the reducer returns a fresh empty array. */
    method ClearTodolists()
      modifies this
      ensures lists == []
    {
      lists := [];
    }

    /** `fetchTodolists.fulfilled`: the whole collection is replaced by the server's list. */
    method FetchTodolistsFulfilled(todolists: seq<Todolist>)
      modifies this
      ensures lists == AugmentAll(todolists)
    {
      lists := AugmentAll(todolists);
    }

    /** `removeTodolist.fulfilled`: `splice` of the first row with that id, if any. */
    method RemoveTodolistFulfilled(id: string)
      modifies this
      ensures lists == RemoveFirst(old(lists), TodolistId, id)
    {
      lists := RemoveFirst(lists, TodolistId, id);
    }

    /** `updateTodolistTitle.fulfilled`. */
    method UpdateTodolistTitleFulfilled(id: string, title: string)
      modifies this
      ensures lists == ChangeFirst(old(lists), id, TitleTo(title))
    {
      lists := ChangeFirst(lists, id, TitleTo(title));
    }

    /** `addTodolist.fulfilled`: `unshift` of the augmented new todolist. */
    method AddTodolistFulfilled(todolist: Todolist)
      modifies this
      ensures lists == [Augment(todolist)] + old(lists)
    {
      lists := [Augment(todolist)] + lists;
    }
  }

  /** The arguments of `updateTodolistTitle`, returned as its payload. */
  datatype UpdateTitleArg = UpdateTitleArg(id: string, title: string)

  /** Payload creator of `fetchTodolists`: no result-code check, only the thrown case fails. */
  method FetchTodolistsPayload(app: AppState, response: Response<seq<Todolist>>)
    returns (r: Settled<seq<Todolist>>)
    modifies app
    ensures app.ReportedResponse(response)
    ensures r == if response.Received? then Fulfilled(response.data) else Rejected
  {
    app.SetAppStatus(Loading);
    match response
    case Received(data) =>
      app.SetAppStatus(Succeeded);
      r := Fulfilled(data);
    case Thrown(message) =>
      app.HandleServerNetworkError(message);
      r := Rejected;
  }

  /** Payload creator of `removeTodolist`: the row is marked `loading` before the remote call, and
      nothing in this thunk clears the mark on failure. */
  method RemoveTodolistPayload(app: AppState, todolists: TodolistsState, id: string, outcome: Outcome<()>)
    returns (r: Settled<string>)
    modifies app, todolists
    ensures todolists.lists == ChangeFirst(old(todolists.lists), id, EntityStatusTo(Loading))
    ensures app.Reported(outcome)
    ensures r == if outcome.Success? then Fulfilled(id) else Rejected
  {
    app.SetAppStatus(Loading);
    todolists.ChangeTodolistEntityStatus(id, Loading);
    match outcome
    case Success(_) =>
      app.SetAppStatus(Succeeded);
      r := Fulfilled(id);
    case AppFailure(messages) =>
      app.HandleServerAppError(messages);
      r := Rejected;
    case NetworkFailure(message) =>
      app.HandleServerNetworkError(message);
      r := Rejected;
  }

  /** Payload creator of `updateTodolistTitle`: on success its argument is the payload. */
  method UpdateTodolistTitlePayload(app: AppState, arg: UpdateTitleArg, outcome: Outcome<()>)
    returns (r: Settled<UpdateTitleArg>)
    modifies app
    ensures app.Reported(outcome)
    ensures r == if outcome.Success? then Fulfilled(arg) else Rejected
  {
    app.SetAppStatus(Loading);
    match outcome
    case Success(_) =>
      app.SetAppStatus(Succeeded);
      r := Fulfilled(arg);
    case AppFailure(messages) =>
      app.HandleServerAppError(messages);
      r := Rejected;
    case NetworkFailure(message) =>
      app.HandleServerNetworkError(message);
      r := Rejected;
  }

  /** Payload creator of `addTodolist`: on success the server's new item is the payload. */
  method AddTodolistPayload(app: AppState, title: string, outcome: Outcome<Todolist>)
    returns (r: Settled<Todolist>)
    modifies app
    ensures app.Reported(outcome)
    ensures r == if outcome.Success? then Fulfilled(outcome.payload) else Rejected
  {
    app.SetAppStatus(Loading);
    match outcome
    case Success(item) =>
      app.SetAppStatus(Succeeded);
      r := Fulfilled(item);
    case AppFailure(messages) =>
      app.HandleServerAppError(messages);
      r := Rejected;
    case NetworkFailure(message) =>
      app.HandleServerNetworkError(message);
      r := Rejected;
  }
}
