/** The process-wide request status and error that every thunk publishes (the app slice).
    Only the effect the core relies on is modelled: `setAppStatus` writes the status,
    `setAppError` writes the error, and the two error handlers write `failed` and some message. */
module AppStatus {
  import opened Common

  class AppState {
    var status: RequestStatus
    var error: Option<string>
    /** Every status value written, oldest first: the order in which a thunk published them. */
    ghost var statusLog: seq<RequestStatus>

    constructor ()
      ensures status == Idle && error == None && statusLog == []
    {
      status := Idle;
      error := None;
      statusLog := [];
    }

    /** `setAppStatus({ status })`: the status changes, the error does not. */
    method SetAppStatus(s: RequestStatus)
      modifies this
      ensures status == s && error == old(error)
      ensures statusLog == old(statusLog) + [s]
    {
      status := s;
      statusLog := statusLog + [s];
    }

    /** `setAppError({ error })`: the error changes, the status does not. */
    method SetAppError(e: string)
      modifies this
      ensures error == Some(e)
      ensures status == old(status) && statusLog == old(statusLog)
    {
      error := Some(e);
    }

    /** `handleServerAppError(data, dispatch)`: a non-success result code becomes status
        `failed` and a user-visible message. The handler's own code is not part of this model,
        so the text chosen below is a placeholder; the contract promises only that some message
        is set. */
    method HandleServerAppError(messages: seq<string>)
      modifies this
      ensures status == Failed && error.Some?
      ensures statusLog == old(statusLog) + [Failed]
    {
      error := Some(if |messages| > 0 then messages[0] else "Some error occurred");
      status := Failed;
      statusLog := statusLog + [Failed];
    }

    /** `handleServerNetworkError(error, dispatch)`: a thrown error becomes status `failed` and a
        user-visible message. */
    method HandleServerNetworkError(message: string)
      modifies this
      ensures status == Failed && error.Some?
      ensures statusLog == old(statusLog) + [Failed]
    {
      error := Some(message);
      status := Failed;
      statusLog := statusLog + [Failed];
    }

    /** What a thunk that checks the result code publishes around its remote call: `loading`,
        then `succeeded` (error untouched) on Success, or `failed` with some message otherwise. */
    twostate predicate Reported<T>(o: Outcome<T>)
      reads this
    {
      if o.Success? then
        status == Succeeded && error == old(error) && statusLog == old(statusLog) + [Loading, Succeeded]
      else
        status == Failed && error.Some? && statusLog == old(statusLog) + [Loading, Failed]
    }

    /** The same for a fetch, which has no result code: success whenever the data arrived. */
    twostate predicate ReportedResponse<T>(resp: Response<T>)
      reads this
    {
      if resp.Received? then
        status == Succeeded && error == old(error) && statusLog == old(statusLog) + [Loading, Succeeded]
      else
        status == Failed && error.Some? && statusLog == old(statusLog) + [Loading, Failed]
    }
  }
}
