/**
 * The session HTTP handlers as decision functions. Each takes the request fields and
 * the results the service calls would give, and returns the calls it makes, in order,
 * with the response it sends. A thrown service error becomes a 500 response.
 */
module SessionController {
  import opened Common
  import opened SessionsService

  datatype Body =
    | Message(text: string)
    | SessionIdBody(id: string)
    | SessionBody(session: Session)
    | ViewBody(view: SessionView)
    | ParticipantBody(participant: Participant)

  datatype Response = Response(status: int, body: Body)

  /** A call the handler makes to the service or the job queue. */
  datatype Call =
    | CreateSessionCall(title: string, hostId: string)
    | FindSessionCall(id: string)
    | AddParticipantCall(sessionId: string, displayName: string, userId: Option<string>, isHost: bool)
    | UpdateSessionCall(id: string, data: SessionUpdate)
    | EndSessionCall(id: string)
    | EnqueueCall(jobName: string, sessionId: string)

  datatype Handled = Handled(calls: seq<Call>, response: Response)

  const ProcessJobName := "process-session"

  /** `userId || null`: a falsy user id is stored as null. */
  function StoredUserId(userId: Option<string>): (r: Option<string>)
    ensures r.Some? <==> Truthy(userId)
    ensures r.Some? ==> r == userId
  {
    if Truthy(userId) then userId else None
  }

  /** `createSessionHandler`: title and the authenticated user are required; the reply carries only the new id. */
  function CreateSessionHandler(title: Option<string>, hostId: Option<string>, created: Result<Session, DbError>)
    : (h: Handled)
    ensures !Truthy(title) || !Truthy(hostId) ==>
              h == Handled([], Response(400, Message("Title and hostId are required")))
    ensures Truthy(title) && Truthy(hostId) ==> h.calls == [CreateSessionCall(title.value, hostId.value)]
    ensures Truthy(title) && Truthy(hostId) && created.Ok? ==> h.response == Response(201, SessionIdBody(created.value.id))
    ensures Truthy(title) && Truthy(hostId) && created.Err? ==> h.response == Response(500, Message("Failed to create session"))
  {
    if !Truthy(title) || !Truthy(hostId) then Handled([], Response(400, Message("Title and hostId are required")))
    else
      var calls := [CreateSessionCall(title.value, hostId.value)];
      match created
      case Ok(s) => Handled(calls, Response(201, SessionIdBody(s.id)))
      case Err(_) => Handled(calls, Response(500, Message("Failed to create session")))
  }

  /** `getSessionHandler`: 404 for an unknown id, otherwise the session with its participants. */
  function GetSessionHandler(id: string, found: Result<Option<SessionView>, DbError>): (h: Handled)
    ensures h.calls == [FindSessionCall(id)]
    ensures h.response.status == 200 <==> found.Ok? && found.value.Some?
    ensures h.response.status == 200 ==> h.response.body == ViewBody(found.value.value)
    ensures found == Ok(None) ==> h.response == Response(404, Message("Session not found"))
    ensures found.Err? ==> h.response == Response(500, Message("Failed to retrieve session"))
  {
    var calls := [FindSessionCall(id)];
    match found
    case Ok(None) => Handled(calls, Response(404, Message("Session not found")))
    case Ok(Some(view)) => Handled(calls, Response(200, ViewBody(view)))
    case Err(_) => Handled(calls, Response(500, Message("Failed to retrieve session")))
  }

  /**
   * `joinSessionHandler`: the display name is checked before the session is looked up,
   * and a participant is added only when both checks pass.
   */
  function JoinSessionHandler(sessionId: string, displayName: Option<string>, userId: Option<string>,
                              found: Result<Option<SessionView>, DbError>, added: Result<Participant, DbError>)
    : (h: Handled)
    ensures !Truthy(displayName) ==> h == Handled([], Response(400, Message("displayName is required")))
    ensures Truthy(displayName) ==> |h.calls| >= 1 && h.calls[0] == FindSessionCall(sessionId)
    ensures !(Truthy(displayName) && found.Ok? && found.value.Some?) ==> forall c :: c in h.calls ==> !c.AddParticipantCall?
    ensures Truthy(displayName) && found.Ok? && found.value.Some? ==>
              h.calls == [FindSessionCall(sessionId), AddParticipantCall(sessionId, displayName.value, StoredUserId(userId), false)]
              && h.response == (if added.Ok? then Response(201, ParticipantBody(added.value))
                                else Response(500, Message("Failed to join session")))
    ensures Truthy(displayName) && found == Ok(None) ==> h.response == Response(404, Message("Session not found"))
    ensures Truthy(displayName) && found.Err? ==> h.response == Response(500, Message("Failed to join session"))
  {
    if !Truthy(displayName) then Handled([], Response(400, Message("displayName is required")))
    else
      var find := FindSessionCall(sessionId);
      match found
      case Err(_) => Handled([find], Response(500, Message("Failed to join session")))
      case Ok(None) => Handled([find], Response(404, Message("Session not found")))
      case Ok(Some(_)) =>
        // The handler passes no `isHost`, so the service's default `false` applies.
        var calls := [find, AddParticipantCall(sessionId, displayName.value, StoredUserId(userId), false)];
        match added
        case Ok(p) => Handled(calls, Response(201, ParticipantBody(p)))
        case Err(_) => Handled(calls, Response(500, Message("Failed to join session")))
  }

  /** `updateSessionHandler`: the submitted title and status go to the service unchecked. */
  function UpdateSessionHandler(id: string, title: Option<string>, status: Option<string>,
                                updated: Result<Session, DbError>): (h: Handled)
    ensures h.calls == [UpdateSessionCall(id, SessionUpdate(title, status))]
    ensures updated.Ok? ==> h.response == Response(200, SessionBody(updated.value))
    ensures updated.Err? ==> h.response == Response(500, Message("Failed to update session"))
  {
    var calls := [UpdateSessionCall(id, SessionUpdate(title, status))];
    match updated
    case Ok(s) => Handled(calls, Response(200, SessionBody(s)))
    case Err(_) => Handled(calls, Response(500, Message("Failed to update session")))
  }

  /**
   * `endSessionHandler`: ends the session, then enqueues one processing job for it,
   * then answers with the ended session. A failing end enqueues nothing.
   */
  function EndSessionHandler(id: string, ended: Result<Session, DbError>, enqueued: bool): (h: Handled)
    ensures ended.Err? ==> h == Handled([EndSessionCall(id)], Response(500, Message("Failed to end session")))
    ensures ended.Ok? ==> h.calls == [EndSessionCall(id), EnqueueCall(ProcessJobName, id)]
    ensures h.response.status == 200 <==> ended.Ok? && enqueued
    ensures h.response.status == 200 ==> h.response.body == SessionBody(ended.value)
  {
    match ended
    case Err(_) => Handled([EndSessionCall(id)], Response(500, Message("Failed to end session")))
    case Ok(s) =>
      var calls := [EndSessionCall(id), EnqueueCall(ProcessJobName, id)];
      if enqueued then Handled(calls, Response(200, SessionBody(s)))
      else Handled(calls, Response(500, Message("Failed to end session")))
  }

  /** Jobs enqueued by a sequence of handled requests. */
  function JobsOf(calls: seq<Call>): (jobs: seq<string>)
    ensures |jobs| <= |calls|
    decreases |calls|
  {
    if calls == [] then []
    else JobsOf(calls[..|calls| - 1]) + (if calls[|calls| - 1].EnqueueCall? then [calls[|calls| - 1].sessionId] else [])
  }

  /**
   * Every successful end request enqueues its own job: ending the same session twice
   * queues two processing jobs for it, as nothing checks the session was already ended.
   */
  lemma {:induction false} EndTwiceEnqueuesTwice(id: string, first: Session, second: Session)
    ensures JobsOf(EndSessionHandler(id, Ok(first), true).calls + EndSessionHandler(id, Ok(second), true).calls)
         == [id, id]
  {
    var a := EndSessionHandler(id, Ok(first), true).calls;
    var b := EndSessionHandler(id, Ok(second), true).calls;
    var ab := a + b;
    assert ab == [EndSessionCall(id), EnqueueCall(ProcessJobName, id), EndSessionCall(id), EnqueueCall(ProcessJobName, id)];
    var p1, p2, p3 := ab[..1], ab[..2], ab[..3];
    assert p1[..0] == [] && p2[..1] == p1 && p3[..2] == p2 && ab[..3] == p3;
    assert JobsOf(p1) == [];
    assert JobsOf(p2) == [id];
    assert JobsOf(p3) == [id];
  }
}
