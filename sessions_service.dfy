/**
 * The session registry over the database tables of sessions and participants.
 * Every write may fail (a fault set names the failing writes by their position);
 * fresh ids and the clock are inputs. Writes happen one after the other and are
 * not grouped in a transaction.
 */
module SessionsService {
  import opened Common

  datatype SessionStatus = Active | Ended

  datatype Session = Session(id: string, title: string, hostId: string, status: SessionStatus, endedAt: Option<int>)

  datatype Participant = Participant(id: string, sessionId: string, displayName: string, userId: Option<string>,
                                     isHost: bool)

  /** A session with all of its participants, as the lookup returns it. */
  datatype SessionView = SessionView(session: Session, participants: seq<Participant>)

  datatype DbError =
    | RecordNotFound        // update of an id that is not in the table
    | ForeignKeyViolation   // participant row for a session that does not exist
    | InvalidValue          // a status other than 'active' or 'ended'
    | WriteFailed           // the database refused the write

  /** The fields an update may carry; an absent field is left alone. */
  datatype SessionUpdate = SessionUpdate(title: Option<string>, status: Option<string>)

  const HostDisplayName := "Host"

  /** The database spelling of a status. */
  function StatusName(st: SessionStatus): string {
    match st
    case Active => "active"
    case Ended => "ended"
  }

  /** The status a submitted string names, if it names one. */
  function ParseStatus(s: string): (st: Option<SessionStatus>)
    ensures st.Some? <==> s == "active" || s == "ended"
  {
    if s == "active" then Some(Active) else if s == "ended" then Some(Ended) else None
  }

  lemma StatusRoundTrip(st: SessionStatus, s: string)
    ensures ParseStatus(StatusName(st)) == Some(st)
    ensures ParseStatus(s).Some? ==> StatusName(ParseStatus(s).value) == s
  {
  }

  /** The values of an update are acceptable: no status, or one of the two statuses. */
  predicate ValidUpdate(data: SessionUpdate) {
    data.status.None? || ParseStatus(data.status.value).Some?
  }

  /** The session an update produces: only the fields present change, and only to valid values. */
  function ApplyUpdate(s: Session, data: SessionUpdate): (r: Result<Session, DbError>)
    ensures r.Err? <==> !ValidUpdate(data)
    ensures r.Err? ==> r.error == InvalidValue
    ensures r.Ok? ==> r.value.id == s.id && r.value.hostId == s.hostId && r.value.endedAt == s.endedAt
    ensures r.Ok? ==> r.value.title == (if data.title.Some? then data.title.value else s.title)
    ensures r.Ok? ==> r.value.status == (if data.status.Some? then ParseStatus(data.status.value).value else s.status)
  {
    if !ValidUpdate(data) then Err(InvalidValue)
    else
      var title := if data.title.Some? then data.title.value else s.title;
      var status := if data.status.Some? then ParseStatus(data.status.value).value else s.status;
      Ok(s.(title := title, status := status))
  }

  /** An update with no fields leaves the session as it is. */
  lemma EmptyUpdateKeeps(s: Session)
    ensures ApplyUpdate(s, SessionUpdate(None, None)) == Ok(s)
  {
  }

  function OfSession(sessionId: string): Participant -> bool {
    (p: Participant) => p.sessionId == sessionId
  }

  class SessionTables {
    var sessions: map<string, Session>
    /** Participant rows in insertion order. */
    var participants: seq<Participant>
    /** The positions, counted over all writes, of the writes that fail. */
    const faults: set<nat>
    var writes: nat

    /** Rows are stored under their own id, and every participant row points at an existing session. */
    ghost predicate Valid()
      reads this
    {
      (forall id :: id in sessions ==> sessions[id].id == id)
      && forall i :: 0 <= i < |participants| ==> participants[i].sessionId in sessions
    }

    constructor(faults: set<nat>)
      ensures Valid()
      ensures this.faults == faults && sessions == map[] && participants == [] && writes == 0
    {
      this.faults := faults;
      sessions, participants, writes := map[], [], 0;
    }

    /** `findSessionById`: the session with its participants in insertion order, or nothing. */
    function FindSessionById(id: string): (r: Option<SessionView>)
      reads this
      ensures r.Some? <==> id in sessions
      ensures r.Some? ==> r.value.session == sessions[id]
      ensures r.Some? ==> forall p :: p in r.value.participants <==> p in participants && p.sessionId == id
    {
      if id in sessions then
        var rows := Filter(participants, OfSession(id));
        assert forall p :: p in rows <==> p in participants && p.sessionId == id by {
          forall p ensures p in rows <==> p in participants && p.sessionId == id {
            FilterIn(participants, OfSession(id), p);
          }
        }
        Some(SessionView(sessions[id], rows))
      else None
    }

    /** `addParticipantToSession`: stores exactly the given fields under a fresh id; a guest unless `isHost` is passed. */
    method AddParticipantToSession(sessionId: string, displayName: string, userId: Option<string>,
                                   participantId: string, isHost: bool := false)
      returns (r: Result<Participant, DbError>)
      requires Valid()
      modifies this
      ensures Valid()
      ensures writes == old(writes) + 1 && sessions == old(sessions)
      ensures old(writes) in faults ==> r == Err(WriteFailed) && participants == old(participants)
      ensures old(writes) !in faults && sessionId !in sessions ==>
                r == Err(ForeignKeyViolation) && participants == old(participants)
      ensures old(writes) !in faults && sessionId in sessions ==>
                r == Ok(Participant(participantId, sessionId, displayName, userId, isHost))
                && participants == old(participants) + [r.value]
    {
      var w := writes;
      writes := writes + 1;
      if w in faults {
        return Err(WriteFailed);
      }
      if sessionId !in sessions {
        return Err(ForeignKeyViolation);
      }
      var p := Participant(participantId, sessionId, displayName, userId, isHost);
      participants := participants + [p];
      return Ok(p);
    }

    /**
     * `createSession`: the session row, then its host participant. The second write can
     * fail after the first succeeded, and the session then stays without a host row.
     */
    method CreateSession(title: string, hostId: string, sessionId: string, hostParticipantId: string)
      returns (r: Result<Session, DbError>)
      requires Valid() && sessionId !in sessions
      modifies this
      ensures Valid()
      ensures old(writes) in faults ==>
                r == Err(WriteFailed) && sessions == old(sessions) && participants == old(participants)
                && writes == old(writes) + 1
      ensures old(writes) !in faults ==>
                sessions == old(sessions)[sessionId := Session(sessionId, title, hostId, Active, None)]
                && writes == old(writes) + 2
      ensures old(writes) !in faults && old(writes) + 1 in faults ==>
                r == Err(WriteFailed) && participants == old(participants)
      ensures old(writes) !in faults && old(writes) + 1 !in faults ==>
                r == Ok(Session(sessionId, title, hostId, Active, None))
                && participants == old(participants) + [Participant(hostParticipantId, sessionId, HostDisplayName, Some(hostId), true)]
    {
      var w := writes;
      writes := writes + 1;
      if w in faults {
        return Err(WriteFailed);
      }
      var s := Session(sessionId, title, hostId, Active, None);
      sessions := sessions[sessionId := s];
      var added := AddParticipantToSession(sessionId, HostDisplayName, Some(hostId), hostParticipantId, true);
      if added.Err? {
        return Err(added.error);
      }
      return Ok(s);
    }

    /** `updateSession`: changes the one session with that id, as ApplyUpdate says. */
    method UpdateSession(id: string, data: SessionUpdate) returns (r: Result<Session, DbError>)
      requires Valid()
      modifies this
      ensures Valid()
      ensures participants == old(participants) && writes == old(writes) + 1
      ensures old(writes) in faults ==> r == Err(WriteFailed) && sessions == old(sessions)
      ensures old(writes) !in faults && !ValidUpdate(data) ==>
                r == Err(InvalidValue) && sessions == old(sessions)
      ensures old(writes) !in faults && ValidUpdate(data) && id !in old(sessions) ==>
                r == Err(RecordNotFound) && sessions == old(sessions)
      ensures old(writes) !in faults && ValidUpdate(data) && id in old(sessions) ==>
                r == ApplyUpdate(old(sessions)[id], data) && sessions == old(sessions)[id := r.value]
    {
      var w := writes;
      writes := writes + 1;
      if w in faults {
        return Err(WriteFailed);
      }
      if !ValidUpdate(data) {
        return Err(InvalidValue);
      }
      if id !in sessions {
        return Err(RecordNotFound);
      }
      r := ApplyUpdate(sessions[id], data);
      sessions := sessions[id := r.value];
    }

    /** `endSession`: status `ended` and the end time; ending twice keeps `ended` and takes the later time. */
    method EndSession(id: string, now: int) returns (r: Result<Session, DbError>)
      requires Valid()
      modifies this
      ensures Valid()
      ensures participants == old(participants) && writes == old(writes) + 1
      ensures old(writes) in faults ==> r == Err(WriteFailed) && sessions == old(sessions)
      ensures old(writes) !in faults && id !in old(sessions) ==> r == Err(RecordNotFound) && sessions == old(sessions)
      ensures old(writes) !in faults && id in old(sessions) ==>
                r == Ok(old(sessions)[id].(status := Ended, endedAt := Some(now)))
                && sessions == old(sessions)[id := r.value]
    {
      var w := writes;
      writes := writes + 1;
      if w in faults {
        return Err(WriteFailed);
      }
      if id !in sessions {
        return Err(RecordNotFound);
      }
      var s := sessions[id].(status := Ended, endedAt := Some(now));
      sessions := sessions[id := s];
      return Ok(s);
    }
  }
}
