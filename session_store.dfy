/**
 * The client session list. Creating a session always ends with a new session, with
 * the given title and no participants, at the front of the list and selected as the
 * current one, whether the request to the server succeeded or not. Fetching replaces
 * the list with two fixed sample sessions when the request succeeds and keeps it
 * otherwise. The request outcome, the fresh id and the clock (in milliseconds) are
 * inputs; each operation returns the states the store passes through.
 */
module SessionStore {
  import opened Common

  datatype Session = Session(id: string, title: string, createdAt: int, participantCount: Option<int>)

  datatype State = State(sessions: seq<Session>, currentSession: Option<Session>, isLoading: bool)

  /** The store before any action. */
  const Initial := State([], None, false)

  /** One asynchronous action: the state set on entry, the state it ends in, and what it returns. */
  datatype Step<T> = Step(entered: State, final: State, returned: T)

  const DayMs := 86400000

  /** `createSession`: the same new session is stored and returned on both paths. */
  function CreateSession(s: State, title: string, responseOk: bool, freshId: string, now: int): (r: Step<Session>)
    ensures r.entered == s.(isLoading := true)
    ensures r.returned.id == freshId && r.returned.title == title
    ensures r.returned.createdAt == now && r.returned.participantCount == Some(0)
    ensures r.final.sessions == [r.returned] + s.sessions
    ensures r.final.currentSession == Some(r.returned)
    ensures !r.final.isLoading
  {
    var entered := s.(isLoading := true);
    if responseOk then
      var created := Session(freshId, title, now, Some(0));
      Step(entered, State([created] + entered.sessions, Some(created), false), created)
    else
      // The failure path builds the same session for demonstration purposes.
      var created := Session(freshId, title, now, Some(0));
      Step(entered, State([created] + entered.sessions, Some(created), false), created)
  }

  /** The two sample sessions shown after a successful fetch at time `now`. */
  function MockSessions(now: int): (ss: seq<Session>)
    ensures |ss| == 2
    ensures ss[0].id == "1" && ss[1].id == "2"
    ensures ss[0].createdAt == now - DayMs && ss[1].createdAt == now - 2 * DayMs
  {
    [ Session("1", "Weekly Podcast Episode #42", now - 86400000, Some(3)),
      Session("2", "Interview with Tech Expert", now - 172800000, Some(2)) ]
  }

  /** `fetchSessions`: the sample list on success, the old list on failure; the selection is kept. */
  function FetchSessions(s: State, responseOk: bool, now: int): (r: Step<()>)
    ensures r.entered == s.(isLoading := true)
    ensures responseOk ==> r.final.sessions == MockSessions(now)
    ensures !responseOk ==> r.final.sessions == s.sessions
    ensures r.final.currentSession == s.currentSession
    ensures !r.final.isLoading
  {
    var entered := s.(isLoading := true);
    if responseOk then Step(entered, entered.(sessions := MockSessions(now), isLoading := false), ())
    else Step(entered, entered.(isLoading := false), ())
  }

  /** `setCurrentSession`: only the selection changes. */
  function SetCurrentSession(s: State, session: Session): (r: State)
    ensures r.currentSession == Some(session)
    ensures r.sessions == s.sessions && r.isLoading == s.isLoading
  {
    s.(currentSession := Some(session))
  }

  /** The server's answer makes no difference to what `createSession` does. */
  lemma CreateIgnoresResponse(s: State, title: string, freshId: string, now: int)
    ensures CreateSession(s, title, true, freshId, now) == CreateSession(s, title, false, freshId, now)
  {
  }

  /** Creating twice puts the later session first: the list is newest first. */
  lemma CreateTwiceNewestFirst(s: State, t1: string, t2: string, ok1: bool, ok2: bool, id1: string, id2: string, now1: int, now2: int)
    ensures var a := CreateSession(s, t1, ok1, id1, now1);
            var b := CreateSession(a.final, t2, ok2, id2, now2);
            b.final.sessions == [b.returned, a.returned] + s.sessions
  {
    var a := CreateSession(s, t1, ok1, id1, now1);
    var b := CreateSession(a.final, t2, ok2, id2, now2);
    assert [b.returned] + ([a.returned] + s.sessions) == [b.returned, a.returned] + s.sessions;
  }

  /**
   * A successful fetch discards a session created before it (unless it happens to carry
   * id "1" or "2"), while that session stays selected.
   */
  lemma FetchForgetsCreated(s: State, title: string, ok: bool, freshId: string, t0: int, t1: int)
    requires freshId != "1" && freshId != "2"
    ensures var c := CreateSession(s, title, ok, freshId, t0);
            var f := FetchSessions(c.final, true, t1);
            c.returned !in f.final.sessions && f.final.currentSession == Some(c.returned)
  {
    var c := CreateSession(s, title, ok, freshId, t0);
    var ms := MockSessions(t1);
    assert forall i :: 0 <= i < |ms| ==> ms[i].id != freshId;
  }
}
