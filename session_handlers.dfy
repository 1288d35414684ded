/** server/handlers/sessionHandlers.ts: creating, joining and reading a
    session.  Names are not checked; an empty name is accepted. */
module SessionHandlers {
  import opened Wrappers
  import opened Types
  import opened Rounds
  import opened Projection
  import opened Sessions
  import opened Registry
  import opened Broadcasts

  /** createSession (lines 6-13): register the session (`sessionId` stands
      for the fresh uuid), put the caller in its room, call back with the
      id alone, then broadcast the projection. */
  method CreateSession(io: Io<SessionState>, m: SessionManager, caller: ConnId, name: string, sessionId: SessionId)
    requires m.Valid() && sessionId !in m.sessions
    modifies io, m
    ensures m.Valid() && sessionId in m.sessions && fresh(m.sessions[sessionId])
    ensures m.sessions == old(m.sessions)[sessionId := m.sessions[sessionId]]
    ensures m.userSessions == old(m.userSessions)[caller := sessionId]
    ensures m.sessions[sessionId].Data() == NewSession(sessionId, caller, name)
    ensures io.rooms == old(io.rooms)[sessionId := old(io.Members(sessionId)) + {caller}]
    ensures io.outbox == old(io.outbox) + [
      Reply(caller, Created(sessionId)),
      Broadcast(sessionId, io.Members(sessionId), SessionUpdated(Some(Project(NewSession(sessionId, caller, name)))))]
  {
    var session := m.CreateSession(caller, name, sessionId);
    var state := m.GetSessionState(sessionId);
    Welcome(io, caller, sessionId, Created(sessionId), state);
  }

  /** joinSession (lines 15-30): an unknown id is answered with "Session
      not found" and changes nothing; otherwise the caller joins the
      session and its room, is called back with the projection, which
      already lists it, and the same projection is broadcast. */
  method JoinSession(io: Io<SessionState>, m: SessionManager, caller: ConnId, sessionId: SessionId, name: string)
    requires m.Valid()
    modifies io, m, m.sessions.Values
    ensures m.Valid() && m.sessions == old(m.sessions)
    ensures forall k :: k in m.sessions && k != sessionId ==> m.sessions[k].Data() == old(m.sessions[k].Data())
    ensures sessionId !in m.sessions ==>
      && m.userSessions == old(m.userSessions) && io.rooms == old(io.rooms)
      && io.outbox == old(io.outbox) + [Reply(caller, Failed("Session not found"))]
    ensures sessionId in m.sessions ==>
      && m.sessions[sessionId].Data() == AddParticipant(old(m.sessions[sessionId].Data()), caller, name)
      && m.userSessions == old(m.userSessions)[caller := sessionId]
      && io.rooms == old(io.rooms)[sessionId := old(io.Members(sessionId)) + {caller}]
      && var state := Project(m.sessions[sessionId].Data());
         io.outbox == old(io.outbox) + [
           Reply(caller, Found(state)),
           Broadcast(sessionId, io.Members(sessionId), SessionUpdated(Some(state)))]
  {
    var session := m.JoinSession(caller, sessionId, name);
    if session.None? {
      io.Callback(caller, Failed("Session not found"));
      return;
    }
    var sessionState := m.GetSessionState(sessionId);
    Welcome(io, caller, sessionId, Found(sessionState.value), sessionState);
  }

  /** What create and join both do once the registry has the caller: the
      connection joins the session's room, is called back, and the whole
      room, the caller included, is sent the session's state. */
  method Welcome<S>(io: Io<S>, caller: ConnId, sessionId: SessionId, response: Response<S>, state: Option<S>)
    modifies io
    ensures io.rooms == old(io.rooms)[sessionId := old(io.Members(sessionId)) + {caller}]
    ensures caller in io.Members(sessionId)
    ensures io.outbox == old(io.outbox) + [
      Reply(caller, response),
      Broadcast(sessionId, io.Members(sessionId), SessionUpdated(state))]
  {
    io.Join(caller, sessionId);
    io.Callback(caller, response);
    io.Emit(sessionId, SessionUpdated(state));
  }

  /** getSession (lines 32-39): read only; one callback, no broadcast. */
  method GetSession(io: Io<SessionState>, m: SessionManager, caller: ConnId, sessionId: SessionId)
    requires m.Valid()
    modifies io
    ensures io.rooms == old(io.rooms)
    ensures sessionId !in m.sessions ==> io.outbox == old(io.outbox) + [Reply(caller, Failed("Session not found"))]
    ensures sessionId in m.sessions ==>
      io.outbox == old(io.outbox) + [Reply(caller, Found(Project(m.sessions[sessionId].Data())))]
  {
    var sessionState := m.GetSessionState(sessionId);
    if sessionState.None? {
      io.Callback(caller, Failed("Session not found"));
      return;
    }
    io.Callback(caller, Found(sessionState.value));
  }
}
