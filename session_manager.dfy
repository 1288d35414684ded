/** The registry of server/sessionManager.ts: sessions by id, and the
    session each connection last created or joined. */
module Registry {
  import opened Wrappers
  import opened OrderedMaps
  import opened Types
  import opened Rounds
  import opened Projection
  import opened Sessions

  /** disconnectUser's result: the session id the connection was mapped to
      and the session found under it, if any. */
  datatype Departure = Departure(sessionId: SessionId, session: Option<Session>)

  /** Every session is registered under its own id and is well formed; so
      two ids never share a session object. */
  ghost predicate Registered(sessions: map<SessionId, Session>)
    reads sessions.Values
  {
    forall k :: k in sessions ==> sessions[k].id == k && sessions[k].Valid()
  }

  class SessionManager {
    var sessions: map<SessionId, Session>
    var userSessions: map<ConnId, SessionId>

    ghost predicate Valid()
      reads this, sessions.Values
    {
      Registered(sessions)
    }

    constructor()
      ensures Valid() && sessions == map[] && userSessions == map[]
    {
      sessions := map[];
      userSessions := map[];
    }

    /** Whether `conn` is the host of a registered session `sessionId`: the
        guard of every host-only action. */
    function IsHost(sessionId: SessionId, conn: ConnId): bool
      reads this
    {
      sessionId in sessions && sessions[sessionId].hostId == conn
    }

    /** The session id `disconnectUser` acts on: the connection's mapping
        when it is truthy (`if (!sessionId) return null`). */
    function Departing(conn: ConnId): (r: Option<SessionId>)
      reads this
      ensures r.Some? <==> conn in userSessions && userSessions[conn] != ""
      ensures r.Some? ==> r.value == userSessions[conn]
    {
      if conn in userSessions && userSessions[conn] != "" then Some(userSessions[conn]) else None
    }

    /** createSession: `sessionId` stands for the fresh uuid.  The new
        session holds only the host; the host's connection is mapped to it;
        no other session changes. */
    method CreateSession(hostId: ConnId, hostName: string, sessionId: SessionId) returns (session: Session)
      requires Valid() && sessionId !in sessions
      modifies this
      ensures Valid() && fresh(session)
      ensures sessions == old(sessions)[sessionId := session]
      ensures userSessions == old(userSessions)[hostId := sessionId]
      ensures session.Data() == NewSession(sessionId, hostId, hostName)
    {
      session := new Session(sessionId, hostId);
      session.AddParticipant(hostId, hostName);
      sessions := sessions[sessionId := session];
      userSessions := userSessions[hostId := sessionId];
    }

    /** joinSession: null for an unknown id, with nothing changed; otherwise
        the participant is added or replaced and the connection is mapped to
        this session, even if it was mapped to another one before. */
    method JoinSession(socketId: ConnId, sessionId: SessionId, userName: string) returns (r: Option<Session>)
      requires Valid()
      modifies this, sessions.Values
      ensures Valid() && sessions == old(sessions)
      ensures sessionId !in sessions ==> r.None? && userSessions == old(userSessions)
      ensures sessionId in sessions ==>
        && r == Some(sessions[sessionId])
        && userSessions == old(userSessions)[socketId := sessionId]
        && sessions[sessionId].Data() == AddParticipant(old(sessions[sessionId].Data()), socketId, userName)
      ensures forall k :: k in sessions && k != sessionId ==> sessions[k].Data() == old(sessions[k].Data())
    {
      if sessionId !in sessions {
        return None;
      }
      var session := sessions[sessionId];
      session.AddParticipant(socketId, userName);
      userSessions := userSessions[socketId := sessionId];
      return Some(session);
    }

    /** getSession. */
    function GetSession(sessionId: SessionId): (r: Option<Session>)
      reads this
      ensures r.Some? <==> sessionId in sessions
      ensures r.Some? ==> r.value == sessions[sessionId]
    {
      if sessionId in sessions then Some(sessions[sessionId]) else None
    }

    /** getUserSession. */
    function GetUserSession(socketId: ConnId): (r: Option<SessionId>)
      reads this
      ensures r.Some? <==> socketId in userSessions
      ensures r.Some? ==> r.value == userSessions[socketId]
    {
      if socketId in userSessions then Some(userSessions[socketId]) else None
    }

    /** deleteSession: only the registry entry goes; connections mapped to
        it stay mapped. */
    method DeleteSession(sessionId: SessionId)
      requires Valid()
      modifies this
      ensures Valid()
      ensures sessions == old(sessions) - {sessionId}
      ensures userSessions == old(userSessions)
    {
      sessions := sessions - {sessionId};
    }

    /** disconnectUser: null for a connection with no (truthy) mapping, with
        nothing changed.  Otherwise the participant leaves the session it is
        mapped to, the session is deleted exactly when the connection is its
        host, the mapping is dropped in every case (so a second call gives
        null), and no other session changes. */
    method DisconnectUser(socketId: ConnId) returns (r: Option<Departure>)
      requires Valid()
      modifies this, sessions.Values
      ensures Valid()
      ensures Departing(socketId).None?
      ensures old(Departing(socketId)).None? ==>
        r.None? && sessions == old(sessions) && userSessions == old(userSessions)
      ensures old(Departing(socketId)).Some? ==>
        var sid := old(Departing(socketId)).value;
        && r == Some(Departure(sid, old(GetSession(sid))))
        && userSessions == old(userSessions) - {socketId}
        && (sid !in old(sessions) ==> sessions == old(sessions))
        && (sid in old(sessions) ==>
              && old(sessions)[sid].Data() == RemoveParticipant(old(sessions[sid].Data()), socketId)
              && sessions == if old(sessions)[sid].hostId == socketId then old(sessions) - {sid} else old(sessions))
      ensures forall k :: k in old(sessions) && Some(k) != old(Departing(socketId)) ==>
        old(sessions)[k].Data() == old(sessions[k].Data())
    {
      if socketId !in userSessions || userSessions[socketId] == "" {
        return None;
      }
      var sessionId := userSessions[socketId];
      var session := GetSession(sessionId);
      if session.Some? {
        var s := session.value;
        s.RemoveParticipant(socketId);
        if s.hostId == socketId {
          sessions := sessions - {sessionId};
        }
      }
      userSessions := userSessions - {socketId};
      return Some(Departure(sessionId, session));
    }

    /** getSessionState: null for an unknown id, otherwise the projection
        of the session's current value. */
    function GetSessionState(sessionId: SessionId): (r: Option<SessionState>)
      requires Valid()
      reads this, sessions.Values
      ensures r.Some? <==> sessionId in sessions
      ensures r.Some? ==> r.value == Project(sessions[sessionId].Data())
    {
      if sessionId in sessions then Some(Project(sessions[sessionId].Data())) else None
    }
  }
}
