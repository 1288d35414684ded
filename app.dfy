/** server/app.ts: the socket events a connection may send, their routing to
    the handlers of server/handlers, and the disconnect handler that
    reconciles the registry with a dropped connection. */
module App {
  import opened Wrappers
  import opened Types
  import opened Rounds
  import opened Projection
  import opened Sessions
  import opened Registry
  import opened Broadcasts
  import SessionHandlers
  import VotingHandlers
  import JiraHandlers

  /** A dropped connection.  Socket.IO has already taken the connection out
      of every room when the "disconnect" handler runs (lines 90-102).  The
      registry forgets the connection; if it was mapped to a live session,
      the host's departure is announced with host-disconnected and anyone
      else's with the session's new state.  A connection with no mapping,
      or whose session is already gone, emits nothing. */
  method Disconnect(io: Io<SessionState>, m: SessionManager, conn: ConnId)
    requires m.Valid()
    modifies io, m, m.sessions.Values
    ensures m.Valid() && m.Departing(conn).None?
    ensures io.rooms == old(io.rooms)
    ensures old(m.Departing(conn)).None? ==>
      && m.sessions == old(m.sessions) && m.userSessions == old(m.userSessions)
      && io.outbox == old(io.outbox)
    ensures old(m.Departing(conn)).Some? ==>
      var sid := old(m.Departing(conn)).value;
      && m.userSessions == old(m.userSessions) - {conn}
      && (sid !in old(m.sessions) ==> m.sessions == old(m.sessions) && io.outbox == old(io.outbox))
      && (sid in old(m.sessions) ==>
            old(m.sessions)[sid].Data() == RemoveParticipant(old(m.sessions[sid].Data()), conn))
      && (sid in old(m.sessions) && old(m.sessions[sid].hostId) == conn ==>
            && m.sessions == old(m.sessions) - {sid}
            && io.outbox == old(io.outbox) + [Broadcast(sid, io.Members(sid), HostDisconnected)])
      && (sid in old(m.sessions) && old(m.sessions[sid].hostId) != conn ==>
            && m.sessions == old(m.sessions)
            && io.outbox == old(io.outbox) + [
                 Broadcast(sid, io.Members(sid), SessionUpdated(Some(Project(m.sessions[sid].Data()))))])
    ensures forall k :: k in m.sessions && Some(k) != old(m.Departing(conn)) ==>
      m.sessions[k].Data() == old(m.sessions[k].Data())
  {
    var result := m.DisconnectUser(conn);
    if result.None? {
      return;
    }
    var sessionId, session := result.value.sessionId, result.value.session;
    if session.None? {
      return;
    }
    if session.value.hostId == conn {
      io.Emit(sessionId, HostDisconnected);
    } else {
      var state := m.GetSessionState(sessionId);
      io.Emit(sessionId, SessionUpdated(state));
    }
  }

  /** The events a client sends (lines 39-87), with their arguments.  What
      the server cannot compute itself is carried by the event: the fresh id
      a new session gets, and the outcome of the Jira call the handler
      makes. */
  datatype ClientEvent =
    | CreateSession(name: string, freshId: SessionId)
    | JoinSession(sessionId: SessionId, name: string)
    | GetSession(sessionId: SessionId)
    | StartVoting(sessionId: SessionId, story: string)
    | Vote(sessionId: SessionId, estimation: string)
    | RevealVotes(sessionId: SessionId)
    | ResetVotes(sessionId: SessionId)
    | GetBoards(boards: Result<seq<Board>>)
    | GetSprints(boardId: int, sprints: Result<seq<Sprint>>)
    | GetIssues(boardId: int, sprintId: int, issues: Result<seq<Issue>>)
    | StartVotingIssue(sessionId: SessionId, boardId: int, sprintId: int, issue: Option<Issue>)
    | UpdateIssueEstimation(sessionId: SessionId, issueId: string, estimation: string, written: Result<()>)

  /** `socket.on(event, ...)`: each event goes to its one handler with its
      arguments as sent.  An estimate update runs to completion here, with
      nothing in between its check and its continuation. */
  method Dispatch(io: Io<SessionState>, m: SessionManager, caller: ConnId, e: ClientEvent)
    requires m.Valid()
    requires e.CreateSession? ==> e.freshId !in m.sessions
    modifies io, m, m.sessions.Values
    ensures m.Valid()
  {
    match e {
      case CreateSession(name, freshId) =>
        SessionHandlers.CreateSession(io, m, caller, name, freshId);
      case JoinSession(sessionId, name) =>
        SessionHandlers.JoinSession(io, m, caller, sessionId, name);
      case GetSession(sessionId) =>
        SessionHandlers.GetSession(io, m, caller, sessionId);
      case StartVoting(sessionId, story) =>
        VotingHandlers.StartVoting(io, m, caller, sessionId, story);
      case Vote(sessionId, estimation) =>
        VotingHandlers.Vote(io, m, caller, sessionId, estimation);
      case RevealVotes(sessionId) =>
        VotingHandlers.RevealVotes(io, m, caller, sessionId);
      case ResetVotes(sessionId) =>
        VotingHandlers.ResetVotes(io, m, caller, sessionId);
      case GetBoards(boards) =>
        JiraHandlers.GetBoards(io, caller, boards);
      case GetSprints(boardId, sprints) =>
        JiraHandlers.GetSprints(io, caller, boardId, sprints);
      case GetIssues(boardId, sprintId, issues) =>
        JiraHandlers.GetIssues(io, caller, boardId, sprintId, issues);
      case StartVotingIssue(sessionId, boardId, sprintId, issue) =>
        JiraHandlers.StartVotingIssue(io, m, caller, sessionId, boardId, sprintId, issue);
      case UpdateIssueEstimation(sessionId, issueId, estimation, written) =>
        var session := JiraHandlers.BeginUpdateIssueEstimation(io, m, caller, sessionId);
        if session.Some? {
          JiraHandlers.CompleteUpdateIssueEstimation(io, m, caller, session.value, sessionId, issueId, estimation, written);
        }
    }
  }

  /** The host's connection drops: Socket.IO takes it out of every room,
      then the disconnect handler deletes the session and tells the rest of
      the room that the host has gone. */
  method HostDrops(io: Io<SessionState>, m: SessionManager, host: ConnId, sessionId: SessionId)
    requires m.Valid() && m.IsHost(sessionId, host) && m.Departing(host) == Some(sessionId)
    modifies io, m, m.sessions.Values
    ensures m.Valid() && sessionId !in m.sessions
    ensures io.Members(sessionId) == old(io.Members(sessionId)) - {host}
    ensures old(m.sessions[sessionId]).Data() == RemoveParticipant(old(m.sessions[sessionId].Data()), host)
    ensures io.outbox == old(io.outbox) + [Broadcast(sessionId, io.Members(sessionId), HostDisconnected)]
  {
    io.LeaveAll(host);
    Disconnect(io, m, host);
  }

  /** The host has asked for an estimate to be written (its check passed
      and `session` is the object it captured), then drops its connection
      while the Jira write is in flight; the write then succeeds.  The
      session is gone from the registry, yet the continuation still ends the
      round on the detached object, acknowledges, and broadcasts to the
      room, whose members no longer include the host; the session-updated
      it sends carries null. */
  method HostLeavesDuringEstimateWrite(io: Io<SessionState>, m: SessionManager, host: ConnId, session: Session,
                                       issueId: string, estimation: string)
    requires m.Valid() && m.IsHost(session.id, host) && m.sessions[session.id] == session
    requires m.Departing(host) == Some(session.id)
    modifies io, m, m.sessions.Values
    ensures m.Valid() && session.id !in m.sessions
    ensures session.Data() == CommitEstimate(RemoveParticipant(old(session.Data()), host))
    ensures var members := old(io.Members(session.id)) - {host};
      io.outbox == old(io.outbox) + [
        Broadcast(session.id, members, HostDisconnected),
        Reply(host, Succeeded),
        Broadcast(session.id, members, IssueEstimationUpdated(issueId, estimation)),
        Broadcast(session.id, members, SessionUpdated(None))]
  {
    HostDrops(io, m, host, session.id);
    assert m.GetSessionState(session.id) == None;
    JiraHandlers.CompleteUpdateIssueEstimation(io, m, host, session, session.id, issueId, estimation, Success(()));
  }
}
