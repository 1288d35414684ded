/** server/server.ts: the single-file server.  It keeps its own two maps and
    registers every handler inline, with the same guards and effects as the
    modular handlers, plus a meet link per session.  Each handler is proved
    against the same functions of the Rounds module, and this server's own
    projection adds the meet link.  The Jira lookups of lines 271-299 are
    the result mappings of JiraHandlers.GetBoards, GetSprints and
    GetIssues, which are generic in what the server broadcasts. */
module InlineServer {
  import opened Wrappers
  import opened Types
  import opened Rounds
  import opened Projection
  import opened JsValues
  import opened Sessions
  import opened Registry
  import opened Broadcasts
  import SessionHandlers

  class Server {
    var sessions: map<SessionId, Session>
    var userSessions: map<ConnId, SessionId>
    const io: Io<ServerSessionState>

    ghost predicate Valid()
      reads this, sessions.Values
    {
      Registered(sessions)
    }

    constructor(io: Io<ServerSessionState>)
      ensures Valid() && sessions == map[] && userSessions == map[] && this.io == io
    {
      sessions := map[];
      userSessions := map[];
      this.io := io;
    }

    function IsHost(sessionId: SessionId, conn: ConnId): bool
      reads this
    {
      sessionId in sessions && sessions[sessionId].hostId == conn
    }

    /** getSessionState (lines 358-379): null for an unknown id, otherwise
        the projection with the meet link. */
    function GetSessionState(sessionId: SessionId): (r: Option<ServerSessionState>)
      requires Valid()
      reads this, sessions.Values
      ensures r.Some? <==> sessionId in sessions
      ensures r.Some? ==> r.value == ServerProject(sessions[sessionId].Data())
    {
      if sessionId in sessions then Some(ServerProject(sessions[sessionId].Data())) else None
    }

    /** create-session (lines 56-84): the session is registered, and the
        host mapped to it, before the host is added as its participant; the
        result is the registry's.  Then room, callback and broadcast, as in
        the modular handler. */
    method CreateSession(caller: ConnId, name: string, sessionId: SessionId)
      requires Valid() && sessionId !in sessions
      modifies this, io
      ensures Valid() && sessionId in sessions && fresh(sessions[sessionId])
      ensures sessions == old(sessions)[sessionId := sessions[sessionId]]
      ensures userSessions == old(userSessions)[caller := sessionId]
      ensures sessions[sessionId].Data() == NewSession(sessionId, caller, name)
      ensures io.rooms == old(io.rooms)[sessionId := old(io.Members(sessionId)) + {caller}]
      ensures io.outbox == old(io.outbox) + [
        Reply(caller, Created(sessionId)),
        Broadcast(sessionId, io.Members(sessionId),
                  SessionUpdated(Some(ServerProject(NewSession(sessionId, caller, name)))))]
    {
      var session := new Session(sessionId, caller);
      sessions := sessions[sessionId := session];
      userSessions := userSessions[caller := sessionId];
      session.AddParticipant(caller, name);
      var state := GetSessionState(sessionId);
      SessionHandlers.Welcome(io, caller, sessionId, Created(sessionId), state);
    }

    /** join-session (lines 86-116): an unknown id is answered "Session not
        found" with nothing changed; otherwise the connection is mapped,
        the participant added or replaced, and the state is called back and
        broadcast. */
    method JoinSession(caller: ConnId, sessionId: SessionId, name: string)
      requires Valid()
      modifies this, io, sessions.Values
      ensures Valid() && sessions == old(sessions)
      ensures forall k :: k in sessions && k != sessionId ==> sessions[k].Data() == old(sessions[k].Data())
      ensures sessionId !in sessions ==>
        && userSessions == old(userSessions) && io.rooms == old(io.rooms)
        && io.outbox == old(io.outbox) + [Reply(caller, Failed("Session not found"))]
      ensures sessionId in sessions ==>
        && sessions[sessionId].Data() == AddParticipant(old(sessions[sessionId].Data()), caller, name)
        && userSessions == old(userSessions)[caller := sessionId]
        && io.rooms == old(io.rooms)[sessionId := old(io.Members(sessionId)) + {caller}]
        && var state := ServerProject(sessions[sessionId].Data());
           io.outbox == old(io.outbox) + [
             Reply(caller, Found(state)),
             Broadcast(sessionId, io.Members(sessionId), SessionUpdated(Some(state)))]
    {
      if sessionId !in sessions {
        io.Callback(caller, Failed("Session not found"));
        return;
      }
      var session := sessions[sessionId];
      userSessions := userSessions[caller := sessionId];
      session.AddParticipant(caller, name);
      var state := GetSessionState(sessionId);
      SessionHandlers.Welcome(io, caller, sessionId, Found(state.value), state);
    }

    /** start-voting (lines 118-136): host only. */
    method StartVoting(caller: ConnId, sessionId: SessionId, story: string)
      requires Valid()
      modifies io, sessions.Values
      ensures Valid() && io.rooms == old(io.rooms)
      ensures forall k :: k in sessions && k != sessionId ==> sessions[k].Data() == old(sessions[k].Data())
      ensures !IsHost(sessionId, caller) ==>
        io.outbox == old(io.outbox) &&
        (sessionId in sessions ==> sessions[sessionId].Data() == old(sessions[sessionId].Data()))
      ensures IsHost(sessionId, caller) ==>
        && sessions[sessionId].Data() == StartRound(old(sessions[sessionId].Data()), Some(story))
        && io.outbox == old(io.outbox) + [Broadcast(sessionId, io.Members(sessionId), SessionUpdated(GetSessionState(sessionId)))]
    {
      if sessionId !in sessions || sessions[sessionId].hostId != caller {
        return;
      }
      sessions[sessionId].StartVoting(Some(story));
      var state := GetSessionState(sessionId);
      io.Emit(sessionId, SessionUpdated(state));
    }

    /** vote (lines 138-152): while voting is open, by anyone; a
        non-participant records nothing but the state is still broadcast. */
    method Vote(caller: ConnId, sessionId: SessionId, estimation: string)
      requires Valid()
      modifies io, sessions.Values
      ensures Valid() && io.rooms == old(io.rooms)
      ensures forall k :: k in sessions && k != sessionId ==> sessions[k].Data() == old(sessions[k].Data())
      ensures !(sessionId in sessions && old(sessions[sessionId].isVotingOpen)) ==>
        io.outbox == old(io.outbox) &&
        (sessionId in sessions ==> sessions[sessionId].Data() == old(sessions[sessionId].Data()))
      ensures sessionId in sessions && old(sessions[sessionId].isVotingOpen) ==>
        && sessions[sessionId].Data() == RecordVote(old(sessions[sessionId].Data()), caller, estimation)
        && io.outbox == old(io.outbox) + [Broadcast(sessionId, io.Members(sessionId), SessionUpdated(GetSessionState(sessionId)))]
    {
      if sessionId !in sessions || !sessions[sessionId].isVotingOpen {
        return;
      }
      sessions[sessionId].Vote(caller, estimation);
      var state := GetSessionState(sessionId);
      io.Emit(sessionId, SessionUpdated(state));
    }

    /** reveal-votes (lines 154-163): host only; voting need not be open. */
    method RevealVotes(caller: ConnId, sessionId: SessionId)
      requires Valid()
      modifies io, sessions.Values
      ensures Valid() && io.rooms == old(io.rooms)
      ensures forall k :: k in sessions && k != sessionId ==> sessions[k].Data() == old(sessions[k].Data())
      ensures !IsHost(sessionId, caller) ==>
        io.outbox == old(io.outbox) &&
        (sessionId in sessions ==> sessions[sessionId].Data() == old(sessions[sessionId].Data()))
      ensures IsHost(sessionId, caller) ==>
        && sessions[sessionId].Data() == Reveal(old(sessions[sessionId].Data()))
        && io.outbox == old(io.outbox) + [Broadcast(sessionId, io.Members(sessionId), SessionUpdated(GetSessionState(sessionId)))]
    {
      if sessionId !in sessions || sessions[sessionId].hostId != caller {
        return;
      }
      sessions[sessionId].RevealVotes();
      var state := GetSessionState(sessionId);
      io.Emit(sessionId, SessionUpdated(state));
    }

    /** reset-votes (lines 165-186): host only; the round is reset as in the
        modular handler and the meet link is cleared too.  meet-link(null)
        is emitted before the session-updated. */
    method ResetVotes(caller: ConnId, sessionId: SessionId)
      requires Valid()
      modifies io, sessions.Values
      ensures Valid() && io.rooms == old(io.rooms)
      ensures forall k :: k in sessions && k != sessionId ==> sessions[k].Data() == old(sessions[k].Data())
      ensures !IsHost(sessionId, caller) ==>
        io.outbox == old(io.outbox) &&
        (sessionId in sessions ==> sessions[sessionId].Data() == old(sessions[sessionId].Data()))
      ensures IsHost(sessionId, caller) ==>
        && sessions[sessionId].Data() == ServerReset(old(sessions[sessionId].Data()))
        && io.outbox == old(io.outbox) + [
             Broadcast(sessionId, io.Members(sessionId), MeetLink(None)),
             Broadcast(sessionId, io.Members(sessionId), SessionUpdated(GetSessionState(sessionId)))]
    {
      if sessionId !in sessions || sessions[sessionId].hostId != caller {
        return;
      }
      sessions[sessionId].ResetVotesAndMeetLink();
      var state := GetSessionState(sessionId);
      io.EmitAll(sessionId, [MeetLink(None), SessionUpdated(state)]);
    }

    /** meet-link (lines 189-195): host only; `url || null` is stored and
        emitted, then the state. */
    method SetMeetLink(caller: ConnId, sessionId: SessionId, url: Option<string>)
      requires Valid()
      modifies io, sessions.Values
      ensures Valid() && io.rooms == old(io.rooms)
      ensures forall k :: k in sessions && k != sessionId ==> sessions[k].Data() == old(sessions[k].Data())
      ensures !IsHost(sessionId, caller) ==>
        io.outbox == old(io.outbox) &&
        (sessionId in sessions ==> sessions[sessionId].Data() == old(sessions[sessionId].Data()))
      ensures IsHost(sessionId, caller) ==>
        && sessions[sessionId].Data() == Rounds.SetMeetLink(old(sessions[sessionId].Data()), url)
        && io.outbox == old(io.outbox) + [
             Broadcast(sessionId, io.Members(sessionId), MeetLink(OrNull(url))),
             Broadcast(sessionId, io.Members(sessionId), SessionUpdated(GetSessionState(sessionId)))]
    {
      if sessionId !in sessions || sessions[sessionId].hostId != caller {
        return;
      }
      var session := sessions[sessionId];
      session.SetMeetLink(url);
      var state := GetSessionState(sessionId);
      io.EmitAll(sessionId, [MeetLink(OrNull(session.meetLink)), SessionUpdated(state)]);
    }

    /** broadcast-meet-link (lines 198-235): "Session not found" for an
        unknown id, "Not authorized" for anyone but the host; otherwise the
        host is called back and the link is sent to the room.  No session
        changes in any case. */
    method BroadcastMeetLink(caller: ConnId, sessionId: SessionId, meetLink: string)
      modifies io
      ensures io.rooms == old(io.rooms)
      ensures sessionId !in sessions ==>
        io.outbox == old(io.outbox) + [Reply(caller, Failed("Session not found"))]
      ensures sessionId in sessions && sessions[sessionId].hostId != caller ==>
        io.outbox == old(io.outbox) + [Reply(caller, Failed("Not authorized"))]
      ensures IsHost(sessionId, caller) ==>
        io.outbox == old(io.outbox) + [
          Reply(caller, Succeeded),
          Broadcast(sessionId, io.Members(sessionId), ReceiveMeetLink(meetLink))]
    {
      if sessionId !in sessions {
        io.Callback(caller, Failed("Session not found"));
        return;
      }
      if sessions[sessionId].hostId != caller {
        io.Callback(caller, Failed("Not authorized"));
        return;
      }
      io.Callback(caller, Succeeded);
      io.Emit(sessionId, ReceiveMeetLink(meetLink));
    }

    /** disconnect (lines 238-258), after Socket.IO has taken the connection
        out of its rooms.  Only a truthy mapping is acted on; its session,
        if still registered, loses the participant and is deleted, with
        host-disconnected, exactly when the connection is its host, and
        otherwise its state is broadcast.  The mapping is then dropped. */
    method Disconnect(conn: ConnId)
      requires Valid()
      modifies this, io, sessions.Values
      ensures Valid() && io.rooms == old(io.rooms)
      ensures !(conn in old(userSessions) && old(userSessions[conn]) != "") ==>
        && sessions == old(sessions) && userSessions == old(userSessions)
        && io.outbox == old(io.outbox)
      ensures conn in old(userSessions) && old(userSessions[conn]) != "" ==>
        var sid := old(userSessions[conn]);
        && userSessions == old(userSessions) - {conn}
        && (sid !in old(sessions) ==> sessions == old(sessions) && io.outbox == old(io.outbox))
        && (sid in old(sessions) ==>
              old(sessions)[sid].Data() == RemoveParticipant(old(sessions[sid].Data()), conn))
        && (sid in old(sessions) && old(sessions[sid].hostId) == conn ==>
              && sessions == old(sessions) - {sid}
              && io.outbox == old(io.outbox) + [Broadcast(sid, io.Members(sid), HostDisconnected)])
        && (sid in old(sessions) && old(sessions[sid].hostId) != conn ==>
              && sessions == old(sessions)
              && io.outbox == old(io.outbox) + [
                   Broadcast(sid, io.Members(sid), SessionUpdated(Some(ServerProject(sessions[sid].Data()))))])
      ensures forall k :: k in sessions && !(conn in old(userSessions) && k == old(userSessions[conn])) ==>
        sessions[k].Data() == old(sessions[k].Data())
    {
      if conn !in userSessions || userSessions[conn] == "" {
        return;
      }
      var sessionId := userSessions[conn];
      if sessionId in sessions {
        Depart(sessionId, conn);
      }
      userSessions := userSessions - {conn};
    }

    /** The part of disconnect (lines 242-254) that acts on a registered
        session: the participant is removed, then the session is deleted
        with host-disconnected if `conn` was its host, and otherwise its new
        state is broadcast.  Only that one session object changes. */
    method Depart(sessionId: SessionId, conn: ConnId)
      requires Valid() && sessionId in sessions
      modifies this, io, sessions[sessionId]
      ensures Valid() && io.rooms == old(io.rooms) && userSessions == old(userSessions)
      ensures old(sessions)[sessionId].Data() == RemoveParticipant(old(sessions[sessionId].Data()), conn)
      ensures old(sessions[sessionId].hostId) == conn ==>
        && sessions == old(sessions) - {sessionId}
        && io.outbox == old(io.outbox) + [Broadcast(sessionId, io.Members(sessionId), HostDisconnected)]
      ensures old(sessions[sessionId].hostId) != conn ==>
        && sessions == old(sessions)
        && io.outbox == old(io.outbox) + [
             Broadcast(sessionId, io.Members(sessionId), SessionUpdated(Some(ServerProject(sessions[sessionId].Data()))))]
      ensures forall k :: k in sessions && k != sessionId ==> sessions[k].Data() == old(sessions[k].Data())
    {
      var session := sessions[sessionId];
      session.RemoveParticipant(conn);
      if session.hostId == conn {
        sessions := sessions - {sessionId};
        io.Emit(sessionId, HostDisconnected);
      } else {
        var state := GetSessionState(sessionId);
        io.Emit(sessionId, SessionUpdated(state));
      }
    }

    /** get-session (lines 261-269): read only; the state, or "Session not
        found".  Nothing in it can throw, so its catch is never taken. */
    method GetSession(caller: ConnId, sessionId: SessionId)
      requires Valid()
      modifies io
      ensures io.rooms == old(io.rooms)
      ensures sessionId !in sessions ==> io.outbox == old(io.outbox) + [Reply(caller, Failed("Session not found"))]
      ensures sessionId in sessions ==>
        io.outbox == old(io.outbox) + [Reply(caller, Found(ServerProject(sessions[sessionId].Data())))]
    {
      var state := GetSessionState(sessionId);
      if state.Some? {
        io.Callback(caller, Found(state.value));
      } else {
        io.Callback(caller, Failed("Session not found"));
      }
    }

    /** start-voting-issue (lines 301-322): host only.  The board, sprint
        and issue are stored first; a null issue, or one without `fields`,
        then throws, leaving them stored and emitting nothing. */
    method StartVotingIssue(caller: ConnId, sessionId: SessionId, boardId: int, sprintId: int, issue: Option<Issue>)
      requires Valid()
      modifies io, sessions.Values
      ensures Valid() && io.rooms == old(io.rooms)
      ensures forall k :: k in sessions && k != sessionId ==> sessions[k].Data() == old(sessions[k].Data())
      ensures !IsHost(sessionId, caller) ==>
        io.outbox == old(io.outbox) &&
        (sessionId in sessions ==> sessions[sessionId].Data() == old(sessions[sessionId].Data()))
      ensures IsHost(sessionId, caller) && (issue.None? || issue.value.fields.None?) ==>
        && sessions[sessionId].Data() == AttachIssue(old(sessions[sessionId].Data()), boardId, sprintId, issue)
        && io.outbox == old(io.outbox)
      ensures IsHost(sessionId, caller) && issue.Some? && issue.value.fields.Some? ==>
        && sessions[sessionId].Data() == StartIssueRound(old(sessions[sessionId].Data()), boardId, sprintId, issue.value)
        && io.outbox == old(io.outbox) + [Broadcast(sessionId, io.Members(sessionId), SessionUpdated(GetSessionState(sessionId)))]
    {
      if sessionId !in sessions || sessions[sessionId].hostId != caller {
        return;
      }
      var session := sessions[sessionId];
      session.AttachIssue(boardId, sprintId, issue);
      if issue.None? || issue.value.fields.None? {
        return;
      }
      session.StartVoting(issue.value.fields.value.summary);
      var state := GetSessionState(sessionId);
      io.Emit(sessionId, SessionUpdated(state));
    }

    /** update-issue-estimation up to the awaited Jira write (lines
        325-330): "Not authorized" unless the caller hosts a registered
        session; otherwise the session object is kept for the
        continuation. */
    method BeginUpdateIssueEstimation(caller: ConnId, sessionId: SessionId) returns (session: Option<Session>)
      modifies io
      ensures io.rooms == old(io.rooms)
      ensures !IsHost(sessionId, caller) ==>
        session.None? && io.outbox == old(io.outbox) + [Reply(caller, Failed("Not authorized"))]
      ensures IsHost(sessionId, caller) ==>
        session == Some(sessions[sessionId]) && io.outbox == old(io.outbox)
    {
      if sessionId !in sessions || sessions[sessionId].hostId != caller {
        io.Callback(caller, Failed("Not authorized"));
        return None;
      }
      return Some(sessions[sessionId]);
    }

    /** update-issue-estimation after the Jira write (lines 332-354): as in
        the modular handler, the captured object is updated whether or not
        it is still registered; the meet link is kept. */
    method CompleteUpdateIssueEstimation(caller: ConnId, session: Session, sessionId: SessionId,
                                         issueId: string, estimation: string, upstream: Result<()>)
      requires Valid() && session.Valid() && session.id == sessionId
      modifies io, session
      ensures Valid() && session.Valid() && io.rooms == old(io.rooms)
      ensures upstream.Failure? ==>
        session.Data() == old(session.Data()) && io.outbox == old(io.outbox) + [Reply(caller, Failed(upstream.error))]
      ensures upstream.Success? ==>
        && session.Data() == CommitEstimate(old(session.Data()))
        && io.outbox == old(io.outbox) + [
             Reply(caller, Succeeded),
             Broadcast(sessionId, io.Members(sessionId), IssueEstimationUpdated(issueId, estimation)),
             Broadcast(sessionId, io.Members(sessionId), SessionUpdated(GetSessionState(sessionId)))]
    {
      if upstream.Failure? {
        io.Callback(caller, Failed(upstream.error));
        return;
      }
      session.EndEstimatedRound();
      var state := GetSessionState(sessionId);
      io.Callback(caller, Succeeded);
      io.EmitAll(sessionId, [IssueEstimationUpdated(issueId, estimation), SessionUpdated(state)]);
    }
  }
}
