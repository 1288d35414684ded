/** server/handlers/jiraHandlers.ts.  Calls to the Jira client
    (server/jira.ts) are not modelled: each handler is given the call's
    outcome as a `Result`, an upstream error already turned into its
    message. */
module JiraHandlers {
  import opened Wrappers
  import opened Types
  import opened Rounds
  import opened Sessions
  import opened Registry
  import opened Broadcasts

  /** getBoards (lines 7-14): the boards, or the error as a failure reply;
      nothing is thrown. */
  method GetBoards<S>(io: Io<S>, caller: ConnId, upstream: Result<seq<Board>>)
    modifies io
    ensures io.rooms == old(io.rooms)
    ensures upstream.Success? ==> io.outbox == old(io.outbox) + [Reply(caller, BoardsListed(upstream.value))]
    ensures upstream.Failure? ==> io.outbox == old(io.outbox) + [Reply(caller, Failed(upstream.error))]
  {
    match upstream {
      case Success(boards) => io.Callback(caller, BoardsListed(boards));
      case Failure(error) => io.Callback(caller, Failed(error));
    }
  }

  /** getSprints (lines 16-23): the board's sprints, or the error. */
  method GetSprints<S>(io: Io<S>, caller: ConnId, boardId: int, upstream: Result<seq<Sprint>>)
    modifies io
    ensures io.rooms == old(io.rooms)
    ensures upstream.Success? ==> io.outbox == old(io.outbox) + [Reply(caller, SprintsListed(upstream.value))]
    ensures upstream.Failure? ==> io.outbox == old(io.outbox) + [Reply(caller, Failed(upstream.error))]
  {
    match upstream {
      case Success(sprints) => io.Callback(caller, SprintsListed(sprints));
      case Failure(error) => io.Callback(caller, Failed(error));
    }
  }

  /** getIssues (lines 25-32): the sprint's issues, or the error. */
  method GetIssues<S>(io: Io<S>, caller: ConnId, boardId: int, sprintId: int, upstream: Result<seq<Issue>>)
    modifies io
    ensures io.rooms == old(io.rooms)
    ensures upstream.Success? ==> io.outbox == old(io.outbox) + [Reply(caller, IssuesListed(upstream.value))]
    ensures upstream.Failure? ==> io.outbox == old(io.outbox) + [Reply(caller, Failed(upstream.error))]
  {
    match upstream {
      case Success(issues) => io.Callback(caller, IssuesListed(issues));
      case Failure(error) => io.Callback(caller, Failed(error));
    }
  }

  /** startVotingIssue (lines 34-51): host only.  The board, the sprint and
      the issue are stored first; a null issue, or one without `fields`,
      then makes `issue.fields.summary` throw, which leaves those three
      written and emits nothing.  Otherwise a round starts on the summary and one
      session-updated is emitted. */
  method StartVotingIssue(io: Io<SessionState>, m: SessionManager, caller: ConnId, sessionId: SessionId,
                          boardId: int, sprintId: int, issue: Option<Issue>)
    requires m.Valid()
    modifies io, m.sessions.Values
    ensures m.Valid() && io.rooms == old(io.rooms)
    ensures forall k :: k in m.sessions && k != sessionId ==> m.sessions[k].Data() == old(m.sessions[k].Data())
    ensures !m.IsHost(sessionId, caller) ==>
      io.outbox == old(io.outbox) &&
      (sessionId in m.sessions ==> m.sessions[sessionId].Data() == old(m.sessions[sessionId].Data()))
    ensures m.IsHost(sessionId, caller) && (issue.None? || issue.value.fields.None?) ==>
      && m.sessions[sessionId].Data() == AttachIssue(old(m.sessions[sessionId].Data()), boardId, sprintId, issue)
      && io.outbox == old(io.outbox)
    ensures m.IsHost(sessionId, caller) && issue.Some? && issue.value.fields.Some? ==>
      && m.sessions[sessionId].Data() == StartIssueRound(old(m.sessions[sessionId].Data()), boardId, sprintId, issue.value)
      && io.outbox == old(io.outbox) + [Broadcast(sessionId, io.Members(sessionId), SessionUpdated(m.GetSessionState(sessionId)))]
  {
    var session := m.GetSession(sessionId);
    if session.None? || session.value.hostId != caller {
      return;
    }
    var s := session.value;
    s.AttachIssue(boardId, sprintId, issue);
    if issue.None? || issue.value.fields.None? {
      return;
    }
    s.StartVoting(issue.value.fields.value.summary);
    var state := m.GetSessionState(sessionId);
    io.Emit(sessionId, SessionUpdated(state));
  }

  /** updateIssueEstimation up to the awaited Jira write (lines 60-64):
      an unknown session or a caller other than the host is answered "Not
      authorized", and the write is not attempted.  Otherwise the session
      object is handed to the continuation; nothing has changed yet. */
  method BeginUpdateIssueEstimation(io: Io<SessionState>, m: SessionManager, caller: ConnId, sessionId: SessionId)
    returns (session: Option<Session>)
    modifies io
    ensures io.rooms == old(io.rooms)
    ensures !m.IsHost(sessionId, caller) ==>
      session.None? && io.outbox == old(io.outbox) + [Reply(caller, Failed("Not authorized"))]
    ensures m.IsHost(sessionId, caller) ==>
      session == Some(m.sessions[sessionId]) && io.outbox == old(io.outbox)
  {
    var found := m.GetSession(sessionId);
    if found.None? || found.value.hostId != caller {
      io.Callback(caller, Failed("Not authorized"));
      return None;
    }
    return found;
  }

  /** updateIssueEstimation after the Jira write (lines 66-85).  Neither the
      session's registration nor the caller's authority is checked again:
      the session object captured before the await is updated even if it
      has since been deleted, and the session-updated then carries null.
      A failed write is answered with its error and changes nothing.  A
      successful one ends the round and drops the issue, then calls back
      success, emits issue-estimation-updated and then session-updated. */
  method CompleteUpdateIssueEstimation(io: Io<SessionState>, m: SessionManager, caller: ConnId, session: Session,
                                       sessionId: SessionId, issueId: string, estimation: string, upstream: Result<()>)
    requires m.Valid() && session.Valid() && session.id == sessionId
    modifies io, session
    ensures m.Valid() && session.Valid() && io.rooms == old(io.rooms)
    ensures upstream.Failure? ==>
      session.Data() == old(session.Data()) && io.outbox == old(io.outbox) + [Reply(caller, Failed(upstream.error))]
    ensures upstream.Success? ==>
      && session.Data() == CommitEstimate(old(session.Data()))
      && io.outbox == old(io.outbox) + [
           Reply(caller, Succeeded),
           Broadcast(sessionId, io.Members(sessionId), IssueEstimationUpdated(issueId, estimation)),
           Broadcast(sessionId, io.Members(sessionId), SessionUpdated(m.GetSessionState(sessionId)))]
  {
    if upstream.Failure? {
      io.Callback(caller, Failed(upstream.error));
      return;
    }
    session.EndEstimatedRound();
    var state := m.GetSessionState(sessionId);
    io.Callback(caller, Succeeded);
    io.EmitAll(sessionId, [IssueEstimationUpdated(issueId, estimation), SessionUpdated(state)]);
  }
}
