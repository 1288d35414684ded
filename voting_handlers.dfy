/** server/handlers/votingHandlers.ts: the round controller.  Each handler
    looks the session up, checks its guard, updates the session object in
    place and emits one session-updated, computed after the update, to the
    session's room.  A handler whose guard fails changes nothing and emits
    nothing. */
module VotingHandlers {
  import opened Wrappers
  import opened Types
  import opened Rounds
  import opened Sessions
  import opened Registry
  import opened Broadcasts

  /** startVoting (lines 7-22): host only. */
  method StartVoting(io: Io<SessionState>, m: SessionManager, caller: ConnId, sessionId: SessionId, story: string)
    requires m.Valid()
    modifies io, m.sessions.Values
    ensures m.Valid() && io.rooms == old(io.rooms)
    ensures forall k :: k in m.sessions && k != sessionId ==> m.sessions[k].Data() == old(m.sessions[k].Data())
    ensures !m.IsHost(sessionId, caller) ==>
      io.outbox == old(io.outbox) &&
      (sessionId in m.sessions ==> m.sessions[sessionId].Data() == old(m.sessions[sessionId].Data()))
    ensures m.IsHost(sessionId, caller) ==>
      && m.sessions[sessionId].Data() == StartRound(old(m.sessions[sessionId].Data()), Some(story))
      && io.outbox == old(io.outbox) + [Broadcast(sessionId, io.Members(sessionId), SessionUpdated(m.GetSessionState(sessionId)))]
  {
    var session := m.GetSession(sessionId);
    if session.None? || session.value.hostId != caller {
      return;
    }
    session.value.StartVoting(Some(story));
    var state := m.GetSessionState(sessionId);
    io.Emit(sessionId, SessionUpdated(state));
  }

  /** vote (lines 24-35): anyone, while voting is open, even after the
      reveal.  A caller that is not a participant records nothing, but the
      session-updated is emitted all the same. */
  method Vote(io: Io<SessionState>, m: SessionManager, caller: ConnId, sessionId: SessionId, estimation: string)
    requires m.Valid()
    modifies io, m.sessions.Values
    ensures m.Valid() && io.rooms == old(io.rooms)
    ensures forall k :: k in m.sessions && k != sessionId ==> m.sessions[k].Data() == old(m.sessions[k].Data())
    ensures !(sessionId in m.sessions && old(m.sessions[sessionId].isVotingOpen)) ==>
      io.outbox == old(io.outbox) &&
      (sessionId in m.sessions ==> m.sessions[sessionId].Data() == old(m.sessions[sessionId].Data()))
    ensures sessionId in m.sessions && old(m.sessions[sessionId].isVotingOpen) ==>
      && m.sessions[sessionId].Data() == RecordVote(old(m.sessions[sessionId].Data()), caller, estimation)
      && io.outbox == old(io.outbox) + [Broadcast(sessionId, io.Members(sessionId), SessionUpdated(m.GetSessionState(sessionId)))]
  {
    var session := m.GetSession(sessionId);
    if session.None? || !session.value.isVotingOpen {
      return;
    }
    session.value.Vote(caller, estimation);
    var state := m.GetSessionState(sessionId);
    io.Emit(sessionId, SessionUpdated(state));
  }

  /** revealVotes (lines 37-43): host only; voting need not be open. */
  method RevealVotes(io: Io<SessionState>, m: SessionManager, caller: ConnId, sessionId: SessionId)
    requires m.Valid()
    modifies io, m.sessions.Values
    ensures m.Valid() && io.rooms == old(io.rooms)
    ensures forall k :: k in m.sessions && k != sessionId ==> m.sessions[k].Data() == old(m.sessions[k].Data())
    ensures !m.IsHost(sessionId, caller) ==>
      io.outbox == old(io.outbox) &&
      (sessionId in m.sessions ==> m.sessions[sessionId].Data() == old(m.sessions[sessionId].Data()))
    ensures m.IsHost(sessionId, caller) ==>
      && m.sessions[sessionId].Data() == Reveal(old(m.sessions[sessionId].Data()))
      && io.outbox == old(io.outbox) + [Broadcast(sessionId, io.Members(sessionId), SessionUpdated(m.GetSessionState(sessionId)))]
  {
    var session := m.GetSession(sessionId);
    if session.None? || session.value.hostId != caller {
      return;
    }
    session.value.RevealVotes();
    var state := m.GetSessionState(sessionId);
    io.Emit(sessionId, SessionUpdated(state));
  }

  /** resetVotes (lines 45-59): host only. */
  method ResetVotes(io: Io<SessionState>, m: SessionManager, caller: ConnId, sessionId: SessionId)
    requires m.Valid()
    modifies io, m.sessions.Values
    ensures m.Valid() && io.rooms == old(io.rooms)
    ensures forall k :: k in m.sessions && k != sessionId ==> m.sessions[k].Data() == old(m.sessions[k].Data())
    ensures !m.IsHost(sessionId, caller) ==>
      io.outbox == old(io.outbox) &&
      (sessionId in m.sessions ==> m.sessions[sessionId].Data() == old(m.sessions[sessionId].Data()))
    ensures m.IsHost(sessionId, caller) ==>
      && m.sessions[sessionId].Data() == Reset(old(m.sessions[sessionId].Data()))
      && io.outbox == old(io.outbox) + [Broadcast(sessionId, io.Members(sessionId), SessionUpdated(m.GetSessionState(sessionId)))]
  {
    var session := m.GetSession(sessionId);
    if session.None? || session.value.hostId != caller {
      return;
    }
    session.value.ResetVotes();
    var state := m.GetSessionState(sessionId);
    io.Emit(sessionId, SessionUpdated(state));
  }
}
