/** The session record of server/types.ts:8-19 (with the `meetLink` of
    server/server.ts:38) as an object the handlers update in place. */
module Sessions {
  import opened Wrappers
  import opened OrderedMaps
  import opened Types
  import opened Rounds
  import opened JsValues

  class Session {
    const id: SessionId
    const hostId: ConnId
    var participants: OrderedMap<ConnId, Participant>
    var currentStory: Option<string>
    var currentIssue: Option<Issue>
    var isVotingOpen: bool
    var votes: map<ConnId, string>
    var revealedVotes: bool
    var boardId: Option<int>
    var sprintId: Option<int>
    var meetLink: Option<string>

    /** The record's current value. */
    function Data(): SessionData
      reads this
    {
      SessionData(id, hostId, participants, currentStory, currentIssue, isVotingOpen,
                  votes, revealedVotes, boardId, sprintId, meetLink)
    }

    ghost predicate Valid()
      reads this
    {
      WellFormed(Data())
    }

    /** The object literal of createSession: no participant yet, voting
        closed, votes hidden, nothing else set. */
    constructor(id: SessionId, hostId: ConnId)
      ensures Valid()
      ensures Data() == SessionData(id, hostId, Empty(), None, None, false, map[], false, None, None, None)
    {
      this.id := id;
      this.hostId := hostId;
      participants := Empty();
      currentStory := None;
      currentIssue := None;
      isVotingOpen := false;
      votes := map[];
      revealedVotes := false;
      boardId := None;
      sprintId := None;
      meetLink := None;
    }

    /** `session.meetLink = url || null` (server/server.ts:192; the reset of
        line 182 assigns undefined, which is the same). */
    method SetMeetLink(url: Option<string>)
      requires Valid()
      modifies this
      ensures Valid() && Data() == Rounds.SetMeetLink(old(Data()), url)
    {
      meetLink := OrNull(url);
    }

    /** `session.participants.set(conn, { id, name, socketId })`, with the
        connection's id as both ids and no vote. */
    method AddParticipant(conn: ConnId, name: string)
      requires Valid()
      modifies this
      ensures Valid() && Data() == Rounds.AddParticipant(old(Data()), conn, name)
    {
      participants := participants.Set(conn, Participant(conn, name, conn, None));
    }

    /** `session.participants.delete(conn)`. */
    method RemoveParticipant(conn: ConnId)
      requires Valid()
      modifies this
      ensures Valid() && Data() == Rounds.RemoveParticipant(old(Data()), conn)
    {
      participants := participants.Delete(conn);
    }

    /** `session.participants.forEach((p) => { p.vote = undefined; })`:
        each participant, in join order, loses its vote. */
    method ClearVotes()
      requires Valid()
      modifies this
      ensures Valid()
      ensures Data() == old(Data()).(participants := ClearedVotes(old(participants)))
    {
      participants := ClearEach(participants);
    }

    /** Lines 12-19 of votingHandlers.ts (lines 125-133 of server.ts alike):
        the story is set, voting opens, the votes are cleared and hidden. */
    method StartVoting(story: Option<string>)
      requires Valid()
      modifies this
      ensures Valid() && Data() == StartRound(old(Data()), story)
    {
      currentStory := story;
      isVotingOpen := true;
      votes := map[];
      revealedVotes := false;
      ClearVotes();
    }

    /** Lines 28-32 of votingHandlers.ts: a participant's vote and its
        shadow entry are overwritten; anyone else changes nothing. */
    method Vote(conn: ConnId, estimation: string)
      requires Valid()
      modifies this
      ensures Valid() && Data() == RecordVote(old(Data()), conn, estimation)
    {
      var participant := participants.Get(conn);
      if participant.Some? {
        participants := participants.Set(conn, participant.value.(vote := Some(estimation)));
        votes := votes[conn := estimation];
      }
    }

    /** Line 41 of votingHandlers.ts. */
    method RevealVotes()
      requires Valid()
      modifies this
      ensures Valid() && Data() == Reveal(old(Data()))
    {
      revealedVotes := true;
    }

    /** Lines 49-56 of votingHandlers.ts. */
    method ResetVotes()
      requires Valid()
      modifies this
      ensures Valid() && Data() == Reset(old(Data()))
    {
      votes := map[];
      revealedVotes := false;
      currentStory := None;
      isVotingOpen := false;
      ClearVotes();
    }

    /** Lines 172-182 of server.ts: the reset of the modular handler, and
        the meet link is cleared. */
    method ResetVotesAndMeetLink()
      requires Valid()
      modifies this
      ensures Valid() && Data() == ServerReset(old(Data()))
    {
      ResetVotes();
      SetMeetLink(None);
    }

    /** Lines 38-40 of jiraHandlers.ts: the board, the sprint and the issue
        are recorded. */
    method AttachIssue(boardId: int, sprintId: int, issue: Option<Issue>)
      requires Valid()
      modifies this
      ensures Valid() && Data() == Rounds.AttachIssue(old(Data()), boardId, sprintId, issue)
    {
      this.boardId := Some(boardId);
      this.sprintId := Some(sprintId);
      currentIssue := issue;
    }

    /** Lines 70-77 of jiraHandlers.ts: the round on the estimated issue
        ends and the issue is dropped. */
    method EndEstimatedRound()
      requires Valid()
      modifies this
      ensures Valid() && Data() == CommitEstimate(old(Data()))
    {
      isVotingOpen := false;
      votes := map[];
      revealedVotes := false;
      currentStory := None;
      currentIssue := None;
      ClearVotes();
    }
  }

  /** The loop of `participants.forEach`: the participants are visited in
      join order and each one's vote is set to undefined in place, so the
      roster and its order do not change. */
  method ClearEach(participants: OrderedMap<ConnId, Participant>) returns (pm: OrderedMap<ConnId, Participant>)
    requires participants.Valid()
    ensures pm == ClearedVotes(participants)
  {
    var keys, entries := participants.keys, participants.entries;
    var i := 0;
    while i < |keys|
      invariant 0 <= i <= |keys|
      invariant entries.Keys == participants.entries.Keys
      invariant forall k :: k in entries ==>
        entries[k] == if k in keys[..i] then participants.entries[k].(vote := None) else participants.entries[k]
    {
      var k := keys[i];
      assert keys[..i + 1] == keys[..i] + [k];
      entries := entries[k := entries[k].(vote := None)];
      i := i + 1;
    }
    assert keys[..i] == keys;
    pm := OrderedMap(keys, entries);
  }
}
