/** The registry's and the round controller's effect on one session, as
    functions from the session's value before to its value after.  The
    handlers in server/handlers, server/sessionManager.ts and the
    inline handlers of server/server.ts are methods proved against these. */
module Rounds {
  import opened Wrappers
  import opened OrderedMaps
  import opened Types
  import opened Projection
  import opened JsValues

  // ---- predicates the contracts are phrased in ----

  /** No participant holds a vote. */
  ghost predicate NobodyVoted(pm: OrderedMap<ConnId, Participant>) {
    forall k :: k in pm.entries ==> pm.entries[k].vote.None?
  }

  /** The same participants, in the same order, under the same names; only
      their votes may differ. */
  ghost predicate SameRoster(a: OrderedMap<ConnId, Participant>, b: OrderedMap<ConnId, Participant>) {
    && a.keys == b.keys
    && (forall k :: k in a.entries <==> k in b.entries)
    && forall k :: k in a.entries ==>
         a.entries[k].id == b.entries[k].id && a.entries[k].name == b.entries[k].name &&
         a.entries[k].socketId == b.entries[k].socketId
  }

  /** The fields no round action touches: identity, host, the Jira context
      and the meet link. */
  ghost predicate SameContext(a: SessionData, b: SessionData) {
    && a.id == b.id && a.hostId == b.hostId
    && a.currentIssue == b.currentIssue && a.boardId == b.boardId && a.sprintId == b.sprintId
    && a.meetLink == b.meetLink
  }

  // ---- the registry ----

  /** createSession (server/sessionManager.ts:13-35): the host is the only
      participant, voting is closed and votes are hidden. */
  function NewSession(id: SessionId, hostId: ConnId, hostName: string): (d: SessionData)
    ensures WellFormed(d) && d.id == id && d.hostId == hostId
    ensures d.participants.keys == [hostId]
    ensures d.participants.Get(hostId) == Some(Participant(hostId, hostName, hostId, None))
    ensures !d.isVotingOpen && !d.revealedVotes && d.votes == map[]
    ensures d.currentStory.None? && d.currentIssue.None? && d.boardId.None? && d.sprintId.None? && d.meetLink.None?
  {
    var empty := SessionData(id, hostId, Empty(), None, None, false, map[], false, None, None, None);
    AddParticipant(empty, hostId, hostName)
  }

  /** joinSession (server/sessionManager.ts:42-48): the participant keyed by
      `conn` is added at the end, or replaced in place, without a vote. */
  function AddParticipant(d: SessionData, conn: ConnId, name: string): (r: SessionData)
    requires WellFormed(d)
    ensures WellFormed(r)
    ensures r.participants.Get(conn) == Some(Participant(conn, name, conn, None))
    ensures forall k :: k != conn ==> r.participants.Get(k) == d.participants.Get(k)
    ensures conn in d.participants.entries ==> r.participants.keys == d.participants.keys
    ensures conn !in d.participants.entries ==> r.participants.keys == d.participants.keys + [conn]
    ensures r.(participants := d.participants) == d
  {
    d.(participants := d.participants.Set(conn, Participant(conn, name, conn, None)))
  }

  /** disconnectUser's removal (server/sessionManager.ts:72): the others
      stay, in order; the shadow `votes` map keeps the departed entry. */
  function RemoveParticipant(d: SessionData, conn: ConnId): (r: SessionData)
    requires WellFormed(d)
    ensures WellFormed(r)
    ensures r.participants.Get(conn) == None
    ensures forall k :: k != conn ==> r.participants.Get(k) == d.participants.Get(k)
    ensures forall i :: 0 <= i < |d.participants.keys| && d.participants.keys[i] == conn ==>
      r.participants.keys == d.participants.keys[..i] + d.participants.keys[i + 1..]
    ensures r.(participants := d.participants) == d
  {
    d.(participants := d.participants.Delete(conn))
  }

  // ---- rounds ----

  /** The `forEach` that sets every participant's vote to undefined. */
  function ClearedVotes(pm: OrderedMap<ConnId, Participant>): (r: OrderedMap<ConnId, Participant>)
    requires pm.Valid()
    ensures r.Valid() && SameRoster(r, pm) && NobodyVoted(r)
  {
    OrderedMap(pm.keys, map k | k in pm.entries :: pm.entries[k].(vote := None))
  }

  /** startVoting (server/handlers/votingHandlers.ts:12-19): the story is
      set, voting opens, votes are hidden and every vote is cleared. */
  function StartRound(d: SessionData, story: Option<string>): (r: SessionData)
    requires WellFormed(d)
    ensures WellFormed(r) && SameContext(r, d)
    ensures r.currentStory == story && r.isVotingOpen && !r.revealedVotes
    ensures r.votes == map[] && NobodyVoted(r.participants) && SameRoster(r.participants, d.participants)
  {
    d.(currentStory := story, isVotingOpen := true, votes := map[], revealedVotes := false,
       participants := ClearedVotes(d.participants))
  }

  /** The assignments startVotingIssue makes before it reads the issue's
      summary (server/handlers/jiraHandlers.ts:38-40).  The payload is not
      checked, so a null or missing issue is stored as no issue. */
  function AttachIssue(d: SessionData, boardId: int, sprintId: int, issue: Option<Issue>): (r: SessionData)
    ensures r.boardId == Some(boardId) && r.sprintId == Some(sprintId) && r.currentIssue == issue
    ensures r.(boardId := d.boardId, sprintId := d.sprintId, currentIssue := d.currentIssue) == d
  {
    d.(boardId := Some(boardId), sprintId := Some(sprintId), currentIssue := issue)
  }

  /** startVotingIssue (server/handlers/jiraHandlers.ts:38-48): the issue
      and its board and sprint are recorded, then a round starts on the
      issue's summary. */
  function StartIssueRound(d: SessionData, boardId: int, sprintId: int, issue: Issue): (r: SessionData)
    requires WellFormed(d) && issue.fields.Some?
    ensures WellFormed(r)
    ensures r.boardId == Some(boardId) && r.sprintId == Some(sprintId) && r.currentIssue == Some(issue)
    ensures r.currentStory == issue.fields.value.summary && r.isVotingOpen && !r.revealedVotes
    ensures r.votes == map[] && NobodyVoted(r.participants) && SameRoster(r.participants, d.participants)
    ensures r.id == d.id && r.hostId == d.hostId && r.meetLink == d.meetLink
  {
    StartRound(AttachIssue(d, boardId, sprintId, Some(issue)), issue.fields.value.summary)
  }

  /** vote (server/handlers/votingHandlers.ts:28-32): a participant's vote
      and its shadow entry are overwritten; a non-participant changes
      nothing.  Whether voting is open is the handler's guard. */
  function RecordVote(d: SessionData, conn: ConnId, estimation: string): (r: SessionData)
    requires WellFormed(d)
    ensures WellFormed(r)
    ensures conn !in d.participants.entries ==> r == d
    ensures conn in d.participants.entries ==>
      && r.participants.Get(conn) == Some(d.participants.entries[conn].(vote := Some(estimation)))
      && r.participants.keys == d.participants.keys
      && r.votes == d.votes[conn := estimation]
    ensures forall k :: k != conn ==> r.participants.Get(k) == d.participants.Get(k)
    ensures r.(participants := d.participants, votes := d.votes) == d
  {
    if conn in d.participants.entries then
      var p := d.participants.entries[conn];
      d.(participants := d.participants.Set(conn, p.(vote := Some(estimation))),
         votes := d.votes[conn := estimation])
    else d
  }

  /** revealVotes (server/handlers/votingHandlers.ts:41): only the reveal
      flag changes, whether or not voting is open. */
  function Reveal(d: SessionData): (r: SessionData)
    ensures r.revealedVotes && r.(revealedVotes := d.revealedVotes) == d
  {
    d.(revealedVotes := true)
  }

  /** resetVotes (server/handlers/votingHandlers.ts:49-56): voting closes,
      votes are hidden and cleared and the story is dropped; the issue, the
      board and the sprint stay. */
  function Reset(d: SessionData): (r: SessionData)
    requires WellFormed(d)
    ensures WellFormed(r) && SameContext(r, d)
    ensures r.currentStory.None? && !r.isVotingOpen && !r.revealedVotes
    ensures r.votes == map[] && NobodyVoted(r.participants) && SameRoster(r.participants, d.participants)
  {
    d.(votes := map[], revealedVotes := false, currentStory := None, isVotingOpen := false,
       participants := ClearedVotes(d.participants))
  }

  /** The state change of updateIssueEstimation after the upstream write
      succeeded (server/handlers/jiraHandlers.ts:70-77): a reset that also
      drops the issue, keeping the board and the sprint. */
  function CommitEstimate(d: SessionData): (r: SessionData)
    requires WellFormed(d)
    ensures WellFormed(r) && r.currentIssue.None? && r.currentStory.None?
    ensures !r.isVotingOpen && !r.revealedVotes && r.votes == map[] && NobodyVoted(r.participants)
    ensures SameRoster(r.participants, d.participants)
    ensures r.id == d.id && r.hostId == d.hostId && r.boardId == d.boardId && r.sprintId == d.sprintId
    ensures r.meetLink == d.meetLink
  {
    Reset(d).(currentIssue := None)
  }

  /** reset-votes of server/server.ts (lines 172-182): a reset that also
      clears the meet link. */
  function ServerReset(d: SessionData): (r: SessionData)
    requires WellFormed(d)
    ensures WellFormed(r) && r.meetLink.None?
    ensures r.currentStory.None? && !r.isVotingOpen && !r.revealedVotes
    ensures r.votes == map[] && NobodyVoted(r.participants) && SameRoster(r.participants, d.participants)
    ensures r.id == d.id && r.hostId == d.hostId && r.currentIssue == d.currentIssue
    ensures r.boardId == d.boardId && r.sprintId == d.sprintId
  {
    Reset(d).(meetLink := None)
  }

  /** meet-link of server/server.ts (line 192): `url || null` is stored, so
      an empty link is stored as null. */
  function SetMeetLink(d: SessionData, url: Option<string>): (r: SessionData)
    ensures r.meetLink.Some? <==> url.Some? && url.value != ""
    ensures r.meetLink.Some? ==> r.meetLink == url
    ensures r.(meetLink := d.meetLink) == d
  {
    d.(meetLink := OrNull(url))
  }

  // ---- properties ----

  /** Clearing votes twice is clearing them once. */
  lemma ClearedVotesIdempotent(pm: OrderedMap<ConnId, Participant>)
    requires pm.Valid()
    ensures ClearedVotes(ClearedVotes(pm)) == ClearedVotes(pm)
  {
    var once := ClearedVotes(pm);
    assert ClearedVotes(once).entries == once.entries;
  }

  /** Clearing votes forgets every vote cast since the last clearing. */
  lemma ClearedVotesForgetsVote(pm: OrderedMap<ConnId, Participant>, conn: ConnId, estimation: string)
    requires pm.Valid() && conn in pm.entries
    ensures ClearedVotes(pm.Set(conn, pm.entries[conn].(vote := Some(estimation)))) == ClearedVotes(pm)
  {
    var voted := pm.Set(conn, pm.entries[conn].(vote := Some(estimation)));
    assert ClearedVotes(voted).entries == ClearedVotes(pm).entries;
  }

  /** Resetting twice is resetting once. */
  lemma ResetIdempotent(d: SessionData)
    requires WellFormed(d)
    ensures Reset(Reset(d)) == Reset(d)
  {
    ClearedVotesIdempotent(d.participants);
  }

  /** A reset leaves no trace of the round it ends: starting a round, voting
      in it or revealing it and then resetting is the same as resetting. */
  lemma ResetForgetsRound(d: SessionData, story: Option<string>, conn: ConnId, estimation: string)
    requires WellFormed(d)
    ensures Reset(StartRound(d, story)) == Reset(d)
    ensures Reset(RecordVote(d, conn, estimation)) == Reset(d)
    ensures Reset(Reveal(d)) == Reset(d)
  {
    ClearedVotesIdempotent(d.participants);
    if conn in d.participants.entries {
      ClearedVotesForgetsVote(d.participants, conn, estimation);
    }
  }

  /** Revealing twice is revealing once. */
  lemma RevealIdempotent(d: SessionData)
    ensures Reveal(Reveal(d)) == Reveal(d)
  {
  }

  /** Last write wins: a second vote from the same connection replaces the
      first. */
  lemma LastVoteWins(d: SessionData, conn: ConnId, first: string, second: string)
    requires WellFormed(d)
    ensures RecordVote(RecordVote(d, conn, first), conn, second) == RecordVote(d, conn, second)
  {
    if conn in d.participants.entries {
      var p := d.participants.entries[conn];
      SetTwice(d.participants, conn, p.(vote := Some(first)), p.(vote := Some(second)));
      assert d.votes[conn := first][conn := second] == d.votes[conn := second];
    }
  }

  /** Votes of different connections do not interfere: their order does
      not matter. */
  lemma VotesCommute(d: SessionData, a: ConnId, x: string, b: ConnId, y: string)
    requires WellFormed(d) && a != b
    ensures RecordVote(RecordVote(d, a, x), b, y) == RecordVote(RecordVote(d, b, y), a, x)
  {
    if a in d.participants.entries && b in d.participants.entries {
      var pa, pb := d.participants.entries[a], d.participants.entries[b];
      SetPresentCommutes(d.participants, a, pa.(vote := Some(x)), b, pb.(vote := Some(y)));
      assert d.votes[a := x][b := y] == d.votes[b := y][a := x];
    }
  }

  /** The votes a connection casts, one after the other. */
  function RecordVotes(d: SessionData, conn: ConnId, estimations: seq<string>): (r: SessionData)
    requires WellFormed(d)
    ensures WellFormed(r)
    decreases |estimations|
  {
    if |estimations| == 0 then d
    else RecordVotes(RecordVote(d, conn, estimations[0]), conn, estimations[1..])
  }

  /** However many votes a connection casts, only the last one counts. */
  lemma {:induction false} OnlyLastVoteCounts(d: SessionData, conn: ConnId, estimations: seq<string>)
    requires WellFormed(d) && |estimations| > 0
    ensures RecordVotes(d, conn, estimations) == RecordVote(d, conn, estimations[|estimations| - 1])
    decreases |estimations|
  {
    if |estimations| > 1 {
      var d1 := RecordVote(d, conn, estimations[0]);
      OnlyLastVoteCounts(d1, conn, estimations[1..]);
      LastVoteWins(d, conn, estimations[0], estimations[|estimations| - 1]);
    }
  }

  /** Joining twice under the same connection lists it once, in its first
      place, under the second name. */
  lemma JoinTwice(d: SessionData, conn: ConnId, first: string, second: string)
    requires WellFormed(d)
    ensures AddParticipant(AddParticipant(d, conn, first), conn, second) == AddParticipant(d, conn, second)
  {
    SetTwice(d.participants, conn, Participant(conn, first, conn, None), Participant(conn, second, conn, None));
  }

  /** A newcomer who joins and leaves again leaves the session as it was. */
  lemma JoinThenLeave(d: SessionData, conn: ConnId, name: string)
    requires WellFormed(d) && conn !in d.participants.entries
    ensures RemoveParticipant(AddParticipant(d, conn, name), conn) == d
  {
    SetThenDelete(d.participants, conn, Participant(conn, name, conn, None));
  }

  /** The projection of a fresh round shows voting open, votes hidden and
      nobody as having voted. */
  lemma StartRoundShowsNobodyVoted(d: SessionData, story: Option<string>)
    requires WellFormed(d)
    ensures var st := Project(StartRound(d, story));
      && st.sessionId == d.id && st.currentIssue == d.currentIssue
      && st.isVotingOpen && !st.revealedVotes && st.currentStory == story
      && |st.participants| == |d.participants.keys|
      && forall i :: 0 <= i < |st.participants| ==>
           !st.participants[i].hasVoted && st.participants[i].vote.None? &&
           st.participants[i].id == d.participants.keys[i]
  {
    var r := StartRound(d, story);
    ProjectionInJoinOrder(r);
    ProjectionHidesVotes(r);
  }

  /** After a reveal, the projection shows each participant's vote. */
  lemma RevealShowsVotes(d: SessionData)
    requires WellFormed(d)
    ensures var st := Project(Reveal(d));
      && st.revealedVotes && st.isVotingOpen == d.isVotingOpen
      && st.currentStory == d.currentStory && st.currentIssue == d.currentIssue
      && |st.participants| == |d.participants.keys|
      && forall i :: 0 <= i < |st.participants| ==>
           && st.participants[i].id == d.participants.keys[i]
           && st.participants[i].vote == d.participants.entries[d.participants.keys[i]].vote
           && (st.participants[i].hasVoted <==> st.participants[i].vote.Some?)
  {
    ProjectionInJoinOrder(Reveal(d));
    ProjectionHidesVotes(Reveal(d));
  }

  /** A connection that joins is shown exactly once, last if it is new. */
  lemma JoinerShownOnce(d: SessionData, conn: ConnId, name: string)
    requires WellFormed(d)
    ensures var st := Project(AddParticipant(d, conn, name));
      && (exists i :: 0 <= i < |st.participants| && st.participants[i].id == conn)
      && (forall i, j ::
            (0 <= i < |st.participants| && 0 <= j < |st.participants| &&
             st.participants[i].id == conn && st.participants[j].id == conn) ==> i == j)
      && (conn !in d.participants.entries ==>
            st.participants[|st.participants| - 1] == ParticipantState(conn, name, false, None))
  {
    var r := AddParticipant(d, conn, name);
    ShownOnce(r, conn);
  }

  /** What a late joiner is shown: the round in progress, with its story,
      and everyone who joined before it, in join order, followed by itself
      if it is new. */
  lemma LateJoinerSeesRound(d: SessionData, conn: ConnId, name: string)
    requires WellFormed(d)
    ensures var st := Project(AddParticipant(d, conn, name));
      && st.sessionId == d.id && st.isVotingOpen == d.isVotingOpen && st.revealedVotes == d.revealedVotes
      && st.currentStory == d.currentStory && st.currentIssue == d.currentIssue
      && |st.participants| == |d.participants.keys| + (if conn in d.participants.entries then 0 else 1)
      && forall i :: 0 <= i < |d.participants.keys| ==> st.participants[i].id == d.participants.keys[i]
  {
    ProjectionInJoinOrder(AddParticipant(d, conn, name));
  }
}
