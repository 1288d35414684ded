/** getSessionState (server/sessionManager.ts:82-101 and its copy in
    server/server.ts:358-379): what clients are shown of a session. */
module Projection {
  import opened Wrappers
  import opened OrderedMaps
  import opened Types
  import opened JsValues

  /** One participant as shown: whether it voted, and its vote only once
      votes are revealed. */
  function ParticipantView(p: Participant, revealed: bool): ParticipantState {
    ParticipantState(p.id, p.name, p.vote.Some?, if revealed then p.vote else None)
  }

  /** The projection, participants in join order and `isHost` always false
      (the receiving client decides whether it is the host). */
  function Project(d: SessionData): (st: SessionState)
    requires d.participants.Valid()
    ensures |st.participants| == |d.participants.keys|
    ensures !st.isHost
    ensures st.sessionId == d.id && st.currentStory == d.currentStory && st.currentIssue == d.currentIssue
    ensures st.isVotingOpen == d.isVotingOpen && st.revealedVotes == d.revealedVotes
  {
    var ps := d.participants.Values();
    SessionState(
      d.id, false, d.currentStory, d.currentIssue, d.isVotingOpen,
      seq(|ps|, i requires 0 <= i < |ps| => ParticipantView(ps[i], d.revealedVotes)),
      d.revealedVotes)
  }

  /** The projection of server/server.ts: the same, plus `meetLink || null`. */
  function ServerProject(d: SessionData): (st: ServerSessionState)
    requires d.participants.Valid()
    ensures st.state == Project(d)
    ensures st.meetLink.Some? <==> d.meetLink.Some? && d.meetLink.value != ""
  {
    ServerSessionState(Project(d), OrNull(d.meetLink))
  }

  /** The i-th participant shown is the i-th to have joined, under its own
      id and name. */
  lemma ProjectionInJoinOrder(d: SessionData)
    requires WellFormed(d)
    ensures forall i :: 0 <= i < |d.participants.keys| ==>
      Project(d).participants[i].id == d.participants.keys[i] &&
      Project(d).participants[i].name == d.participants.entries[d.participants.keys[i]].name
  {
  }

  /** `hasVoted` reports whether the participant holds a vote; the vote
      itself is shown exactly when votes are revealed. */
  lemma ProjectionHidesVotes(d: SessionData)
    requires WellFormed(d)
    ensures forall i :: 0 <= i < |d.participants.keys| ==>
      var p := d.participants.entries[d.participants.keys[i]];
      && (Project(d).participants[i].hasVoted <==> p.vote.Some?)
      && (!d.revealedVotes ==> Project(d).participants[i].vote.None?)
      && (d.revealedVotes ==> Project(d).participants[i].vote == p.vote)
  {
  }

  /** Each participant appears exactly once in the projection. */
  lemma ShownOnce(d: SessionData, c: ConnId)
    requires WellFormed(d) && c in d.participants.entries
    ensures exists i :: 0 <= i < |Project(d).participants| && Project(d).participants[i].id == c
    ensures forall i, j ::
      (0 <= i < |Project(d).participants| && 0 <= j < |Project(d).participants| &&
       Project(d).participants[i].id == c && Project(d).participants[j].id == c) ==> i == j
  {
    var st := Project(d);
    var keys := d.participants.keys;
    assert c in keys;
    var i :| 0 <= i < |keys| && keys[i] == c;
    assert st.participants[i].id == c;
    forall i, j | 0 <= i < |st.participants| && 0 <= j < |st.participants| &&
      st.participants[i].id == c && st.participants[j].id == c
      ensures i == j
    {
      assert keys[i] == c && keys[j] == c;
    }
  }
}
