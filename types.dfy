/** The records of server/types.ts, and the meet link that server/server.ts
    adds to its own copy of the session record. */
module Types {
  import opened Wrappers
  import opened OrderedMaps

  /** A Socket.IO connection id; a participant is keyed by it. */
  type ConnId = string

  /** A session id, a uuid in the source. */
  type SessionId = string

  datatype Participant = Participant(id: ConnId, name: string, socketId: ConnId, vote: Option<string>)

  /** The Jira issue a host may start a round on.  The payload comes from
      the client unchecked: `fields` may be missing, and so may `summary`. */
  datatype IssueFields = IssueFields(
    summary: Option<string>,
    description: Option<string>,
    issueTypeName: string,
    issueTypeIconUrl: string,
    statusName: string,
    assignee: Option<string>,
    storyPoints: Option<int>)

  datatype Issue = Issue(key: string, id: string, fields: Option<IssueFields>)

  datatype Board = Board(id: int, key: string, name: string, boardType: string)

  datatype Sprint = Sprint(id: int, name: string, state: string, startDate: Option<string>, endDate: Option<string>)

  /** The value of a session record at one moment.  `votes` is the shadow
      map the source writes beside each participant's own vote; nothing
      keeps the two in agreement.  `meetLink` is written only by the handlers
      of server/server.ts. */
  datatype SessionData = SessionData(
    id: SessionId,
    hostId: ConnId,
    participants: OrderedMap<ConnId, Participant>,
    currentStory: Option<string>,
    currentIssue: Option<Issue>,
    isVotingOpen: bool,
    votes: map<ConnId, string>,
    revealedVotes: bool,
    boardId: Option<int>,
    sprintId: Option<int>,
    meetLink: Option<string>)

  /** Every participant is stored under its own connection id, which is
      also its id. */
  ghost predicate WellFormed(d: SessionData) {
    && d.participants.Valid()
    && forall k :: k in d.participants.entries ==>
         d.participants.entries[k].id == k && d.participants.entries[k].socketId == k
  }

  /** What a client sees of a participant. */
  datatype ParticipantState = ParticipantState(id: ConnId, name: string, hasVoted: bool, vote: Option<string>)

  /** What a client sees of a session. */
  datatype SessionState = SessionState(
    sessionId: SessionId,
    isHost: bool,
    currentStory: Option<string>,
    currentIssue: Option<Issue>,
    isVotingOpen: bool,
    participants: seq<ParticipantState>,
    revealedVotes: bool)

  /** The projection of server/server.ts: the same fields plus the meet
      link. */
  datatype ServerSessionState = ServerSessionState(state: SessionState, meetLink: Option<string>)
}
