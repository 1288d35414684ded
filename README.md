# Planning-poker sessions, in Dafny

This project models the server side of a planning-poker tool and proves
properties of that model.

A host creates a session. Others join it over Socket.IO. The host starts a
round on a story, or on a Jira issue. Participants vote on the scale
`0 1 2 3 5 8 13 21 34 55 89 ?`. The host reveals or resets the round, and
may write the agreed estimate back to Jira. The server keeps two maps: one
from session id to session, and one from connection id to the session that
connection last created or joined. After every change it sends the session's
room a `session-updated` event. That event carries a projection of the
session, in which each vote stays hidden until the host reveals the round.
The client computes minimum, maximum, average and sorted order of the
revealed votes.

The model follows the program file by file:

| file | module | form |
|---|---|---|
| client/utils/voteCalculations.ts | `VoteCalculations`, `StableSort` | pure functions and lemmas |
| server/types.ts | `Types`, `OrderedMaps` | datatypes; a JS `Map` is a key sequence plus a map |
| server/sessionManager.ts | `Registry`, `Sessions`, `Projection`, `Rounds` | class `SessionManager` with two map fields; class `Session`, updated in place; the projection as a function |
| server/handlers/*.ts | `SessionHandlers`, `VotingHandlers`, `JiraHandlers` | methods over the registry and an `Io` object |
| server/app.ts | `App` | the event routing and the disconnect handler |
| server/server.ts | `InlineServer` | class `Server` with its own maps, the meet link, and every handler inline |

Each change a handler makes to a session is a function in `Rounds`, from the
session's value before to its value after. The class methods are proved
against these functions. The properties are proved about the functions: what
a round start, a vote, a reveal or a reset leaves behind, idempotence, last
vote wins, and what the projection shows.

`Broadcasts.Io` stands for Socket.IO. It holds the rooms, a map from session
id to a set of connections, and an append-only outbox. The outbox holds
acknowledgement callbacks to the caller and events sent to a room's current
members. Every handler's contract states the exact messages it appends, in
order.

## Model

| member | source | states |
|---|---|---|
| JsValues.OrNull | server/server.ts:192 | `x \|\| null` is defined exactly when `x` is a non-empty string, and then equals `x` |
| OrderedMaps.OrderedMap.Get | server/handlers/votingHandlers.ts:28 | `Map.get` finds a value exactly for a present key |
| OrderedMaps.OrderedMap.Set | server/sessionManager.ts:48 | `Map.set` stores the value under its key and leaves every other key alone; a new key goes last, an existing key keeps its place |
| OrderedMaps.OrderedMap.Delete | server/sessionManager.ts:72 | `Map.delete` removes the key and leaves the other entries; the keys before and after it keep their order; an absent key changes nothing |
| OrderedMaps.OrderedMap.Values | server/sessionManager.ts:86 | `Array.from(map.values())` lists the values in insertion order |
| OrderedMaps.Empty | server/sessionManager.ts:19 | `new Map()` holds no key |
| OrderedMaps.WithoutSplit | server/sessionManager.ts:72 | removing a key from a key list without repeats cuts out its one position, and the keys before and after it stay in order |
| OrderedMaps.SetThenDelete | server/sessionManager.ts:38-80 | setting a new key and deleting it again gives back the map |
| OrderedMaps.SetTwice | server/sessionManager.ts:48 | setting a key twice is the same as setting it once, to the second value |
| OrderedMaps.SetPresentCommutes | server/handlers/votingHandlers.ts:28-32 | sets of two different present keys commute |
| StableSort.Sort | client/utils/voteCalculations.ts:37-40 | the sorted copy is a permutation of the input |
| StableSort.SortSorted | client/utils/voteCalculations.ts:37-40 | the sorted copy is non-decreasing by key |
| StableSort.SortStable | client/utils/voteCalculations.ts:37-40 | elements with equal keys keep their input order |
| StableSort.StableSortIsUnique | client/utils/voteCalculations.ts:37-40 | any key-sorted order that keeps each key's elements in input order is this one, so any stable sort gives the same result |
| StableSort.FirstLeast | client/utils/voteCalculations.ts:9-12 | a reference definition without sorting: the first position of least key |
| StableSort.LastGreatest | client/utils/voteCalculations.ts:17-20 | a reference definition without sorting: the last position of greatest key |
| StableSort.FirstLeastUnique | client/utils/voteCalculations.ts:9-12 | only one position is the first of least key |
| StableSort.LastGreatestUnique | client/utils/voteCalculations.ts:17-20 | only one position is the last of greatest key |
| StableSort.SortHeadIsFirstLeast | client/utils/voteCalculations.ts:9-12 | the head of the sorted copy is the first element of least key |
| StableSort.SortLastIsLastGreatest | client/utils/voteCalculations.ts:17-20 | the last element of the sorted copy is the last element of greatest key |
| VoteCalculations.IndexOf | client/utils/voteCalculations.ts:4 | `indexOf` is -1 or a position in the list |
| VoteCalculations.IndexOfMeaning | client/utils/voteCalculations.ts:4 | `indexOf` finds the first occurrence, and gives -1 exactly when there is none |
| VoteCalculations.VoteIndex | client/utils/voteCalculations.ts:3-5 | `getVoteIndex` lies in -1..11 |
| VoteCalculations.VoteIndexMeaning | client/utils/voteCalculations.ts:3-5 | a non-negative index names the vote's position on the scale; -1 comes exactly from undefined, "" or a string off the scale |
| VoteCalculations.ScaleDistinct | client/utils/voteCalculations.ts:1 | the twelve scale symbols are pairwise different |
| VoteCalculations.ScaleIndex | client/utils/voteCalculations.ts:3-5 | each scale symbol's index is its position |
| VoteCalculations.ScaleSymbol | client/utils/voteCalculations.ts:34 | no scale symbol is empty, so `\|\| null` never fires on one, and only the last is "?" |
| VoteCalculations.SortKey | client/utils/voteCalculations.ts:9-11 | the order `sort` produces: the scale index, with undefined after everything |
| VoteCalculations.SortVotes | client/utils/voteCalculations.ts:37-41 | `sortVotes` returns a permutation of its input, ordered by index, stable for equal indices; the input is a value and is not changed |
| VoteCalculations.MinVote | client/utils/voteCalculations.ts:7-13 | `getMinVote` is null for no votes; otherwise the first vote of least index, passed through `\|\| null` |
| VoteCalculations.MaxVote | client/utils/voteCalculations.ts:15-21 | `getMaxVote` is null for no votes; otherwise the last vote of greatest sort key, passed through `\|\| null` |
| VoteCalculations.MinOnScale | client/utils/voteCalculations.ts:7-13 | for votes all on the scale, the minimum is one of them and has the least index |
| VoteCalculations.MaxOnScale | client/utils/voteCalculations.ts:15-21 | for votes all on the scale, the maximum is one of them and has the greatest index |
| VoteCalculations.OffScaleIndex | client/utils/voteCalculations.ts:3-5 | a defined vote off the scale has index -1 |
| VoteCalculations.OffScaleIsMinimum | client/utils/voteCalculations.ts:9-12 | an off-scale vote ranks below "0" and is returned as the minimum |
| VoteCalculations.EmptyStringMinimumIsNull | client/utils/voteCalculations.ts:12 | an empty-string vote ranks lowest, and `\|\| null` turns the minimum into null |
| VoteCalculations.UndefinedSortsLast | client/utils/voteCalculations.ts:7-20 | one example: on `[undefined, "5"]` the maximum is null and the minimum is "5" |
| VoteCalculations.AnyUndefinedMaxNull | client/utils/voteCalculations.ts:15-20 | for every list holding an undefined vote, the maximum is null |
| VoteCalculations.UndefinedIgnoredByMin | client/utils/voteCalculations.ts:7-13 | for every list with at least one defined vote, an undefined vote inserted anywhere leaves the minimum unchanged |
| VoteCalculations.Counted | client/utils/voteCalculations.ts:27-29 | the indices the average counts are all in 0..10 |
| VoteCalculations.CountedCons | client/utils/voteCalculations.ts:27-29 | the counted indices of a list are the head's contribution followed by the rest's |
| VoteCalculations.CountedAppend | client/utils/voteCalculations.ts:27-29 | `map` then `filter` distributes over concatenation |
| VoteCalculations.CountedSymbols | client/utils/voteCalculations.ts:27-29 | when every vote is a scale symbol other than "?", every vote counts, in order |
| VoteCalculations.RoundedMean | client/utils/voteCalculations.ts:33 | `Math.round(sum / n)` is the integer within half of the mean, halves rounded up |
| VoteCalculations.RoundedMeanUnique | client/utils/voteCalculations.ts:33 | only one integer lies within half of the mean |
| VoteCalculations.MeanWithinRange | client/utils/voteCalculations.ts:33-34 | the rounded mean lies between the least and the greatest counted index |
| VoteCalculations.MeanIndex | client/utils/voteCalculations.ts:33-34 | the mapped-back index lies between the least and greatest counted index, so the cap at 11 is never reached |
| VoteCalculations.AvgVote | client/utils/voteCalculations.ts:23-35 | `getAvgVote` is null exactly when no vote counts; otherwise it is the symbol at the rounded mean index, and never "?" |
| VoteCalculations.SameCountedSameAverage | client/utils/voteCalculations.ts:27-34 | the average depends on the counted indices alone |
| VoteCalculations.AverageSkipsUncounted | client/utils/voteCalculations.ts:27-29 | an undefined, off-scale or "?" vote, added first or last, does not change the average |
| VoteCalculations.AllUncountedIsNull | client/utils/voteCalculations.ts:27-31 | with no vote on the scale other than "?", the average is null |
| VoteCalculations.AverageFromCounted | client/utils/voteCalculations.ts:31-34 | the average is the scale symbol at the rounded mean of the counted indices |
| VoteCalculations.AverageOfSymbols | client/utils/voteCalculations.ts:27-34 | votes that are all scale symbols other than "?" average to the symbol at the rounded mean of their positions |
| VoteCalculations.AdjacentRoundsUp | client/utils/voteCalculations.ts:33-34 | two neighbouring symbols average to the upper one ("5","8" gives "8") |
| VoteCalculations.ConsecutiveAverageToMiddle | client/utils/voteCalculations.ts:33-34 | three consecutive symbols average to the middle one ("3","5","8" gives "5") |
| VoteCalculations.CountedUnanimous | client/utils/voteCalculations.ts:27-29 | identical votes on the scale all count, each as that symbol's index |
| VoteCalculations.UnanimousAverage | client/utils/voteCalculations.ts:23-35 | when every vote is the same symbol other than "?", that symbol is the average |
| Projection.Project | server/sessionManager.ts:82-101 | `getSessionState` shows one entry per participant, and `isHost` is false; the session id, story, issue, voting-open flag and reveal flag are copied from the session |
| Projection.ServerProject | server/server.ts:358-379 | the inline projection is the same, plus `meetLink \|\| null` |
| Projection.ProjectionInJoinOrder | server/sessionManager.ts:86-91 | the i-th participant shown is the i-th to join, under its own id and name |
| Projection.ProjectionHidesVotes | server/sessionManager.ts:86-91 | `hasVoted` says whether a vote is held; the vote itself is shown exactly when votes are revealed |
| Projection.ShownOnce | server/sessionManager.ts:86-91 | each participant is shown exactly once |
| Rounds.NewSession | server/sessionManager.ts:13-35 | a new session holds only its host, without a vote; voting is closed, votes are hidden, nothing else is set |
| Rounds.AddParticipant | server/sessionManager.ts:42-48 | a join adds the participant last, or replaces it in place, without a vote; everyone else and every other field stays |
| Rounds.RemoveParticipant | server/sessionManager.ts:72 | a departure removes only that participant, cutting it out of the join order and keeping the others' order; the shadow votes map keeps its entry |
| Rounds.ClearedVotes | server/handlers/votingHandlers.ts:17-19 | the `forEach` leaves the same participants in the same order, with no vote |
| Rounds.StartRound | server/handlers/votingHandlers.ts:12-19 | a round start sets the story, opens voting, hides and clears every vote, and keeps the roster and the Jira context |
| Rounds.AttachIssue | server/handlers/jiraHandlers.ts:38-40 | the board, sprint and issue (possibly null) are stored and nothing else changes |
| Rounds.StartIssueRound | server/handlers/jiraHandlers.ts:38-48 | an issue round records the board, sprint and issue, and starts a round on the issue's summary |
| Rounds.RecordVote | server/handlers/votingHandlers.ts:28-32 | a participant's vote and its shadow entry are overwritten; a non-participant changes nothing |
| Rounds.Reveal | server/handlers/votingHandlers.ts:41 | a reveal sets only the reveal flag, whether or not voting is open |
| Rounds.Reset | server/handlers/votingHandlers.ts:49-56 | a reset closes voting, hides and clears every vote and drops the story, keeping the issue, board and sprint |
| Rounds.CommitEstimate | server/handlers/jiraHandlers.ts:70-77 | a written estimate ends the round like a reset, and also drops the issue, keeping board and sprint |
| Rounds.ServerReset | server/server.ts:172-182 | the inline reset also clears the meet link |
| Rounds.SetMeetLink | server/server.ts:192 | `url \|\| null` is stored: an empty link becomes null |
| Rounds.ClearedVotesIdempotent | server/handlers/votingHandlers.ts:17-19 | clearing votes twice is clearing them once |
| Rounds.ClearedVotesForgetsVote | server/handlers/votingHandlers.ts:17-19 | clearing forgets any vote cast before it |
| Rounds.ResetIdempotent | server/handlers/votingHandlers.ts:45-58 | resetting twice is resetting once |
| Rounds.ResetForgetsRound | server/handlers/votingHandlers.ts:45-58 | a reset after a round start, a vote or a reveal equals a reset alone |
| Rounds.RevealIdempotent | server/handlers/votingHandlers.ts:37-43 | revealing twice is revealing once |
| Rounds.LastVoteWins | server/handlers/votingHandlers.ts:28-32 | a second vote from the same connection replaces the first |
| Rounds.VotesCommute | server/handlers/votingHandlers.ts:28-32 | votes of two different connections can come in either order |
| Rounds.OnlyLastVoteCounts | server/handlers/votingHandlers.ts:28-32 | however many votes a connection casts, only the last remains |
| Rounds.JoinTwice | server/sessionManager.ts:42-48 | a second join by the same connection adds no duplicate, keeps its place and takes the new name |
| Rounds.JoinThenLeave | server/sessionManager.ts:38-80 | a newcomer who joins and then leaves leaves the session as it was |
| Rounds.StartRoundShowsNobodyVoted | server/handlers/votingHandlers.ts:12-21 | after a round start the projection shows the same session and issue, voting open, votes not revealed, the story, the whole roster in join order, and nobody as having voted |
| Rounds.RevealShowsVotes | server/handlers/votingHandlers.ts:37-43 | after a reveal the projection shows votes revealed, the same story, issue and voting-open flag, the roster in join order, and every participant's vote, with `hasVoted` exactly when a vote is shown |
| Rounds.JoinerShownOnce | server/sessionManager.ts:38-52 | a joiner is shown exactly once, and last if it is new |
| Rounds.LateJoinerSeesRound | server/handlers/sessionHandlers.ts:23-29 | a late joiner is shown the open round, its story and everyone who joined before it, in order |
| Sessions.Session.constructor | server/sessionManager.ts:16-23 | the session literal: no participant, voting closed, votes hidden |
| Sessions.Session.SetMeetLink | server/server.ts:192 | the object's new value is `SetMeetLink` of its old value |
| Sessions.Session.AddParticipant | server/sessionManager.ts:42-48 | the object's new value is `AddParticipant` of its old value |
| Sessions.Session.RemoveParticipant | server/sessionManager.ts:72 | the object's new value is `RemoveParticipant` of its old value |
| Sessions.Session.ClearVotes | server/handlers/votingHandlers.ts:17-19 | the participants become `ClearedVotes` of the old ones; nothing else changes |
| Sessions.Session.StartVoting | server/handlers/votingHandlers.ts:12-19 | the object's new value is `StartRound` of its old value |
| Sessions.Session.Vote | server/handlers/votingHandlers.ts:28-32 | the object's new value is `RecordVote` of its old value |
| Sessions.Session.RevealVotes | server/handlers/votingHandlers.ts:41 | the object's new value is `Reveal` of its old value |
| Sessions.Session.ResetVotes | server/handlers/votingHandlers.ts:49-56 | the object's new value is `Reset` of its old value |
| Sessions.Session.ResetVotesAndMeetLink | server/server.ts:172-182 | the object's new value is `ServerReset` of its old value |
| Sessions.Session.AttachIssue | server/handlers/jiraHandlers.ts:38-40 | the object's new value is `AttachIssue` of its old value |
| Sessions.Session.EndEstimatedRound | server/handlers/jiraHandlers.ts:70-77 | the object's new value is `CommitEstimate` of its old value |
| Sessions.ClearEach | server/handlers/votingHandlers.ts:17-19 | the `forEach` loop, visiting participants in join order, computes `ClearedVotes` |
| Registry.SessionManager.constructor | server/sessionManager.ts:8-11 | both maps start empty |
| Registry.SessionManager.Departing | server/sessionManager.ts:66-68 | the session `disconnectUser` acts on is the connection's mapping, when that mapping is truthy |
| Registry.SessionManager.CreateSession | server/sessionManager.ts:13-36 | the fresh session is registered under its id with only the host; the host is mapped to it; nothing else changes |
| Registry.SessionManager.JoinSession | server/sessionManager.ts:38-52 | an unknown id gives null and changes neither map; otherwise the participant is added or replaced, the connection is remapped, and no other session changes |
| Registry.SessionManager.GetSession | server/sessionManager.ts:54-56 | the registered session, or nothing |
| Registry.SessionManager.GetUserSession | server/sessionManager.ts:58-60 | the connection's mapping, or nothing |
| Registry.SessionManager.DeleteSession | server/sessionManager.ts:62-64 | only the registry entry goes; mappings stay |
| Registry.SessionManager.DisconnectUser | server/sessionManager.ts:66-80 | null, with nothing changed, without a truthy mapping. Otherwise: the participant leaves; the session is deleted exactly when the connection is its host; the mapping goes, so a second call gives null; a session already gone only loses the mapping; no other session changes |
| Registry.SessionManager.GetSessionState | server/sessionManager.ts:82-102 | null for an unknown id, otherwise the projection of the session |
| Broadcasts.ToRoom | server/handlers/jiraHandlers.ts:81-82 | consecutive emits to one room give one message per event, in order |
| Broadcasts.Io.constructor | server/app.ts:16 | no rooms and no messages yet |
| Broadcasts.Io.Join | server/handlers/sessionHandlers.ts:9 | `socket.join` adds the connection to the room and sends nothing |
| Broadcasts.Io.LeaveAll | server/app.ts:90 | a dropped connection leaves every room before its disconnect handler runs |
| Broadcasts.Io.Emit | server/handlers/votingHandlers.ts:21 | `io.to(room).emit` sends the event to the room's current members |
| Broadcasts.Io.EmitAll | server/handlers/jiraHandlers.ts:81-82 | consecutive emits are sent in order, to the same members |
| Broadcasts.Io.Callback | server/handlers/sessionHandlers.ts:10 | a callback answers the caller alone |
| SessionHandlers.CreateSession | server/handlers/sessionHandlers.ts:6-13 | the session is registered; then the caller joins its room; then it is called back with the id alone; then the room is sent the projection |
| SessionHandlers.JoinSession | server/handlers/sessionHandlers.ts:15-30 | an unknown id: "Session not found", with no room join, no broadcast and no change. Otherwise the caller is called back with the projection that lists it, and the room, caller included, is sent the same projection |
| SessionHandlers.Welcome | server/handlers/sessionHandlers.ts:23-29 | room join, then callback, then broadcast to the room including the caller |
| SessionHandlers.GetSession | server/handlers/sessionHandlers.ts:32-39 | read-only: one callback, the projection or "Session not found", and no broadcast |
| VotingHandlers.StartVoting | server/handlers/votingHandlers.ts:7-22 | not the host, or no session: no change and no message. Otherwise `StartRound`, then one session-updated computed after it |
| VotingHandlers.Vote | server/handlers/votingHandlers.ts:24-35 | voting closed, or no session: no change and no message. Otherwise `RecordVote`, even after a reveal and for a non-participant, then one session-updated |
| VotingHandlers.RevealVotes | server/handlers/votingHandlers.ts:37-43 | host only; `Reveal`, then one session-updated |
| VotingHandlers.ResetVotes | server/handlers/votingHandlers.ts:45-59 | host only; `Reset`, then one session-updated |
| JiraHandlers.GetBoards | server/handlers/jiraHandlers.ts:7-14 | the boards, or the upstream error, as the callback; never thrown |
| JiraHandlers.GetSprints | server/handlers/jiraHandlers.ts:16-23 | the sprints, or the upstream error, as the callback |
| JiraHandlers.GetIssues | server/handlers/jiraHandlers.ts:25-32 | the issues, or the upstream error, as the callback |
| JiraHandlers.StartVotingIssue | server/handlers/jiraHandlers.ts:34-51 | host only. `StartIssueRound`, then one session-updated. A null issue, or one without `fields`, leaves board, sprint and issue written and emits nothing |
| JiraHandlers.BeginUpdateIssueEstimation | server/handlers/jiraHandlers.ts:60-64 | an unknown session or a non-host: "Not authorized", with no write attempted and no change |
| JiraHandlers.CompleteUpdateIssueEstimation | server/handlers/jiraHandlers.ts:66-85 | a failed write: the error as callback, and no change. A success: `CommitEstimate`, then callback success, then issue-estimation-updated, then session-updated |
| App.Disconnect | server/app.ts:90-102 | no truthy mapping: nothing emitted. Host: session deleted and host-disconnected emitted. Anyone else: session-updated after the removal. A session already gone: nothing emitted |
| App.Dispatch | server/app.ts:39-87 | every event goes to its one handler; the registry stays valid |
| App.HostDrops | server/app.ts:90-102 | a host's dropped connection deletes its session and tells the remaining room members |
| App.HostLeavesDuringEstimateWrite | server/handlers/jiraHandlers.ts:60-82 | a host that leaves while its estimate is written: the detached session is still reset, and the final session-updated carries null |
| InlineServer.Server.constructor | server/server.ts:42-43 | both maps start empty |
| InlineServer.Server.GetSessionState | server/server.ts:358-379 | null for an unknown id, otherwise the projection with the meet link |
| InlineServer.Server.CreateSession | server/server.ts:56-84 | as the modular create, with the meet-link projection |
| InlineServer.Server.JoinSession | server/server.ts:86-116 | an unknown id: "Session not found", both maps unchanged. Otherwise as the modular join |
| InlineServer.Server.StartVoting | server/server.ts:118-136 | the same guard and effect as the modular start-voting |
| InlineServer.Server.Vote | server/server.ts:138-152 | the same guard and effect as the modular vote |
| InlineServer.Server.RevealVotes | server/server.ts:154-163 | the same guard and effect as the modular reveal |
| InlineServer.Server.ResetVotes | server/server.ts:165-186 | host only; `ServerReset`, then meet-link(null), then session-updated |
| InlineServer.Server.SetMeetLink | server/server.ts:189-195 | host only; `url \|\| null` stored, then meet-link, then session-updated |
| InlineServer.Server.BroadcastMeetLink | server/server.ts:198-235 | "Session not found" or "Not authorized"; otherwise callback success, then receive-meet-link; no session changes |
| InlineServer.Server.Disconnect | server/server.ts:238-258 | the participant is removed and the truthy mapping always dropped; the session is deleted, with host-disconnected, only when the host leaves |
| InlineServer.Server.Depart | server/server.ts:242-254 | the registered session loses the participant, then is deleted with host-disconnected or broadcast |
| InlineServer.Server.GetSession | server/server.ts:261-269 | read-only: the state or "Session not found" |
| InlineServer.Server.StartVotingIssue | server/server.ts:301-322 | the same guard and effect as the modular start-voting-issue |
| InlineServer.Server.BeginUpdateIssueEstimation | server/server.ts:324-330 | "Not authorized" unless the caller hosts a registered session |
| InlineServer.Server.CompleteUpdateIssueEstimation | server/server.ts:332-354 | the same continuation as the modular one; the meet link is kept |

## Where the model follows the code over the documented behaviour

- `Array.prototype.sort` puts `undefined` last without calling the
  comparator. So one undefined vote makes `getMaxVote` null, and an
  empty-string vote makes `getMinVote` null.
- An all-off-scale vote list has no average: `getAvgVote` returns null. One
  unit test expects a number there.
- A session is deleted only when its host disconnects, not when its last
  user leaves. One unit test expects the latter.
- Names are not checked: create and join accept an empty name. Some unit
  tests expect a rejection.
- Reveal does not require open voting, and a vote is accepted after a
  reveal. Neither is an invariant of the model.
- The shadow `votes` map is modelled but is not kept in agreement with
  participants' votes, since the code does not keep it so.

## Left out

- Express, the HTTP server, dotenv, the health endpoint, CORS and listening on a port.
- Socket.IO transport is reduced to rooms and an outbox. The room-leaving Socket.IO does before a disconnect handler runs is `Io.LeaveAll`, called by the scenario that needs it.
- server/jira.ts is not part of this model. Each Jira call is an input `Result`, with an upstream error already turned into its message. `parseInt` of the estimate only feeds that call, so it is left out.
- The uuid of a new session is a parameter, with the requirement that it is not yet registered.
- Console logging in server/server.ts.
- The optional `callback?.()` calls are modelled as always present.
- `Math.round` on floating point: the model uses exact integer arithmetic. This agrees with the float result for any list of votes shorter than 2^48.
- Client React components and hooks, which only render the projection and call the statistics modelled here.
- Unit tests that contradict the code, listed above.
- `async`/`await` interleaving: only the update-issue-estimation write is split around its await, into `Begin` and `Complete`. `App.HostLeavesDuringEstimateWrite` shows one interleaving.
- The `catch` of server.ts get-session: nothing in its `try` can throw, so that branch is not modelled.
- Participants are values inside the session, not shared objects. The code never holds a reference to a participant across a change, so no aliasing is lost.
- Handlers compute the projection before the emit call, as the code does when it evaluates the `emit` arguments.
- A null or missing issue, or an issue without `fields`, makes startVotingIssue throw a `TypeError`. The model stops the handler at that point with the three stored fields; the exception itself is not modelled. A null and an undefined issue are both stored as no issue (`None`), so the model does not tell apart the `null` and the absent `currentIssue` that the two produce in the serialised state.
- The literal examples of the unit tests ("5","8" gives "8"; "3","5","8" gives "5"; "3","5","7" gives "5") are covered by `AdjacentRoundsUp`, `ConsecutiveAverageToMiddle` and `AverageSkipsUncounted` over every position of the scale, rather than evaluated on the literals.
- App.Dispatch: its contract states only that the registry stays valid. That each event reaches its one handler, with its arguments unchanged, is the body's match with one call per case, and each handler's own contract says what that call does.
