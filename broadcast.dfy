/** What the handlers send: acknowledgement callbacks to the caller and
    events emitted to a session's room.  Socket.IO itself is not modelled;
    a room is the set of connections that joined it, and everything sent is
    appended to one outbox, so the order of sends is kept. */
module Broadcasts {
  import opened Wrappers
  import opened Types

  /** The events emitted to a room; `S` is the projection being sent. */
  datatype Event<S> =
    | SessionUpdated(state: Option<S>)
    | HostDisconnected
    | IssueEstimationUpdated(issueId: string, estimation: string)
    | MeetLink(link: Option<string>)
    | ReceiveMeetLink(meetLink: string)

  /** The objects passed to an acknowledgement callback. */
  datatype Response<S> =
    | Created(sessionId: SessionId)
    | Found(session: S)
    | Succeeded
    | Failed(error: string)
    | BoardsListed(boards: seq<Board>)
    | SprintsListed(sprints: seq<Sprint>)
    | IssuesListed(issues: seq<Issue>)

  datatype Message<S> =
    | Reply(to: ConnId, response: Response<S>)
    | Broadcast(room: SessionId, recipients: set<ConnId>, event: Event<S>)

  /** The same room's members sent each of `events`, in order. */
  function ToRoom<S>(room: SessionId, members: set<ConnId>, events: seq<Event<S>>): (r: seq<Message<S>>)
    ensures |r| == |events|
    ensures forall i :: 0 <= i < |events| ==> r[i] == Broadcast(room, members, events[i])
  {
    seq(|events|, i requires 0 <= i < |events| => Broadcast(room, members, events[i]))
  }

  class Io<S> {
    var rooms: map<SessionId, set<ConnId>>
    var outbox: seq<Message<S>>

    constructor()
      ensures rooms == map[] && outbox == []
    {
      rooms := map[];
      outbox := [];
    }

    /** The connections in a room; a room nobody joined is empty. */
    function Members(room: SessionId): set<ConnId>
      reads this
    {
      if room in rooms then rooms[room] else {}
    }

    /** `socket.join(room)`. */
    method Join(conn: ConnId, room: SessionId)
      modifies this
      ensures rooms == old(rooms)[room := old(Members(room)) + {conn}]
      ensures outbox == old(outbox)
    {
      rooms := rooms[room := Members(room) + {conn}];
    }

    /** What Socket.IO does to a connection that drops, before its
        "disconnect" handler runs: it leaves every room. */
    method LeaveAll(conn: ConnId)
      modifies this
      ensures rooms == map r | r in old(rooms) :: old(rooms)[r] - {conn}
      ensures forall r :: Members(r) == old(Members(r)) - {conn}
      ensures outbox == old(outbox)
    {
      rooms := map r | r in rooms :: rooms[r] - {conn};
    }

    /** `io.to(room).emit(...)`: sent to the room's current members. */
    method Emit(room: SessionId, event: Event<S>)
      modifies this
      ensures rooms == old(rooms)
      ensures outbox == old(outbox) + [Broadcast(room, Members(room), event)]
    {
      outbox := outbox + [Broadcast(room, Members(room), event)];
    }

    /** Consecutive `io.to(room).emit(...)` calls, in order; nobody joins or
        leaves in between, so every event reaches the same members. */
    method EmitAll(room: SessionId, events: seq<Event<S>>)
      modifies this
      ensures rooms == old(rooms)
      ensures outbox == old(outbox) + ToRoom(room, old(Members(room)), events)
    {
      ghost var sent := outbox;
      var i := 0;
      while i < |events|
        invariant 0 <= i <= |events| && rooms == old(rooms)
        invariant outbox == sent + ToRoom(room, Members(room), events[..i])
      {
        assert ToRoom(room, Members(room), events[..i + 1])
            == ToRoom(room, Members(room), events[..i]) + [Broadcast(room, Members(room), events[i])];
        Emit(room, events[i]);
        i := i + 1;
      }
      assert events[..i] == events;
    }

    /** `callback(response)`: an acknowledgement to the caller alone. */
    method Callback(to: ConnId, response: Response<S>)
      modifies this
      ensures rooms == old(rooms)
      ensures outbox == old(outbox) + [Reply(to, response)]
    {
      outbox := outbox + [Reply(to, response)];
    }
  }
}
