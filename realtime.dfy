/**
 * packages/backend-realtime: the room bookkeeping of the three socket
 * namespaces and the messages the handlers and the `emitTo*` helpers send.
 * The membership table maps a (namespace, room) pair to the ids of the
 * sockets in it; each emit is recorded with the set of sockets it reaches.
 * Transport, CORS and the socket's own default room are not modelled; ids
 * in the clients' payloads are strings; the clock is the parameter `nowIso`.
 */
module Realtime {
  import opened Common
  import opened Errors

  const ProjectNs: string := "/project"
  const JobsNs: string := "/ai-jobs"
  const NotifyNs: string := "/notifications"

  function ProjectRoom(projectId: string): string { "room:project-" + projectId }
  function JobRoom(jobId: string): string { "room:job-" + jobId }
  function UserRoom(userId: string): string { "room:user-" + userId }

  /** Different ids give different rooms, and the three kinds of room never share a name. */
  lemma RoomNamesDistinct(a: string, b: string)
    ensures ProjectRoom(a) == ProjectRoom(b) ==> a == b
    ensures JobRoom(a) == JobRoom(b) ==> a == b
    ensures UserRoom(a) == UserRoom(b) ==> a == b
    ensures ProjectRoom(a) != JobRoom(b) && ProjectRoom(a) != UserRoom(b) && JobRoom(a) != UserRoom(b)
  {
    if ProjectRoom(a) == ProjectRoom(b) {
      assert a == ProjectRoom(a)[13..] && b == ProjectRoom(b)[13..];
    }
    if JobRoom(a) == JobRoom(b) {
      assert a == JobRoom(a)[9..] && b == JobRoom(b)[9..];
    }
    if UserRoom(a) == UserRoom(b) {
      assert a == UserRoom(a)[10..] && b == UserRoom(b)[10..];
    }
    assert ProjectRoom(a)[5] == 'p' && JobRoom(b)[5] == 'j' && UserRoom(b)[5] == 'u';
    assert JobRoom(a)[5] == 'j';
  }

  type Rooms = map<(string, string), set<string>>

  /** The sockets in a room; a room nobody joined is empty. */
  function Members(rooms: Rooms, ns: string, room: string): set<string> {
    if (ns, room) in rooms then rooms[(ns, room)] else {}
  }

  /** `socket.join(room)`. */
  function Joined(rooms: Rooms, ns: string, room: string, sid: string): (r: Rooms)
    ensures Members(r, ns, room) == Members(rooms, ns, room) + {sid}
  {
    rooms[(ns, room) := Members(rooms, ns, room) + {sid}]
  }

  /** `socket.leave(room)`. */
  function Left(rooms: Rooms, ns: string, room: string, sid: string): (r: Rooms)
    ensures Members(r, ns, room) == Members(rooms, ns, room) - {sid}
  {
    rooms[(ns, room) := Members(rooms, ns, room) - {sid}]
  }

  /** The library's side of a disconnect: the socket is dropped from every room of its namespace. */
  function Dropped(rooms: Rooms, ns: string, sid: string): Rooms {
    map k | k in rooms :: if k.0 == ns then rooms[k] - {sid} else rooms[k]
  }

  /** Joining or leaving changes only the caller's membership, and only in that room. */
  lemma MembershipOnlyForCaller(rooms: Rooms, ns: string, room: string, sid: string, ns2: string, room2: string, other: string)
    requires other != sid || (ns2, room2) != (ns, room)
    ensures other in Members(Joined(rooms, ns, room, sid), ns2, room2) <==> other in Members(rooms, ns2, room2)
    ensures other in Members(Left(rooms, ns, room, sid), ns2, room2) <==> other in Members(rooms, ns2, room2)
  {
  }

  /** Leaving after joining restores the room's other members and leaves the caller out. */
  lemma JoinThenLeave(rooms: Rooms, ns: string, room: string, sid: string)
    ensures Members(Left(Joined(rooms, ns, room, sid), ns, room, sid), ns, room) == Members(rooms, ns, room) - {sid}
  {
  }

  /** After a disconnect the socket is in no room of its namespace; the others keep their rooms. */
  lemma DropRemovesSocket(rooms: Rooms, ns: string, sid: string, room: string, other: string)
    requires other != sid
    ensures sid !in Members(Dropped(rooms, ns, sid), ns, room)
    ensures other in Members(Dropped(rooms, ns, sid), ns, room) <==> other in Members(rooms, ns, room)
  {
  }

  /** One emit: the namespace, the sockets it reaches, the event name and the payload. */
  datatype Message = Message(ns: string, recipients: set<string>, event: string, data: Value)

  /** `{ userId, status: 'online', joinedAt }`. */
  function OnlinePresence(userId: string, nowIso: string): Value {
    Obj([("userId", Str(userId)), ("status", Str("online")), ("joinedAt", Str(nowIso))])
  }

  /** `{ userId, status: 'offline' }`. */
  function OfflinePresence(userId: string): Value {
    Obj([("userId", Str(userId)), ("status", Str("offline"))])
  }

  const NotInitialized: string := "Socket.io not initialized. Call initSocketServer first."

  /** The module-level server and what it has sent. */
  class Hub {
    /** `io !== null`. */
    var initialized: bool
    var rooms: Rooms
    var outbox: seq<Message>

    constructor()
      ensures !initialized && rooms == map[] && outbox == []
    {
      initialized := false;
      rooms := map[];
      outbox := [];
    }

    /** `initSocketServer(httpServer)`: a new server, whose namespaces start with no rooms. */
    method InitSocketServer()
      modifies this
      ensures initialized && rooms == map[] && outbox == old(outbox)
    {
      initialized := true;
      rooms := map[];
    }

    /** `getIO()`: the server, or the error thrown before it is initialised. */
    function GetIO(): (r: Result<(), Error>)
      reads this
      ensures r.Ok? <==> initialized
      ensures r.Err? ==> r.error == PlainErr(NotInitialized)
    {
      if initialized then Ok(()) else Err(PlainErr(NotInitialized))
    }

    /** `user:join` on `/project`: join the project room and tell the others in it. */
    method UserJoin(sid: string, projectId: string, userId: string, nowIso: string)
      requires initialized
      modifies this
      ensures initialized
      ensures rooms == Joined(old(rooms), ProjectNs, ProjectRoom(projectId), sid)
      ensures outbox == old(outbox) + [Message(ProjectNs, Members(rooms, ProjectNs, ProjectRoom(projectId)) - {sid},
                                               "user:presence", OnlinePresence(userId, nowIso))]
      ensures sid !in outbox[|outbox| - 1].recipients
    {
      rooms := Joined(rooms, ProjectNs, ProjectRoom(projectId), sid);
      var others := Members(rooms, ProjectNs, ProjectRoom(projectId)) - {sid};
      outbox := outbox + [Message(ProjectNs, others, "user:presence", OnlinePresence(userId, nowIso))];
    }

    /** `user:leave` on `/project`: leave the room, then tell the members that remain. */
    method UserLeave(sid: string, projectId: string, userId: string)
      requires initialized
      modifies this
      ensures initialized
      ensures rooms == Left(old(rooms), ProjectNs, ProjectRoom(projectId), sid)
      ensures outbox == old(outbox) + [Message(ProjectNs, Members(rooms, ProjectNs, ProjectRoom(projectId)),
                                               "user:presence", OfflinePresence(userId))]
      ensures sid !in outbox[|outbox| - 1].recipients
    {
      rooms := Left(rooms, ProjectNs, ProjectRoom(projectId), sid);
      var others := Members(rooms, ProjectNs, ProjectRoom(projectId)) - {sid};
      assert others == Members(rooms, ProjectNs, ProjectRoom(projectId));
      outbox := outbox + [Message(ProjectNs, others, "user:presence", OfflinePresence(userId))];
    }

    /** `job:subscribe` on `/ai-jobs`. */
    method JobSubscribe(sid: string, jobId: string)
      requires initialized
      modifies this
      ensures initialized && outbox == old(outbox)
      ensures rooms == Joined(old(rooms), JobsNs, JobRoom(jobId), sid)
    {
      rooms := Joined(rooms, JobsNs, JobRoom(jobId), sid);
    }

    /** `job:unsubscribe` on `/ai-jobs`. */
    method JobUnsubscribe(sid: string, jobId: string)
      requires initialized
      modifies this
      ensures initialized && outbox == old(outbox)
      ensures rooms == Left(old(rooms), JobsNs, JobRoom(jobId), sid)
    {
      rooms := Left(rooms, JobsNs, JobRoom(jobId), sid);
    }

    /** `subscribe` on `/notifications`. */
    method Subscribe(sid: string, userId: string)
      requires initialized
      modifies this
      ensures initialized && outbox == old(outbox)
      ensures rooms == Joined(old(rooms), NotifyNs, UserRoom(userId), sid)
    {
      rooms := Joined(rooms, NotifyNs, UserRoom(userId), sid);
    }

    /** A disconnect in any namespace: the handler only logs, so nothing is sent. */
    method Disconnect(ns: string, sid: string)
      requires initialized
      modifies this
      ensures initialized && outbox == old(outbox)
      ensures rooms == Dropped(old(rooms), ns, sid)
    {
      rooms := Dropped(rooms, ns, sid);
    }

    /** The common body of the three `emitTo*` helpers. */
    method EmitTo(ns: string, room: string, event: string, data: Value) returns (r: Result<(), Error>)
      modifies this
      ensures r == old(GetIO()) && rooms == old(rooms) && initialized == old(initialized)
      ensures r.Ok? ==> outbox == old(outbox) + [Message(ns, Members(rooms, ns, room), event, data)]
      ensures r.Err? ==> outbox == old(outbox)
    {
      r := GetIO();
      if r.Ok? {
        outbox := outbox + [Message(ns, Members(rooms, ns, room), event, data)];
      }
    }

    /** `emitToJob(jobId, event, data)`: everyone subscribed to the job in `/ai-jobs`. */
    method EmitToJob(jobId: string, event: string, data: Value) returns (r: Result<(), Error>)
      modifies this
      ensures r == old(GetIO()) && rooms == old(rooms) && initialized == old(initialized)
      ensures r.Ok? ==> outbox == old(outbox) + [Message(JobsNs, Members(rooms, JobsNs, JobRoom(jobId)), event, data)]
      ensures r.Err? ==> outbox == old(outbox)
    {
      r := EmitTo(JobsNs, JobRoom(jobId), event, data);
    }

    /** `emitToProject(projectId, event, data)`: everyone in the project room in `/project`. */
    method EmitToProject(projectId: string, event: string, data: Value) returns (r: Result<(), Error>)
      modifies this
      ensures r == old(GetIO()) && rooms == old(rooms) && initialized == old(initialized)
      ensures r.Ok? ==> outbox == old(outbox) + [Message(ProjectNs, Members(rooms, ProjectNs, ProjectRoom(projectId)), event, data)]
      ensures r.Err? ==> outbox == old(outbox)
    {
      r := EmitTo(ProjectNs, ProjectRoom(projectId), event, data);
    }

    /** `emitToUser(userId, event, data)`: every socket of the user in `/notifications`. */
    method EmitToUser(userId: string, event: string, data: Value) returns (r: Result<(), Error>)
      modifies this
      ensures r == old(GetIO()) && rooms == old(rooms) && initialized == old(initialized)
      ensures r.Ok? ==> outbox == old(outbox) + [Message(NotifyNs, Members(rooms, NotifyNs, UserRoom(userId)), event, data)]
      ensures r.Err? ==> outbox == old(outbox)
    {
      r := EmitTo(NotifyNs, UserRoom(userId), event, data);
    }
  }
}
