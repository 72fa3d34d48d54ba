/**
 * The Socket.IO side seen by the relay: named rooms of sockets and the
 * ordered log of everything emitted, including acknowledgements.
 */
module Transport {
  import opened Types

  type SocketId = string

  /** Who an emit is addressed to. */
  datatype Target =
    | ToSocket(socket: SocketId)                   // socket.emit
    | ToRoom(name: string)                         // io.to(name).emit
    | ToRoomExcept(name: string, except: SocketId) // socket.to(name).emit

  /** The object passed to a request's acknowledgement callback. */
  datatype Reply =
    | Ok                                                              // { ok: true }
    | Failed(error: string)                                           // { ok: false, error }
    | RoomPage(room: string, messages: seq<ChatMessage>, nextOffset: int)
    | DirectPage(peer: string, directMessages: seq<DirectMessage>, nextOffset: int)

  datatype Emission =
    | Emit(target: Target, event: string, payload: Out)
    | Ack(socket: SocketId, reply: Reply)

  /** The acknowledgement a request gets, if its client passed a callback. */
  function AckIf(callback: bool, socket: SocketId, reply: Reply): seq<Emission>
  {
    if callback then [Ack(socket, reply)] else []
  }

  function MembersOf(rooms: map<string, set<SocketId>>, name: string): set<SocketId>
  {
    if name in rooms then rooms[name] else {}
  }

  /** The sockets an emit reaches, given the room memberships when it is sent. */
  function Recipients(rooms: map<string, set<SocketId>>, target: Target): (r: set<SocketId>)
    ensures target.ToRoomExcept? ==> target.except !in r
  {
    match target
    case ToSocket(s) => {s}
    case ToRoom(name) => MembersOf(rooms, name)
    case ToRoomExcept(name, s) => MembersOf(rooms, name) - {s}
  }

  /** The room memberships once a socket has left every room. */
  function WithoutSocket(rooms: map<string, set<SocketId>>, socket: SocketId): (r: map<string, set<SocketId>>)
    ensures forall name, s :: s in MembersOf(r, name) <==> s in MembersOf(rooms, name) && s != socket
  {
    map name | name in rooms :: rooms[name] - {socket}
  }

  class Io {
    var rooms: map<string, set<SocketId>>
    var log: seq<Emission>

    constructor ()
      ensures rooms == map[] && log == []
    {
      rooms, log := map[], [];
    }

    method Join(socket: SocketId, name: string)
      modifies this
      ensures rooms == old(rooms)[name := MembersOf(old(rooms), name) + {socket}] && log == old(log)
    {
      rooms := rooms[name := MembersOf(rooms, name) + {socket}];
    }

    method Leave(socket: SocketId, name: string)
      modifies this
      ensures rooms == old(rooms)[name := MembersOf(old(rooms), name) - {socket}] && log == old(log)
    {
      rooms := rooms[name := MembersOf(rooms, name) - {socket}];
    }

    /** What Socket.IO does to a closing socket before its `disconnect` listeners run. */
    method LeaveAll(socket: SocketId)
      modifies this
      ensures rooms == WithoutSocket(old(rooms), socket) && log == old(log)
    {
      rooms := WithoutSocket(rooms, socket);
    }

    method Send(e: Emission)
      modifies this
      ensures log == old(log) + [e] && rooms == old(rooms)
    {
      log := log + [e];
    }

    method Acknowledge(callback: bool, socket: SocketId, reply: Reply)
      modifies this
      ensures log == old(log) + AckIf(callback, socket, reply) && rooms == old(rooms)
    {
      if callback {
        log := log + [Ack(socket, reply)];
      }
    }
  }
}
