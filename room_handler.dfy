/**
 * The per-connection room handler: it listens to "join-room" and "leave-room",
 * changes the connection's membership, and then sends one system envelope
 * (`user-joined` or `user-left`) to that room only.
 */
module RoomEvents {
  import opened Wrappers
  import opened Js
  import opened MessageTypes
  import opened Transport
  import opened Registry

  /** The notification for a room event: tagged `system`, addressed to the room, naming the room and the user. */
  function RoomEnvelope(event: SocketEvents, room: string, socketId: string, now: string): (m: SocketMessage)
    ensures m.remitter == SYSTEM.Wire() && m.event == event.Wire() && m.timestamp == now
    ensures m.data == RoomEvent(RoomEventData(room, socketId))
    ensures m.room == Str(room)
  {
    SocketMessage(SYSTEM.Wire(), event.Wire(), now, RoomEvent(RoomEventData(room, socketId)), Str(room))
  }

  class RoomHandler {
    const socket: Socket
    const statics: SocketManagerStatics

    constructor (socket: Socket, statics: SocketManagerStatics)
      ensures this.socket == socket && this.statics == statics
    {
      this.socket := socket;
      this.statics := statics;
    }

    /** Registers exactly "join-room" and "leave-room", in that order. */
    method SetupEvents()
      modifies socket
      ensures socket.listeners == old(socket.listeners) + ["join-room", "leave-room"]
      ensures socket.rooms == old(socket.rooms)
    {
      socket.On("join-room");
      socket.On("leave-room");
    }

    /** Joins `room`, then emits one `user-joined` envelope to that room (never to everyone). */
    method HandleJoinRoom(room: string, now: string)
      modifies socket, statics, statics.Bound()
      ensures socket.rooms == old(socket.rooms) + {room} && socket.listeners == old(socket.listeners)
      ensures statics.Bound() == old(statics.Bound())
      ensures old(statics.Bound()) != null ==>
        var server := old(statics.Bound());
        server.log == old(server.log)
          + [Delivery(Room(Str(room)), MessageEvent, Envelope(RoomEnvelope(USER_JOINED, room, socket.id, now)))]
    {
      socket.Join(room);
      var message := RoomEnvelope(USER_JOINED, room, socket.id, now);
      var manager := statics.GetInstance();
      manager.EmitToRoom(message.room, MessageEvent, Envelope(message));
    }

    /** Leaves `room`, then emits one `user-left` envelope to that room (never to everyone). */
    method HandleLeaveRoom(room: string, now: string)
      modifies socket, statics, statics.Bound()
      ensures socket.rooms == old(socket.rooms) - {room} && socket.listeners == old(socket.listeners)
      ensures statics.Bound() == old(statics.Bound())
      ensures old(statics.Bound()) != null ==>
        var server := old(statics.Bound());
        server.log == old(server.log)
          + [Delivery(Room(Str(room)), MessageEvent, Envelope(RoomEnvelope(USER_LEFT, room, socket.id, now)))]
    {
      socket.Leave(room);
      var message := RoomEnvelope(USER_LEFT, room, socket.id, now);
      var manager := statics.GetInstance();
      manager.EmitToRoom(message.room, MessageEvent, Envelope(message));
    }
  }

  /** There is no duplicate guard: joining the same room twice sends two `user-joined` notifications. */
  method JoinTwice(handler: RoomHandler, room: string, now: string)
    requires handler.statics.Bound() != null
    modifies handler.socket, handler.statics, handler.statics.Bound()
    ensures var server := old(handler.statics.Bound());
      var joined := Delivery(Room(Str(room)), MessageEvent,
                             Envelope(RoomEnvelope(USER_JOINED, room, handler.socket.id, now)));
      server.log == old(server.log) + [joined, joined]
    ensures handler.socket.rooms == old(handler.socket.rooms) + {room}
  {
    handler.HandleJoinRoom(room, now);
    handler.HandleJoinRoom(room, now);
  }

  /** Joining a room the connection was not in and leaving it again restores its membership. */
  method JoinThenLeave(handler: RoomHandler, room: string, now: string)
    requires room !in handler.socket.rooms
    modifies handler.socket, handler.statics, handler.statics.Bound()
    ensures handler.socket.rooms == old(handler.socket.rooms)
  {
    handler.HandleJoinRoom(room, now);
    handler.HandleLeaveRoom(room, now);
  }
}
