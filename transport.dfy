/**
 * The real-time transport the notification layer runs on, reduced to what the
 * layer observes: a server that records every emit it is asked to make, and a
 * connection with an id, a set of joined rooms and the inbound events it listens to.
 */
module Transport {
  import opened Js
  import opened MessageTypes

  /** Who an emit is addressed to. */
  datatype Target = All | Room(name: Value)

  /** One emit: its addressees, its wire-level event name and what it carries. */
  datatype Delivery = Delivery(target: Target, event: string, payload: Payload)

  /** Where an envelope with this `room` goes: the room when it is truthy, everyone otherwise. */
  function TargetOf(room: Value): (t: Target)
    ensures t.Room? <==> Truthy(room)
    ensures t.Room? ==> t.name == room
  {
    if Truthy(room) then Room(room) else All
  }

  /** The server: an append-only log of the emits made through it. */
  class Server {
    var log: seq<Delivery>

    constructor ()
      ensures log == []
    {
      log := [];
    }

    /** `io.emit(event, data)` */
    method EmitToAll(event: string, data: Payload)
      modifies this
      ensures log == old(log) + [Delivery(All, event, data)]
    {
      log := log + [Delivery(All, event, data)];
    }

    /** `io.to(room).emit(event, data)` */
    method EmitToRoom(room: Value, event: string, data: Payload)
      modifies this
      ensures log == old(log) + [Delivery(Room(room), event, data)]
    {
      log := log + [Delivery(Room(room), event, data)];
    }
  }

  /** One client connection. */
  class Socket {
    const id: string
    var rooms: set<string>
    var listeners: seq<string>

    /** A fresh connection is in the room named by its own id and listens to nothing. */
    constructor (id: string)
      ensures this.id == id && rooms == {id} && listeners == []
    {
      this.id := id;
      rooms := {id};
      listeners := [];
    }

    /** `socket.on(event, callback)`: registers a callback for an inbound event. */
    method On(event: string)
      modifies this
      ensures listeners == old(listeners) + [event] && rooms == old(rooms)
    {
      listeners := listeners + [event];
    }

    /** `socket.join(room)` */
    method Join(room: string)
      modifies this
      ensures rooms == old(rooms) + {room} && listeners == old(listeners)
    {
      rooms := rooms + {room};
    }

    /** `socket.leave(room)` */
    method Leave(room: string)
      modifies this
      ensures rooms == old(rooms) - {room} && listeners == old(listeners)
    {
      rooms := rooms - {room};
    }
  }
}
