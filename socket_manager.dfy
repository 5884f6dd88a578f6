/**
 * The broadcast registry: the process-wide `SocketManager` holding an optional
 * handle to the live server, with the envelope-routing `SendMessage`, the
 * envelope-building `Broadcast`, the raw escape hatches `Emit` / `EmitToRoom`,
 * and `GetIO`, the only operation that fails before initialisation. Every send
 * made before `Initialize` is dropped without an error.
 */
module Registry {
  import opened Wrappers
  import opened Js
  import opened MessageTypes
  import opened Transport
  import opened Errors

  const NotInitializedMessage := "Socket.IO server not initialized. Call initialize() first."

  /** The wire-level event name every envelope is delivered under. */
  const MessageEvent := "message"

  /** The envelope `broadcast` builds; an omitted room becomes the empty string. */
  function BroadcastEnvelope(now: string, event: string, data: Data, remitter: MessageRemitter, room: Option<string>): (m: SocketMessage)
    ensures m.event == event && m.data == data && m.remitter == remitter.Wire() && m.timestamp == now
    ensures m.room == Str(room.GetOr(""))
  {
    SocketMessage(remitter.Wire(), event, now, data, Str(if room.Some? then room.value else ""))
  }

  /** A broadcast goes to its room when one is given and non-empty, and to everyone otherwise. */
  lemma BroadcastTarget(now: string, event: string, data: Data, remitter: MessageRemitter, room: Option<string>)
    ensures TargetOf(BroadcastEnvelope(now, event, data, remitter, room).room)
         == if room.Some? && room.value != "" then Room(Str(room.value)) else All
  {
  }

  class SocketManager {
    var io: Server?

    /** The private constructor: a new manager holds no server. */
    constructor ()
      ensures io == null
    {
      io := null;
    }

    /** Binds the server; calling it again rebinds, the last call wins. */
    method Initialize(server: Server)
      modifies this
      ensures io == server
    {
      io := server;
    }

    /** The bound server, or the initialisation error when there is none. */
    method GetIO() returns (r: Result<Server, Thrown>)
      ensures io == null ==> r == Failure(PlainError("Error", NotInitializedMessage))
      ensures io != null ==> r == Success(io)
    {
      if io == null {
        return Failure(PlainError("Error", NotInitializedMessage));
      }
      return Success(io);
    }

    /**
     * Delivers one envelope, unchanged, under the wire event "message": to its room
     * when `room` is truthy, to everyone otherwise. Without a server nothing happens.
     */
    method SendMessage(message: SocketMessage)
      modifies io
      ensures io != null && Truthy(message.room) ==>
        io.log == old(io.log) + [Delivery(Room(message.room), MessageEvent, Envelope(message))]
      ensures io != null && !Truthy(message.room) ==>
        io.log == old(io.log) + [Delivery(All, MessageEvent, Envelope(message))]
    {
      if io != null {
        if Truthy(message.room) {
          io.EmitToRoom(message.room, MessageEvent, Envelope(message));
        } else {
          io.EmitToAll(MessageEvent, Envelope(message));
        }
      }
    }

    /** Builds an envelope stamped `now` and sends it; `remitter` defaults to server, `room` to none. */
    method Broadcast(now: string, event: string, data: Data, remitter: MessageRemitter := SERVER, room: Option<string> := None)
      modifies io
      ensures io != null ==>
        io.log == old(io.log) + [Delivery(TargetOf(Str(room.GetOr(""))), MessageEvent,
                                          Envelope(BroadcastEnvelope(now, event, data, remitter, room)))]
    {
      var message := BroadcastEnvelope(now, event, data, remitter, room);
      SendMessage(message);
    }

    /** The raw escape hatch: `data` goes to everyone under `event`, not wrapped. */
    method Emit(event: string, data: Payload)
      modifies io
      ensures io != null ==> io.log == old(io.log) + [Delivery(All, event, data)]
    {
      if io != null {
        io.EmitToAll(event, data);
      }
    }

    /** The raw escape hatch for one room: `data` goes to `room` under `event`, not wrapped. */
    method EmitToRoom(room: Value, event: string, data: Payload)
      modifies io
      ensures io != null ==> io.log == old(io.log) + [Delivery(Room(room), event, data)]
    {
      if io != null {
        io.EmitToRoom(room, event, data);
      }
    }
  }

  /** The class-level slot that holds the one `SocketManager` instance. */
  class SocketManagerStatics {
    var instance: SocketManager?

    constructor ()
      ensures instance == null
    {
      instance := null;
    }

    /** The server the instance is bound to, or null when there is no instance or no binding. */
    function Bound(): Server?
      reads this, instance
    {
      if instance == null then null else instance.io
    }

    /** Creates the instance on first use; every later call returns that same object. */
    method GetInstance() returns (m: SocketManager)
      modifies this
      ensures instance == m
      ensures old(instance) != null ==> m == old(instance)
      ensures old(instance) == null ==> fresh(m) && m.io == null
      ensures Bound() == old(Bound())
    {
      if instance == null {
        instance := new SocketManager();
      }
      m := instance;
    }
  }

  /** Two calls of `GetInstance` return the same object. */
  method GetInstanceTwice(statics: SocketManagerStatics) returns (a: SocketManager, b: SocketManager)
    modifies statics
    ensures a == b
  {
    a := statics.GetInstance();
    b := statics.GetInstance();
  }

  /**
   * The registry's lifecycle: `GetIO` fails before `Initialize`, a send before
   * `Initialize` changes no server, and after two `Initialize` calls `GetIO`
   * returns the server of the second.
   */
  method Lifecycle(first: Server, second: Server, message: SocketMessage)
    returns (before: Result<Server, Thrown>, after: Result<Server, Thrown>)
    requires first != second
    modifies first, second
    ensures before.Failure? && after == Success(second)
    ensures first.log == old(first.log)
    ensures second.log == old(second.log) + [Delivery(TargetOf(message.room), MessageEvent, Envelope(message))]
  {
    var statics := new SocketManagerStatics();
    var manager := statics.GetInstance();
    before := manager.GetIO();
    manager.SendMessage(message);
    manager.Initialize(first);
    manager.Initialize(second);
    manager.SendMessage(message);
    after := manager.GetIO();
  }
}
