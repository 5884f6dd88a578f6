/**
 * The per-connection chat handler: it listens to inbound "message" events,
 * coerces the untyped payload into a chat-message envelope tagged `user`,
 * and emits it to the payload's room, or to everyone when there is none.
 */
module MessageEvents {
  import opened Wrappers
  import opened Js
  import opened MessageTypes
  import opened Transport
  import opened Errors
  import opened Registry

  /** The username made up for a client that sent none: "User-" and the first six characters of its id. */
  function SynthesizedUsername(socketId: string): (u: string)
    ensures |u| == 5 + (if |socketId| < 6 then |socketId| else 6)
    ensures u == "User-" + socketId[..|u| - 5]
  {
    "User-" + socketId[..if |socketId| < 6 then |socketId| else 6]
  }

  /** The TypeError a property read on `undefined` or `null` throws. */
  function NullishRead(rawData: Value, key: string): Thrown
    requires rawData.Undefined? || rawData.Null?
  {
    PlainError("TypeError", "Cannot read properties of " + (if rawData.Null? then "null" else "undefined")
                            + " (reading '" + key + "')")
  }

  /**
   * The envelope built from an inbound payload, or the TypeError thrown when the
   * payload is `undefined` or `null`. `text` falls back to the whole payload and
   * `username` to a name made from the connection id; `room` is copied as it is.
   */
  function ChatEnvelope(rawData: Value, socketId: string, now: string): (r: Result<SocketMessage, Thrown>)
    ensures r.Failure? <==> rawData.Undefined? || rawData.Null?
    ensures r.Failure? ==> r.error == NullishRead(rawData, "text")
    ensures r.Success? ==>
      && r.value.remitter == USER.Wire() && r.value.event == CHAT_MESSAGE.Wire()
      && r.value.timestamp == now
      && r.value.room == Property(rawData, "room").value
      && r.value.data.Chat?
    ensures r.Success? ==>
      var text := Property(rawData, "text").value;
      var user := Property(rawData, "username").value;
      && (Truthy(text) ==> r.value.data.chat.text == text)
      && (!Truthy(text) ==> r.value.data.chat.text == rawData)
      && (Truthy(user) ==> r.value.data.chat.username == Some(user))
      && (!Truthy(user) ==> r.value.data.chat.username == Some(Str(SynthesizedUsername(socketId))))
  {
    match Property(rawData, "text")
    case None => Failure(NullishRead(rawData, "text"))
    case Some(text) =>
      var user := Property(rawData, "username").value;
      var room := Property(rawData, "room").value;
      Success(SocketMessage(
        USER.Wire(),
        CHAT_MESSAGE.Wire(),
        now,
        Chat(ChatMessageData(Or(text, rawData), Some(Or(user, Str(SynthesizedUsername(socketId)))))),
        room))
  }

  /** A plain-string payload becomes the text itself, with a synthesized username and global delivery. */
  lemma PlainStringPayload(s: string, socketId: string, now: string)
    ensures ChatEnvelope(Str(s), socketId, now).Success?
    ensures var m := ChatEnvelope(Str(s), socketId, now).value;
      && m.data == Chat(ChatMessageData(Str(s), Some(Str(SynthesizedUsername(socketId)))))
      && m.room == Undefined && TargetOf(m.room) == All
  {
  }

  /** A structured payload with text, username and room keeps all three. */
  lemma StructuredPayload(text: string, username: string, room: string, socketId: string, now: string)
    requires text != "" && username != "" && room != ""
    ensures ChatEnvelope(Obj(map["text" := Str(text), "username" := Str(username), "room" := Str(room)]), socketId, now)
         == Success(SocketMessage("user", "chat-message", now,
                                  Chat(ChatMessageData(Str(text), Some(Str(username)))), Str(room)))
  {
  }

  class MessageHandler {
    const socket: Socket
    const statics: SocketManagerStatics

    constructor (socket: Socket, statics: SocketManagerStatics)
      ensures this.socket == socket && this.statics == statics
    {
      this.socket := socket;
      this.statics := statics;
    }

    /** Registers exactly one callback, for inbound "message". */
    method SetupEvents()
      modifies socket
      ensures socket.listeners == old(socket.listeners) + ["message"]
      ensures socket.rooms == old(socket.rooms)
    {
      socket.On("message");
    }

    /**
     * Handles one inbound payload: builds the envelope and, through the registry,
     * emits it under "message" to the payload's room when that is truthy and to
     * everyone otherwise. A nullish payload throws before anything is emitted; an
     * unbound registry drops the emit.
     */
    method HandleMessage(rawData: Value, now: string) returns (thrown: Option<Thrown>)
      modifies statics, statics.Bound()
      ensures var r := ChatEnvelope(rawData, socket.id, now);
        && (r.Failure? ==> thrown == Some(r.error) && statics.instance == old(statics.instance))
        && (r.Success? ==> thrown == None)
      ensures statics.Bound() == old(statics.Bound())
      ensures old(statics.Bound()) != null ==>
        var server := old(statics.Bound());
        var r := ChatEnvelope(rawData, socket.id, now);
        && (r.Failure? ==> server.log == old(server.log))
        && (r.Success? ==> server.log == old(server.log) + [Delivery(TargetOf(r.value.room), MessageEvent, Envelope(r.value))])
    {
      var r := ChatEnvelope(rawData, socket.id, now);
      if r.Failure? {
        return Some(r.error);
      }
      var message := r.value;
      var manager := statics.GetInstance();
      if Truthy(message.room) {
        manager.EmitToRoom(message.room, MessageEvent, Envelope(message));
      } else {
        manager.Emit(MessageEvent, Envelope(message));
      }
      return None;
    }
  }
}
