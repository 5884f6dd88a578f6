/**
 * The notification protocol: the envelope every notification is wrapped in,
 * the payload records of the common events, and the two closed vocabularies
 * (event names and remitter tags) with their wire strings.
 */
module MessageTypes {
  import opened Wrappers
  import opened Js

  /** Why a notification exists. */
  datatype MessageRemitter = SERVER | SYSTEM | USER | API {
    function Wire(): string {
      match this
      case SERVER => "server"
      case SYSTEM => "system"
      case USER => "user"
      case API => "api"
    }
  }

  const AllRemitters: seq<MessageRemitter> := [SERVER, SYSTEM, USER, API]

  /** Reads a remitter tag back from its wire string. */
  function ParseRemitter(s: string): (r: Option<MessageRemitter>)
    ensures r.Some? ==> r.value.Wire() == s
    ensures r.None? ==> forall m: MessageRemitter :: m.Wire() != s
  {
    if s == "server" then Some(SERVER)
    else if s == "system" then Some(SYSTEM)
    else if s == "user" then Some(USER)
    else if s == "api" then Some(API)
    else None
  }

  /** The remitter vocabulary is exactly four tags with four distinct wire strings. */
  lemma RemitterVocabulary()
    ensures |AllRemitters| == 4
    ensures forall m: MessageRemitter :: m in AllRemitters
    ensures forall i, j :: 0 <= i < j < |AllRemitters| ==> AllRemitters[i].Wire() != AllRemitters[j].Wire()
  {
    forall m: MessageRemitter ensures m in AllRemitters {
      match m
      case SERVER => assert AllRemitters[0] == m;
      case SYSTEM => assert AllRemitters[1] == m;
      case USER => assert AllRemitters[2] == m;
      case API => assert AllRemitters[3] == m;
    }
  }

  /** Printing a remitter tag and reading it back gives the same tag. */
  lemma RemitterRoundTrip(m: MessageRemitter)
    ensures ParseRemitter(m.Wire()) == Some(m)
  {
  }

  /** The predefined event names. */
  datatype SocketEvents =
    | CHAT_MESSAGE | USER_JOINED | USER_LEFT | USERS_UPDATED
    | ROOM_JOINED | ROOM_LEFT | SYSTEM_MESSAGE | ERROR
  {
    function Wire(): string {
      match this
      case CHAT_MESSAGE => "chat-message"
      case USER_JOINED => "user-joined"
      case USER_LEFT => "user-left"
      case USERS_UPDATED => "users-updated"
      case ROOM_JOINED => "room-joined"
      case ROOM_LEFT => "room-left"
      case SYSTEM_MESSAGE => "system-message"
      case ERROR => "error"
    }
  }

  const AllEvents: seq<SocketEvents> :=
    [CHAT_MESSAGE, USER_JOINED, USER_LEFT, USERS_UPDATED, ROOM_JOINED, ROOM_LEFT, SYSTEM_MESSAGE, ERROR]

  /** Reads an event name back from its wire string. */
  function ParseEvent(s: string): (r: Option<SocketEvents>)
    ensures r.Some? ==> r.value.Wire() == s
    ensures r.None? ==> forall e: SocketEvents :: e.Wire() != s
  {
    if s == "chat-message" then Some(CHAT_MESSAGE)
    else if s == "user-joined" then Some(USER_JOINED)
    else if s == "user-left" then Some(USER_LEFT)
    else if s == "users-updated" then Some(USERS_UPDATED)
    else if s == "room-joined" then Some(ROOM_JOINED)
    else if s == "room-left" then Some(ROOM_LEFT)
    else if s == "system-message" then Some(SYSTEM_MESSAGE)
    else if s == "error" then Some(ERROR)
    else None
  }

  /** The event vocabulary is exactly eight names with eight distinct wire strings. */
  lemma EventVocabulary()
    ensures |AllEvents| == 8
    ensures forall e: SocketEvents :: e in AllEvents
    ensures forall i, j :: 0 <= i < j < |AllEvents| ==> AllEvents[i].Wire() != AllEvents[j].Wire()
  {
    forall e: SocketEvents ensures e in AllEvents {
      match e
      case CHAT_MESSAGE => assert AllEvents[0] == e;
      case USER_JOINED => assert AllEvents[1] == e;
      case USER_LEFT => assert AllEvents[2] == e;
      case USERS_UPDATED => assert AllEvents[3] == e;
      case ROOM_JOINED => assert AllEvents[4] == e;
      case ROOM_LEFT => assert AllEvents[5] == e;
      case SYSTEM_MESSAGE => assert AllEvents[6] == e;
      case ERROR => assert AllEvents[7] == e;
    }
  }

  /** Printing an event name and reading it back gives the same event. */
  lemma EventRoundTrip(e: SocketEvents)
    ensures ParseEvent(e.Wire()) == Some(e)
  {
  }

  /**
   * Payload of a chat message: `text` is required, `username` optional. Both are
   * whatever the client sent, hence JavaScript values.
   */
  datatype ChatMessageData = ChatMessageData(text: Value, username: Option<Value>)

  /** Payload of a per-user event. */
  datatype UserEventData = UserEventData(userId: string, username: Option<string>)

  /** Payload of a users-updated event: `count` is required, `users` optional. */
  datatype UsersUpdatedData = UsersUpdatedData(count: real, users: Option<seq<Value>>)

  /** Payload of a room event: both fields required. */
  datatype RoomEventData = RoomEventData(roomName: string, userId: string)

  /** The `data` of an envelope: one of the records above, or any other value. */
  datatype Data =
    | Chat(chat: ChatMessageData)
    | UserEvent(user: UserEventData)
    | UsersUpdated(update: UsersUpdatedData)
    | RoomEvent(roomEvent: RoomEventData)
    | AnyData(value: Value)

  /**
   * The envelope. `remitter`, `event`, `timestamp` and `data` are always present;
   * `room` is optional and reads as `Undefined` when absent. It is a JavaScript value
   * because the message handler copies it unchecked from the client's payload.
   */
  datatype SocketMessage = SocketMessage(
    remitter: string,
    event: string,
    timestamp: string,
    data: Data,
    room: Value)

  /** What a wire-level emit carries: an envelope, or raw data from the escape hatches. */
  datatype Payload = Envelope(message: SocketMessage) | Raw(value: Value)
}
