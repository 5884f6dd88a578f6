# A verified model of the clean-architecture chat and auth service

This project is a Dafny model of the logic in a small Express and Socket.IO
service, with proofs of what that logic promises. The service is written in
TypeScript. The model covers four groups:

- **The room-scoped notification layer.** `SocketManager` is a lazily created
  singleton holding an optional server handle. `MessageHandler` turns an inbound
  chat payload into a `chat-message` envelope. `RoomHandler` joins or leaves a
  room and sends one `user-joined` or `user-left` notice to it. The transport
  is an append-only log of deliveries, each a target (everyone, or one room),
  a wire event name and a payload. A socket holds a room-membership set. The
  timestamp is a parameter.
- **Errors and HTTP replies.** `CustomError` with its status-to-code inference
  and factories. The global error middleware, modelled as a function from the
  thrown value to one status and one body. `ResponseFactory`.
- **Validators and mappers.**
  - The `create` guard chains of the register, login and get-user DTOs.
  - The truthiness guards of `UserMapper`.
  - The zod rules and object schemas of `UserValidations`.
- **Use cases and the JWT gate.**
  - Login and register: a repository call, then token signing, then a
    password-free answer.
  - Get-user and get-all, both with the hard-coded `count` of 2.
  - The `Authorization` header chain of `AuthMiddleware.validateJWT`.

  The repository, the token signer and the token verifier are function
  parameters.

JavaScript values are the datatype `Js.Value`. Truthiness, `||`, destructuring,
property reads, `trim`, `.length` in UTF-16 code units and `split(' ')` are
written out in `js.dfy`. A `throw` is the `Failure` of a `Result`.

| file | module | models |
|---|---|---|
| wrappers.dfy | Wrappers | `Option`, `Result` |
| js.dfy | Js | JavaScript values and the string built-ins used |
| checks.dfy | Checks | ordered check lists: first failure, all failures |
| message_types.dfy | MessageTypes | envelope, payload records, the two enums |
| transport.dfy | Transport | the server's delivery log, a socket's rooms and listeners |
| socket_manager.dfy | Registry | `SocketManager` and its static instance slot |
| message_handler.dfy | MessageEvents | `MessageHandler` |
| room_handler.dfy | RoomEvents | `RoomHandler` |
| custom_error.dfy | Errors | `ErrorCode`, `CustomError`, what can be thrown |
| response_factory.dfy | Responses | `ResponseFactory` |
| error_handler.dfy | ErrorHandler | `errorHandlerMiddleware` |
| entities.dfy | Entities | the user and its password-free projection |
| auth_dtos.dfy | AuthDtos | `RegisterUserDto`, `LoginUserDto` |
| user_dtos.dfy | UserDtos | `GetUserDto`, `GetAllUserResponseDto` |
| user_mapper.dfy | UserMapper | `UserMapper` |
| auth_use_cases.dfy | AuthUseCases | `LoginUser`, `RegisterUser` |
| user_use_cases.dfy | UserUseCases | `GetUser`, the get-all use case |
| auth_middleware.dfy | AuthMiddleware | `AuthMiddleware.validateJWT` |
| user_validations.dfy | UserValidations | `UserValidations` |

Where a described behaviour and the code differ, the model follows the code:

- A send made before `initialize` is dropped without an error. Only `getIO`
  throws.
- The get-all use case class is named `RegisterUser` in
  `get-all-user.use-case.ts`. Here it is `GetAllUsersExecute`.
- `count` is the literal 2 in both user use cases. So the middleware's
  `count === 0` "User not found" branch never fires.
- A `null` or `undefined` chat payload throws a TypeError at `rawData.text`
  and emits nothing, although a malformed inbound payload is described as never
  raising (see `MessageEvents.ChatEnvelope` and
  `MessageEvents.MessageHandler.HandleMessage`).
- The password rule's lookaheads `(?=.*…)` test only the first line of the
  password, because `.` does not match a line terminator (see
  `UserValidations.DigitAfterLineBreakIsMissed`).

TypeScript string enums have no reverse mapping. `MessageTypes.ParseRemitter`
and `MessageTypes.ParseEvent` are not in the service. They are reference
partners for the two enums: the round-trip lemmas use them to show that the
wire strings are pairwise distinct.

## Model

| member | source | states |
|---|---|---|
| MessageTypes.ParseRemitter | src/presentation/socket/types/message.types.ts:43-48 | a parsed wire string is the wire string of the remitter returned; `None` only for strings no remitter has |
| MessageTypes.RemitterVocabulary | src/presentation/socket/types/message.types.ts:43-48 | there are exactly four remitters, with pairwise distinct wire strings |
| MessageTypes.RemitterRoundTrip | src/presentation/socket/types/message.types.ts:43-48 | parsing a remitter's wire string gives that remitter back |
| MessageTypes.ParseEvent | src/presentation/socket/types/message.types.ts:31-40 | a parsed wire string is the wire string of the event returned; `None` only for strings no event has |
| MessageTypes.EventVocabulary | src/presentation/socket/types/message.types.ts:31-40 | there are exactly eight events, with pairwise distinct wire strings |
| MessageTypes.EventRoundTrip | src/presentation/socket/types/message.types.ts:31-40 | parsing an event's wire string gives that event back |
| Transport.TargetOf | src/presentation/socket/socket-manager.ts:32-36 | an envelope goes to its room exactly when `room` is truthy |
| Transport.Server.EmitToAll | src/presentation/socket/socket-manager.ts:35 | appends exactly one delivery to everyone |
| Transport.Server.EmitToRoom | src/presentation/socket/socket-manager.ts:33 | appends exactly one delivery to the room |
| Transport.Socket.On | src/presentation/socket/events/message-handler.ts:7 | appends one listener; membership unchanged |
| Transport.Socket.Join | src/presentation/socket/events/room-handler.ts:12 | adds the room to the membership set; listeners unchanged |
| Transport.Socket.Leave | src/presentation/socket/events/room-handler.ts:32 | removes the room from the membership set; listeners unchanged |
| Registry.SocketManager.constructor | src/presentation/socket/socket-manager.ts:7-9 | a new manager has no server |
| Registry.SocketManagerStatics.GetInstance | src/presentation/socket/socket-manager.ts:11-16 | creates a fresh, unbound instance only on first use; later calls return the same object and change no binding |
| Registry.GetInstanceTwice | src/presentation/socket/socket-manager.ts:11-16 | two calls return the same object |
| Registry.SocketManager.Initialize | src/presentation/socket/socket-manager.ts:18-20 | never fails; the last server bound wins |
| Registry.SocketManager.GetIO | src/presentation/socket/socket-manager.ts:22-27 | the "not initialized" error when no server is bound, otherwise the bound server |
| Registry.Lifecycle | src/presentation/socket/socket-manager.ts:18-38 | `GetIO` fails before `Initialize`; a send before it changes no log; after two `Initialize` calls the second server is returned and receives the next send |
| Registry.SocketManager.SendMessage | src/presentation/socket/socket-manager.ts:30-38 | with a server: one `message` delivery of the unchanged envelope, to its room when `room` is truthy and to everyone otherwise; without one: nothing |
| Registry.BroadcastEnvelope | src/presentation/socket/socket-manager.ts:47-53 | event, data and remitter are the arguments, the timestamp is the given time, and an omitted room is `''` |
| Registry.BroadcastTarget | src/presentation/socket/socket-manager.ts:41-55 | a broadcast without a room, or with `''`, goes to everyone, otherwise to that room |
| Registry.SocketManager.Broadcast | src/presentation/socket/socket-manager.ts:41-55 | one `message` delivery of the built envelope, with the `server` remitter and no room as defaults |
| Registry.SocketManager.Emit | src/presentation/socket/socket-manager.ts:58-62 | event and raw data go to everyone unwrapped; nothing without a server |
| Registry.SocketManager.EmitToRoom | src/presentation/socket/socket-manager.ts:64-68 | event and raw data go to the room unwrapped; nothing without a server |
| MessageEvents.SynthesizedUsername | src/presentation/socket/events/message-handler.ts:20 | `"User-"` followed by the first six characters of the id, or all of it when shorter |
| MessageEvents.ChatEnvelope | src/presentation/socket/events/message-handler.ts:14-23 | a TypeError exactly for a nullish payload; otherwise remitter `user`, event `chat-message`, room copied, `text` the payload's truthy text or else the whole payload, `username` the truthy username or else the synthesized one |
| MessageEvents.PlainStringPayload | src/presentation/socket/events/message-handler.ts:19-30 | a string payload is the text itself, has no room and goes to everyone |
| MessageEvents.StructuredPayload | src/presentation/socket/events/message-handler.ts:14-23 | non-empty text, username and room are kept as given |
| MessageEvents.MessageHandler.SetupEvents | src/presentation/socket/events/message-handler.ts:6-8 | registers exactly one listener, `message` |
| MessageEvents.MessageHandler.HandleMessage | src/presentation/socket/events/message-handler.ts:10-31 | a nullish payload throws and emits nothing; otherwise exactly one `message` delivery of the envelope, to its truthy room or to everyone |
| RoomEvents.RoomEnvelope | src/presentation/socket/events/room-handler.ts:16-25 | remitter `system`, the given event, data `{roomName, userId}` and `room` the room itself |
| RoomEvents.RoomHandler.SetupEvents | src/presentation/socket/events/room-handler.ts:6-9 | registers exactly `join-room` and `leave-room` |
| RoomEvents.RoomHandler.HandleJoinRoom | src/presentation/socket/events/room-handler.ts:11-29 | the socket joins the room, then exactly one `user-joined` envelope goes to that room and never to everyone |
| RoomEvents.RoomHandler.HandleLeaveRoom | src/presentation/socket/events/room-handler.ts:31-49 | the socket leaves the room, then exactly one `user-left` envelope goes to that room |
| RoomEvents.JoinTwice | src/presentation/socket/events/room-handler.ts:11-29 | joining twice emits two identical `user-joined` notices; there is no duplicate guard |
| RoomEvents.JoinThenLeave | src/presentation/socket/events/room-handler.ts:11-49 | when the socket was not already in the room, leaving it right after joining restores the membership it had before |
| Errors.InferCodeFromStatus | src/domain/errors/custom.error.ts:16-32 | 400, 401, 403, 404 and 409 map to their codes, each in both directions; every other status maps to `INTERNAL_ERROR` |
| Errors.NewCustomError | src/domain/errors/custom.error.ts:6-14 | status and message are stored unchanged; a given code overrides inference |
| Errors.BadRequest | src/domain/errors/custom.error.ts:35-37 | status 400, the given code or `VALIDATION_ERROR` |
| Errors.Unauthorized | src/domain/errors/custom.error.ts:39-41 | status 401 with `UNAUTHORIZED` |
| Errors.Forbidden | src/domain/errors/custom.error.ts:43-45 | status 403 with `FORBIDDEN` |
| Errors.NotFound | src/domain/errors/custom.error.ts:47-49 | status 404 with `NOT_FOUND` |
| Errors.Conflict | src/domain/errors/custom.error.ts:51-53 | status 409 with `DUPLICATE_RESOURCE` |
| Errors.InternalServer | src/domain/errors/custom.error.ts:55-57 | status 500 with `INTERNAL_ERROR`, message `"Internal Server Error"` by default |
| Errors.DuplicateResource | src/domain/errors/custom.error.ts:60-62 | status 409 with `DUPLICATE_RESOURCE` |
| Errors.ValidationError | src/domain/errors/custom.error.ts:64-66 | status 400 with `VALIDATION_ERROR` |
| Errors.FactoriesAgreeWithInference | src/domain/errors/custom.error.ts:35-66 | every factory's code is the one its status infers |
| Errors.EquivalentFactories | src/domain/errors/custom.error.ts:51-66 | `conflict` equals `duplicateResource`, and `validationError` equals `badRequest` without a code |
| Responses.SuccessResponse | src/presentation/utils/response-factory.ts:5-14 | `success` is true, data and message are carried unchanged, no error, stamped with the given time |
| Responses.ErrorResponse | src/presentation/utils/response-factory.ts:16-26 | `success` is false, data is null, the message is the error's, the error is carried, stamped |
| Responses.PaginatedResponse | src/presentation/utils/response-factory.ts:28-40 | `success` is true with the list and the pagination, no message, no error, stamped |
| Responses.SuccessIffNoError | src/presentation/utils/response-factory.ts:5-40 | `success` holds exactly when the response has no error |
| ErrorHandler.HandleError | src/presentation/middlewares/error-handler.middleware.ts:16-63 | the branches in order Zod, Custom, named Error, fallback, with their statuses, codes and messages; one error response stamped with the given time |
| ErrorHandler.StatusMatchesCode | src/presentation/middlewares/error-handler.middleware.ts:16-63 | outside the CustomError branch the status written infers the code reported |
| ErrorHandler.CustomErrorRoundTrip | src/presentation/middlewares/error-handler.middleware.ts:27-34 | an application error keeps its status, code and message |
| ErrorHandler.EmptyNameReply | src/presentation/middlewares/error-handler.middleware.ts:16-25 | a registration with an empty name is answered 400, `VALIDATION_ERROR`, "Name is required" |
| Entities.ProjectForgetsOnlyPassword | src/domain/use-cases/user/get-user-by-id.use-case.ts:26-30 | two users have the same projection exactly when they differ at most in the password |
| Js.TrimEmptyIffBlank | src/domain/dtos/auth/register-user.dto.ts:12 | `trim()` gives `''` exactly for a string of white space only |
| Js.SplitJoinRoundTrip | src/presentation/middlewares/auth.middleware.ts:28 | joining the pieces of `split` with the separator gives the string back |
| AuthDtos.RegisterUserDtoCreate | src/domain/dtos/auth/register-user.dto.ts:8-22 | exactly one of error and DTO; a DTO exactly when all three fields are non-blank strings and the password has at least 6 UTF-16 units; its fields are the inputs untrimmed |
| AuthDtos.RegisterReportsFirstFailure | src/domain/dtos/auth/register-user.dto.ts:11-19 | the message is the first failing guard's, in the order type, blank, type, blank, type, blank, length |
| AuthDtos.BlankNameIsMissing | src/domain/dtos/auth/register-user.dto.ts:12 | a whitespace-only name is "Missing name" |
| AuthDtos.AnyNonBlankEmailAccepted | src/domain/dtos/auth/register-user.dto.ts:14-21 | no email format is checked |
| AuthDtos.LoginUserDtoCreate | src/domain/dtos/auth/login-user.dto.ts:7-18 | exactly one of error and DTO; a DTO exactly for non-blank email and password with at least 6 units; fields are the inputs untrimmed |
| AuthDtos.LoginReportsFirstFailure | src/domain/dtos/auth/login-user.dto.ts:10-15 | the message is the first failing guard's, in declaration order |
| AuthDtos.LoginIgnoresOtherFields | src/domain/dtos/auth/login-user.dto.ts:8 | only `email` and `password` are read |
| UserDtos.GetUserDtoCreate | src/domain/dtos/user/get-user.dto.ts:4-10 | exactly one of error and DTO; "Id must be a number" exactly when `id` is not a number; the DTO's id is the input |
| UserDtos.AnyNumberIsAnId | src/domain/dtos/user/get-user.dto.ts:7-9 | every number is accepted as it is |
| UserDtos.GetUserDtoReadsOnlyId | src/domain/dtos/user/get-user.dto.ts:5 | only `id` is read |
| UserDtos.GetAllUserResponseDtoCreate | src/domain/dtos/user/get-all-user-response.dto.ts:11-15 | same length and order; each entry has the user's id, name and email and no image |
| UserDtos.ListingForgetsPasswords | src/domain/dtos/user/get-all-user-response.dto.ts:11-15 | lists that differ only in passwords list identically |
| UserDtos.ListingOfConcat | src/domain/dtos/user/get-all-user-response.dto.ts:11-15 | listing a concatenation concatenates the listings |
| UserMapper.UserEntityFromObject | src/infrastructure/mappers/user.mapper.ts:4-17 | succeeds exactly when some id and name, email and password are truthy; the id is `_id` when truthy, else `id`; other fields unchanged; failures are 400 bad requests |
| UserMapper.MapperReportsFirstFailure | src/infrastructure/mappers/user.mapper.ts:7-14 | the error is the bad request of the first failing guard: id, name, email, password |
| UserMapper.FalsyIdsAreMissing | src/infrastructure/mappers/user.mapper.ts:7-10 | falsy `_id` and `id` (0, `''`, null) are "Missing id" |
| UserMapper.UserArrayEntityFromObject | src/infrastructure/mappers/user.mapper.ts:19-21 | succeeds exactly when every element does, then element-wise with the same length; a failure is some element's error with all before it succeeding |
| UserMapper.ArrayFailsAtFirstInvalid | src/infrastructure/mappers/user.mapper.ts:19-21 | the first failing element's error is the one thrown |
| AuthUseCases.IssueToken | src/domain/use-cases/auth/login-user.use-case.ts:30-44 | the repository call comes first and a second call is made exactly when a user was found; a repository error propagates unchanged; signing is of `{id: user.id}` for `'2d'`; a truthy token gives success with that token and `{id, name, email}`, a `null` or `''` token a 500 "Internal Server Error" |
| AuthUseCases.LoginExecute | src/domain/use-cases/auth/login-user.use-case.ts:29-45 | `login` is called first with the DTO; signing only after a found user, with `{id: user.id}` and `'2d'`; a found user and a truthy token give success, and the answer holds the non-empty token and `{id, name, email}` |
| AuthUseCases.FalsyTokenIsInternalError | src/domain/use-cases/auth/login-user.use-case.ts:34 | a null or empty token is a 500 "Internal Server Error" |
| AuthUseCases.LoginIgnoresPassword | src/domain/use-cases/auth/login-user.use-case.ts:36-44 | the outcome does not depend on the user's password |
| AuthUseCases.RegisterExecute | src/domain/use-cases/auth/register-user.use-case.ts:31-48 | the same as login, with `register` as the repository call: a registered user and a truthy token give success with that token and `{id, name, email}` |
| AuthUseCases.RegisterIgnoresPassword | src/domain/use-cases/auth/register-user.use-case.ts:39-47 | the outcome does not depend on the user's password |
| UserUseCases.GetUserExecute | src/domain/use-cases/user/get-user-by-id.use-case.ts:20-33 | one repository call; a failure propagates; otherwise `count` 2 and the user's id, name and email |
| UserUseCases.GetUserCountNeverZero | src/domain/use-cases/user/get-user-by-id.use-case.ts:25 | the count is never 0 |
| UserUseCases.GetUserIgnoresPassword | src/domain/use-cases/user/get-user-by-id.use-case.ts:26-30 | the answer does not depend on the password |
| UserUseCases.GetAllUsersExecute | src/domain/use-cases/user/get-all-user.use-case.ts:16-26 | one repository call; a failure propagates; otherwise `count` 2 and the listing of the users |
| AuthMiddleware.BearerToken | src/presentation/middlewares/auth.middleware.ts:28 | the token has no space and, when non-empty, is one of the header's pieces |
| AuthMiddleware.BearerTokenAfterPrefix | src/presentation/middlewares/auth.middleware.ts:28 | for any space-free first piece `p` (`"Bearer"`, or `"Bearerx"`, which the prefix test also lets through), `p + " " + t` gives `t` |
| AuthMiddleware.BearerTokenIgnoresTrailingPieces | src/presentation/middlewares/auth.middleware.ts:28 | for any space-free first piece, the second piece is the token and text after a second space is ignored |
| AuthMiddleware.BearerTokenWithoutSpace | src/presentation/middlewares/auth.middleware.ts:24-28 | a header without a space, such as `"Bearerx"`, passes the prefix test and yields `''` |
| AuthMiddleware.PayloadFields | src/presentation/middlewares/auth.middleware.ts:38 | a payload that is not an object has no `id` |
| AuthMiddleware.Authenticate | src/presentation/middlewares/auth.middleware.ts:16-55 | missing or empty header, then no `Bearer` prefix, then a falsy payload give their unauthorized errors; a non-number id gives a bad request; the lookup's failure propagates and its user is stored as the projection |
| AuthMiddleware.UserNotFoundOnlyFromRepository | src/presentation/middlewares/auth.middleware.ts:49-51 | "User not found" reaches `next` only when the repository threw it |
| AuthMiddleware.SuccessComesFromRepository | src/presentation/middlewares/auth.middleware.ts:46-54 | a stored user is the projection of a user the repository returned |
| AuthMiddleware.Request.ValidateJwt | src/presentation/middlewares/auth.middleware.ts:10-60 | exactly one `next` call: with no argument after setting `req.body.user`, or with the error and the body untouched |
| AuthMiddleware.ValidateTwice | src/presentation/middlewares/auth.middleware.ts:53-59 | each pass makes one `next` call, the same each time |
| UserValidations.InvalidType | src/domain/validations/zod/user/user.validations.ts:7 | "Required" exactly when the value is `undefined` |
| UserValidations.StringSchema | src/domain/validations/zod/user/user.validations.ts:6-27 | a non-string aborts with one type issue; a string gets every failing check's message, in order |
| UserValidations.FirstLine | src/domain/validations/zod/user/user.validations.ts:25 | the longest prefix without a line terminator |
| UserValidations.NameSchema | src/domain/validations/zod/user/user.validations.ts:6-11 | valid exactly for a string of 2 to 50 units made of ASCII letters, U+00C0 to U+00FF and white space |
| UserValidations.EmailSchema | src/domain/validations/zod/user/user.validations.ts:13-17 | valid exactly for a string of 1 to 100 units in email format |
| UserValidations.PasswordSchema | src/domain/validations/zod/user/user.validations.ts:19-27 | valid exactly for a string of 8 to 100 units whose first line has a lowercase letter, an uppercase letter and a digit |
| UserValidations.IdSchema | src/domain/validations/zod/user/user.validations.ts:29-32 | valid exactly for a uuid string or a positive integer; a bad string or number gets its own issue without aborting; any other value aborts with "Invalid input" |
| UserValidations.Optional | src/domain/validations/zod/user/user.validations.ts:74-75 | `undefined` passes, any other value is parsed by the rule |
| UserValidations.Merge | src/domain/validations/zod/user/user.validations.ts:50-54 | valid exactly when every field is, aborted exactly when some field is |
| UserValidations.RegisterUser | src/domain/validations/zod/user/user.validations.ts:49-55 | valid exactly for an object whose name, email and password are valid |
| UserValidations.LoginUser | src/domain/validations/zod/user/user.validations.ts:57-62 | valid exactly for an object whose email and password are valid |
| UserValidations.GetUserById | src/domain/validations/zod/user/user.validations.ts:64-68 | valid exactly for an object with a valid id |
| UserValidations.UpdateUser | src/domain/validations/zod/user/user.validations.ts:70-80 | valid exactly when the id is valid, name and email are absent or valid, and one of them is truthy |
| UserValidations.EmptyNameMessages | src/domain/validations/zod/user/user.validations.ts:6-11 | an empty name reports "Name is required" first |
| UserValidations.NameFirstIssue | src/domain/validations/zod/user/user.validations.ts:6-11 | a bad name's first issue is its first failing check, in declaration order |
| UserValidations.RegisterReportsNameFirst | src/domain/validations/zod/user/user.validations.ts:49-55 | a bad name's first message is the register schema's first issue |
| UserValidations.SingleLinePassword | src/domain/validations/zod/user/user.validations.ts:24-27 | on a single-line password the pattern asks for a lowercase letter, an uppercase letter and a digit anywhere |
| UserValidations.FirstLineBeforeTerminator | src/domain/validations/zod/user/user.validations.ts:25 | the first line ends at the first line terminator |
| UserValidations.DigitAfterLineBreakIsMissed | src/domain/validations/zod/user/user.validations.ts:24-27 | a digit that appears only after a line break does not satisfy the pattern |
| UserValidations.LoginNeedsStrongPassword | src/domain/validations/zod/user/user.validations.ts:57-62 | the login schema refuses `"abcdef"`, while the login DTO accepts it with any non-blank email |
| UserValidations.IdExamples | src/domain/validations/zod/user/user.validations.ts:29-32 | 7 is an id; 1.5, 0 and -0.5 get the integer and positive messages; `null` gets "Invalid input" |
| UserValidations.UpdateWithoutFields | src/domain/validations/zod/user/user.validations.ts:77-79 | an update with a valid id and neither name nor email gets exactly the refinement's message |
| UserValidations.AbortedUpdateSkipsRefinement | src/domain/validations/zod/user/user.validations.ts:70-80 | a `null` name aborts the parse, so the refinement's message is not added |

## Left out

- Asynchrony and concurrency. Each `await` is a plain call, and use cases and handlers run one at a time.
- I/O. Logging (`console.log`, `this.log`, `JSON.stringify`) is not modelled, and the clock is a `now` parameter.
- NaN and the infinities. `Js.Value` numbers are reals, so zod's `nan` type and `Number.isInteger` on infinities are out of scope.
- Socket.IO internals. Who actually receives a room emit is not modelled, and the socket's own `id` room is only its initial membership.
- Express internals. `req.body` is assumed to exist when the middleware writes `req.body.user`. A missing body would throw a TypeError there, and that is not modelled.
- The entity `User` comes from `src/domain/entities`, which is not part of this model. It is a record of the four fields.
- The `ErrorCode` enumeration file is not part of this model. Its members appear as datatype constructors, without their wire strings. Errors.NewCustomError treats every member as truthy in `code || inferCodeFromStatus(statusCode)`, which holds when the enumeration is a non-empty string enum; a numeric member equal to 0 would be replaced by the inferred code.
- The repository, the token signer and the token verifier are injected functions. A rejection by the signer or verifier is not modelled: `generateToken` and `validateToken` resolve to `null` on error.
- JSON Web Token contents are the `Js.Value` the verifier returns, and the database is not modelled.
- zod's email and uuid regular expressions are the parameters `isEmail` and `isUuid`.
- zod's parsed output value is not modelled. Only the issue messages and whether parsing aborted are.
- `UserValidations.validate` and `safeParse` are one-line wrappers around zod's `parse` and `safeParse` and are not modelled.
- HandleError assumes a ZodError carries at least one issue. zod never raises one with none.
- Statuses are mathematical integers, with no range check.
- Property reads on strings, numbers and booleans yield `undefined` for the keys read (`text`, `username`, `room`, `id`). Their prototype properties are not modelled.
- MessageEvents.SynthesizedUsername: `substring(0, 6)` counts UTF-16 code units, while the model counts characters. The two agree on the ASCII ids Socket.IO generates.
- RoomEvents.RoomHandler.HandleJoinRoom, RoomEvents.RoomHandler.HandleLeaveRoom: the order of the membership change and the emit is not captured. The socket's rooms and the server's log are separate state, and who receives a room emit is not modelled, so the order has no observable effect in the model.
- RoomEvents.RoomHandler.HandleJoinRoom, RoomEvents.RoomHandler.HandleLeaveRoom: the room argument is a `string`. A client may send any value, and a non-string room is not modelled.
- Registry.SocketManager.SendMessage and the other sends: the order of deliveries across different servers is not observable in the model. Each server keeps its own log.
