/**
 * `AuthMiddleware.validateJWT`: the `Authorization` header gate. The header
 * parsing is string logic; token verification and the user lookup are
 * injected functions. The decision is the pure `Authenticate`; the request
 * object records its effects, the `req.body.user` write and the `next` calls.
 */
module AuthMiddleware {
  import opened Wrappers
  import opened Js
  import opened Errors
  import opened Entities
  import opened UserDtos
  import opened UserUseCases

  /** The case-sensitive prefix the header must start with; no space is required after it. */
  const BearerPrefix := "Bearer"

  /** `authorization.split(" ").at(1) || ""`: the second space-separated piece, or the empty string. */
  function BearerToken(authorization: string): (token: string)
    ensures ' ' !in token
    ensures token != "" ==> token in SplitOn(authorization, ' ')
  {
    var parts := SplitOn(authorization, ' ');
    if |parts| >= 2 then parts[1] else ""
  }

  /**
   * The token is the second space-separated piece whatever the first one is:
   * `"Bearer tok"` and `"Bearerx tok"` both pass the prefix test and yield `"tok"`.
   */
  lemma BearerTokenAfterPrefix(first: string, token: string)
    requires ' ' !in first && ' ' !in token
    ensures BearerToken(first + " " + token) == token
  {
    assert first + " " + token == first + [' '] + token;
    SplitAtSeparator(first, token, ' ');
    SplitWithoutSeparator(token, ' ');
  }

  /** Any text after a second space is ignored. */
  lemma BearerTokenIgnoresTrailingPieces(first: string, token: string, rest: string)
    requires ' ' !in first && ' ' !in token
    ensures BearerToken(first + " " + token + " " + rest) == token
  {
    assert first + " " + token + " " + rest == first + [' '] + (token + [' '] + rest);
    SplitAtSeparator(first, token + [' '] + rest, ' ');
    SplitAtSeparator(token, rest, ' ');
  }

  /** A header without a space, such as `"Bearerx"` or a bare `"Bearer"`, yields the empty token. */
  lemma BearerTokenWithoutSpace(authorization: string)
    requires ' ' !in authorization
    ensures BearerToken(authorization) == ""
  {
    SplitWithoutSeparator(authorization, ' ');
  }

  /** `const { id } = payload`: any value that is not an object has no `id` field. */
  function PayloadFields(payload: Value): (fields: map<string, Value>)
    ensures payload.Obj? ==> fields == payload.fields
    ensures !payload.Obj? ==> Field(fields, "id") == Undefined
  {
    if payload.Obj? then payload.fields else map[]
  }

  /**
   * The decision chain: the user to store on the request, or the error passed
   * to `next`. `validateToken` answers `None` for `null`; `getUser` is the
   * repository lookup behind the get-user use case.
   */
  function Authenticate(authorization: Option<string>, validateToken: string -> Option<Value>,
                        getUser: GetUserDto -> Result<User, Thrown>): (r: Result<PublicUser, Thrown>)
    ensures authorization.None? || authorization.value == "" ==>
      r == Failure(Custom(Unauthorized("No token provided")))
    ensures authorization.Some? && authorization.value != "" && !(BearerPrefix <= authorization.value) ==>
      r == Failure(Custom(Unauthorized("Invalid Bearer Token")))
    ensures authorization.Some? && BearerPrefix <= authorization.value ==>
      var payload := validateToken(BearerToken(authorization.value));
      && (payload.None? || !Truthy(payload.value) ==> r == Failure(Custom(Unauthorized("Invalid token"))))
      && (payload.Some? && Truthy(payload.value) && !Field(PayloadFields(payload.value), "id").Num? ==>
            r == Failure(Custom(BadRequest("Id must be a number"))))
      && (payload.Some? && Truthy(payload.value) && Field(PayloadFields(payload.value), "id").Num? ==>
            var found := getUser(GetUserDto(Field(PayloadFields(payload.value), "id").n));
            && (found.Failure? ==> r == Failure(found.error))
            && (found.Success? ==> r == Success(Project(found.value))))
  {
    if authorization.None? || authorization.value == "" then
      Failure(Custom(Unauthorized("No token provided")))
    else if !(BearerPrefix <= authorization.value) then
      Failure(Custom(Unauthorized("Invalid Bearer Token")))
    else
      var payload := validateToken(BearerToken(authorization.value));
      if payload.None? || !Truthy(payload.value) then
        Failure(Custom(Unauthorized("Invalid token")))
      else
        var created := GetUserDtoCreate(PayloadFields(payload.value));
        if created.error.Some? then
          Failure(Custom(BadRequest(created.error.value)))
        else
          var execution := GetUserExecute(created.dto.value, getUser);
          match execution.result
          case Failure(e) => Failure(e)
          case Success(userCount) =>
            if userCount.count == 0 then Failure(Custom(NotFound("User not found")))
            else Success(userCount.user)
  }

  /**
   * The `count === 0` branch never answers: a "User not found" error reaches
   * `next` only when the repository itself threw it.
   */
  lemma UserNotFoundOnlyFromRepository(authorization: Option<string>, validateToken: string -> Option<Value>,
                                       getUser: GetUserDto -> Result<User, Thrown>)
    requires Authenticate(authorization, validateToken, getUser) == Failure(Custom(NotFound("User not found")))
    ensures exists dto :: getUser(dto) == Failure(Custom(NotFound("User not found")))
  {
    var payload := validateToken(BearerToken(authorization.value));
    var dto := GetUserDto(Field(PayloadFields(payload.value), "id").n);
    assert getUser(dto) == Failure(Custom(NotFound("User not found")));
  }

  /** Every success stores the password-free projection of a user the repository returned. */
  lemma SuccessComesFromRepository(authorization: Option<string>, validateToken: string -> Option<Value>,
                                   getUser: GetUserDto -> Result<User, Thrown>)
    requires Authenticate(authorization, validateToken, getUser).Success?
    ensures exists dto :: getUser(dto).Success? && Authenticate(authorization, validateToken, getUser).value == Project(getUser(dto).value)
  {
    var payload := validateToken(BearerToken(authorization.value));
    var dto := GetUserDto(Field(PayloadFields(payload.value), "id").n);
    assert getUser(dto).Success?;
  }

  /** An Express request as far as the middleware touches it. */
  class Request {
    /** `req.header("Authorization")` */
    const authorization: Option<string>
    /** `req.body.user` */
    var bodyUser: Option<PublicUser>
    /** The arguments of each `next` call: `None` for `next()`, the error for `next(error)`. */
    var nextCalls: seq<Option<Thrown>>

    constructor(authorization: Option<string>)
      ensures this.authorization == authorization && bodyUser.None? && nextCalls == []
    {
      this.authorization := authorization;
      bodyUser := None;
      nextCalls := [];
    }

    /**
     * Exactly one `next` call per request: `next()` after storing the user on
     * success, `next(error)` with the body untouched on any failure.
     */
    method ValidateJwt(validateToken: string -> Option<Value>, getUser: GetUserDto -> Result<User, Thrown>)
      modifies this
      ensures var r := Authenticate(authorization, validateToken, getUser);
        && nextCalls == old(nextCalls) + [if r.Success? then None else Some(r.error)]
        && bodyUser == (if r.Success? then Some(r.value) else old(bodyUser))
    {
      var r := Authenticate(authorization, validateToken, getUser);
      match r
      case Success(user) =>
        bodyUser := Some(user);
        nextCalls := nextCalls + [None];
      case Failure(error) =>
        nextCalls := nextCalls + [Some(error)];
    }
  }

  /** Two passes over the same request call `next` twice, once per pass, and never throw. */
  method ValidateTwice(authorization: Option<string>, validateToken: string -> Option<Value>,
                       getUser: GetUserDto -> Result<User, Thrown>) returns (calls: seq<Option<Thrown>>)
    ensures |calls| == 2 && calls[0] == calls[1]
    ensures calls[0].None? <==> Authenticate(authorization, validateToken, getUser).Success?
  {
    var req := new Request(authorization);
    req.ValidateJwt(validateToken, getUser);
    req.ValidateJwt(validateToken, getUser);
    calls := req.nextCalls;
  }
}
