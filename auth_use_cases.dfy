/**
 * The login and register use cases: ask the repository for the user, sign a
 * token for its id, and answer with the token and the password-free user.
 * The repository and the signing function are injected, so they are
 * parameters here; each execution also returns the calls it made, in order.
 */
module AuthUseCases {
  import opened Wrappers
  import opened Js
  import opened Errors
  import opened Entities
  import opened AuthDtos

  /** A call the use case makes to one of its collaborators. */
  datatype Call =
    | RepositoryLogin(login: LoginUserDto)
    | RepositoryRegister(register: RegisterUserDto)
    | SignToken(payload: Value, duration: string)

  /** The calls made, in order, and the value returned or the error thrown. */
  datatype Execution<T> = Execution(calls: seq<Call>, result: Result<T, Thrown>)

  datatype UserToken = UserToken(token: string, user: PublicUser)

  /** Both use cases sign `{ id: user.id }` for two days. */
  const TokenDuration := "2d"

  function TokenPayload(u: User): (p: Value)
    ensures p.Obj? && p.fields.Keys == {"id"} && p.fields["id"] == u.id
  {
    Obj(map["id" := u.id])
  }

  /**
   * What follows the repository call in both use cases: a repository error
   * propagates before anything is signed; a `null` or empty token is an
   * internal server error.
   */
  function IssueToken(repositoryCall: Call, found: Result<User, Thrown>, signToken: (Value, string) -> Option<string>)
    : (x: Execution<UserToken>)
    ensures 1 <= |x.calls| <= 2 && x.calls[0] == repositoryCall
    ensures |x.calls| == 2 <==> found.Success?
    ensures found.Failure? ==> x.result == Failure(found.error)
    ensures found.Success? ==> x.calls[1] == SignToken(Obj(map["id" := found.value.id]), "2d")
    ensures x.result.Success? ==>
      && found.Success?
      && x.result.value.token != ""
      && Some(x.result.value.token) == signToken(Obj(map["id" := found.value.id]), "2d")
      && x.result.value.user == PublicUser(found.value.id, found.value.name, found.value.email)
    ensures found.Success? ==>
      var token := signToken(Obj(map["id" := found.value.id]), "2d");
      && (token.Some? && token.value != "" ==> x.result.Success?)
      && (token.None? || token.value == "" ==>
            x.result == Failure(Custom(CustomError(500, "Internal Server Error", INTERNAL_ERROR))))
  {
    match found
    case Failure(e) => Execution([repositoryCall], Failure(e))
    case Success(user) =>
      var payload := TokenPayload(user);
      var calls := [repositoryCall, SignToken(payload, TokenDuration)];
      var token := signToken(payload, TokenDuration);
      if token.None? || token.value == "" then Execution(calls, Failure(Custom(InternalServer())))
      else Execution(calls, Success(UserToken(token.value, Project(user))))
  }

  function LoginExecute(dto: LoginUserDto, login: LoginUserDto -> Result<User, Thrown>, signToken: (Value, string) -> Option<string>)
    : (x: Execution<UserToken>)
    ensures 1 <= |x.calls| <= 2 && x.calls[0] == RepositoryLogin(dto)
    ensures |x.calls| == 2 <==> login(dto).Success?
    ensures login(dto).Failure? ==> x.result == Failure(login(dto).error)
    ensures x.result.Success? ==>
      && login(dto).Success?
      && x.calls[1] == SignToken(Obj(map["id" := login(dto).value.id]), "2d")
      && Some(x.result.value.token) == signToken(Obj(map["id" := login(dto).value.id]), "2d")
      && x.result.value.token != ""
      && x.result.value.user == PublicUser(login(dto).value.id, login(dto).value.name, login(dto).value.email)
    ensures login(dto).Success? ==>
      var token := signToken(Obj(map["id" := login(dto).value.id]), "2d");
      token.Some? && token.value != "" ==> x.result.Success?
  {
    IssueToken(RepositoryLogin(dto), login(dto), signToken)
  }

  function RegisterExecute(dto: RegisterUserDto, register: RegisterUserDto -> Result<User, Thrown>, signToken: (Value, string) -> Option<string>)
    : (x: Execution<UserToken>)
    ensures 1 <= |x.calls| <= 2 && x.calls[0] == RepositoryRegister(dto)
    ensures |x.calls| == 2 <==> register(dto).Success?
    ensures register(dto).Failure? ==> x.result == Failure(register(dto).error)
    ensures x.result.Success? ==>
      && register(dto).Success?
      && x.calls[1] == SignToken(Obj(map["id" := register(dto).value.id]), "2d")
      && Some(x.result.value.token) == signToken(Obj(map["id" := register(dto).value.id]), "2d")
      && x.result.value.token != ""
      && x.result.value.user == PublicUser(register(dto).value.id, register(dto).value.name, register(dto).value.email)
    ensures register(dto).Success? ==>
      var token := signToken(Obj(map["id" := register(dto).value.id]), "2d");
      token.Some? && token.value != "" ==> x.result.Success?
  {
    IssueToken(RepositoryRegister(dto), register(dto), signToken)
  }

  /** A signer that answers `null` or `""` turns every found user into an internal server error. */
  lemma FalsyTokenIsInternalError(dto: LoginUserDto, login: LoginUserDto -> Result<User, Thrown>, signToken: (Value, string) -> Option<string>)
    requires login(dto).Success?
    requires var t := signToken(TokenPayload(login(dto).value), TokenDuration); t.None? || t.value == ""
    ensures LoginExecute(dto, login, signToken).result
         == Failure(Custom(CustomError(500, "Internal Server Error", INTERNAL_ERROR)))
  {
  }

  /**
   * The password never influences the outcome: two repositories whose users
   * differ only in the password lead to the same calls and the same result.
   */
  lemma LoginIgnoresPassword(dto: LoginUserDto, login: LoginUserDto -> Result<User, Thrown>,
                             login': LoginUserDto -> Result<User, Thrown>, signToken: (Value, string) -> Option<string>)
    requires login(dto).Failure? <==> login'(dto).Failure?
    requires login(dto).Failure? ==> login(dto).error == login'(dto).error
    requires login(dto).Success? ==> Project(login(dto).value) == Project(login'(dto).value)
    ensures LoginExecute(dto, login, signToken) == LoginExecute(dto, login', signToken)
  {
  }

  /** The same holds for registration. */
  lemma RegisterIgnoresPassword(dto: RegisterUserDto, register: RegisterUserDto -> Result<User, Thrown>,
                                register': RegisterUserDto -> Result<User, Thrown>, signToken: (Value, string) -> Option<string>)
    requires register(dto).Failure? <==> register'(dto).Failure?
    requires register(dto).Failure? ==> register(dto).error == register'(dto).error
    requires register(dto).Success? ==> Project(register(dto).value) == Project(register'(dto).value)
    ensures RegisterExecute(dto, register, signToken) == RegisterExecute(dto, register', signToken)
  {
  }
}
