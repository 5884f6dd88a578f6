/**
 * The user use cases: fetch one user or all of them from the injected
 * repository and answer with password-free records. Both report a `count`
 * that is the constant 2, whatever the repository holds.
 */
module UserUseCases {
  import opened Wrappers
  import opened Js
  import opened Errors
  import opened Entities
  import opened UserDtos

  /** A call the use case makes to the repository. */
  datatype Call = RepositoryGetUser(dto: GetUserDto) | RepositoryGetAllUser

  /** The calls made, in order, and the value returned or the error thrown. */
  datatype Execution<T> = Execution(calls: seq<Call>, result: Result<T, Thrown>)

  datatype UserCount = UserCount(count: int, user: PublicUser)

  datatype UserList = UserList(count: int, users: seq<GetAllUserResponseDto>)

  /** The literal both use cases answer with. */
  const ReportedCount := 2

  function GetUserExecute(dto: GetUserDto, getUser: GetUserDto -> Result<User, Thrown>): (x: Execution<UserCount>)
    ensures x.calls == [RepositoryGetUser(dto)]
    ensures x.result.Success? <==> getUser(dto).Success?
    ensures getUser(dto).Failure? ==> x.result.error == getUser(dto).error
    ensures x.result.Success? ==>
      && x.result.value.count == 2
      && x.result.value.user.id == getUser(dto).value.id
      && x.result.value.user.name == getUser(dto).value.name
      && x.result.value.user.email == getUser(dto).value.email
  {
    var calls := [RepositoryGetUser(dto)];
    match getUser(dto)
    case Failure(e) => Execution(calls, Failure(e))
    case Success(user) => Execution(calls, Success(UserCount(ReportedCount, Project(user))))
  }

  /** The reported count never reaches 0, so a caller's "not found" test on it cannot fire. */
  lemma GetUserCountNeverZero(dto: GetUserDto, getUser: GetUserDto -> Result<User, Thrown>)
    ensures GetUserExecute(dto, getUser).result.Success? ==> GetUserExecute(dto, getUser).result.value.count != 0
  {
  }

  /** Users that differ only in their password give the same answer. */
  lemma GetUserIgnoresPassword(dto: GetUserDto, getUser: GetUserDto -> Result<User, Thrown>, getUser': GetUserDto -> Result<User, Thrown>)
    requires getUser(dto).Success? && getUser'(dto).Success?
    requires Project(getUser(dto).value) == Project(getUser'(dto).value)
    ensures GetUserExecute(dto, getUser) == GetUserExecute(dto, getUser')
  {
  }

  /** The get-all use case (its class is named `RegisterUser` in the repository). */
  function GetAllUsersExecute(getAllUser: Result<seq<User>, Thrown>): (x: Execution<UserList>)
    ensures x.calls == [RepositoryGetAllUser]
    ensures x.result.Success? <==> getAllUser.Success?
    ensures getAllUser.Failure? ==> x.result.error == getAllUser.error
    ensures x.result.Success? ==>
      && x.result.value.count == 2
      && |x.result.value.users| == |getAllUser.value|
      && forall i :: 0 <= i < |getAllUser.value| ==>
           x.result.value.users[i] == GetAllUserResponseDto(getAllUser.value[i].id, getAllUser.value[i].name, getAllUser.value[i].email, None)
  {
    var calls := [RepositoryGetAllUser];
    match getAllUser
    case Failure(e) => Execution(calls, Failure(e))
    case Success(users) => Execution(calls, Success(UserList(ReportedCount, GetAllUserResponseDtoCreate(users))))
  }
}
