/**
 * The DTOs of the user endpoints: the id guard of `GetUserDto` and the
 * password-free listing record of `GetAllUserResponseDto`.
 */
module UserDtos {
  import opened Wrappers
  import opened Js
  import opened Checks
  import opened Entities

  /** Any JavaScript number: no range or integer check is made. */
  datatype GetUserDto = GetUserDto(id: real)

  /** A single `typeof id !== 'number'` guard. */
  function GetUserDtoCreate(obj: map<string, Value>): (r: Created<GetUserDto>)
    ensures r.error.Some? <==> r.dto.None?
    ensures r.error.Some? <==> !Field(obj, "id").Num?
    ensures r.error.Some? ==> r.error.value == "Id must be a number"
    ensures r.dto.Some? ==> Field(obj, "id") == Num(r.dto.value.id)
  {
    var id := Field(obj, "id");
    if !id.Num? then Created(Some("Id must be a number"), None)
    else Created(None, Some(GetUserDto(id.n)))
  }

  /** Every number is accepted as it is: negative, zero and fractional ids included. */
  lemma AnyNumberIsAnId(n: real, obj: map<string, Value>)
    requires Field(obj, "id") == Num(n)
    ensures GetUserDtoCreate(obj) == Created(None, Some(GetUserDto(n)))
  {
  }

  /** Only `id` is read: two objects that agree on it get the same result. */
  lemma GetUserDtoReadsOnlyId(a: map<string, Value>, b: map<string, Value>)
    requires Field(a, "id") == Field(b, "id")
    ensures GetUserDtoCreate(a) == GetUserDtoCreate(b)
  {
  }

  /** A listing entry; `image` is declared optional and never set by `create`. */
  datatype GetAllUserResponseDto = GetAllUserResponseDto(id: Value, name: Value, email: Value, image: Option<string>)

  /** `users.map(user => new GetAllUserResponseDto(user.id, user.name, user.email))` */
  function GetAllUserResponseDtoCreate(users: seq<User>): (r: seq<GetAllUserResponseDto>)
    ensures |r| == |users|
    ensures forall i :: 0 <= i < |users| ==>
      && r[i].id == users[i].id && r[i].name == users[i].name && r[i].email == users[i].email
      && r[i].image.None?
  {
    if users == [] then []
    else [GetAllUserResponseDto(users[0].id, users[0].name, users[0].email, None)] + GetAllUserResponseDtoCreate(users[1..])
  }

  /**
   * The listing depends on the users only through their projections: the
   * password never reaches it, and two lists that differ only in passwords
   * list identically.
   */
  lemma {:induction false} ListingForgetsPasswords(users: seq<User>, others: seq<User>)
    requires |users| == |others|
    requires forall i :: 0 <= i < |users| ==> Project(users[i]) == Project(others[i])
    ensures GetAllUserResponseDtoCreate(users) == GetAllUserResponseDtoCreate(others)
  {
    if users != [] {
      assert forall i :: 0 <= i < |users[1..]| ==> users[1..][i] == users[i + 1] && others[1..][i] == others[i + 1];
      ListingForgetsPasswords(users[1..], others[1..]);
    }
  }

  /** Listing distributes over concatenation, so order is preserved piecewise. */
  lemma {:induction false} ListingOfConcat(a: seq<User>, b: seq<User>)
    ensures GetAllUserResponseDtoCreate(a + b) == GetAllUserResponseDtoCreate(a) + GetAllUserResponseDtoCreate(b)
  {
    if a == [] {
      assert a + b == b;
    } else {
      assert (a + b)[1..] == a[1..] + b;
      ListingOfConcat(a[1..], b);
    }
  }
}
