/**
 * `UserMapper`: guarded construction of a `User` from a loosely typed record,
 * and its element-wise extension to arrays. A thrown `CustomError` is the
 * `Failure` of a `Result`.
 */
module UserMapper {
  import opened Wrappers
  import opened Js
  import opened Checks
  import opened Errors
  import opened Entities

  /** The mapper's guards in the order they are tried; every test is on truthiness. */
  function MapperChecks(obj: map<string, Value>): seq<Check> {
    [Check(Truthy(Field(obj, "_id")) || Truthy(Field(obj, "id")), "Missing id"),
     Check(Truthy(Field(obj, "name")), "Missing name"),
     Check(Truthy(Field(obj, "email")), "Missing email"),
     Check(Truthy(Field(obj, "password")), "Missing password")]
  }

  function UserEntityFromObject(obj: map<string, Value>): (r: Result<User, CustomError>)
    ensures r.Success? <==>
      (Truthy(Field(obj, "_id")) || Truthy(Field(obj, "id")))
      && Truthy(Field(obj, "name")) && Truthy(Field(obj, "email")) && Truthy(Field(obj, "password"))
    ensures r.Failure? ==> r.error.statusCode == 400 && r.error.code == VALIDATION_ERROR
    ensures r.Success? ==>
      && r.value.id == (if Truthy(Field(obj, "_id")) then Field(obj, "_id") else Field(obj, "id"))
      && Truthy(r.value.id)
      && r.value.name == Field(obj, "name")
      && r.value.email == Field(obj, "email")
      && r.value.password == Field(obj, "password")
  {
    var id := Field(obj, "id");
    var underscoreId := Field(obj, "_id");
    var name := Field(obj, "name");
    var email := Field(obj, "email");
    var password := Field(obj, "password");
    if !Truthy(underscoreId) && !Truthy(id) then Failure(BadRequest("Missing id"))
    else if !Truthy(name) then Failure(BadRequest("Missing name"))
    else if !Truthy(email) then Failure(BadRequest("Missing email"))
    else if !Truthy(password) then Failure(BadRequest("Missing password"))
    else Success(User(Or(underscoreId, id), name, email, password))
  }

  /** The error thrown is a bad request carrying the first failing guard's message. */
  lemma MapperReportsFirstFailure(obj: map<string, Value>)
    ensures UserEntityFromObject(obj).Success? <==> AllPass(MapperChecks(obj))
    ensures UserEntityFromObject(obj).Failure? ==>
      FirstFailure(MapperChecks(obj)).Some?
      && UserEntityFromObject(obj).error == BadRequest(FirstFailure(MapperChecks(obj)).value)
  {
    var checks := MapperChecks(obj);
    if !checks[0].ok {
      FirstFailureAt(checks, 0);
    } else if !checks[1].ok {
      FirstFailureAt(checks, 1);
    } else if !checks[2].ok {
      FirstFailureAt(checks, 2);
    } else if !checks[3].ok {
      FirstFailureAt(checks, 3);
    } else {
      assert AllPass(checks);
    }
  }

  /** `0`, `""`, `null` and `false` ids count as missing, even when the key is present. */
  lemma FalsyIdsAreMissing(obj: map<string, Value>)
    requires !Truthy(Field(obj, "_id")) && !Truthy(Field(obj, "id"))
    ensures UserEntityFromObject(obj) == Failure(BadRequest("Missing id"))
  {
  }

  /** `data.map(userEntityFromObject)`: the first element that throws aborts the whole mapping. */
  function UserArrayEntityFromObject(data: seq<map<string, Value>>): (r: Result<seq<User>, CustomError>)
    ensures r.Success? <==> forall i :: 0 <= i < |data| ==> UserEntityFromObject(data[i]).Success?
    ensures r.Success? ==>
      |r.value| == |data| && forall i :: 0 <= i < |data| ==> Success(r.value[i]) == UserEntityFromObject(data[i])
    ensures r.Failure? ==>
      exists k :: 0 <= k < |data| && UserEntityFromObject(data[k]) == Failure(r.error)
        && forall j :: 0 <= j < k ==> UserEntityFromObject(data[j]).Success?
  {
    if data == [] then Success([])
    else
      match UserEntityFromObject(data[0])
      case Failure(e) => Failure(e)
      case Success(u) =>
        var rest := UserArrayEntityFromObject(data[1..]);
        assert forall i :: 1 <= i < |data| ==> data[i] == data[1..][i - 1];
        match rest
        case Failure(e) =>
          var k :| 0 <= k < |data[1..]| && UserEntityFromObject(data[1..][k]) == Failure(e)
            && forall j :: 0 <= j < k ==> UserEntityFromObject(data[1..][j]).Success?;
          assert UserEntityFromObject(data[k + 1]) == Failure(e);
          Failure(e)
        case Success(us) => Success([u] + us)
  }

  /** When element `k` is the first to fail, its error is the one thrown. */
  lemma {:induction false} ArrayFailsAtFirstInvalid(data: seq<map<string, Value>>, k: nat)
    requires k < |data| && UserEntityFromObject(data[k]).Failure?
    requires forall j :: 0 <= j < k ==> UserEntityFromObject(data[j]).Success?
    ensures UserArrayEntityFromObject(data) == Failure(UserEntityFromObject(data[k]).error)
  {
    if k > 0 {
      assert forall j :: 0 <= j < k - 1 ==> data[1..][j] == data[j + 1];
      assert data[1..][k - 1] == data[k];
      ArrayFailsAtFirstInvalid(data[1..], k - 1);
    }
  }
}
