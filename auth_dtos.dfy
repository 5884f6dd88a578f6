/**
 * The request DTOs of the authentication endpoints. Each `create` is a chain of
 * guards tried in a fixed order; the first failing guard's message is returned,
 * otherwise a DTO holding the inputs exactly as given.
 */
module AuthDtos {
  import opened Wrappers
  import opened Js
  import opened Checks

  datatype RegisterUserDto = RegisterUserDto(name: string, email: string, password: string)

  datatype LoginUserDto = LoginUserDto(email: string, password: string)

  const MinPasswordLength := 6

  /** A field that passes the string guards: a string that is not blank. */
  predicate Filled(v: Value) {
    v.Str? && !IsBlank(v.s)
  }

  /** The password guard on the untrimmed length, counted in UTF-16 code units. */
  predicate LongEnough(v: Value) {
    v.Str? ==> Utf16Length(v.s) >= MinPasswordLength
  }

  /** The register guards, in the order they are tried. */
  function RegisterChecks(name: Value, email: Value, password: Value): seq<Check> {
    [Check(name.Str?, "Name must be a string"),
     Check(name.Str? ==> !IsBlank(name.s), "Missing name"),
     Check(email.Str?, "Email must be a string"),
     Check(email.Str? ==> !IsBlank(email.s), "Missing email"),
     Check(password.Str?, "Password must be a string"),
     Check(password.Str? ==> !IsBlank(password.s), "Missing password"),
     Check(LongEnough(password), "Password must be at least 6 characters long")]
  }

  /** The login guards, in the order they are tried. */
  function LoginChecks(email: Value, password: Value): seq<Check> {
    [Check(email.Str?, "Email must be a string"),
     Check(email.Str? ==> !IsBlank(email.s), "Missing email"),
     Check(password.Str?, "Password must be a string"),
     Check(password.Str? ==> !IsBlank(password.s), "Missing password"),
     Check(LongEnough(password), "Password must be at least 6 characters long")]
  }

  function RegisterUserDtoCreate(obj: map<string, Value>): (r: Created<RegisterUserDto>)
    ensures r.error.Some? <==> r.dto.None?
    ensures r.dto.Some? <==>
      Filled(Field(obj, "name")) && Filled(Field(obj, "email")) && Filled(Field(obj, "password"))
      && LongEnough(Field(obj, "password"))
    ensures r.dto.Some? ==>
      && Field(obj, "name") == Str(r.dto.value.name)
      && Field(obj, "email") == Str(r.dto.value.email)
      && Field(obj, "password") == Str(r.dto.value.password)
  {
    var name := Field(obj, "name");
    var email := Field(obj, "email");
    var password := Field(obj, "password");
    if !name.Str? then Created(Some("Name must be a string"), None)
    else
      TrimEmptyIffBlank(name.s);
      if Trim(name.s) == "" then Created(Some("Missing name"), None)
      else if !email.Str? then Created(Some("Email must be a string"), None)
      else
        TrimEmptyIffBlank(email.s);
        if Trim(email.s) == "" then Created(Some("Missing email"), None)
        else if !password.Str? then Created(Some("Password must be a string"), None)
        else
          TrimEmptyIffBlank(password.s);
          if Trim(password.s) == "" then Created(Some("Missing password"), None)
          else if Utf16Length(password.s) < MinPasswordLength then
            Created(Some("Password must be at least 6 characters long"), None)
          else Created(None, Some(RegisterUserDto(name.s, email.s, password.s)))
  }

  /** The message returned is the first failing guard's, in declaration order. */
  lemma RegisterReportsFirstFailure(obj: map<string, Value>)
    ensures RegisterUserDtoCreate(obj).error == FirstFailure(RegisterChecks(Field(obj, "name"), Field(obj, "email"), Field(obj, "password")))
  {
    var name := Field(obj, "name");
    var email := Field(obj, "email");
    var password := Field(obj, "password");
    var checks := RegisterChecks(name, email, password);
    if AllPass(checks) {
      assert Filled(name) by { assert checks[0].ok && checks[1].ok; }
      assert Filled(email) by { assert checks[2].ok && checks[3].ok; }
      assert Filled(password) by { assert checks[4].ok && checks[5].ok; }
      assert checks[6].ok;
    } else {
      var k := FirstFailingIndex(checks);
      FirstFailureAt(checks, k);
      if k == 0 {
      } else if k == 1 {
        assert checks[0].ok;
        TrimEmptyIffBlank(name.s);
      } else {
        assert checks[0].ok && checks[1].ok;
        TrimEmptyIffBlank(name.s);
        if k == 2 {
        } else if k == 3 {
          assert checks[2].ok;
          TrimEmptyIffBlank(email.s);
        } else {
          assert checks[2].ok && checks[3].ok;
          TrimEmptyIffBlank(email.s);
          if k == 4 {
          } else if k == 5 {
            assert checks[4].ok;
            TrimEmptyIffBlank(password.s);
          } else {
            assert checks[4].ok && checks[5].ok;
            TrimEmptyIffBlank(password.s);
          }
        }
      }
    }
  }

  function LoginUserDtoCreate(obj: map<string, Value>): (r: Created<LoginUserDto>)
    ensures r.error.Some? <==> r.dto.None?
    ensures r.dto.Some? <==>
      Filled(Field(obj, "email")) && Filled(Field(obj, "password")) && LongEnough(Field(obj, "password"))
    ensures r.dto.Some? ==>
      && Field(obj, "email") == Str(r.dto.value.email)
      && Field(obj, "password") == Str(r.dto.value.password)
  {
    var email := Field(obj, "email");
    var password := Field(obj, "password");
    if !email.Str? then Created(Some("Email must be a string"), None)
    else
      TrimEmptyIffBlank(email.s);
      if Trim(email.s) == "" then Created(Some("Missing email"), None)
      else if !password.Str? then Created(Some("Password must be a string"), None)
      else
        TrimEmptyIffBlank(password.s);
        if Trim(password.s) == "" then Created(Some("Missing password"), None)
        else if Utf16Length(password.s) < MinPasswordLength then
          Created(Some("Password must be at least 6 characters long"), None)
        else Created(None, Some(LoginUserDto(email.s, password.s)))
  }

  /** The message returned is the first failing guard's, in declaration order. */
  lemma LoginReportsFirstFailure(obj: map<string, Value>)
    ensures LoginUserDtoCreate(obj).error == FirstFailure(LoginChecks(Field(obj, "email"), Field(obj, "password")))
  {
    var email := Field(obj, "email");
    var password := Field(obj, "password");
    var checks := LoginChecks(email, password);
    if AllPass(checks) {
      assert Filled(email) by { assert checks[0].ok && checks[1].ok; }
      assert Filled(password) by { assert checks[2].ok && checks[3].ok; }
      assert checks[4].ok;
    } else {
      var k := FirstFailingIndex(checks);
      FirstFailureAt(checks, k);
      if k == 0 {
      } else if k == 1 {
        assert checks[0].ok;
        TrimEmptyIffBlank(email.s);
      } else {
        assert checks[0].ok && checks[1].ok;
        TrimEmptyIffBlank(email.s);
        if k == 2 {
        } else if k == 3 {
          assert checks[2].ok;
          TrimEmptyIffBlank(password.s);
        } else {
          assert checks[2].ok && checks[3].ok;
          TrimEmptyIffBlank(password.s);
        }
      }
    }
  }

  /** Login reads no `name`: two requests that agree on email and password get the same result. */
  lemma LoginIgnoresOtherFields(a: map<string, Value>, b: map<string, Value>)
    requires Field(a, "email") == Field(b, "email") && Field(a, "password") == Field(b, "password")
    ensures LoginUserDtoCreate(a) == LoginUserDtoCreate(b)
  {
  }

  /** A whitespace-only name is reported as missing, before any other field is looked at. */
  lemma BlankNameIsMissing(obj: map<string, Value>)
    requires Field(obj, "name").Str? && IsBlank(Field(obj, "name").s)
    ensures RegisterUserDtoCreate(obj).error == Some("Missing name")
  {
    TrimEmptyIffBlank(Field(obj, "name").s);
  }

  /** No email format is checked: any non-blank string is accepted as the email. */
  lemma AnyNonBlankEmailAccepted(name: string, email: string, password: string)
    requires !IsBlank(name) && !IsBlank(email) && !IsBlank(password) && Utf16Length(password) >= 6
    ensures RegisterUserDtoCreate(map["name" := Str(name), "email" := Str(email), "password" := Str(password)])
         == Created(None, Some(RegisterUserDto(name, email, password)))
  {
    var obj := map["name" := Str(name), "email" := Str(email), "password" := Str(password)];
    assert Field(obj, "name") == Str(name) && Field(obj, "email") == Str(email) && Field(obj, "password") == Str(password);
    assert Filled(Str(name)) && Filled(Str(email)) && Filled(Str(password)) && LongEnough(Str(password));
  }
}
