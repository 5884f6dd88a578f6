/**
 * `UserValidations`: the zod rules for user input and the object schemas
 * built from them, following zod 3's parse semantics.
 *
 * - A string schema first checks the type. A non-string aborts with one issue.
 *   Otherwise every check runs and each failing check adds its message, in
 *   declaration order.
 * - An object schema parses every field in declaration order and concatenates
 *   their issues. It is aborted when any field aborted.
 * - A refinement runs only on a result that is not aborted.
 * - A union returns the first passing option. Failing that, it returns the
 *   issues of the first option that failed without aborting. When every option
 *   aborts, it reports "Invalid input".
 *
 * The email and uuid formats are zod's own regular expressions and are
 * parameters here.
 */
module UserValidations {
  import opened Wrappers
  import opened Js
  import opened Checks
  import AuthDtos

  /** The outcome of a parse: the issue messages in order, and whether parsing stopped early. */
  datatype Parsed = Parsed(issues: seq<string>, aborted: bool) {
    predicate Valid() { issues == [] }
  }

  /** The name zod gives the type of a value in an `invalid_type` issue. */
  function TypeName(v: Value): string {
    match v
    case Undefined => "undefined"
    case Null => "null"
    case Bool(_) => "boolean"
    case Num(_) => "number"
    case Str(_) => "string"
    case Arr(_) => "array"
    case Obj(_) => "object"
  }

  /** zod's default `invalid_type` message. */
  function InvalidType(expected: string, v: Value): (m: string)
    ensures v.Undefined? <==> m == "Required"
  {
    if v.Undefined? then "Required" else "Expected " + expected + ", received " + TypeName(v)
  }

  /** `z.string()` followed by the given checks. */
  function StringSchema(v: Value, checks: string -> seq<Check>): (p: Parsed)
    ensures p.aborted <==> !v.Str?
    ensures !v.Str? ==> p.issues == [InvalidType("string", v)]
    ensures v.Str? ==> p.issues == FailedMessages(checks(v.s))
  {
    if !v.Str? then Parsed([InvalidType("string", v)], true)
    else Parsed(FailedMessages(checks(v.s)), false)
  }

  // ---------------------------------------------------------------------------
  // The field rules

  function Length(s: string): nat {
    Utf16Length(s)
  }

  /** A character of the class `[a-zA-ZÀ-ÿ\s]`. */
  predicate NameChar(c: char) {
    ('a' <= c <= 'z') || ('A' <= c <= 'Z') || ('\U{C0}' <= c <= '\U{FF}') || IsWhitespace(c)
  }

  /** `/^[a-zA-ZÀ-ÿ\s]+$/` */
  predicate NamePattern(s: string) {
    |s| >= 1 && forall i :: 0 <= i < |s| ==> NameChar(s[i])
  }

  function NameChecks(s: string): seq<Check> {
    [Check(Length(s) >= 1, "Name is required"),
     Check(Length(s) >= 2, "Name must be at least 2 characters"),
     Check(Length(s) <= 50, "Name must be less than 50 characters"),
     Check(NamePattern(s), "Name can only contain letters and spaces")]
  }

  function EmailChecks(s: string, isEmail: string -> bool): seq<Check> {
    [Check(Length(s) >= 1, "Email is required"),
     Check(isEmail(s), "Invalid email format"),
     Check(Length(s) <= 100, "Email must be less than 100 characters")]
  }

  /** The terminators JavaScript's `.` does not match. */
  predicate IsLineTerminator(c: char) {
    c == '\n' || c == '\r' || c == '\U{2028}' || c == '\U{2029}'
  }

  /** The text before the first line terminator. */
  function FirstLine(s: string): (line: string)
    ensures line <= s
    ensures forall i :: 0 <= i < |line| ==> !IsLineTerminator(line[i])
    ensures |line| < |s| ==> IsLineTerminator(s[|line|])
  {
    if s == [] || IsLineTerminator(s[0]) then []
    else
      var rest := FirstLine(s[1..]);
      assert forall i :: 1 <= i <= |rest| ==> ([s[0]] + rest)[i] == rest[i - 1];
      [s[0]] + rest
  }

  predicate HasLower(s: string) { exists i :: 0 <= i < |s| && 'a' <= s[i] <= 'z' }
  predicate HasUpper(s: string) { exists i :: 0 <= i < |s| && 'A' <= s[i] <= 'Z' }
  predicate HasDigit(s: string) { exists i :: 0 <= i < |s| && '0' <= s[i] <= '9' }

  /**
   * `/^(?=.*[a-z])(?=.*[A-Z])(?=.*\d)/`: anchored at the start, and `.*` stops
   * at a line terminator, so each lookahead succeeds only within the first line.
   */
  predicate PasswordPattern(s: string) {
    var line := FirstLine(s);
    HasLower(line) && HasUpper(line) && HasDigit(line)
  }

  function PasswordChecks(s: string): seq<Check> {
    [Check(Length(s) >= 1, "Password is required"),
     Check(Length(s) >= 8, "Password must be at least 8 characters"),
     Check(Length(s) <= 100, "Password must be less than 100 characters"),
     Check(PasswordPattern(s), "Password must contain at least one lowercase, one uppercase and one number")]
  }

  function NameSchema(v: Value): (p: Parsed)
    ensures p.Valid() <==> v.Str? && 2 <= Length(v.s) <= 50 && NamePattern(v.s)
    ensures p.aborted <==> !v.Str?
  {
    if v.Str? then
      var checks := NameChecks(v.s);
      assert AllPass(checks) <==> checks[0].ok && checks[1].ok && checks[2].ok && checks[3].ok;
      StringSchema(v, NameChecks)
    else StringSchema(v, NameChecks)
  }

  function EmailSchema(v: Value, isEmail: string -> bool): (p: Parsed)
    ensures p.Valid() <==> v.Str? && 1 <= Length(v.s) <= 100 && isEmail(v.s)
    ensures p.aborted <==> !v.Str?
  {
    if v.Str? then
      var checks := EmailChecks(v.s, isEmail);
      assert AllPass(checks) <==> checks[0].ok && checks[1].ok && checks[2].ok;
      StringSchema(v, s => EmailChecks(s, isEmail))
    else StringSchema(v, s => EmailChecks(s, isEmail))
  }

  function PasswordSchema(v: Value): (p: Parsed)
    ensures p.Valid() <==> v.Str? && 8 <= Length(v.s) <= 100 && PasswordPattern(v.s)
    ensures p.aborted <==> !v.Str?
  {
    if v.Str? then
      var checks := PasswordChecks(v.s);
      assert AllPass(checks) <==> checks[0].ok && checks[1].ok && checks[2].ok && checks[3].ok;
      StringSchema(v, PasswordChecks)
    else StringSchema(v, PasswordChecks)
  }

  predicate IsInteger(n: real) {
    n == n.Floor as real
  }

  /** `z.string().uuid(…).or(z.number().int().positive(…))` */
  function IdSchema(v: Value, isUuid: string -> bool): (p: Parsed)
    ensures p.Valid() <==> (v.Str? && isUuid(v.s)) || (v.Num? && IsInteger(v.n) && v.n > 0.0)
    ensures p.aborted <==> !v.Str? && !v.Num?
    ensures p.aborted ==> p.issues == ["Invalid input"]
    ensures v.Str? && !isUuid(v.s) ==> p.issues == ["Invalid user ID format"]
    ensures v.Num? ==>
      p.issues == (if IsInteger(v.n) then [] else ["Expected integer, received float"])
                + (if v.n > 0.0 then [] else ["User ID must be a positive integer"])
  {
    if v.Str? then
      Parsed(FailedMessages([Check(isUuid(v.s), "Invalid user ID format")]), false)
    else if v.Num? then
      var checks := [Check(IsInteger(v.n), "Expected integer, received float"),
                     Check(v.n > 0.0, "User ID must be a positive integer")];
      assert AllPass(checks) <==> checks[0].ok && checks[1].ok;
      assert checks[1..] == [checks[1]] && checks[1..][1..] == [];
      assert FailedMessages(checks) == (if checks[0].ok then [] else [checks[0].message]) + FailedMessages([checks[1]]);
      Parsed(FailedMessages(checks), false)
    else
      Parsed(["Invalid input"], true)
  }

  /** `.optional()`: `undefined` passes, anything else goes to the rule. */
  function Optional(v: Value, p: Parsed): (q: Parsed)
    ensures v.Undefined? ==> q.Valid() && !q.aborted
    ensures !v.Undefined? ==> q == p
  {
    if v.Undefined? then Parsed([], false) else p
  }

  // ---------------------------------------------------------------------------
  // The object schemas

  /** The fields' outcomes combined in declaration order. */
  function Merge(fields: seq<Parsed>): (p: Parsed)
    ensures p.Valid() <==> forall i :: 0 <= i < |fields| ==> fields[i].Valid()
    ensures p.aborted <==> exists i :: 0 <= i < |fields| && fields[i].aborted
  {
    if fields == [] then Parsed([], false)
    else
      var rest := Merge(fields[1..]);
      assert forall i :: 1 <= i < |fields| ==> fields[i] == fields[1..][i - 1];
      Parsed(fields[0].issues + rest.issues, fields[0].aborted || rest.aborted)
  }

  /** `z.object({…})` given a value that is not an object: one issue, and parsing stops. */
  function NotAnObject(data: Value): (p: Parsed)
    ensures p.aborted && !p.Valid()
  {
    Parsed([InvalidType("object", data)], true)
  }

  /** Three fields are all valid exactly when their merge is. */
  lemma MergeThree(a: Parsed, b: Parsed, c: Parsed)
    ensures Merge([a, b, c]).Valid() <==> a.Valid() && b.Valid() && c.Valid()
  {
    var fields := [a, b, c];
    assert (forall i :: 0 <= i < |fields| ==> fields[i].Valid()) <==> fields[0].Valid() && fields[1].Valid() && fields[2].Valid();
  }

  function RegisterFields(obj: map<string, Value>, isEmail: string -> bool): seq<Parsed> {
    [NameSchema(Field(obj, "name")), EmailSchema(Field(obj, "email"), isEmail), PasswordSchema(Field(obj, "password"))]
  }

  function RegisterUser(data: Value, isEmail: string -> bool): (p: Parsed)
    ensures p.Valid() <==>
      data.Obj? && NameSchema(Field(data.fields, "name")).Valid()
      && EmailSchema(Field(data.fields, "email"), isEmail).Valid()
      && PasswordSchema(Field(data.fields, "password")).Valid()
  {
    if !data.Obj? then NotAnObject(data)
    else
      var fields := RegisterFields(data.fields, isEmail);
      MergeThree(fields[0], fields[1], fields[2]);
      Merge(fields)
  }

  function LoginFields(obj: map<string, Value>, isEmail: string -> bool): seq<Parsed> {
    [EmailSchema(Field(obj, "email"), isEmail), PasswordSchema(Field(obj, "password"))]
  }

  function LoginUser(data: Value, isEmail: string -> bool): (p: Parsed)
    ensures p.Valid() <==>
      data.Obj? && EmailSchema(Field(data.fields, "email"), isEmail).Valid()
      && PasswordSchema(Field(data.fields, "password")).Valid()
  {
    if !data.Obj? then NotAnObject(data)
    else
      var fields := LoginFields(data.fields, isEmail);
      assert (forall i :: 0 <= i < |fields| ==> fields[i].Valid()) <==> fields[0].Valid() && fields[1].Valid();
      Merge(fields)
  }

  function GetUserById(data: Value, isUuid: string -> bool): (p: Parsed)
    ensures p.Valid() <==> data.Obj? && IdSchema(Field(data.fields, "id"), isUuid).Valid()
  {
    if !data.Obj? then NotAnObject(data)
    else
      var fields := [IdSchema(Field(data.fields, "id"), isUuid)];
      assert (forall i :: 0 <= i < |fields| ==> fields[i].Valid()) <==> fields[0].Valid();
      Merge(fields)
  }

  const AtLeastOneFieldMessage := "At least one field (name or email) must be provided"

  function UpdateFields(obj: map<string, Value>, isEmail: string -> bool, isUuid: string -> bool): seq<Parsed> {
    [IdSchema(Field(obj, "id"), isUuid),
     Optional(Field(obj, "name"), NameSchema(Field(obj, "name"))),
     Optional(Field(obj, "email"), EmailSchema(Field(obj, "email"), isEmail))]
  }

  /** `updateUser`: the field schema, then `data.name || data.email` unless parsing aborted. */
  function UpdateUser(data: Value, isEmail: string -> bool, isUuid: string -> bool): (p: Parsed)
    ensures p.Valid() <==>
      && data.Obj?
      && IdSchema(Field(data.fields, "id"), isUuid).Valid()
      && (Field(data.fields, "name").Undefined? || NameSchema(Field(data.fields, "name")).Valid())
      && (Field(data.fields, "email").Undefined? || EmailSchema(Field(data.fields, "email"), isEmail).Valid())
      && (Truthy(Field(data.fields, "name")) || Truthy(Field(data.fields, "email")))
  {
    if !data.Obj? then NotAnObject(data)
    else
      var fields := UpdateFields(data.fields, isEmail, isUuid);
      var inner := Merge(fields);
      MergeThree(fields[0], fields[1], fields[2]);
      if inner.aborted then inner
      else if Truthy(Or(Field(data.fields, "name"), Field(data.fields, "email"))) then inner
      else Parsed(inner.issues + [AtLeastOneFieldMessage], false)
  }

  // ---------------------------------------------------------------------------
  // Properties

  /** An empty name reports "Name is required" first, then the minimum-length and pattern messages. */
  lemma EmptyNameMessages()
    ensures NameSchema(Str("")).issues
         == ["Name is required", "Name must be at least 2 characters", "Name can only contain letters and spaces"]
  {
    var checks := NameChecks("");
    assert !checks[0].ok && !checks[1].ok && checks[2].ok && !checks[3].ok;
    assert checks[1..][1..][1..][1..] == [];
  }

  /** Whatever name is given, its first issue is the first failing name check's message. */
  lemma NameFirstIssue(v: Value)
    requires v.Str? && !NameSchema(v).Valid()
    ensures NameSchema(v).issues[0] == FirstFailure(NameChecks(v.s)).value
  {
    FirstFailedMessage(NameChecks(v.s));
  }

  /** In the register schema, a bad name's first message is the first reported issue. */
  lemma RegisterReportsNameFirst(data: Value, isEmail: string -> bool)
    requires data.Obj? && Field(data.fields, "name").Str? && !NameSchema(Field(data.fields, "name")).Valid()
    ensures RegisterUser(data, isEmail).issues != []
    ensures RegisterUser(data, isEmail).issues[0] == FirstFailure(NameChecks(Field(data.fields, "name").s)).value
  {
    var name := Field(data.fields, "name");
    NameFirstIssue(name);
    var fields := [NameSchema(name), EmailSchema(Field(data.fields, "email"), isEmail), PasswordSchema(Field(data.fields, "password"))];
    assert RegisterUser(data, isEmail) == Merge(fields);
    assert Merge(fields).issues == fields[0].issues + Merge(fields[1..]).issues;
  }

  /** On a single-line password the lookaheads search the whole string. */
  lemma {:induction false} SingleLinePassword(s: string)
    requires forall i :: 0 <= i < |s| ==> !IsLineTerminator(s[i])
    ensures PasswordPattern(s) <==> HasLower(s) && HasUpper(s) && HasDigit(s)
  {
    FirstLineOfSingleLine(s);
  }

  lemma {:induction false} FirstLineOfSingleLine(s: string)
    requires forall i :: 0 <= i < |s| ==> !IsLineTerminator(s[i])
    ensures FirstLine(s) == s
  {
    var line := FirstLine(s);
    if |line| < |s| {
      assert IsLineTerminator(s[|line|]);
    }
  }

  /** The first line of a string that has a line break is the text before it. */
  lemma {:induction false} FirstLineBeforeTerminator(p: string, t: char, q: string)
    requires forall i :: 0 <= i < |p| ==> !IsLineTerminator(p[i])
    requires IsLineTerminator(t)
    ensures FirstLine(p + [t] + q) == p
  {
    if p != [] {
      assert (p + [t] + q)[1..] == p[1..] + [t] + q;
      FirstLineBeforeTerminator(p[1..], t, q);
    }
  }

  /**
   * A digit after a line break is not seen: a first line without a digit fails
   * the pattern, whatever holds further on.
   */
  lemma DigitAfterLineBreakIsMissed(p: string, q: string)
    requires forall i :: 0 <= i < |p| ==> !IsLineTerminator(p[i])
    requires !HasDigit(p) && HasDigit(q)
    ensures HasDigit(p + "\n" + q)
    ensures !PasswordSchema(Str(p + "\n" + q)).Valid()
  {
    var s := p + "\n" + q;
    assert s == p + ['\n'] + q;
    FirstLineBeforeTerminator(p, '\n', q);
    var j :| 0 <= j < |q| && '0' <= q[j] <= '9';
    assert s[|p| + 1 + j] == q[j];
  }

  /**
   * The login schema demands the full password rule: six lowercase letters are
   * refused, although the login DTO's guards accept them with any non-blank email.
   */
  lemma LoginNeedsStrongPassword(email: Value, isEmail: string -> bool)
    ensures !LoginUser(Obj(map["email" := email, "password" := Str("abcdef")]), isEmail).Valid()
    ensures email.Str? && !IsBlank(email.s) ==>
      AuthDtos.LoginUserDtoCreate(map["email" := email, "password" := Str("abcdef")]).dto.Some?
  {
    Utf16LengthOfBmp("abcdef");
    var obj := map["email" := email, "password" := Str("abcdef")];
    assert Field(obj, "password") == Str("abcdef");
    assert Field(obj, "email") == email;
    assert !IsBlank("abcdef") by { assert "abcdef"[0] == 'a'; }
  }

  /** Only a uuid string or a positive integer is an id; a fractional or non-positive number is not. */
  lemma IdExamples(isUuid: string -> bool)
    ensures IdSchema(Num(7.0), isUuid).Valid()
    ensures IdSchema(Num(1.5), isUuid).issues == ["Expected integer, received float"]
    ensures IdSchema(Num(0.0), isUuid).issues == ["User ID must be a positive integer"]
    ensures IdSchema(Num(-0.5), isUuid).issues == ["Expected integer, received float", "User ID must be a positive integer"]
    ensures IdSchema(Null, isUuid).issues == ["Invalid input"]
  {
    assert (1.5).Floor == 1;
    assert (-0.5).Floor == -1;
  }

  /** An update naming neither field fails with exactly the refinement's message. */
  lemma UpdateWithoutFields(id: Value, isEmail: string -> bool, isUuid: string -> bool)
    requires IdSchema(id, isUuid).Valid()
    ensures UpdateUser(Obj(map["id" := id]), isEmail, isUuid).issues == [AtLeastOneFieldMessage]
  {
    var obj := map["id" := id];
    assert Field(obj, "name") == Undefined && Field(obj, "email") == Undefined;
    var fields := [IdSchema(id, isUuid), Parsed([], false), Parsed([], false)];
    assert UpdateFields(obj, isEmail, isUuid) == fields;
    assert Merge(fields).issues == [] by {
      assert Merge(fields).Valid();
    }
  }

  /** The refinement does not run once a field aborted: a `null` name hides the missing-fields message. */
  lemma AbortedUpdateSkipsRefinement(id: Value, isEmail: string -> bool, isUuid: string -> bool)
    requires IdSchema(id, isUuid).Valid()
    ensures UpdateUser(Obj(map["id" := id, "name" := Null]), isEmail, isUuid).issues == ["Expected string, received null"]
  {
    var obj := map["id" := id, "name" := Null];
    assert Field(obj, "name") == Null && Field(obj, "email") == Undefined;
    var fields := [IdSchema(id, isUuid), NameSchema(Null), Parsed([], false)];
    assert UpdateFields(obj, isEmail, isUuid) == fields;
    assert fields[1..][1..] == fields[2..] && fields[2..][1..] == [];
    assert TypeName(Null) == "null";
    assert InvalidType("string", Null) == "Expected " + "string" + ", received " + "null" == "Expected string, received null";
    assert NameSchema(Null) == StringSchema(Null, NameChecks);
    assert Merge(fields[2..]) == Parsed([], false);
    assert Merge(fields[1..]).issues == ["Expected string, received null"];
  }
}
