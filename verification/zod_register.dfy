/** The registration contracts of frontend/src/zod/register.ts. */
module ZodRegister {
  import opened Wrappers
  import opened Json
  import opened Text
  import opened Zod

  /** The registration form, after validation. */
  datatype RegisterForm = RegisterForm(
    userName: string,
    email: string,
    password: string,
    confirmPassword: string,
    aadhar: string)
  {
    /** The request body (`validateData`). */
    function ToJson(): Json {
      Obj(map[
        "user_name" := Str(userName),
        "email" := Str(email),
        "password" := Str(password),
        "confirm_password" := Str(confirmPassword),
        "aadhar" := Str(aadhar)])
    }
  }

  /** `z.email({ error: "Invalid email address" }).nonempty({ error: "Email cannot be empty" })` */
  function EmailIssues(v: Option<Json>, isEmail: EmailCheck): (r: seq<Issue>)
    ensures r == [] <==> EmailString(v, isEmail).Some?
    ensures forall i :: 0 <= i < |r| ==> r[i].path == ["email"]
  {
    match v
    case Some(Str(s)) =>
      (if isEmail(s) then [] else [Issue(["email"], "Invalid email address")])
      + (if s == "" then [Issue(["email"], "Email cannot be empty")] else [])
    case _ => [Issue(["email"], "Invalid email address")]
  }

  /** `z.string().regex(/^\d{12}$/, { error: "Invalid Aadhar ID" })` */
  function AadharIssues(v: Option<Json>): (r: seq<Issue>)
    ensures r == [] <==> AadharString(v).Some?
    ensures IsString(v) && !IsAadhar(v.value.s) ==> r == [Issue(["aadhar"], "Invalid Aadhar ID")]
  {
    match v
    case Some(Str(s)) => if IsAadhar(s) then [] else [Issue(["aadhar"], "Invalid Aadhar ID")]
    case _ => [Issue(["aadhar"], NotAString)]
  }

  /** Every field has the type the refinement needs; only a type error keeps it from running. */
  predicate FieldsAreStrings(j: Json) {
    && IsString(Member(j, "user_name"))
    && IsString(Member(j, "email"))
    && IsString(Member(j, "password"))
    && IsString(Member(j, "confirm_password"))
    && IsString(Member(j, "aadhar"))
  }

  /** Each field satisfies its own schema. */
  predicate FieldsValid(j: Json, isEmail: EmailCheck) {
    && NonEmptyString(Member(j, "user_name")).Some?
    && EmailString(Member(j, "email"), isEmail).Some?
    && NonEmptyString(Member(j, "password")).Some?
    && NonEmptyString(Member(j, "confirm_password")).Some?
    && AadharString(Member(j, "aadhar")).Some?
  }

  /**
   * `RegisterInput`: the field issues in field order, then the refinement
   * `confirm_password == password` reported at path ["confirm_password"].
   */
  function RegisterInput(j: Json, isEmail: EmailCheck): (r: Result<RegisterForm, seq<Issue>>)
    ensures r.Success? <==>
              j.Obj? && FieldsValid(j, isEmail) && Member(j, "password") == Member(j, "confirm_password")
    ensures r.Success? ==>
              && Member(j, "user_name") == Some(Str(r.value.userName))
              && Member(j, "email") == Some(Str(r.value.email))
              && Member(j, "password") == Some(Str(r.value.password))
              && Member(j, "confirm_password") == Some(Str(r.value.confirmPassword))
              && Member(j, "aadhar") == Some(Str(r.value.aadhar))
    ensures j.Obj? && FieldsAreStrings(j) && Member(j, "password") != Member(j, "confirm_password") ==>
              r.Failure? && Issue(["confirm_password"], "Password must match") in r.error
    ensures j.Obj? && IsString(Member(j, "aadhar")) && !IsAadhar(Member(j, "aadhar").value.s) ==>
              r.Failure? && Issue(["aadhar"], "Invalid Aadhar ID") in r.error
  {
    if !j.Obj? then Failure([Issue([], NotAnObject)])
    else
      var aadharIssues := AadharIssues(Member(j, "aadhar"));
      var fieldIssues :=
        NonEmptyIssues("user_name", Member(j, "user_name"), "Username cannot be empty")
        + EmailIssues(Member(j, "email"), isEmail)
        + NonEmptyIssues("password", Member(j, "password"), "Password cannot be empty")
        + NonEmptyIssues("confirm_password", Member(j, "confirm_password"), TooSmall)
        + aadharIssues;
      var refineIssues :=
        if FieldsAreStrings(j) && Member(j, "confirm_password") != Member(j, "password")
        then [Issue(["confirm_password"], "Password must match")]
        else [];
      assert aadharIssues != [] ==> aadharIssues[0] in fieldIssues by {
        if aadharIssues != [] {
          assert fieldIssues[|fieldIssues| - |aadharIssues|] == aadharIssues[0];
        }
      }
      var issues := fieldIssues + refineIssues;
      if issues != [] then
        assert refineIssues != [] ==> refineIssues[0] in issues by {
          if refineIssues != [] {
            assert issues[|fieldIssues|] == refineIssues[0];
          }
        }
        Failure(issues)
      else
        Success(RegisterForm(
          Member(j, "user_name").value.s,
          Member(j, "email").value.s,
          Member(j, "password").value.s,
          Member(j, "confirm_password").value.s,
          Member(j, "aadhar").value.s))
  }

  /** Unequal passwords are reported at `confirm_password` even when other fields also fail their checks. */
  lemma MismatchAlongsideOtherIssues(isEmail: EmailCheck)
    ensures var j := Obj(map[
              "user_name" := Str(""), "email" := Str("x"), "password" := Str("a"),
              "confirm_password" := Str("b"), "aadhar" := Str("123456789012")]);
            RegisterInput(j, isEmail).Failure?
            && Issue(["user_name"], "Username cannot be empty") in RegisterInput(j, isEmail).error
            && Issue(["confirm_password"], "Password must match") in RegisterInput(j, isEmail).error
  {
    var j := Obj(map[
      "user_name" := Str(""), "email" := Str("x"), "password" := Str("a"),
      "confirm_password" := Str("b"), "aadhar" := Str("123456789012")]);
    assert FieldsAreStrings(j);
    var r := RegisterInput(j, isEmail);
    assert r.error[0] == Issue(["user_name"], "Username cannot be empty");
  }

  /** `RegisterSuccess`: `message` exactly "ok". */
  function RegisterSuccess(j: Json): (r: Option<string>)
    ensures r.Some? <==> j.Obj? && IsOk(Member(j, "message"))
    ensures r.Some? ==> r.value == "ok"
  {
    if j.Obj? && IsOk(Member(j, "message")) then Some("ok") else None
  }

  /** `RegisterValidator = z.union([RegisterSuccess, DefaultError])`; it accepts exactly the error shape. */
  function RegisterValidator(j: Json): (r: Option<Reply<string>>)
    ensures r.Some? <==> RegisterSuccess(j).Some? || DefaultError(j).Some?
    ensures r.Some? <==> DefaultError(j).Some?
    ensures RegisterSuccess(j).Some? ==> r == Some(Parsed("ok"))
  {
    OkMessageIsDefaultError(j);
    Union(RegisterSuccess(j), j)
  }
}
