/** The login contracts of frontend/src/zod/login.ts. */
module ZodLogin {
  import opened Wrappers
  import opened Json
  import opened Zod

  /** The parsed body of a successful `POST /login`. */
  datatype LoginTokens = LoginTokens(message: string, access: string, refresh: string)

  /** `LoginSuccess`: `message` exactly "ok", non-empty `access` and `refresh` strings. */
  function LoginSuccess(j: Json): (r: Option<LoginTokens>)
    ensures r.Some? <==>
              j.Obj? && IsOk(Member(j, "message"))
              && NonEmptyString(Member(j, "access")).Some? && NonEmptyString(Member(j, "refresh")).Some?
    ensures r.Some? ==> r.value.message == "ok" && r.value.access != "" && r.value.refresh != ""
    ensures r.Some? ==> Member(j, "access") == Some(Str(r.value.access))
    ensures r.Some? ==> Member(j, "refresh") == Some(Str(r.value.refresh))
  {
    if !j.Obj? || !IsOk(Member(j, "message")) then None
    else
      match (NonEmptyString(Member(j, "access")), NonEmptyString(Member(j, "refresh")))
      case (Some(access), Some(refresh)) => Some(LoginTokens("ok", access, refresh))
      case _ => None
  }

  /**
   * `LoginValidator = z.union([LoginSuccess, DefaultError])`. Because every
   * success has `message` "ok", the union accepts exactly the error shape.
   */
  function LoginValidator(j: Json): (r: Option<Reply<LoginTokens>>)
    ensures r.Some? <==> LoginSuccess(j).Some? || DefaultError(j).Some?
    ensures r.Some? <==> DefaultError(j).Some?
    ensures LoginSuccess(j).Some? ==> r == Some(Parsed(LoginSuccess(j).value))
  {
    OkMessageIsDefaultError(j);
    Union(LoginSuccess(j), j)
  }

  /** The login form, after validation. */
  datatype LoginForm = LoginForm(userName: string, password: string) {
    /** The request body (`validateData`). */
    function ToJson(): Json {
      Obj(map["user_name" := Str(userName), "password" := Str(password)])
    }
  }

  /**
   * `LoginInput`: non-empty `user_name` and `password` strings and nothing
   * more; the output keeps only those two fields.
   */
  function LoginInput(j: Json): (r: Result<LoginForm, seq<Issue>>)
    ensures r.Success? <==>
              j.Obj? && NonEmptyString(Member(j, "user_name")).Some? && NonEmptyString(Member(j, "password")).Some?
    ensures r.Success? ==>
              Member(j, "user_name") == Some(Str(r.value.userName)) && Member(j, "password") == Some(Str(r.value.password))
    ensures r.Failure? ==> |r.error| > 0
  {
    if !j.Obj? then Failure([Issue([], NotAnObject)])
    else
      var issues := NonEmptyIssues("user_name", Member(j, "user_name"), "Username cannot be empty")
                    + NonEmptyIssues("password", Member(j, "password"), "Password cannot be empty");
      if issues != [] then Failure(issues)
      else Success(LoginForm(NonEmptyString(Member(j, "user_name")).value, NonEmptyString(Member(j, "password")).value))
  }

  /** An empty user name is reported with the schema's own message. */
  lemma EmptyUserNameMessage(j: Json)
    requires j.Obj? && Member(j, "user_name") == Some(Str(""))
    ensures LoginInput(j).Failure?
    ensures Issue(["user_name"], "Username cannot be empty") in LoginInput(j).error
  {
  }
}
