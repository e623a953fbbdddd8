/** The refresh contracts of frontend/src/zod/refresh.ts. */
module ZodRefresh {
  import opened Wrappers
  import opened Json
  import opened Zod

  /** The parsed body of a successful `POST /refresh`. */
  datatype RefreshTokens = RefreshTokens(message: string, access: string)

  /** `RefreshSuccess`: `message` exactly "ok" and a non-empty `access`; a `refresh` field is not looked at. */
  function RefreshSuccess(j: Json): (r: Option<RefreshTokens>)
    ensures r.Some? <==> j.Obj? && IsOk(Member(j, "message")) && NonEmptyString(Member(j, "access")).Some?
    ensures r.Some? ==> r.value.message == "ok" && r.value.access != ""
    ensures r.Some? ==> Member(j, "access") == Some(Str(r.value.access))
  {
    if !j.Obj? || !IsOk(Member(j, "message")) then None
    else
      match NonEmptyString(Member(j, "access"))
      case Some(access) => Some(RefreshTokens("ok", access))
      case None => None
  }

  /** Adding, removing or changing a `refresh` field never changes the parse. */
  lemma RefreshFieldIgnored(fields: map<string, Json>, v: Json)
    ensures RefreshSuccess(Obj(fields["refresh" := v])) == RefreshSuccess(Obj(fields))
    ensures RefreshSuccess(Obj(fields - {"refresh"})) == RefreshSuccess(Obj(fields))
  {
    assert Member(Obj(fields["refresh" := v]), "message") == Member(Obj(fields), "message");
    assert Member(Obj(fields["refresh" := v]), "access") == Member(Obj(fields), "access");
    assert Member(Obj(fields - {"refresh"}), "message") == Member(Obj(fields), "message");
    assert Member(Obj(fields - {"refresh"}), "access") == Member(Obj(fields), "access");
  }

  /** `RefreshValidator = z.union([RefreshSuccess, DefaultError])`; it accepts exactly the error shape. */
  function RefreshValidator(j: Json): (r: Option<Reply<RefreshTokens>>)
    ensures r.Some? <==> RefreshSuccess(j).Some? || DefaultError(j).Some?
    ensures r.Some? <==> DefaultError(j).Some?
    ensures RefreshSuccess(j).Some? ==> r == Some(Parsed(RefreshSuccess(j).value))
  {
    OkMessageIsDefaultError(j);
    Union(RefreshSuccess(j), j)
  }
}
