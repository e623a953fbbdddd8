/** The profile contracts of frontend/src/zod/profile.ts. */
module ZodProfile {
  import opened Wrappers
  import opened Json
  import opened Text
  import opened Zod
  import ZodGetData

  /** The parsed body of `GET /profile`. */
  datatype Profile = Profile(id: int, userName: string, email: string, aadhar: string)

  /** `ProfileData`: coerced `id`, non-empty `user_name`, valid `email`, an `aadhar` of exactly twelve digits; no `message`. */
  function ProfileData(j: Json, isEmail: EmailCheck): (r: Option<Profile>)
    ensures r.Some? <==>
              && j.Obj?
              && CoerceNumber(Member(j, "id")).Some?
              && NonEmptyString(Member(j, "user_name")).Some?
              && EmailString(Member(j, "email"), isEmail).Some?
              && AadharString(Member(j, "aadhar")).Some?
    ensures r.Some? ==>
              && r.value.id == CoerceNumber(Member(j, "id")).value
              && Member(j, "user_name") == Some(Str(r.value.userName))
              && Member(j, "email") == Some(Str(r.value.email))
              && Member(j, "aadhar") == Some(Str(r.value.aadhar))
              && IsAadhar(r.value.aadhar)
  {
    if !j.Obj? then None
    else
      match (CoerceNumber(Member(j, "id")), NonEmptyString(Member(j, "user_name")),
             EmailString(Member(j, "email"), isEmail), AadharString(Member(j, "aadhar")))
      case (Some(id), Some(name), Some(email), Some(aadhar)) => Some(Profile(id, name, email, aadhar))
      case _ => None
  }

  /** Unlike the data rows, a profile rejects an identifier already in grouped form. */
  lemma ProfileRejectsGrouped(j: Json, isEmail: EmailCheck, s: string)
    requires IsAadhar(s)
    requires Member(j, "aadhar") == Some(Str(ZodGetData.NormalizeAadhar(s)))
    ensures ProfileData(j, isEmail).None?
  {
    ZodGetData.NormalizeIdempotent(s);
  }

  /** `ProfileValidator = z.union([ProfileData, DefaultError])`; a profile needs no `message`. */
  function ProfileValidator(j: Json, isEmail: EmailCheck): (r: Option<Reply<Profile>>)
    ensures r.Some? <==> ProfileData(j, isEmail).Some? || DefaultError(j).Some?
    ensures ProfileData(j, isEmail).Some? ==> r == Some(Parsed(ProfileData(j, isEmail).value))
    ensures ProfileData(j, isEmail).None? && r.Some? ==> r == Some(ServerError(DefaultError(j).value))
  {
    Union(ProfileData(j, isEmail), j)
  }

  /** A profile payload without any `message` is accepted as a profile, not as an error. */
  lemma ProfileWithoutMessage(isEmail: EmailCheck)
    requires isEmail("a@b.c")
    ensures var j := Obj(map["id" := Num(1), "user_name" := Str("u"), "email" := Str("a@b.c"),
                             "aadhar" := Str("123456789012")]);
            ProfileValidator(j, isEmail) == Some(Parsed(Profile(1, "u", "a@b.c", "123456789012")))
            && DefaultError(j).None?
  {
    var j := Obj(map["id" := Num(1), "user_name" := Str("u"), "email" := Str("a@b.c"),
                     "aadhar" := Str("123456789012")]);
    assert Member(j, "aadhar") == Some(Str("123456789012"));
    assert IsAadhar("123456789012") by {
      assert forall i :: 0 <= i < 12 ==> Decimal.IsDigit("123456789012"[i]);
    }
  }
}
