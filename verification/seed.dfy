/**
 * The deterministic part of the sample-data generator in backend/seed.go.
 * The random digits of `generateAadhar` are supplied by the caller, one
 * twelve-digit row per user; writing `seed.json` is outside the model.
 */
module Seed {
  import opened Wrappers
  import opened Decimal
  import opened Text
  import Controllers

  datatype SeedData = SeedData(userName: string, email: string, password: string, aadhar: string)

  /** Twelve draws of `rand.Intn(10)`. */
  predicate ValidDraws(draws: seq<int>) {
    |draws| == 12 && forall i :: 0 <= i < |draws| ==> 0 <= draws[i] < 10
  }

  /** `generateAadhar`: each draw `d` becomes the character `'0' + d`. */
  function GenerateAadhar(draws: seq<int>): (r: string)
    requires ValidDraws(draws)
    ensures IsAadhar(r)
    ensures forall i :: 0 <= i < 12 ==> DigitValue(r[i]) == draws[i]
  {
    seq(12, i requires 0 <= i < 12 => DigitChar(draws[i]))
  }

  /** `generatePassword(id)`: "Pass" followed by the decimal id, which reads back as `id`. */
  function GeneratePassword(id: int): (r: string)
    ensures |r| > 4 && r[..4] == "Pass"
    ensures Parse(r[4..]) == Some(id)
    ensures r == "Pass" + Show(id)
  {
    var r := "Pass" + Show(id);
    assert r[4..] == Show(id);
    ParseShow(id);
    r
  }

  /** Lower-casing leaves decimal text alone. */
  lemma ToLowerShow(n: int)
    ensures ToLower(Show(n)) == Show(n)
  {
    var s := Show(n);
    forall i | 0 <= i < |s|
      ensures !('A' <= s[i] <= 'Z')
    {
      if i > 0 || n >= 0 {
        assert IsDigit(s[i]) by {
          if n < 0 {
            assert s[i] == s[1..][i - 1];
          }
        }
      }
    }
  }

  /**
   * `generateUser(id)`: user name `user_<id>`, email `user<id>@example.com`
   * (both built by lower-casing "User" and the decimal id), password
   * `Pass<id>`.
   */
  function GenerateUser(id: int, draws: seq<int>): (r: SeedData)
    requires ValidDraws(draws)
    ensures r.userName == "user_" + Show(id)
    ensures r.email == "user" + Show(id) + "@example.com"
    ensures r.password == GeneratePassword(id)
    ensures IsAadhar(r.aadhar)
  {
    var first := "User";
    var last := Show(id);
    assert ToLower(first) == "user";
    ToLowerShow(id);
    SeedData(
      ToLower(first) + "_" + ToLower(last),
      ToLower(first) + ToLower(last) + "@example.com",
      GeneratePassword(id),
      GenerateAadhar(draws))
  }

  /** A string framed by fixed text on both sides is determined by the whole. */
  lemma FramedMiddle(p: string, x: string, y: string, q: string)
    requires p + x + q == p + y + q
    ensures x == y
  {
    assert |x| == |y|;
    assert (p + x + q)[|p|..|p| + |x|] == x;
    assert (p + y + q)[|p|..|p| + |y|] == y;
  }

  /** Different ids give different user names and different emails: each determines the id. */
  lemma GeneratedNamesDistinct(a: int, b: int, da: seq<int>, db: seq<int>)
    requires ValidDraws(da) && ValidDraws(db)
    ensures GenerateUser(a, da).userName == GenerateUser(b, db).userName ==> a == b
    ensures GenerateUser(a, da).email == GenerateUser(b, db).email ==> a == b
  {
    var sa, sb := Show(a), Show(b);
    if GenerateUser(a, da).userName == GenerateUser(b, db).userName {
      FramedMiddle("user_", sa, sb, "");
      ShowInjective(a, b);
    }
    if GenerateUser(a, da).email == GenerateUser(b, db).email {
      FramedMiddle("user", sa, sb, "@example.com");
      ShowInjective(a, b);
    }
  }

  /**
   * A generated user, submitted with the password confirmed, never fails the
   * register validator's identifier or confirmation checks.
   */
  lemma GeneratedUserPassesValidate(id: int, draws: seq<int>, parseAddress: Controllers.AddressParser)
    requires ValidDraws(draws)
    ensures var u := GenerateUser(id, draws);
            var form := Controllers.UserRegister(u.userName, u.email, u.password, u.password, u.aadhar);
            Controllers.Validate(form, parseAddress) == (
              if parseAddress(u.email).None? then None
              else Some(Controllers.BadAddress(parseAddress(u.email).value)))
  {
  }

  /** `generateUsers(count)`: users 1..count in order; user `i + 1` takes the `i`-th row of draws. */
  method GenerateUsers(count: nat, draws: seq<seq<int>>) returns (users: seq<SeedData>)
    requires |draws| == count
    requires forall i :: 0 <= i < count ==> ValidDraws(draws[i])
    ensures |users| == count
    ensures forall i :: 0 <= i < count ==> users[i] == GenerateUser(i + 1, draws[i])
    ensures forall i :: 0 <= i < count ==> users[i].userName == "user_" + Show(i + 1)
  {
    users := [];
    var i := 1;
    while i <= count
      invariant 1 <= i <= count + 1
      invariant |users| == i - 1
      invariant forall k :: 0 <= k < i - 1 ==> users[k] == GenerateUser(k + 1, draws[k])
    {
      users := users + [GenerateUser(i, draws[i - 1])];
      i := i + 1;
    }
  }
}
