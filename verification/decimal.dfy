/**
 * Decimal text for integers: Go's `strconv.Itoa` / `fmt` `%d` rendering, and
 * `strconv.Atoi` parsing (optional sign, at least one digit, 64-bit range).
 */
module Decimal {
  import opened Wrappers

  const Int64Min: int := -0x8000_0000_0000_0000
  const Int64Max: int := 0x7FFF_FFFF_FFFF_FFFF

  predicate IsDigit(c: char) {
    '0' <= c <= '9'
  }

  predicate AllDigits(s: string) {
    forall i :: 0 <= i < |s| ==> IsDigit(s[i])
  }

  function DigitValue(c: char): (d: nat)
    requires IsDigit(c)
    ensures d < 10
  {
    c as int - '0' as int
  }

  function DigitChar(d: nat): (c: char)
    requires d < 10
    ensures IsDigit(c) && DigitValue(c) == d
  {
    ('0' as int + d) as char
  }

  /** The value of a digit string, most significant digit first. */
  function ValueOf(s: string): nat
    requires AllDigits(s)
  {
    if |s| == 0 then 0 else ValueOf(s[..|s| - 1]) * 10 + DigitValue(s[|s| - 1])
  }

  /** The shortest decimal rendering of a natural number. */
  function ShowNat(n: nat): (s: string)
    ensures |s| >= 1 && AllDigits(s)
    ensures ValueOf(s) == n
  {
    if n < 10 then [DigitChar(n)]
    else
      var p := ShowNat(n / 10);
      var s := p + [DigitChar(n % 10)];
      assert s[..|s| - 1] == p;
      s
  }

  /** `strconv.Itoa(n)`, equivalently `fmt.Sprintf("%d", n)`. */
  function Show(n: int): (s: string)
    ensures |s| >= 1
    ensures n >= 0 ==> AllDigits(s)
    ensures n < 0 ==> s[0] == '-' && AllDigits(s[1..])
  {
    if n < 0 then "-" + ShowNat(-n) else ShowNat(n)
  }

  /** The syntax and value `strconv.Atoi` accepts, before its range check. */
  function Parse(s: string): (r: Option<int>)
    ensures r.Some? ==> |s| >= 1
  {
    if |s| == 0 then None
    else if s[0] == '-' || s[0] == '+' then
      var body := s[1..];
      if |body| == 0 || !AllDigits(body) then None
      else if s[0] == '-' then Some(0 - ValueOf(body) as int)
      else Some(ValueOf(body))
    else if AllDigits(s) then Some(ValueOf(s))
    else None
  }

  /** `strconv.Atoi`: a syntax error or a value outside the 64-bit `int` range is an error. */
  function Atoi(s: string): (r: Option<int>)
    ensures r.Some? ==> Int64Min <= r.value <= Int64Max
    ensures r.Some? ==> Parse(s) == r
    ensures Parse(s).Some? && Int64Min <= Parse(s).value <= Int64Max ==> r == Parse(s)
  {
    match Parse(s)
    case None => None
    case Some(v) => if Int64Min <= v <= Int64Max then Some(v) else None
  }

  /** Parsing inverts rendering: the decimal text of any integer reads back as that integer. */
  lemma ParseShow(n: int)
    ensures Parse(Show(n)) == Some(n)
  {
    var s := Show(n);
    if n < 0 {
      assert s[1..] == ShowNat(-n);
    } else {
      assert s == ShowNat(n);
      assert IsDigit(s[0]);
    }
  }

  /** Within the 64-bit range `Atoi` reads back what `Itoa` writes. */
  lemma AtoiShow(n: int)
    requires Int64Min <= n <= Int64Max
    ensures Atoi(Show(n)) == Some(n)
  {
    ParseShow(n);
  }

  /** Distinct integers have distinct decimal renderings. */
  lemma ShowInjective(a: int, b: int)
    requires Show(a) == Show(b)
    ensures a == b
  {
    ParseShow(a);
    ParseShow(b);
  }
}
