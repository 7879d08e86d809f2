/** Decimal text, as strconv and fmt produce and read it. */
module Decimal {

  datatype Option<+T> = None | Some(value: T)

  const MAX_INT64: int := 0x7FFF_FFFF_FFFF_FFFF
  const MIN_INT64: int := -0x8000_0000_0000_0000

  predicate IsDigit(c: char) {
    '0' <= c <= '9'
  }

  function Digit(d: nat): char
    requires d < 10
  {
    '0' + d as char
  }

  function DigitValue(c: char): nat
    requires IsDigit(c)
  {
    c as int - '0' as int
  }

  function FormatNat(n: nat): string {
    if n < 10 then [Digit(n)] else FormatNat(n / 10) + [Digit(n % 10)]
  }

  /** What `%d` and strconv.FormatInt print. */
  function FormatInt(n: int): string {
    if n < 0 then "-" + FormatNat(-n) else FormatNat(n)
  }

  /** Reads a non-empty run of digits; anything else is a syntax error. */
  function ParseNat(s: string): Option<nat> {
    if s == "" || !IsDigit(s[|s| - 1]) then None
    else if |s| == 1 then Some(DigitValue(s[0]))
    else match ParseNat(s[..|s| - 1])
         case None => None
         case Some(k) => Some(10 * k + DigitValue(s[|s| - 1]))
  }

  /** Reads an optional sign followed by digits. */
  function ParseInt(s: string): Option<int> {
    if s != "" && (s[0] == '-' || s[0] == '+')
    then match ParseNat(s[1..])
         case None => None
         case Some(k) => var magnitude: int := k; Some(if s[0] == '-' then -magnitude else magnitude)
    else match ParseNat(s)
         case None => None
         case Some(k) => Some(k)
  }

  /** The value strconv.ParseInt(s, 10, 64) returns beside its error: 0 on a
      syntax error, the nearest bound on a range error. */
  function ParseInt64(s: string): int {
    match ParseInt(s)
    case None => 0
    case Some(n) => if n < MIN_INT64 then MIN_INT64 else if n > MAX_INT64 then MAX_INT64 else n
  }

  lemma {:induction false} ParseFormatNat(n: nat)
    ensures ParseNat(FormatNat(n)) == Some(n)
    ensures |FormatNat(n)| > 0
    ensures forall c <- FormatNat(n) :: IsDigit(c)
  {
    if n >= 10 {
      ParseFormatNat(n / 10);
      var s := FormatNat(n);
      assert s[..|s| - 1] == FormatNat(n / 10);
    }
  }

  /** Printing and reading an integer is the identity, and the text is made of
      digits and a sign only. */
  lemma ParseFormatInt(n: int)
    ensures ParseInt(FormatInt(n)) == Some(n)
    ensures FormatInt(n) != ""
    ensures forall c <- FormatInt(n) :: IsDigit(c) || c == '-'
  {
    ParseFormatNat(if n < 0 then -n else n);
    if n < 0 {
      assert FormatInt(n)[1..] == FormatNat(-n);
    } else {
      assert IsDigit(FormatNat(n)[0]);
    }
  }

  lemma {:induction false} ParseNatReads(s: string)
    ensures ParseNat(s).Some? <==> s != "" && forall c <- s :: '0' <= c <= '9'
  {
    if s != "" {
      var init, last := s[..|s| - 1], s[|s| - 1];
      ParseNatReads(init);
      assert s == init + [last];
      assert last in s && forall c <- init :: c in s;
    }
  }

  /** Out of range the nearest bound is read, and 0 from what is no numeral. */
  lemma ParseInt64Bounds(n: int, s: string)
    ensures -9_223_372_036_854_775_808 <= n <= 9_223_372_036_854_775_807 ==> ParseInt64(FormatInt(n)) == n
    ensures n > 9_223_372_036_854_775_807 ==> ParseInt64(FormatInt(n)) == 9_223_372_036_854_775_807
    ensures n < -9_223_372_036_854_775_808 ==> ParseInt64(FormatInt(n)) == -9_223_372_036_854_775_808
    ensures var digits := if s != "" && s[0] in {'+', '-'} then s[1..] else s;
            digits == "" || (exists c <- digits :: !('0' <= c <= '9')) ==> ParseInt64(s) == 0
  {
    hide FormatInt, ParseNat;
    ParseFormatInt(n);
    ParseNatReads(s);
    if s != "" {
      ParseNatReads(s[1..]);
    }
  }
}
