/** Decimal numbers as label values: strconv.FormatInt and strconv.ParseInt with base 10 and 32 bits. */
module Decimal {
  import opened Conditions

  predicate IsInt32(n: int) { -0x8000_0000 <= n < 0x8000_0000 }

  predicate IsDigit(c: char) { '0' <= c <= '9' }

  function Digit(d: nat): (c: char)
    requires d < 10
    ensures IsDigit(c) && Value(c) == d
  {
    ('0' as int + d) as char
  }

  function Value(c: char): nat
    requires IsDigit(c)
  {
    c as int - '0' as int
  }

  function Digits(n: nat): (s: string)
    ensures s != [] && forall k :: 0 <= k < |s| ==> IsDigit(s[k])
    ensures n < 10 ==> |s| == 1
  {
    (if n < 10 then "" else Digits(n / 10)) + [Digit(n % 10)]
  }

  function Magnitude(n: int): nat { if n < 0 then -n else n }

  function FormatInt(n: int): string { if n < 0 then "-" + Digits(Magnitude(n)) else Digits(Magnitude(n)) }

  /** The number that a sequence of digits stands for; None if there is anything else in it. */
  function Number(s: string): Option<nat> {
    if s == [] then Some(0)
    else if !IsDigit(s[|s| - 1]) then None
    else
      match Number(s[..|s| - 1])
      case None => None
      case Some(high) => Some(high * 10 + Value(s[|s| - 1]))
  }

  /** A sign is allowed, an empty number is not; a number that does not fit is an error. */
  function ParseInt32(s: string): (r: Option<int>)
    ensures r.Some? ==> IsInt32(r.value)
  {
    var negative := s != [] && s[0] == '-';
    var digits := if s != [] && (s[0] == '-' || s[0] == '+') then s[1..] else s;
    if digits == [] then None
    else
      match Number(digits)
      case None => None
      case Some(n) => var value: int := if negative then -(n as int) else n; if IsInt32(value) then Some(value) else None
  }

  lemma {:induction false} NumberOfDigits(n: nat)
    ensures Number(Digits(n)) == Some(n)
  {
    var high := if n < 10 then "" else Digits(n / 10);
    if n >= 10 { NumberOfDigits(n / 10); }
    assert Digits(n) == high + [Digit(n % 10)];
    NumberOfLonger(high, n % 10);
  }

  lemma NumberOfLonger(high: string, d: nat)
    requires d < 10 && Number(high).Some?
    ensures Number(high + [Digit(d)]) == Some(Number(high).value * 10 + d)
  {
    assert (high + [Digit(d)])[..|high|] == high;
  }

  /** Every replica count can be read back from the label it was saved in. */
  lemma ParseAfterFormat(n: int)
    ensures ParseInt32(FormatInt(n)) == if IsInt32(n) then Some(n) else None
  {
    var digits := FormattedDigits(n);
    ParseDigits(digits, Magnitude(n), n);
  }

  lemma FormattedDigits(n: int) returns (digits: string)
    ensures digits != [] && IsDigit(digits[0]) && Number(digits) == Some(Magnitude(n))
    ensures FormatInt(n) == if n < 0 then "-" + digits else digits
  {
    digits := Digits(Magnitude(n));
    NumberOfDigits(Magnitude(n));
  }

  lemma ParseDigits(digits: string, m: nat, n: int)
    requires digits != [] && IsDigit(digits[0]) && Number(digits) == Some(m)
    ensures n == m ==> ParseInt32(digits) == if IsInt32(n) then Some(n) else None
    ensures n + m == 0 ==> ParseInt32("-" + digits) == if IsInt32(n) then Some(n) else None
  {
    var signed := "-" + digits;
    assert signed[0] == '-' && signed[1..] == digits;
  }
}
