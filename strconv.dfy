/** Decimal rendering of integers, as `strconv.Itoa` does it, together with a
    parser that reads the rendering back. */
module Strconv {
  import opened Results

  predicate IsDigit(c: char)
  {
    '0' <= c <= '9'
  }

  predicate AllDigits(s: string)
  {
    forall i :: 0 <= i < |s| ==> IsDigit(s[i])
  }

  function DigitChar(d: nat): (c: char)
    requires d < 10
    ensures IsDigit(c) && c as int - '0' as int == d
  {
    (d + '0' as int) as char
  }

  /** The number a string of decimal digits denotes, most significant first. */
  function DigitsValue(s: string): nat
    requires AllDigits(s)
  {
    if s == [] then 0
    else DigitsValue(s[..|s| - 1]) * 10 + (s[|s| - 1] as int - '0' as int)
  }

  /** The shortest decimal rendering of `n`: at least one digit, no leading zero. */
  function Digits(n: nat): (r: string)
    ensures |r| >= 1 && AllDigits(r)
    ensures DigitsValue(r) == n
    ensures r[0] == '0' ==> n == 0
    decreases n
  {
    if n < 10 then [DigitChar(n)]
    else
      var front := Digits(n / 10);
      var s := front + [DigitChar(n % 10)];
      assert s[..|s| - 1] == front;
      s
  }

  /** A rendering `strconv.Itoa` could produce for a natural number: one or
      more digits, with no leading zero unless the number is 0 itself. */
  predicate Canonical(s: string)
  {
    |s| >= 1 && AllDigits(s) && (s[0] == '0' ==> |s| == 1)
  }

  /** Reads back an optional minus sign followed by a canonical digit string;
      rejects leading zeros and "-0", which `strconv.Itoa` never produces. */
  function ParseInt(s: string): Option<int>
  {
    if |s| > 1 && s[0] == '-' && Canonical(s[1..]) && s[1] != '0' then Some(0 - DigitsValue(s[1..]) as int)
    else if Canonical(s) then Some(DigitsValue(s))
    else None
  }

  /** `strconv.Itoa`: a minus sign for negative numbers, then the shortest
      decimal digits. Every integer is rendered; nothing is rejected or clamped. */
  function Itoa(n: int): (r: string)
    ensures ParseInt(r) == Some(n)
    ensures |r| >= 1 && (r[0] == '-' <==> n < 0)
    ensures forall i :: 0 <= i < |r| ==> IsDigit(r[i]) || (i == 0 && r[i] == '-')
    ensures n >= 0 ==> Canonical(r)
    ensures n < 0 ==> Canonical(r[1..]) && r[1] != '0'
  {
    if n < 0 then
      var d := Digits(-n);
      var s := "-" + d;
      assert s[1..] == d;
      s
    else Digits(n)
  }

  /** A canonical digit string that does not start with '0' denotes a positive number. */
  lemma {:induction false} LeadingDigitPositive(s: string)
    requires |s| >= 1 && AllDigits(s) && s[0] != '0'
    ensures DigitsValue(s) > 0
    decreases |s|
  {
    if |s| > 1 {
      var front := s[..|s| - 1];
      assert front[0] == s[0];
      LeadingDigitPositive(front);
    }
  }

  /** `Digits(n)` is the only canonical digit string denoting `n`. */
  lemma {:induction false} CanonicalDigitsUnique(s: string)
    requires Canonical(s)
    ensures s == Digits(DigitsValue(s))
    decreases |s|
  {
    if |s| > 1 {
      var front := s[..|s| - 1];
      var d := s[|s| - 1] as int - '0' as int;
      assert front[0] == s[0] && s[0] != '0';
      LeadingDigitPositive(front);
      CanonicalDigitsUnique(front);
      var n := DigitsValue(s);
      assert n == DigitsValue(front) * 10 + d && 0 <= d < 10;
      assert n / 10 == DigitsValue(front) && n % 10 == d;
      assert s == front + [s[|s| - 1]];
    }
  }

  /** The rendering is the only string that reads back to `n`: `ParseInt`
      is exactly the inverse of `Itoa`. */
  lemma ParseIntExact(s: string, n: int)
    requires ParseInt(s) == Some(n)
    ensures s == Itoa(n)
  {
    if |s| > 1 && s[0] == '-' && Canonical(s[1..]) && s[1] != '0' {
      var d := s[1..];
      LeadingDigitPositive(d);
      CanonicalDigitsUnique(d);
      assert s == "-" + d;
    } else {
      CanonicalDigitsUnique(s);
    }
  }
}
