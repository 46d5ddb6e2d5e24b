/** Decimal rendering of Python integers, as `str(n)` and an f-string
    replacement field produce it, and the reading that inverts it: the integer
    at the end of a message. */
module Decimal {
  import opened Wrappers

  predicate IsDigit(c: char)
  {
    '0' <= c <= '9'
  }

  function DigitChar(d: nat): (c: char)
    requires d < 10
    ensures IsDigit(c) && c as int - '0' as int == d
  {
    (d + '0' as int) as char
  }

  /** The digits of `n`, most significant first, with no leading zero. */
  function Digits(n: nat): (s: string)
    ensures |s| > 0
    ensures forall k :: 0 <= k < |s| ==> IsDigit(s[k])
    ensures n >= 10 ==> s[0] != '0'
  {
    if n < 10 then [DigitChar(n)] else Digits(n / 10) + [DigitChar(n % 10)]
  }

  /** The value of a string of digits, read most significant first. */
  function ValueOf(s: string): int
  {
    if s == [] then 0
    else 10 * ValueOf(s[..|s| - 1]) + (s[|s| - 1] as int - '0' as int)
  }

  lemma {:induction false} ValueOfDigits(n: nat)
    ensures ValueOf(Digits(n)) == n
  {
    if n >= 10 {
      var s := Digits(n);
      assert s[..|s| - 1] == Digits(n / 10);
      ValueOfDigits(n / 10);
    }
  }

  /** `str(n)` for a Python int: a minus sign before the digits of a negative number. */
  function IntToString(n: int): (s: string)
    ensures |s| > 0 && (s[0] == '-' <==> n < 0)
    ensures n >= 0 ==> s == Digits(n)
    ensures n < 0 ==> s == "-" + Digits(-n)
  {
    if n < 0 then "-" + Digits(-n) else Digits(n)
  }

  /** Number of digits at the end of `s`. */
  function DigitRun(s: string): (k: nat)
    ensures k <= |s|
  {
    if s != [] && IsDigit(s[|s| - 1]) then 1 + DigitRun(s[..|s| - 1]) else 0
  }

  /** The integer a message ends with: its trailing digits, negated when a
      minus sign stands right before them. */
  function TrailingInt(s: string): Option<int>
  {
    var k := DigitRun(s);
    if k == 0 then None
    else
      var value := ValueOf(s[|s| - k..]);
      if k < |s| && s[|s| - k - 1] == '-' then Some(-value) else Some(value)
  }

  lemma {:induction false} DigitRunAppend(p: string, d: string)
    requires p == [] || !IsDigit(p[|p| - 1])
    requires forall k :: 0 <= k < |d| ==> IsDigit(d[k])
    ensures DigitRun(p + d) == |d|
    decreases |d|
  {
    if d == [] {
      assert p + d == p;
    } else {
      var n := |d| - 1;
      assert (p + d)[..|p + d| - 1] == p + d[..n];
      DigitRunAppend(p, d[..n]);
    }
  }

  /** Digits after a non-digit are read back with the sign that non-digit gives. */
  lemma TrailingIntAfter(q: string, d: string)
    requires q != [] && !IsDigit(q[|q| - 1])
    requires d != [] && forall k :: 0 <= k < |d| ==> IsDigit(d[k])
    ensures TrailingInt(q + d) ==
      if q[|q| - 1] == '-' then Some(-ValueOf(d)) else Some(ValueOf(d))
  {
    var s := q + d;
    DigitRunAppend(q, d);
    var k := DigitRun(s);
    assert k == |d| < |s|;
    assert s[|s| - k..] == d;
    assert s[|s| - k - 1] == q[|q| - 1];
  }

  /** A message ending in `str(n)` after a character that is neither a digit
      nor a minus sign gives `n` back. */
  lemma TrailingIntOfRendered(p: string, n: int)
    requires p != [] && !IsDigit(p[|p| - 1]) && p[|p| - 1] != '-'
    ensures TrailingInt(p + IntToString(n)) == Some(n)
  {
    if n < 0 {
      var q := p + "-";
      assert p + IntToString(n) == q + Digits(-n);
      ValueOfDigits(-n);
      TrailingIntAfter(q, Digits(-n));
    } else {
      ValueOfDigits(n);
      TrailingIntAfter(p, Digits(n));
    }
  }

}
