/** Decimal text of non-negative numbers, as JavaScript's template literals
    (`${n}`) write a Number that is a whole number or has at most two decimals
    and at most 15 significant digits, together with a reader that recovers
    the number from that text. */
module NumberText {
  import opened Wrappers

  predicate IsDigit(c: char) {
    '0' <= c <= '9'
  }

  predicate AllDigits(s: string) {
    forall i :: 0 <= i < |s| ==> IsDigit(s[i])
  }

  /** The character that writes the decimal digit d. */
  function DigitChar(d: nat): (c: char)
    requires d < 10
    ensures IsDigit(c)
    ensures c as int - '0' as int == d
  {
    ('0' as int + d) as char
  }

  /** The value of one decimal digit character. */
  function DigitValue(c: char): (d: nat)
    requires IsDigit(c)
    ensures d < 10 && DigitChar(d) == c
  {
    c as int - '0' as int
  }

  /** The decimal digits of n, with no leading zero unless n is zero. For
      n below 10^15 this is the text JavaScript gives the Number n; larger
      whole Numbers may be rounded by double precision before printing. */
  function NatText(n: nat): (s: string)
    ensures |s| > 0 && AllDigits(s)
    ensures s[0] == '0' ==> s == "0"
    decreases n
  {
    if n < 10 then [DigitChar(n)] else NatText(n / 10) + [DigitChar(n % 10)]
  }

  /** The number a string of decimal digits denotes. */
  function DigitsValue(s: string): nat
    requires AllDigits(s)
  {
    if s == [] then 0 else DigitsValue(s[..|s| - 1]) * 10 + DigitValue(s[|s| - 1])
  }

  lemma {:induction false} NatTextRoundTrip(n: nat)
    ensures DigitsValue(NatText(n)) == n
  {
    if n >= 10 {
      var s := NatText(n);
      NatTextRoundTrip(n / 10);
      assert s[..|s| - 1] == NatText(n / 10);
    }
  }

  /** The number of leading decimal digits of s. */
  function DigitPrefixLength(s: string): (k: nat)
    ensures k <= |s| && AllDigits(s[..k])
    ensures k < |s| ==> !IsDigit(s[k])
  {
    if s == [] || !IsDigit(s[0]) then 0
    else
      var k := 1 + DigitPrefixLength(s[1..]);
      assert s[..k] == [s[0]] + s[1..][..k - 1];
      k
  }

  lemma {:induction false} DigitPrefixOfDigitsThen(d: string, t: string)
    requires AllDigits(d)
    requires t == [] || !IsDigit(t[0])
    ensures DigitPrefixLength(d + t) == |d|
  {
    if d != [] {
      assert (d + t)[1..] == d[1..] + t;
      DigitPrefixOfDigitsThen(d[1..], t);
    }
  }

  /** The text of a non-negative amount given in hundredths: the whole part,
      then, only when there is a fractional part, a point and its digits
      without trailing zero ("3", "3.5", "3.05", "0.25"). For hundredths
      below 10^15 (at most 15 significant digits) this is how JavaScript
      writes the Number hundredths / 100. */
  function CentiText(hundredths: nat): (s: string)
    ensures |s| > 0 && IsDigit(s[0])
  {
    var whole, frac := hundredths / 100, hundredths % 100;
    NatText(whole) +
      (if frac == 0 then ""
       else if frac % 10 == 0 then ['.', DigitChar(frac / 10)]
       else ['.', DigitChar(frac / 10), DigitChar(frac % 10)])
  }

  /** Reads text of the form CentiText writes back into hundredths; None for
      any other text. */
  function ParseCenti(s: string): Option<nat> {
    var k := DigitPrefixLength(s);
    var whole, rest := s[..k], s[k..];
    if k == 0 || (k > 1 && s[0] == '0') then None
    else if rest == [] then Some(DigitsValue(whole) * 100)
    else if |rest| == 2 && rest[0] == '.' && IsDigit(rest[1]) && rest[1] != '0' then
      Some(DigitsValue(whole) * 100 + DigitValue(rest[1]) * 10)
    else if |rest| == 3 && rest[0] == '.' && IsDigit(rest[1]) && IsDigit(rest[2]) && rest[2] != '0' then
      Some(DigitsValue(whole) * 100 + DigitValue(rest[1]) * 10 + DigitValue(rest[2]))
    else None
  }

  /** CentiText loses nothing: the amount can be read back from its text. */
  lemma CentiTextRoundTrip(hundredths: nat)
    ensures ParseCenti(CentiText(hundredths)) == Some(hundredths)
  {
    var whole, frac := hundredths / 100, hundredths % 100;
    var w := NatText(whole);
    var tail := CentiText(hundredths)[|w|..];
    assert CentiText(hundredths) == w + tail;
    DigitPrefixOfDigitsThen(w, tail);
    assert CentiText(hundredths)[..|w|] == w;
    NatTextRoundTrip(whole);
  }

  /** Different amounts never share a text. */
  lemma CentiTextInjective(a: nat, b: nat)
    requires CentiText(a) == CentiText(b)
    ensures a == b
  {
    CentiTextRoundTrip(a);
    CentiTextRoundTrip(b);
  }
}
