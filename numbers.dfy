/** Integers as the handlers read and write them: JavaScript's `parseInt`
    (the pagination parameters) and the decimal text of a number
    (`Date.now()` inside an upload's file name). */
module Numbers {
  import opened Common
  import opened Strings

  predicate IsDigit(c: char) {
    '0' <= c <= '9'
  }

  predicate AllDigits(s: string) {
    forall k :: 0 <= k < |s| ==> IsDigit(s[k])
  }

  /** The value parseInt gives a character: 0-9, then a-z or A-Z as 10-35. */
  function DigitValue(c: char): (d: Option<nat>)
    ensures d.Some? ==> d.value < 36
    ensures d.Some? && d.value < 10 <==> IsDigit(c)
  {
    if '0' <= c <= '9' then Some(c as int - '0' as int)
    else if 'a' <= c <= 'z' then Some(c as int - 'a' as int + 10)
    else if 'A' <= c <= 'Z' then Some(c as int - 'A' as int + 10)
    else None
  }

  predicate IsDigitIn(c: char, radix: nat) {
    DigitValue(c).Some? && DigitValue(c).value < radix
  }

  predicate AllDigitsIn(s: string, radix: nat) {
    forall k :: 0 <= k < |s| ==> IsDigitIn(s[k], radix)
  }

  /** The number a run of digits denotes, most significant digit first. */
  function ValueIn(s: string, radix: nat): nat
    requires AllDigitsIn(s, radix)
  {
    if s == [] then 0
    else ValueIn(s[..|s| - 1], radix) * radix + DigitValue(s[|s| - 1]).value
  }

  /** The length of the longest prefix of `s` made of digits in `radix`. */
  function DigitRun(s: string, radix: nat): (k: nat)
    ensures k <= |s| && AllDigitsIn(s[..k], radix)
    ensures k < |s| ==> !IsDigitIn(s[k], radix)
  {
    if s == [] || !IsDigitIn(s[0], radix) then 0
    else
      var k := 1 + DigitRun(s[1..], radix);
      assert s[..k] == [s[0]] + s[1..][..k - 1];
      k
  }

  /** JavaScript's parseInt(s) without a radix argument; None stands for NaN.
      Leading white space is skipped, one sign is read, a "0x" or "0X"
      prefix selects base 16, and the longest run of digits that follows is
      read; text after the run is ignored. */
  function ParseInt(s: string): (r: Option<int>)
  {
    var t := TrimStart(s);
    var negative := t != [] && t[0] == '-';
    var u := if t != [] && (t[0] == '-' || t[0] == '+') then t[1..] else t;
    match Magnitude(u)
    case None => None
    case Some(v) => Some(if negative then -v else v)
  }

  /** The unsigned part of parseInt: the radix prefix and the digit run. */
  function Magnitude(u: string): (r: Option<int>)
    ensures r.Some? ==> r.value >= 0
  {
    var hex := |u| >= 2 && u[0] == '0' && (u[1] == 'x' || u[1] == 'X');
    var radix := if hex then 16 else 10;
    var digits := if hex then u[2..] else u;
    var k := DigitRun(digits, radix);
    if k == 0 then None else Some(ValueIn(digits[..k], radix))
  }

  function DigitChar(d: nat): (c: char)
    requires d < 10
    ensures IsDigit(c) && DigitValue(c) == Some(d)
  {
    ('0' as int + d) as char
  }

  /** The decimal text of a natural number, as a template literal prints it. */
  function Decimal(n: nat): (r: string)
    ensures r != [] && AllDigits(r) && AllDigitsIn(r, 10)
    ensures ValueIn(r, 10) == n
  {
    if n < 10 then [DigitChar(n)]
    else
      var r := Decimal(n / 10) + [DigitChar(n % 10)];
      assert r[..|r| - 1] == Decimal(n / 10);
      r
  }

  lemma {:induction false} DigitRunOfDigits(s: string, radix: nat)
    requires AllDigitsIn(s, radix)
    ensures DigitRun(s, radix) == |s|
  {
    if s != [] {
      DigitRunOfDigits(s[1..], radix);
    }
  }

  lemma {:induction false} MagnitudeOfDecimal(s: string)
    requires s != [] && AllDigits(s)
    ensures Magnitude(s) == Some(ValueIn(s, 10))
  {
    assert |s| >= 2 ==> IsDigit(s[1]);
    assert AllDigitsIn(s, 10);
    DigitRunOfDigits(s, 10);
    assert s[..|s|] == s;
  }

  /** parseInt reads a run of decimal digits as its value. */
  lemma ParseIntReadsDigits(s: string)
    requires s != [] && AllDigits(s)
    ensures ParseInt(s) == Some(ValueIn(s, 10))
  {
    assert IsDigit(s[0]);
    assert TrimStart(s) == s;
    MagnitudeOfDecimal(s);
  }

  /** parseInt reads back the decimal text of every natural number. */
  lemma ParseIntReadsDecimal(n: nat)
    ensures ParseInt(Decimal(n)) == Some(n)
  {
    ParseIntReadsDigits(Decimal(n));
  }
}
