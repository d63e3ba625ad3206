/** Decimal numerals: how a number is written, and how it is read back. */
module Decimals {
  import opened Outcomes

  predicate IsDigit(c: char) {
    '0' <= c <= '9'
  }

  function Digit(d: nat): (c: char)
    requires d < 10
    ensures IsDigit(c) && DigitValue(c) == d
  {
    '0' + d as char
  }

  function DigitValue(c: char): (d: nat)
    requires IsDigit(c)
    ensures d < 10
  {
    (c - '0') as nat
  }

  predicate Digits(s: string) {
    forall i :: 0 <= i < |s| ==> IsDigit(s[i])
  }

  function Dec(n: nat): (s: string)
    ensures Digits(s) && s != ""
  {
    if n < 10 then [Digit(n)] else Dec(n / 10) + [Digit(n % 10)]
  }

  function Value(s: string): nat
    requires Digits(s)
  {
    if s == "" then 0 else Value(s[..|s| - 1]) * 10 + DigitValue(s[|s| - 1])
  }

  lemma {:induction false} ValueOfDec(n: nat)
    ensures Value(Dec(n)) == n
  {
    if n < 10 {
      assert Dec(n)[..0] == "";
    } else {
      ValueOfDec(n / 10);
      assert Dec(n)[..|Dec(n)| - 1] == Dec(n / 10);
    }
  }

  function Power10(k: nat): (p: nat)
    ensures p > 0
  {
    if k == 0 then 1 else 10 * Power10(k - 1)
  }

  /** A number below 10^k, and no other, is written with at most k digits. */
  lemma {:induction false} DecLength(n: nat, k: nat)
    requires k > 0
    ensures |Dec(n)| <= k <==> n < Power10(k)
  {
    if n < 10 {
      Power10Grows(k);
    } else if k == 1 {
      assert Power10(1) == 10;
      assert |Dec(n / 10)| >= 1;
    } else {
      DecLength(n / 10, k - 1);
    }
  }

  lemma {:induction false} Power10Grows(k: nat)
    requires k > 0
    ensures Power10(k) >= 10
  {
  }

  /** A numeral with leading zeros up to `width` digits. */
  function Padded(numeral: string, width: nat): (s: string)
    requires Digits(numeral)
    ensures Digits(s) && |s| == if |numeral| < width then width else |numeral|
    decreases width - |numeral|
  {
    if |numeral| < width then Padded("0" + numeral, width) else numeral
  }

  function Pad(n: nat, width: nat): (s: string)
    ensures Digits(s) && |s| >= width
  {
    Padded(Dec(n), width)
  }

  lemma {:induction false} LeadingZero(s: string)
    requires Digits(s)
    ensures Value("0" + s) == Value(s)
  {
    var t := "0" + s;
    if s == "" {
      assert t[..0] == "";
      assert DigitValue('0') == 0;
    } else {
      LeadingZero(s[..|s| - 1]);
      assert t[..|t| - 1] == "0" + s[..|s| - 1];
    }
  }

  lemma {:induction false} PaddedValue(numeral: string, width: nat)
    requires Digits(numeral)
    ensures Value(Padded(numeral, width)) == Value(numeral)
    decreases width - |numeral|
  {
    if |numeral| < width {
      LeadingZero(numeral);
      PaddedValue("0" + numeral, width);
    }
  }

  lemma ValueOfPad(n: nat, width: nat)
    ensures Value(Pad(n, width)) == n
  {
    ValueOfDec(n);
    PaddedValue(Dec(n), width);
  }

  /** The length of the run of digits `s` starts with. */
  function DigitRun(s: string): (k: nat)
    ensures k <= |s| && Digits(s[..k])
    ensures k < |s| ==> !IsDigit(s[k])
  {
    if s == "" || !IsDigit(s[0]) then 0 else 1 + DigitRun(s[1..])
  }

  /** Read the longest numeral at the front of `s`. */
  function ReadNat(s: string): (r: Option<(nat, string)>)
    ensures r.Some? ==> |r.value.1| < |s|
  {
    var k := DigitRun(s);
    if k == 0 then None else Some((Value(s[..k]), s[k..]))
  }

  predicate NoDigitFirst(s: string) {
    s == "" || !IsDigit(s[0])
  }

  /** A written number is read back, whatever non-digit follows it. */
  lemma ReadBack(n: nat, rest: string)
    requires NoDigitFirst(rest)
    ensures ReadNat(Dec(n) + rest) == Some((n, rest))
  {
    var s := Dec(n) + rest;
    var k := DigitRun(s);
    assert forall i :: 0 <= i < |Dec(n)| ==> s[i] == Dec(n)[i];
    assert rest != "" ==> s[|Dec(n)|] == rest[0];
    assert forall i :: 0 <= i < k ==> s[i] == s[..k][i];
    assert s[..|Dec(n)|] == Dec(n) && s[|Dec(n)|..] == rest;
    ValueOfDec(n);
  }
}
