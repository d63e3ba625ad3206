/** Money in dirhams and fils: rounding to whole fils, and the grouped text shown in documents. */
module Money {
  import opened Outcomes
  import opened Decimals
  import opened Texts
  import ExitCase

  function Abs(amount: real): real {
    if amount < 0.0 then -amount else amount
  }

  /** Half-up rounding of a size. */
  function Rounded(size: real): nat
    requires size >= 0.0
  {
    (size + 0.5).Floor
  }

  function Signed(negative: bool, size: int): int {
    if negative then -size else size
  }

  /** The amount in fils, half a fils rounding away from zero. */
  function Fils(amount: real): int {
    var rounded := Rounded(Abs(amount) * 100.0);
    Signed(amount < 0.0, rounded)
  }

  lemma RoundedNearest(size: real)
    requires size >= 0.0
    ensures size - 0.5 < Rounded(size) as real <= size + 0.5
  {
  }

  lemma RoundedExact(size: real, whole: nat)
    requires size == whole as real
    ensures Rounded(size) == whole
  {
  }

  /** Rounding errs by at most half a fils, and a tie goes away from zero. */
  lemma FilsNearest(amount: real)
    ensures -0.5 <= Fils(amount) as real - amount * 100.0 <= 0.5
    ensures Fils(amount) as real - amount * 100.0 != if amount < 0.0 then 0.5 else -0.5
    ensures amount < 0.0 ==> Fils(amount) <= 0
    ensures amount >= 0.0 ==> Fils(amount) >= 0
  {
    RoundedNearest(Abs(amount) * 100.0);
  }

  /** Whole fils stay as they are, on either side of zero. */
  lemma FilsExact(fils: int)
    ensures Fils(fils as real / 100.0) == fils
  {
    RoundedExact(Abs(fils as real / 100.0) * 100.0, if fils < 0 then -fils else fils);
  }

  // ---------------------------------------------------- sums and splits

  function Sum(amounts: seq<real>): real {
    if amounts == [] then 0.0 else Sum(amounts[..|amounts| - 1]) + amounts[|amounts| - 1]
  }

  function Dirhams(fils: seq<int>): (amounts: seq<real>)
    ensures |amounts| == |fils|
    ensures forall i :: 0 <= i < |fils| ==> amounts[i] == fils[i] as real / 100.0
  {
    seq(|fils|, i requires 0 <= i < |fils| => fils[i] as real / 100.0)
  }

  function SumFils(fils: seq<int>): int {
    if fils == [] then 0 else SumFils(fils[..|fils| - 1]) + fils[|fils| - 1]
  }

  lemma {:induction false} SumOfFils(fils: seq<int>)
    ensures Sum(Dirhams(fils)) == SumFils(fils) as real / 100.0
  {
    if fils != [] {
      SumOfFils(fils[..|fils| - 1]);
      assert Dirhams(fils)[..|fils| - 1] == Dirhams(fils[..|fils| - 1]);
    }
  }

  /** Amounts of whole fils add up exactly: the final rounding changes nothing. */
  lemma TotalExact(fils: seq<int>)
    ensures Fils(Sum(Dirhams(fils))) == SumFils(fils)
  {
    SumOfFils(fils);
    FilsExact(SumFils(fils));
  }

  function ValidAmount(amount: real): Result<nat> {
    var fils := Fils(amount);
    var _ :- Need(0 <= fils <= ExitCase.MAX_AMOUNT, Invalid);
    Ok(fils)
  }

  /** Split a deposit against deductions: the refund, and what the tenant still owes. */
  function Settled(deposit: real, deductions: real): Result<(nat, nat)> {
    var held :- ValidAmount(deposit);
    var charged :- ValidAmount(deductions);
    if charged <= held then Ok((held - charged, 0)) else Ok((0, charged - held))
  }

  /** Refund less liability is deposit less deductions, one of the two is nothing, and neither side may be
      negative or too large once rounded. */
  lemma SettledConserves(deposit: real, deductions: real)
    ensures Settled(deposit, deductions).Ok? <==>
      0 <= Fils(deposit) <= ExitCase.MAX_AMOUNT && 0 <= Fils(deductions) <= ExitCase.MAX_AMOUNT
    ensures Settled(deposit, deductions).Ok? ==>
      var (refund, liability) := Settled(deposit, deductions).value;
      refund - liability == Fils(deposit) - Fils(deductions) && (refund == 0 || liability == 0)
  {
  }

  /** On amounts of whole fils this is the split the exit case uses. */
  lemma SettledInFils(deposit: nat, deductions: nat)
    ensures Settled(deposit as real / 100.0, deductions as real / 100.0) == ExitCase.Settle(deposit, deductions)
  {
  }

  // ------------------------------------------------------------ grouping

  /** Digits in groups of three from the right. */
  function Grouped(digits: string): string {
    if |digits| <= 3 then digits
    else Grouped(digits[..|digits| - 3]) + ("," + digits[|digits| - 3..])
  }

  /** The text of an amount of whole fils. */
  function Shown(negative: bool, currency: string, fils: nat): string {
    (if negative then "-" else "") + (currency + " " + (Grouped(Dec(fils / 100)) + ("." + Pad(fils % 100, 2))))
  }

  function Formatted(amount: real, currency: string): string {
    Shown(amount < 0.0, currency, Rounded(Abs(amount) * 100.0))
  }

  method FormatAed(amount: real, currency: string) returns (text: string)
    ensures text == Formatted(amount, currency)
  {
    var fils := Rounded(Abs(amount) * 100.0);
    var digits := Dec(fils / 100);
    ghost var whole := digits;
    var grouped := "";
    while |digits| > 3
      invariant Grouped(whole) == Grouped(digits) + grouped
    {
      var last := digits[|digits| - 3..];
      Assoc(Grouped(digits[..|digits| - 3]), "," + last, grouped);
      grouped := "," + last + grouped;
      digits := digits[..|digits| - 3];
    }
    grouped := digits + grouped;
    text := (if amount < 0.0 then "-" else "") + (currency + " " + (grouped + ("." + Pad(fils % 100, 2))));
  }

  // ------------------------------------------------------- reading back

  function WithoutCommas(s: string): string {
    if s == "" then "" else (if s[0] == ',' then "" else [s[0]]) + WithoutCommas(s[1..])
  }

  /** Drop the commas and read what is left, two digits after the point. */
  function ReadNumber(number: string): Option<nat> {
    var _ :- Check(|number| >= 3 && number[|number| - 3] == '.');
    FilsOf(WithoutCommas(number[..|number| - 3]), number[|number| - 3 + 1..])
  }

  function FilsOf(whole: string, fraction: string): Option<nat> {
    var _ :- Check(Digits(whole) && Digits(fraction));
    Some(Value(whole) * 100 + Value(fraction))
  }

  /** Drop the sign and the currency, and read the number. */
  function ReadAed(text: string, currency: string): Option<int> {
    var negative := text != "" && text[0] == '-';
    var unsigned := if negative then text[1..] else text;
    var front := currency + " ";
    var _ :- Check(front <= unsigned);
    var fils :- ReadNumber(unsigned[|front|..]);
    Some(Signed(negative, fils))
  }

  lemma {:induction false} WithoutCommasConcat(a: string, b: string)
    ensures WithoutCommas(a + b) == WithoutCommas(a) + WithoutCommas(b)
  {
    if a == "" {
      assert a + b == b;
    } else {
      assert (a + b)[1..] == a[1..] + b;
      WithoutCommasConcat(a[1..], b);
    }
  }

  lemma {:induction false} DigitsHaveNoCommas(s: string)
    requires Digits(s)
    ensures WithoutCommas(s) == s
  {
    if s != "" {
      DigitsHaveNoCommas(s[1..]);
      assert IsDigit(s[0]);
    }
  }

  lemma CommaDropped(front: string, last: string)
    requires Digits(last)
    ensures WithoutCommas(front + ("," + last)) == WithoutCommas(front) + last
  {
    WithoutCommasConcat(front, "," + last);
    DigitsHaveNoCommas(last);
    assert ("," + last)[1..] == last;
  }

  lemma {:induction false} GroupedReadsBack(digits: string)
    requires Digits(digits)
    ensures WithoutCommas(Grouped(digits)) == digits
  {
    if |digits| <= 3 {
      DigitsHaveNoCommas(digits);
    } else {
      var front, last := digits[..|digits| - 3], digits[|digits| - 3..];
      GroupedReadsBack(front);
      CommaDropped(Grouped(front), last);
      assert digits == front + last;
    }
  }

  lemma {:induction false} SmallPad(n: nat)
    requires n < 100
    ensures |Pad(n, 2)| == 2
  {
    DecLength(n, 2);
    assert Power10(2) == 10 * Power10(1);
  }

  lemma PointSplits(whole: string, fraction: string)
    requires |fraction| == 2
    ensures var number := whole + ("." + fraction);
      && |number| >= 3
      && number[..|number| - 3] == whole && number[|number| - 3] == '.' && number[|number| - 3 + 1..] == fraction
  {
  }

  lemma NumberReads(whole: string, fraction: string)
    requires |fraction| == 2
    ensures ReadNumber(whole + ("." + fraction)) == FilsOf(WithoutCommas(whole), fraction)
  {
    PointSplits(whole, fraction);
  }

  lemma Unsigned(negative: bool, rest: string)
    requires rest != "" && rest[0] != '-'
    ensures var text := (if negative then "-" else "") + rest;
      && text != "" && (text[0] == '-' <==> negative)
      && (if negative then text[1..] else text) == rest
  {
  }

  lemma AfterFront(front: string, number: string)
    ensures front <= front + number && (front + number)[|front|..] == number
  {
  }

  lemma SignReads(currency: string, negative: bool, number: string, fils: nat)
    requires currency == "" || currency[0] != '-'
    requires ReadNumber(number) == Some(fils)
    ensures ReadAed((if negative then "-" else "") + (currency + " " + number), currency)
        == Some(Signed(negative, fils))
  {
    var front := currency + " ";
    assert front != "" && front[0] != '-' && (front + number)[0] == front[0];
    Unsigned(negative, front + number);
    AfterFront(front, number);
  }

  lemma DigitsOfFils(fils: nat)
    ensures FilsOf(Dec(fils / 100), Pad(fils % 100, 2)) == Some(fils)
  {
    ValueOfDec(fils / 100);
    ValueOfPad(fils % 100, 2);
  }

  lemma ShownReadsBack(negative: bool, currency: string, fils: nat)
    requires currency == "" || currency[0] != '-'
    ensures ReadAed(Shown(negative, currency, fils), currency) == Some(Signed(negative, fils))
  {
    var whole, fraction := Dec(fils / 100), Pad(fils % 100, 2);
    var number := Grouped(whole) + ("." + fraction);
    assert ReadNumber(number) == Some(fils) by {
      SmallPad(fils % 100);
      NumberReads(Grouped(whole), fraction);
      GroupedReadsBack(whole);
      DigitsOfFils(fils);
    }
    SignReads(currency, negative, number, fils);
  }

  /** The text shown for an amount reads back as the amount rounded to whole fils. */
  lemma FormattedReadsBack(amount: real, currency: string)
    requires currency == "" || currency[0] != '-'
    ensures ReadAed(Formatted(amount, currency), currency) == Some(Fils(amount))
  {
    ShownReadsBack(amount < 0.0, currency, Rounded(Abs(amount) * 100.0));
  }

  // ---------------------------------------------------------- group sizes

  /** The pieces between commas. */
  function Groups(s: string): (groups: seq<string>)
    ensures groups != []
  {
    if s == "" then [""]
    else
      var others := Groups(s[1..]);
      if s[0] == ',' then [""] + others else [[s[0]] + others[0]] + others[1..]
  }

  lemma {:induction false} GroupsOne(s: string)
    requires Digits(s)
    ensures Groups(s) == [s]
  {
    if s != "" {
      GroupsOne(s[1..]);
      assert IsDigit(s[0]);
      assert s == [s[0]] + s[1..];
    }
  }

  lemma {:induction false} GroupsAppend(a: string, b: string)
    requires Digits(b)
    ensures Groups(a + ("," + b)) == Groups(a) + [b]
  {
    if a == "" {
      assert ("," + b)[1..] == b;
      assert a + ("," + b) == "," + b;
      GroupsOne(b);
    } else {
      assert (a + ("," + b))[1..] == a[1..] + ("," + b);
      GroupsAppend(a[1..], b);
    }
  }

  /** The first group has one to three digits and every later one exactly three. */
  lemma {:induction false} GroupSizes(digits: string)
    requires Digits(digits) && digits != ""
    ensures var groups := Groups(Grouped(digits));
      && 1 <= |groups[0]| <= 3
      && (forall i :: 0 < i < |groups| ==> |groups[i]| == 3)
      && (forall i :: 0 <= i < |groups| ==> Digits(groups[i]))
  {
    if |digits| <= 3 {
      GroupsOne(digits);
    } else {
      GroupSizes(digits[..|digits| - 3]);
      GroupsAppend(Grouped(digits[..|digits| - 3]), digits[|digits| - 3..]);
    }
  }

  /** An amount is shown with a sign but as zero exactly when it is negative and less than half a fils. */
  lemma NegativeZeroIff(amount: real, currency: string)
    requires currency == "" || currency[0] != '-'
    ensures Formatted(amount, currency) != ""
    ensures Formatted(amount, currency)[0] == '-' && ReadAed(Formatted(amount, currency), currency) == Some(0)
       <==> -0.005 < amount < 0.0
  {
    FormattedReadsBack(amount, currency);
    ZeroFilsIff(amount);
    SignShown(amount, currency);
  }

  lemma ZeroFilsIff(amount: real)
    ensures Fils(amount) == 0 <==> -0.005 < amount < 0.005
  {
    RoundedNearest(Abs(amount) * 100.0);
  }

  lemma SignShown(amount: real, currency: string)
    requires currency == "" || currency[0] != '-'
    ensures Formatted(amount, currency) != "" && (Formatted(amount, currency)[0] == '-' <==> amount < 0.0)
  {
  }
}
