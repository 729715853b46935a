/**
 * How the classifier turns numbers into text.
 *
 * The reason strings of the package sorter embed numbers in two ways: a
 * template literal renders a number as JavaScript's default number-to-string
 * conversion does (`${mass}`, `${maxDimension}`), and the volume is rendered
 * with the runtime's locale grouping (`volume.toLocaleString()`). Both depend
 * on the JavaScript runtime, so the classifier takes them as a parameter, a
 * NumberFormat. For whole numbers from 0 up to 2^53 in the en-US locale the
 * two renderings are known exactly; this module defines them (Digits and Grouped)
 * and proves them unambiguous, so that concrete scenarios can be stated with
 * their exact text.
 */
module NumberText {

  /** The two renderings the reason strings use. */
  datatype NumberFormat = NumberFormat(
    plain: real -> string,    // `${x}` in a template literal
    grouped: real -> string   // x.toLocaleString()
  )

  predicate IsWhole(x: real) {
    0.0 <= x && x.Floor as real == x
  }

  /** 2^53: from here on JavaScript no longer prints every digit of a whole number. */
  const ExactWholeLimit: real := 9007199254740992.0

  /**
   * The format agrees with en-US JavaScript on every whole number from 0 up
   * to, not including, 2^53. Above that JavaScript rounds to 17 significant
   * digits and, from 1e21, switches to exponent notation; Digits does not.
   */
  ghost predicate RendersWholeNumbersEnUs(fmt: NumberFormat) {
    && (forall x: real :: IsWhole(x) && x < ExactWholeLimit ==> fmt.plain(x) == Digits(x.Floor))
    && (forall x: real :: IsWhole(x) && x < ExactWholeLimit ==> fmt.grouped(x) == Grouped(x.Floor))
  }

  predicate IsDigit(c: char) {
    '0' <= c <= '9'
  }

  predicate AllDigits(s: string) {
    forall i :: 0 <= i < |s| ==> IsDigit(s[i])
  }

  function DigitChar(d: nat): (c: char)
    requires d < 10
    ensures IsDigit(c)
  {
    ('0' as int + d) as char
  }

  function DigitValue(c: char): (d: nat)
    requires IsDigit(c)
    ensures d < 10
  {
    c as int - '0' as int
  }

  /** Decimal notation of n, without sign, leading zeros or separators. */
  function Digits(n: nat): (s: string)
    ensures |s| >= 1 && AllDigits(s)
    ensures n >= 10 ==> s[0] != '0'
  {
    if n < 10 then [DigitChar(n)] else Digits(n / 10) + [DigitChar(n % 10)]
  }

  /** The value of a string of decimal digits (the inverse of Digits). */
  function Value(s: string): nat
    requires AllDigits(s)
  {
    if s == [] then 0 else Value(s[..|s| - 1]) * 10 + DigitValue(s[|s| - 1])
  }

  /** Three digits, with leading zeros: one group after a thousands separator. */
  function Group(r: nat): (s: string)
    requires r < 1000
    ensures |s| == 3 && AllDigits(s)
  {
    [DigitChar(r / 100), DigitChar(r / 10 % 10), DigitChar(r % 10)]
  }

  /** en-US grouping: a comma before every group of three digits from the right. */
  function Grouped(n: nat): (s: string)
    ensures |s| >= 1
    ensures n < 1000 ==> AllDigits(s)
    ensures n >= 1000 ==> |s| >= 5 && s[|s| - 4] == ','
  {
    if n < 1000 then Digits(n) else Grouped(n / 1000) + "," + Group(n % 1000)
  }

  /** The string with its thousands separators removed. */
  function Ungrouped(s: string): string {
    if s == [] then [] else (if s[0] == ',' then [] else [s[0]]) + Ungrouped(s[1..])
  }

  /** Reading back the digits of n gives n. */
  lemma {:induction false} ValueOfDigits(n: nat)
    ensures Value(Digits(n)) == n
  {
    if n >= 10 {
      var s := Digits(n);
      assert s[..|s| - 1] == Digits(n / 10);
      ValueOfDigits(n / 10);
    }
  }

  /** Distinct numbers render to distinct digit strings. */
  lemma DigitsInjective(a: nat, b: nat)
    ensures Digits(a) == Digits(b) ==> a == b
  {
    ValueOfDigits(a);
    ValueOfDigits(b);
  }

  lemma {:induction false} UngroupedAppend(a: string, b: string)
    ensures Ungrouped(a + b) == Ungrouped(a) + Ungrouped(b)
  {
    if a == [] {
      assert a + b == b;
    } else {
      assert (a + b)[0] == a[0] && (a + b)[1..] == a[1..] + b;
      UngroupedAppend(a[1..], b);
    }
  }

  lemma {:induction false} UngroupedDigits(s: string)
    requires AllDigits(s)
    ensures Ungrouped(s) == s
  {
    if s != [] {
      UngroupedDigits(s[1..]);
    }
  }

  /** The last three digits of n >= 1000 are its low group. */
  lemma DigitsSplit(n: nat)
    requires n >= 1000
    ensures Digits(n) == Digits(n / 1000) + Group(n % 1000)
  {
    var r := n % 1000;
    assert n / 10 / 10 == n / 100 && n / 100 / 10 == n / 1000;
    assert r / 100 == n / 100 % 10 && r / 10 % 10 == n / 10 % 10 && r % 10 == n % 10;
    calc {
      Digits(n);
      Digits(n / 10) + [DigitChar(n % 10)];
      Digits(n / 100) + [DigitChar(n / 10 % 10)] + [DigitChar(n % 10)];
      Digits(n / 1000) + [DigitChar(n / 100 % 10)] + [DigitChar(n / 10 % 10)] + [DigitChar(n % 10)];
      Digits(n / 1000) + Group(r);
    }
  }

  /** Removing the separators from the grouped form gives the plain digits. */
  lemma {:induction false} UngroupedGrouped(n: nat)
    ensures Ungrouped(Grouped(n)) == Digits(n)
  {
    if n < 1000 {
      UngroupedDigits(Digits(n));
    } else {
      UngroupedGrouped(n / 1000);
      UngroupedAppend(Grouped(n / 1000) + ",", Group(n % 1000));
      UngroupedAppend(Grouped(n / 1000), ",");
      UngroupedDigits(Group(n % 1000));
      DigitsSplit(n);
    }
  }

  /** Grouping loses nothing: distinct numbers have distinct grouped forms. */
  lemma GroupedInjective(a: nat, b: nat)
    ensures Grouped(a) == Grouped(b) ==> a == b
  {
    UngroupedGrouped(a);
    UngroupedGrouped(b);
    DigitsInjective(a, b);
  }
}
