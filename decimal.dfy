/**
 * Decimal rendering of integers, as Go's `fmt` prints an `int` with the `%d`
 * verb: an optional minus sign followed by the digits of the magnitude, with no
 * leading zeros. `ParseInt` is its inverse and exists so that the rendering can
 * be shown to lose nothing.
 */
module Decimal {
  import opened Wrappers

  predicate IsDigit(c: char) {
    '0' <= c <= '9'
  }

  /** A character `FormatInt` can emit. */
  predicate IsNumeric(c: char) {
    IsDigit(c) || c == '-'
  }

  predicate AllDigits(s: string) {
    forall i | 0 <= i < |s| :: IsDigit(s[i])
  }

  function DigitChar(d: nat): (c: char)
    requires d < 10
    ensures IsDigit(c) && c as int - '0' as int == d
  {
    ('0' as int + d) as char
  }

  /** The decimal digits of `n`, most significant first. */
  function Digits(n: nat): (s: string)
    ensures |s| > 0 && AllDigits(s)
    ensures s[0] == '0' ==> n == 0
    decreases n
  {
    if n < 10 then [DigitChar(n)] else Digits(n / 10) + [DigitChar(n % 10)]
  }

  /** `fmt.Sprintf("%d", n)`. */
  function FormatInt(n: int): (s: string)
    ensures |s| > 0 && forall i | 0 <= i < |s| :: IsNumeric(s[i])
    ensures n < 0 <==> s[0] == '-'
    ensures n < 0 ==> |s| > 1 && s[1] != '0'
    ensures n >= 0 && s[0] == '0' ==> s == "0"
  {
    if n < 0 then "-" + Digits(-n) else Digits(n)
  }

  /** The value of a string of decimal digits (0 for the empty string). */
  function ValueOf(s: string): nat
    requires AllDigits(s)
  {
    if s == [] then 0 else 10 * ValueOf(s[..|s| - 1]) + (s[|s| - 1] as int - '0' as int)
  }

  /** Reads back what `FormatInt` writes; `None` for anything else that is not a decimal integer. */
  function ParseInt(s: string): Option<int> {
    if |s| > 1 && s[0] == '-' && AllDigits(s[1..]) then Some(-(ValueOf(s[1..]) as int))
    else if |s| > 0 && AllDigits(s) then Some(ValueOf(s))
    else None
  }

  /** The length of the longest suffix of `s` made only of characters `FormatInt` can emit. */
  function NumericSuffixLength(s: string): (k: nat)
    ensures k <= |s|
    ensures forall i | |s| - k <= i < |s| :: IsNumeric(s[i])
    ensures k < |s| ==> !IsNumeric(s[|s| - 1 - k])
  {
    if |s| == 0 || !IsNumeric(s[|s| - 1]) then 0 else 1 + NumericSuffixLength(s[..|s| - 1])
  }

  lemma {:induction false} ValueOfDigits(n: nat)
    ensures ValueOf(Digits(n)) == n
    decreases n
  {
    if n >= 10 {
      var s := Digits(n);
      assert s[..|s| - 1] == Digits(n / 10);
      ValueOfDigits(n / 10);
    }
  }

  /** Rendering an integer and reading it back gives the integer. */
  lemma ParseFormat(n: int)
    ensures ParseInt(FormatInt(n)) == Some(n)
  {
    if n < 0 {
      var s := FormatInt(n);
      assert s[1..] == Digits(-n);
      ValueOfDigits(-n);
    } else {
      ValueOfDigits(n);
    }
  }

  /**
   * Appending a rendered integer to a text whose last character is not numeric:
   * the numeric suffix of the whole is exactly the rendered integer.
   */
  lemma {:induction false} NumericSuffixOfFormat(a: string, n: int)
    requires |a| > 0 && !IsNumeric(a[|a| - 1])
    ensures NumericSuffixLength(a + FormatInt(n)) == |FormatInt(n)|
  {
    NumericSuffixOfNumeric(a, FormatInt(n));
  }

  lemma {:induction false} NumericSuffixOfNumeric(a: string, b: string)
    requires |a| > 0 && !IsNumeric(a[|a| - 1])
    requires forall i | 0 <= i < |b| :: IsNumeric(b[i])
    ensures NumericSuffixLength(a + b) == |b|
    decreases |b|
  {
    if b == [] {
      assert a + b == a;
    } else {
      var b' := b[..|b| - 1];
      assert (a + b)[..|a + b| - 1] == a + b';
      NumericSuffixOfNumeric(a, b');
    }
  }
}
