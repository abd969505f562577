/** Decimal text of numbers, of natural width and of fixed width, and its value. */
module Decimal {
  function Digit(d: nat): char
    requires d < 10
  {
    "0123456789"[d]
  }

  predicate IsDigit(c: char) {
    '0' <= c <= '9'
  }

  predicate AllDigits(s: string) {
    forall i :: 0 <= i < |s| ==> IsDigit(s[i])
  }

  function DigitValue(c: char): (d: nat)
    requires IsDigit(c)
    ensures d < 10
  {
    c as int - '0' as int
  }

  /** The value of a digit string. */
  function Value(s: string): nat
    requires AllDigits(s)
  {
    if s == "" then 0 else Value(s[..|s| - 1]) * 10 + DigitValue(s[|s| - 1])
  }

  function Text(n: nat): string {
    if n < 10 then [Digit(n)] else Text(n / 10) + [Digit(n % 10)]
  }

  function SignedText(n: int): string {
    if n < 0 then "-" + Text(-n) else Text(n)
  }

  /** A decimal text with an optional sign, and the number that it writes. */
  ghost predicate Writes(text: string, n: int) {
    if n < 0 then text != "" && text[0] == '-' && text[1..] != "" && AllDigits(text[1..]) && Value(text[1..]) == -n
    else text != "" && AllDigits(text) && Value(text) == n
  }

  lemma SignedTextWrites(n: int)
    ensures Writes(SignedText(n), n)
  {
    TextValue(if n < 0 then -n else n);
    if n < 0 {
      assert SignedText(n)[1..] == Text(-n);
    }
  }

  /** The last `width` digits of `n`, with leading zeros. */
  function Fixed(n: nat, width: nat): string {
    if width == 0 then "" else Fixed(n / 10, width - 1) + [Digit(n % 10)]
  }

  function Pow10(width: nat): nat {
    if width == 0 then 1 else 10 * Pow10(width - 1)
  }

  lemma ValueAppend(s: string, d: nat)
    requires AllDigits(s) && d < 10
    ensures AllDigits(s + [Digit(d)]) && Value(s + [Digit(d)]) == Value(s) * 10 + d
  {
    assert (s + [Digit(d)])[..|s|] == s;
  }

  lemma {:induction false} TextValue(n: nat)
    ensures Text(n) != "" && AllDigits(Text(n)) && Value(Text(n)) == n
  {
    if n < 10 {
      ValueAppend("", n);
      assert "" + [Digit(n)] == [Digit(n)];
    } else {
      TextValue(n / 10);
      ValueAppend(Text(n / 10), n % 10);
    }
  }

  lemma {:induction false} FixedValue(n: nat, width: nat)
    requires n < Pow10(width)
    ensures |Fixed(n, width)| == width && AllDigits(Fixed(n, width)) && Value(Fixed(n, width)) == n
  {
    if width > 0 {
      FixedValue(n / 10, width - 1);
      ValueAppend(Fixed(n / 10, width - 1), n % 10);
    }
  }

  lemma {:induction false} TextLength(n: nat, width: nat)
    requires 1 <= width && n < Pow10(width)
    ensures |Text(n)| <= width
  {
    if n >= 10 {
      assert Pow10(1) == 10;
      TextLength(n / 10, width - 1);
    }
  }

  lemma TextInjective(a: nat, b: nat)
    requires Text(a) == Text(b)
    ensures a == b
  {
    TextValue(a);
    TextValue(b);
  }
}
