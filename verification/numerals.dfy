/** Printing numbers in base ten and sixteen, zero-padded, and reading them back. */
module Numerals {
  type Base = b: nat | b == 10 || b == 16 witness 10

  predicate IsDigit(c: char, base: Base) {
    '0' <= c <= '9' || (base == 16 && 'a' <= c <= 'f')
  }

  function DigitValue(c: char, base: Base): (d: nat)
    requires IsDigit(c, base)
    ensures d < base
  {
    if c <= '9' then c as int - '0' as int else c as int - 'a' as int + 10
  }

  function Digit(d: nat, base: Base): (c: char)
    requires d < base
    ensures IsDigit(c, base) && DigitValue(c, base) == d
  {
    if d < 10 then '0' + d as char else 'a' + (d - 10) as char
  }

  predicate IsNumeral(s: string, base: Base) {
    forall i :: 0 <= i < |s| ==> IsDigit(s[i], base)
  }

  /** Multiplication and division by the base, kept linear for the solver. */
  function Scaled(n: nat, base: Base): nat { if base == 10 then 10 * n else 16 * n }

  function Quotient(n: nat, base: Base): nat { if base == 10 then n / 10 else n / 16 }

  function Remainder(n: nat, base: Base): nat { if base == 10 then n % 10 else n % 16 }

  function Value(s: string, base: Base): nat
    requires IsNumeral(s, base)
  {
    if s == [] then 0
    else Scaled(Value(s[..|s| - 1], base), base) + DigitValue(s[|s| - 1], base)
  }

  /** The shortest numeral; zero is one digit. */
  function Print(n: nat, base: Base): (s: string)
    ensures |s| > 0 && IsNumeral(s, base)
  {
    if n < base then [Digit(n, base)] else Print(Quotient(n, base), base) + [Digit(Remainder(n, base), base)]
  }

  function Max(a: nat, b: nat): nat { if a < b then b else a }

  function Min(a: nat, b: nat): nat { if a < b then a else b }

  function Zeros(k: nat): string { seq(k, _ => '0') }

  function Padded(n: nat, base: Base, width: nat): (s: string)
    ensures |s| >= width && IsNumeral(s, base)
  {
    var s := Print(n, base);
    if |s| < width then Zeros(width - |s|) + s else s
  }

  function Power(base: Base, k: nat): nat {
    if k == 0 then 1 else Scaled(Power(base, k - 1), base)
  }

  function PowerOfTwo(k: nat): nat { if k == 0 then 1 else 2 * PowerOfTwo(k - 1) }

  lemma ValueOfOneMore(s: string, c: char, base: Base)
    requires IsNumeral(s, base) && IsDigit(c, base)
    ensures Value(s + [c], base) == Scaled(Value(s, base), base) + DigitValue(c, base)
  {
    assert (s + [c])[..|s|] == s;
  }

  lemma {:induction false} ValueOfPrint(n: nat, base: Base)
    ensures Value(Print(n, base), base) == n
  {
    if n >= base {
      ValueOfPrint(Quotient(n, base), base);
      ValueOfOneMore(Print(Quotient(n, base), base), Digit(Remainder(n, base), base), base);
    } else {
      ValueOfOneMore([], Digit(n, base), base);
    }
  }

  lemma {:induction false} ZerosAddNothing(k: nat, s: string, base: Base)
    requires IsNumeral(s, base)
    ensures IsNumeral(Zeros(k) + s, base) && Value(Zeros(k) + s, base) == Value(s, base)
    decreases k, |s|
  {
    var t := Zeros(k) + s;
    if s == [] {
      if k > 0 {
        assert t[..|t| - 1] == Zeros(k - 1) + s;
        ZerosAddNothing(k - 1, s, base);
      }
    } else {
      assert t[..|t| - 1] == Zeros(k) + s[..|s| - 1];
      ZerosAddNothing(k, s[..|s| - 1], base);
    }
  }

  /** Reading back what was printed gives the number, so no two numbers print alike. */
  lemma ValueOfPadded(n: nat, base: Base, width: nat)
    ensures Value(Padded(n, base, width), base) == n
  {
    ValueOfPrint(n, base);
    if |Print(n, base)| < width {
      ZerosAddNothing(width - |Print(n, base)|, Print(n, base), base);
    }
  }

  lemma {:induction false} PrintLength(n: nat, base: Base, width: nat)
    requires n < Power(base, width) && width > 0
    ensures |Print(n, base)| <= width
  {
    if n >= base {
      PrintLength(Quotient(n, base), base, width - 1);
    }
  }

  /** A number that fits the width is printed in exactly that many digits. */
  lemma PaddedLength(n: nat, base: Base, width: nat)
    requires n < Power(base, width) && width > 0
    ensures |Padded(n, base, width)| == width
  {
    PrintLength(n, base, width);
  }

  lemma {:induction false} ValueIsBounded(s: string, base: Base)
    requires IsNumeral(s, base)
    ensures Value(s, base) < Power(base, |s|)
  {
    if s != [] {
      ValueIsBounded(s[..|s| - 1], base);
    }
  }

  lemma DigitsAreApart(x: nat, c: char, y: nat, d: char, base: Base)
    requires IsDigit(c, base) && IsDigit(d, base)
    requires Scaled(x, base) + DigitValue(c, base) == Scaled(y, base) + DigitValue(d, base)
    ensures x == y && c == d
  {
  }

  lemma {:induction false} EqualValues(s: string, t: string, base: Base)
    requires IsNumeral(s, base) && IsNumeral(t, base) && |s| == |t| && Value(s, base) == Value(t, base)
    ensures s == t
  {
    if s != [] {
      var n := |s| - 1;
      DigitsAreApart(Value(s[..n], base), s[n], Value(t[..n], base), t[n], base);
      EqualValues(s[..n], t[..n], base);
      assert s == s[..n] + [s[n]] && t == t[..n] + [t[n]];
    }
  }

  /** Printing what was read gives the numeral back. */
  lemma {:induction false} PaddedOfValue(s: string, base: Base)
    requires IsNumeral(s, base) && s != []
    ensures Padded(Value(s, base), base, |s|) == s
  {
    ValueIsBounded(s, base);
    PaddedLength(Value(s, base), base, |s|);
    ValueOfPadded(Value(s, base), base, |s|);
    EqualValues(Padded(Value(s, base), base, |s|), s, base);
  }
}
