/**
 * ASCII decimal digit strings: Python's `str.isdigit`, `int(s)`, `str(n)` and
 * `s.replace(".", "", 1)`, as the timestamp normaliser uses them.
 */
module Digits {

  predicate IsDigit(c: char)
  {
    '0' <= c <= '9'
  }

  function DigitValue(c: char): (d: nat)
    requires IsDigit(c)
    ensures d < 10
  {
    (c as int - '0' as int) as nat
  }

  function DigitChar(d: nat): (c: char)
    requires d < 10
    ensures IsDigit(c) && DigitValue(c) == d
  {
    ('0' as int + d) as char
  }

  /** Every character is a digit; the empty string qualifies. */
  predicate AllDigits(s: string)
  {
    forall i :: 0 <= i < |s| ==> IsDigit(s[i])
  }

  /** `s.isdigit()` for ASCII input: non-empty and all digits. */
  predicate IsDigitString(s: string)
  {
    |s| > 0 && AllDigits(s)
  }

  function Pow10(n: nat): (p: nat)
    ensures p >= 1
  {
    if n == 0 then 1 else 10 * Pow10(n - 1)
  }

  /** `int(s)` on a digit string, read most significant digit first. */
  function DigitsValue(s: string): (v: nat)
    requires AllDigits(s)
    ensures v < Pow10(|s|)
  {
    if s == [] then 0
    else 10 * DigitsValue(s[..|s| - 1]) + DigitValue(s[|s| - 1])
  }

  /** `str(n)` for a natural number: its decimal digits without leading zeros. */
  function NatToDigits(n: nat): (s: string)
    ensures IsDigitString(s)
    ensures '.' !in s
    ensures |s| > 1 ==> s[0] != '0'
  {
    if n < 10 then [DigitChar(n)]
    else NatToDigits(n / 10) + [DigitChar(n % 10)]
  }

  /** Reading back a rendered number gives the number. */
  lemma {:induction false} DigitsRoundTrip(n: nat)
    ensures DigitsValue(NatToDigits(n)) == n
  {
    var s := NatToDigits(n);
    if n >= 10 {
      DigitsRoundTrip(n / 10);
      assert s[..|s| - 1] == NatToDigits(n / 10);
    }
  }

  /** Appending digits shifts the value by a power of ten: value(a + b) == value(a) * 10^|b| + value(b). */
  lemma {:induction false} DigitsConcat(a: string, b: string)
    requires AllDigits(a) && AllDigits(b)
    ensures AllDigits(a + b)
    ensures DigitsValue(a + b) == DigitsValue(a) * Pow10(|b|) + DigitsValue(b)
  {
    var ab := a + b;
    if b == [] {
      assert ab == a;
    } else {
      var b' := b[..|b| - 1];
      var d := DigitValue(b[|b| - 1]);
      DigitsConcat(a, b');
      assert ab[..|ab| - 1] == a + b';
      assert ab[|ab| - 1] == b[|b| - 1];
      assert DigitsValue(ab) == 10 * DigitsValue(a + b') + d;
      assert DigitsValue(b) == 10 * DigitsValue(b') + d;
      ShiftByTen(DigitsValue(a), Pow10(|b'|), DigitsValue(b'), d);
    }
  }

  /** The arithmetic step of `DigitsConcat`. */
  lemma ShiftByTen(x: int, p: int, y: int, d: int)
    ensures 10 * (x * p + y) + d == x * (10 * p) + (10 * y + d)
  {
    assert 10 * (x * p) == x * (10 * p);
  }

  /** `s.replace(".", "", 1)`: the first dot, if any, is removed and nothing else changes. */
  function RemoveFirstDot(s: string): (r: string)
    ensures '.' !in s ==> r == s
    ensures '.' in s ==> |r| == |s| - 1
  {
    if s == [] then []
    else if s[0] == '.' then s[1..]
    else [s[0]] + RemoveFirstDot(s[1..])
  }

  /** `RemoveFirstDot` takes away exactly one dot, when there is one, and keeps every other character. */
  lemma {:induction false} RemoveFirstDotKeepsOthers(s: string)
    ensures multiset(RemoveFirstDot(s)) == multiset(s) - multiset{'.'}
  {
    if s != [] {
      assert s == [s[0]] + s[1..];
      if s[0] != '.' {
        RemoveFirstDotKeepsOthers(s[1..]);
      }
    }
  }

  /** Removing the first dot of `a + "." + b`, where `a` has no dot, leaves `a + b`. */
  lemma {:induction false} RemoveFirstDotSplit(a: string, b: string)
    requires '.' !in a
    ensures RemoveFirstDot(a + "." + b) == a + b
  {
    if a != [] {
      assert (a + "." + b)[1..] == a[1..] + "." + b;
      RemoveFirstDotSplit(a[1..], b);
      assert [a[0]] + (a[1..] + b) == a + b;
    }
  }

  /**
   * The numeric test of the timestamp normaliser:
   * `s.replace(".", "", 1).isdigit()`.
   */
  predicate IsNumericString(s: string)
  {
    IsDigitString(RemoveFirstDot(s))
  }

  /** The position of the first dot of a string that holds one. */
  function FirstDot(s: string): (k: nat)
    requires '.' in s
    ensures k < |s| && s[k] == '.'
    ensures forall i :: 0 <= i < k ==> s[i] != '.'
  {
    if s[0] == '.' then 0
    else
      1 + FirstDot(s[1..])
  }

  /** Dropping one dot between two dot-free parts leaves a digit string exactly when both parts are digits and not both empty. */
  lemma NumericSplit(a: string, b: string)
    requires '.' !in a
    ensures IsNumericString(a + "." + b) <==> |a| + |b| > 0 && AllDigits(a) && AllDigits(b)
  {
    RemoveFirstDotSplit(a, b);
    if AllDigits(a + b) {
      assert forall i :: 0 <= i < |a| ==> a[i] == (a + b)[i];
      assert forall i :: 0 <= i < |b| ==> b[i] == (a + b)[|a| + i];
    }
  }

  /** The condition on the characters of a numeric string. */
  predicate DigitsBesideDots(s: string)
  {
    forall i :: 0 <= i < |s| && s[i] != '.' ==> IsDigit(s[i])
  }

  lemma BesideDotsSplit(a: string, b: string)
    requires '.' !in a
    ensures DigitsBesideDots(a + "." + b) <==> AllDigits(a) && DigitsBesideDots(b)
  {
    var s := a + "." + b;
    assert forall i :: 0 <= i < |a| ==> a[i] == s[i];
    assert forall i :: 0 <= i < |b| ==> b[i] == s[|a| + 1 + i];
  }

  lemma DotCountSplit(a: string, b: string)
    requires '.' !in a
    ensures multiset(a + "." + b)['.'] == 1 + multiset(b)['.']
  {
    assert multiset(a + "." + b) == multiset(a) + multiset{'.'} + multiset(b);
    assert multiset(a)['.'] == 0;
  }

  /**
   * A string is numeric exactly when it holds at most one dot, at least one
   * digit, and nothing but digits besides the dot. So "12", "1.5", ".5" and
   * "5." are numeric; "", ".", "1.2.3" and "-1" are not.
   */
  lemma NumericStringShape(s: string)
    ensures IsNumericString(s) <==>
      multiset(s)['.'] <= 1 && |s| > multiset(s)['.'] && DigitsBesideDots(s)
  {
    if '.' in s {
      var k := FirstDot(s);
      var a, b := s[..k], s[k + 1..];
      assert s == a + "." + b;
      NumericSplit(a, b);
      DotCountSplit(a, b);
      BesideDotsSplit(a, b);
      assert '.' in b ==> multiset(b)['.'] > 0;
      assert '.' !in b ==> multiset(b)['.'] == 0;
    } else {
      assert multiset(s)['.'] == 0;
    }
  }
}
