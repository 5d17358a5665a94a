/** Decimal rendering of non-negative integers, as template literals print them
    (`${n}`), with its inverse, so the formatters built on it can be inverted. */
module Digits {

  predicate IsDigit(c: char)
  {
    '0' <= c <= '9'
  }

  predicate AllDigits(s: string)
  {
    forall i :: 0 <= i < |s| ==> IsDigit(s[i])
  }

  function DigitChar(d: nat): (c: char)
    requires d < 10
    ensures IsDigit(c)
  {
    ('0' as int + d) as char
  }

  function DigitValue(c: char): (d: nat)
    requires IsDigit(c)
    ensures d < 10 && DigitChar(d) == c
  {
    c as int - '0' as int
  }

  /** `${n}` for a non-negative integer: its digits, most significant first,
      without leading zeros. */
  function NatToString(n: nat): (s: string)
    ensures |s| >= 1 && AllDigits(s)
    ensures |s| > 1 ==> s[0] != '0'
    ensures n < 10 <==> |s| == 1
    decreases n
  {
    if n < 10 then [DigitChar(n)] else NatToString(n / 10) + [DigitChar(n % 10)]
  }

  /** The value of a string of decimal digits (leading zeros allowed). */
  function StringToNat(s: string): nat
    requires AllDigits(s)
    decreases |s|
  {
    if s == [] then 0 else 10 * StringToNat(s[..|s| - 1]) + DigitValue(s[|s| - 1])
  }

  /** Reading back what NatToString wrote gives the number. */
  lemma {:induction false} NatToStringRoundTrip(n: nat)
    ensures StringToNat(NatToString(n)) == n
  {
    if n >= 10 {
      NatToStringRoundTrip(n / 10);
      var s := NatToString(n / 10);
      assert (s + [DigitChar(n % 10)])[..|s|] == s;
    }
  }

  /** NatToString is injective: two numbers print the same only if equal. */
  lemma NatToStringInjective(m: nat, n: nat)
    requires NatToString(m) == NatToString(n)
    ensures m == n
  {
    NatToStringRoundTrip(m);
    NatToStringRoundTrip(n);
  }

  /** A numeral as `${n}` prints it: digits, and no leading zero unless the
      numeral is "0" itself. */
  predicate Canonical(s: string)
  {
    |s| >= 1 && AllDigits(s) && (|s| > 1 ==> s[0] != '0')
  }

  /** Every canonical numeral is printed by NatToString: writing back what
      was read gives the same text. */
  lemma {:induction false} CanonicalRoundTrip(s: string)
    requires Canonical(s)
    ensures NatToString(StringToNat(s)) == s
    decreases |s|
  {
    var d := DigitValue(s[|s| - 1]);
    var init := s[..|s| - 1];
    if |s| == 1 {
      assert init == [];
      assert s == [DigitChar(d)];
    } else {
      assert init[0] == s[0];
      CanonicalRoundTrip(init);
      var v := StringToNat(init);
      assert v != 0 by {
        assert init != NatToString(0);
      }
      var n := StringToNat(s);
      assert n == 10 * v + d;
      assert n / 10 == v && n % 10 == d;
      assert s == init + [DigitChar(d)];
    }
  }

  /** `n.toString().padStart(2, '0')` for 0 <= n < 100. */
  function Pad2(n: nat): (s: string)
    requires n < 100
    ensures |s| == 2 && AllDigits(s) && StringToNat(s) == n
  {
    NatToStringRoundTrip(n);
    if n < 10 then
      var t := "0" + NatToString(n);
      assert t[..1] == "0";
      t
    else
      NatToString(n)
  }

  /** Every two-digit text is what Pad2 writes for the number it reads as. */
  lemma Pad2Inverse(s: string)
    requires |s| == 2 && AllDigits(s)
    ensures StringToNat(s) < 100 && Pad2(StringToNat(s)) == s
  {
    var hi := DigitValue(s[0]);
    var lo := DigitValue(s[1]);
    assert s[..1][..0] == [];
    assert s[..1] == [s[0]];
    assert StringToNat(s[..1]) == hi;
    var n := StringToNat(s);
    assert n == 10 * hi + lo;
    assert n / 10 == hi && n % 10 == lo;
    if hi == 0 {
      assert Pad2(n) == "0" + [DigitChar(lo)];
    } else {
      assert NatToString(n) == [DigitChar(hi)] + [DigitChar(lo)];
    }
  }

  /** The first index of `c` in `s`, or |s| when `c` does not occur. */
  function IndexOf(s: string, c: char): (r: nat)
    ensures r <= |s|
    ensures r < |s| ==> s[r] == c
    ensures forall i :: 0 <= i < r ==> s[i] != c
  {
    if s == [] then 0 else if s[0] == c then 0 else 1 + IndexOf(s[1..], c)
  }

  /** A separator that the digits before it cannot contain is found right after them. */
  lemma IndexAfterDigits(a: string, c: char, b: string)
    requires AllDigits(a) && !IsDigit(c)
    ensures IndexOf(a + [c] + b, c) == |a|
  {
    var s := a + [c] + b;
    assert s[|a|] == c;
  }
}
