/** Decimal digit strings: JavaScript's `String(n)` for a non-negative
    integer, `padStart`, and the inverse reading of a digit string. */
module Decimal {

  predicate IsDigit(c: char)
  {
    '0' <= c <= '9'
  }

  predicate AllDigits(s: string)
  {
    forall i :: 0 <= i < |s| ==> IsDigit(s[i])
  }

  function DigitValue(c: char): nat
    requires IsDigit(c)
  {
    c as int - '0' as int
  }

  function DigitChar(d: nat): (c: char)
    requires d < 10
    ensures IsDigit(c) && DigitValue(c) == d
  {
    ('0' as int + d) as char
  }

  function Pow10(k: nat): (p: nat)
    ensures p >= 1
  {
    if k == 0 then 1 else 10 * Pow10(k - 1)
  }

  /** `String(n)` for a non-negative integer: its decimal digits, with no
      leading zero except for the number zero itself. */
  function Show(n: nat): (s: string)
    ensures 1 <= |s| && AllDigits(s)
    ensures (s[0] == '0') <==> (n == 0)
    decreases n
  {
    if n < 10 then [DigitChar(n)] else Show(n / 10) + [DigitChar(n % 10)]
  }

  /** `String(i)` for any integer: a minus sign before the digits of a
      negative number. */
  function ShowInt(i: int): (s: string)
    ensures i >= 0 ==> s == Show(i)
    ensures i < 0 ==> |s| >= 2 && s[0] == '-' && s[1..] == Show(-i)
  {
    if i < 0 then "-" + Show(-i) else Show(i)
  }

  /** `k` copies of `c`. */
  function Repeat(c: char, k: nat): (r: string)
    ensures |r| == k && forall i :: 0 <= i < k ==> r[i] == c
  {
    if k == 0 then [] else [c] + Repeat(c, k - 1)
  }

  /** `s.padStart(width, fill)` for a one-character `fill`: `s` itself when
      it is already `width` long or longer, otherwise `s` preceded by as
      many `fill` characters as make it `width` long. */
  function PadStart(s: string, width: nat, fill: char): (r: string)
    ensures |r| == if |s| < width then width else |s|
    ensures r[|r| - |s|..] == s
    ensures forall i :: 0 <= i < |r| - |s| ==> r[i] == fill
  {
    if |s| >= width then s else Repeat(fill, width - |s|) + s
  }

  /** The number a string of decimal digits denotes (leading zeros allowed). */
  function Value(s: string): nat
    requires AllDigits(s)
  {
    if s == [] then 0 else 10 * Value(s[..|s| - 1]) + DigitValue(s[|s| - 1])
  }

  /** Drops every leading `'0'`. */
  function StripLeadingZeros(s: string): (r: string)
    ensures |r| <= |s| && r == s[|s| - |r|..]
    ensures r == [] || r[0] != '0'
    ensures forall i :: 0 <= i < |s| - |r| ==> s[i] == '0'
  {
    if s != [] && s[0] == '0' then StripLeadingZeros(s[1..]) else s
  }

  /** Reading back what `Show` writes gives the number. */
  lemma {:induction false} ValueOfShow(n: nat)
    ensures Value(Show(n)) == n
    decreases n
  {
    if n >= 10 {
      var s := Show(n);
      assert s[..|s| - 1] == Show(n / 10);
      ValueOfShow(n / 10);
    }
  }

  /** A digit string of length `k` denotes a number below 10^k. */
  lemma {:induction false} ValueBound(s: string)
    requires AllDigits(s)
    ensures Value(s) < Pow10(|s|)
    decreases |s|
  {
    if s != [] {
      ValueBound(s[..|s| - 1]);
    }
  }

  /** `Show(n)` has at most `w` digits exactly when `n < 10^w`. */
  lemma {:induction false} ShowLength(n: nat, w: nat)
    requires w >= 1
    ensures |Show(n)| <= w <==> n < Pow10(w)
    decreases n
  {
    if n >= 10 {
      if w == 1 {
        assert |Show(n)| >= 2;
        assert Pow10(1) == 10;
      } else {
        ShowLength(n / 10, w - 1);
        assert Pow10(w) == 10 * Pow10(w - 1);
      }
    }
  }

  /** The value of a concatenation: the left part shifted by the right
      part's length. */
  lemma {:induction false} ValueConcat(a: string, b: string)
    requires AllDigits(a) && AllDigits(b)
    ensures AllDigits(a + b)
    ensures Value(a + b) == Value(a) * Pow10(|b|) + Value(b)
    decreases |b|
  {
    DigitsConcat(a, b);
    if b == [] {
      assert a + b == a;
    } else {
      var n := |b| - 1;
      var b', ab := b[..n], a + b;
      assert ab[..|ab| - 1] == a + b';
      assert ab[|ab| - 1] == b[n];
      assert AllDigits(b');
      ValueConcat(a, b');
      var va, vb', p, d := Value(a), Value(b'), Pow10(n), DigitValue(b[n]);
      assert Value(ab) == 10 * Value(a + b') + d;
      assert Value(b) == 10 * vb' + d;
      assert Pow10(|b|) == 10 * p;
      ShiftStep(va, vb', p, d);
    }
  }

  lemma ShiftStep(va: int, vb: int, p: int, d: int)
    ensures 10 * (va * p + vb) + d == va * (10 * p) + (10 * vb + d)
  {
  }

  lemma DigitsConcat(a: string, b: string)
    requires AllDigits(a) && AllDigits(b)
    ensures AllDigits(a + b)
  {
    forall i | 0 <= i < |a + b| ensures IsDigit((a + b)[i]) {
      if i >= |a| {
        assert (a + b)[i] == b[i - |a|];
      }
    }
  }

  /** A run of zeros denotes zero. */
  lemma {:induction false} ValueOfZeros(k: nat)
    ensures AllDigits(Repeat('0', k)) && Value(Repeat('0', k)) == 0
    decreases k
  {
    if k > 0 {
      var z := Repeat('0', k);
      assert z[..k - 1] == Repeat('0', k - 1);
      ValueOfZeros(k - 1);
    }
  }

  /** Leading zeros do not change the value. */
  lemma LeadingZerosValue(k: nat, s: string)
    requires AllDigits(s)
    ensures AllDigits(Repeat('0', k) + s)
    ensures Value(Repeat('0', k) + s) == Value(s)
  {
    ValueOfZeros(k);
    ValueConcat(Repeat('0', k), s);
  }

  /** Two digit strings of the same length with the same value are equal. */
  lemma {:induction false} ValueInjective(a: string, b: string)
    requires AllDigits(a) && AllDigits(b) && |a| == |b|
    requires Value(a) == Value(b)
    ensures a == b
    decreases |a|
  {
    if a != [] {
      var a', b' := a[..|a| - 1], b[..|b| - 1];
      var da, db := DigitValue(a[|a| - 1]), DigitValue(b[|b| - 1]);
      assert Value(a) == 10 * Value(a') + da;
      assert Value(b) == 10 * Value(b') + db;
      assert da == Value(a) % 10 && db == Value(b) % 10;
      assert a[|a| - 1] == b[|b| - 1];
      ValueInjective(a', b');
      assert a == a' + [a[|a| - 1]];
      assert b == b' + [b[|b| - 1]];
    }
  }

  /** Zero-padding round trip: a number below 10^w padded to `w` digits is
      exactly `w` digits long and reads back as the number. */
  lemma PadRoundTrip(n: nat, w: nat)
    requires w >= 1 && n < Pow10(w)
    ensures |PadStart(Show(n), w, '0')| == w
    ensures AllDigits(PadStart(Show(n), w, '0'))
    ensures Value(PadStart(Show(n), w, '0')) == n
  {
    ShowLength(n, w);
    ValueOfShow(n);
    var s := Show(n);
    if |s| < w {
      assert PadStart(s, w, '0') == Repeat('0', w - |s|) + s;
      LeadingZerosValue(w - |s|, s);
    } else {
      assert PadStart(s, w, '0') == s;
    }
  }

  /** The converse round trip: any `w`-digit string is what padding its
      own value to `w` digits writes. */
  lemma PadOfValue(s: string)
    requires AllDigits(s) && |s| >= 1
    ensures PadStart(Show(Value(s)), |s|, '0') == s
  {
    ValueBound(s);
    PadRoundTrip(Value(s), |s|);
    ValueInjective(PadStart(Show(Value(s)), |s|, '0'), s);
  }

  /** An unpadded reading: a digit string without a leading zero is what
      `Show` writes for its value. */
  lemma ShowOfValue(s: string)
    requires AllDigits(s) && |s| >= 1 && s[0] != '0'
    ensures Show(Value(s)) == s
  {
    var v := Value(s);
    ValueBound(s);
    ShowLength(v, |s|);
    PadOfValue(s);
  }

  /** A digit string of length `k` without a leading zero denotes a number
      with exactly `k` digits. */
  lemma ValueRange(s: string)
    requires AllDigits(s) && |s| >= 1 && s[0] != '0'
    ensures Pow10(|s| - 1) <= Value(s) < Pow10(|s|)
  {
    ValueBound(s);
    ShowOfValue(s);
    if |s| >= 2 {
      ShowLength(Value(s), |s| - 1);
    }
  }

  /** Stripping the leading zeros of a padded positive number gives back
      its unpadded decimal form. */
  lemma StripPadded(n: nat, w: nat)
    requires n > 0
    ensures StripLeadingZeros(PadStart(Show(n), w, '0')) == Show(n)
  {
    var s := Show(n);
    var p := PadStart(s, w, '0');
    var k := |p| - |s|;
    assert p == p[..k] + s;
    StripZerosPrefix(p[..k], s);
  }

  lemma {:induction false} StripZerosPrefix(z: string, s: string)
    requires forall i :: 0 <= i < |z| ==> z[i] == '0'
    requires s != [] && s[0] != '0'
    ensures StripLeadingZeros(z + s) == s
    decreases |z|
  {
    if z == [] {
      assert z + s == s;
    } else {
      assert (z + s)[1..] == z[1..] + s;
      StripZerosPrefix(z[1..], s);
    }
  }
}
