/** The parts of Ruby's String and Float behaviour the meter codec relies on:
    `String#to_i`, `String#[start, length]`, `Integer ** p` used as a divisor,
    and `Float#to_s` for values that are a whole number of hundredths.
    Numbers are kept exact (int and real); no floating point is modelled. */
module RubyText {
  import opened Wrappers

  /** One octet of a binary (ASCII-8BIT) Ruby string. */
  newtype byte = x: int | 0 <= x < 256

  predicate IsDigit(c: char) { '0' <= c <= '9' }

  predicate AllDigits(s: string) { forall i :: 0 <= i < |s| ==> IsDigit(s[i]) }

  function DigitOf(c: char): nat
    requires IsDigit(c)
  {
    (c as int) - ('0' as int)
  }

  function DigitChar(d: nat): (c: char)
    requires d < 10
    ensures IsDigit(c) && DigitOf(c) == d
  {
    (('0' as int) + d) as char
  }

  /** The characters Ruby's `String#to_i` skips before the number: space, \t, \n, \v, \f, \r. */
  predicate IsSpace(c: char) { c == ' ' || 9 <= c as int <= 13 }

  /** The text of a binary string, one character per octet. */
  function Chars(b: seq<byte>): (s: string)
    ensures |s| == |b|
    ensures forall i :: 0 <= i < |b| ==> s[i] as int == b[i] as int
  {
    seq(|b|, i requires 0 <= i < |b| => (b[i] as int) as char)
  }

  function Pow10Nat(k: nat): (r: nat)
    ensures r >= 1
  {
    if k == 0 then 1 else 10 * Pow10Nat(k - 1)
  }

  /** `10 ** p` as a divisor: an Integer for p >= 0, the Rational 1/10^-p otherwise. */
  function Pow10(p: int): (r: real)
    ensures r > 0.0
  {
    if p >= 0 then Pow10Nat(p) as real else 1.0 / (Pow10Nat(-p) as real)
  }

  function SkipSpace(s: string): (r: string)
    ensures |r| <= |s|
    ensures r == [] || !IsSpace(r[0])
  {
    if |s| > 0 && IsSpace(s[0]) then SkipSpace(s[1..]) else s
  }

  /** Continues reading decimal digits after at least one digit has been read
      (acc is the value so far); a single '_' between two digits is skipped, as
      Ruby does. Reading stops at the first character that does not fit. */
  function Run(s: string, acc: nat): nat
  {
    if |s| > 0 && IsDigit(s[0]) then Run(s[1..], 10 * acc + DigitOf(s[0]))
    else if |s| > 1 && s[0] == '_' && IsDigit(s[1]) then Run(s[2..], 10 * acc + DigitOf(s[1]))
    else acc
  }

  /** A digit followed by whatever Run reads after it; 0 when there is no digit. */
  function Numeral(s: string): nat
  {
    if |s| > 0 && IsDigit(s[0]) then Run(s[1..], DigitOf(s[0])) else 0
  }

  /** The number after the sign. In base 10 Ruby also accepts the radix
      prefix "0d" or "0D"; it is skipped when a digit follows it (without
      one, the text reads as 0 either way). */
  function Unsigned(s: string): nat
  {
    if |s| > 2 && s[0] == '0' && (s[1] == 'd' || s[1] == 'D') && IsDigit(s[2]) then Numeral(s[2..])
    else Numeral(s)
  }

  /** Ruby's `String#to_i`: leading white space, an optional sign, an
      optional "0d" prefix, then digits in which a single '_' may separate
      two digits; reading stops at the first character that does not fit,
      and the result is 0 when there is no digit. It never fails. */
  function ToI(s: string): int
  {
    var t := SkipSpace(s);
    if |t| > 0 && t[0] == '-' then -(Unsigned(t[1..]) as int)
    else if |t| > 0 && t[0] == '+' then Unsigned(t[1..])
    else Unsigned(t)
  }

  /** The whole-number part of Ruby's `String#to_f`: leading white space, an
      optional sign, then digits in which a single '_' may stand between two
      digits; 0 when there is no digit. Unlike `to_i` it takes no "0d"
      prefix: `"0d12".to_f` is 0.0. A decimal point or an exponent ends the
      reading here (see ToFDigits for the text the meter sends). */
  function ToF(s: string): int
  {
    var t := SkipSpace(s);
    if |t| > 0 && t[0] == '-' then -(Numeral(t[1..]) as int)
    else if |t| > 0 && t[0] == '+' then Numeral(t[1..])
    else Numeral(t)
  }

  /** Ruby's `str[start, length]` for non-negative arguments: nil when start
      lies beyond the end, otherwise the (possibly shorter) substring. */
  function Sub(s: string, start: nat, length: nat): (r: Option<string>)
    ensures r.None? <==> start > |s|
    ensures r.Some? ==> |r.value| <= length
    ensures r.Some? && start + length <= |s| ==> r.value == s[start..start + length]
  {
    if start > |s| then None
    else if start + length <= |s| then Some(s[start..start + length])
    else Some(s[start..])
  }

  /** `str[start, length]` where the result is interpolated or sent `to_i`:
      `"#{nil}"` is empty and `nil.to_i` is 0, so nil reads as "". */
  function SubText(s: string, start: nat, length: nat): string
  {
    Sub(s, start, length).GetOr("")
  }

  // ---------------------------------------------------------------------
  // Reference reading of digit strings, and what ToI computes on them

  /** Positional value of a digit string, read from its last digit. */
  function DigitsValue(s: string): nat
    requires AllDigits(s)
  {
    if s == [] then 0 else 10 * DigitsValue(s[..|s| - 1]) + DigitOf(s[|s| - 1])
  }

  lemma AllDigitsSlice(s: string, i: nat, j: nat)
    requires AllDigits(s) && i <= j <= |s|
    ensures AllDigits(s[i..j])
  {
    forall k | 0 <= k < j - i ensures IsDigit(s[i..j][k]) { assert s[i..j][k] == s[i + k]; }
  }

  /** One more digit on the right: the value so far times ten plus the digit. */
  lemma DigitsValuePrefix(s: string, k: nat)
    requires AllDigits(s) && 0 < k <= |s|
    ensures AllDigits(s[..k]) && AllDigits(s[..k - 1])
    ensures DigitsValue(s[..k]) == 10 * DigitsValue(s[..k - 1]) + DigitOf(s[k - 1])
  {
    AllDigitsSlice(s, 0, k);
    AllDigitsSlice(s, 0, k - 1);
    assert s[..k][..k - 1] == s[..k - 1];
  }

  lemma DigitsValueTwo(s: string)
    requires |s| == 2 && AllDigits(s)
    ensures DigitsValue(s) == 10 * DigitOf(s[0]) + DigitOf(s[1])
  {
    DigitsValuePrefix(s, 2);
    DigitsValuePrefix(s, 1);
    assert s[..2] == s;
    assert s[..0] == [];
  }

  lemma {:induction false} DigitsValueCons(c: char, s: string)
    requires IsDigit(c) && AllDigits(s)
    ensures AllDigits([c] + s)
    ensures DigitsValue([c] + s) == DigitOf(c) * Pow10Nat(|s|) + DigitsValue(s)
  {
    var t := [c] + s;
    assert AllDigits(t) by { forall i | 0 <= i < |t| ensures IsDigit(t[i]) { if i > 0 { assert t[i] == s[i - 1]; } } }
    if s != [] {
      var init := s[..|s| - 1];
      assert t[..|t| - 1] == [c] + init;
      assert t[|t| - 1] == s[|s| - 1];
      DigitsValueCons(c, init);
      ConsArith(DigitOf(c), Pow10Nat(|init|), DigitsValue(init), DigitOf(s[|s| - 1]));
      assert Pow10Nat(|s|) == 10 * Pow10Nat(|init|);
      assert DigitsValue(s) == 10 * DigitsValue(init) + DigitOf(s[|s| - 1]);
    } else {
      assert t[..|t| - 1] == [];
    }
  }

  lemma ConsArith(d: int, p: int, v: int, x: int)
    ensures 10 * (d * p + v) + x == d * (10 * p) + (10 * v + x)
  {
  }

  lemma Regroup(acc: nat, d: nat, p: nat)
    ensures (10 * acc + d) * p == acc * (10 * p) + d * p
  {
  }

  lemma AllDigitsTail(s: string)
    requires AllDigits(s) && s != []
    ensures AllDigits(s[1..]) && s == [s[0]] + s[1..]
  {
    forall i | 0 <= i < |s| - 1 ensures IsDigit(s[1..][i]) { assert s[1..][i] == s[i + 1]; }
  }

  lemma {:induction false} RunDigits(s: string, acc: nat)
    requires AllDigits(s)
    ensures Run(s, acc) == acc * Pow10Nat(|s|) + DigitsValue(s)
  {
    if s != [] {
      var d := DigitOf(s[0]);
      AllDigitsTail(s);
      assert Run(s, acc) == Run(s[1..], 10 * acc + d);
      RunDigits(s[1..], 10 * acc + d);
      DigitsValueCons(s[0], s[1..]);
      Regroup(acc, d, Pow10Nat(|s| - 1));
    }
  }

  /** On a plain digit string (leading zeros allowed) `to_i` is the positional value. */
  lemma ToIDigits(s: string)
    requires AllDigits(s)
    ensures ToI(s) == DigitsValue(s)
  {
    assert SkipSpace(s) == s by { if s != [] { assert !IsSpace(s[0]); } }
    if s != [] {
      assert s[0] != '-' && s[0] != '+';
      assert Unsigned(s) == Numeral(s) by { if |s| > 2 { assert IsDigit(s[1]); } }
      AllDigitsTail(s);
      RunDigits(s[1..], DigitOf(s[0]));
      DigitsValueCons(s[0], s[1..]);
      assert Numeral(s) == Run(s[1..], DigitOf(s[0]));
    }
  }
  /** The radix prefix: "0d" or "0D" before digits is skipped, so
      `"0d12".to_i` is 12, and a sign may stand before it. */
  lemma ToIRadixPrefix(s: string)
    requires s != [] && AllDigits(s)
    ensures ToI("0d" + s) == DigitsValue(s) && ToI("0D" + s) == DigitsValue(s)
    ensures ToI("-0d" + s) == -(DigitsValue(s) as int)
  {
    ToIDigits(s);
    assert SkipSpace(s) == s by { assert !IsSpace(s[0]); }
    assert Unsigned(s) == DigitsValue(s) by { assert s[0] != '-' && s[0] != '+'; }
    assert Numeral(s) == DigitsValue(s) by { if |s| > 2 { assert IsDigit(s[1]); } }
    var d, e, m := "0d" + s, "0D" + s, "-0d" + s;
    assert SkipSpace(d) == d && SkipSpace(e) == e && SkipSpace(m) == m;
    assert d[2..] == s && e[2..] == s && m[1..] == d;
  }

  /** On a plain digit string `to_f` reads the positional value, as `to_i` does. */
  lemma ToFDigits(s: string)
    requires AllDigits(s)
    ensures ToF(s) == DigitsValue(s) == ToI(s)
  {
    ToIDigits(s);
    assert SkipSpace(s) == s by { if s != [] { assert !IsSpace(s[0]); } }
    if s != [] {
      assert s[0] != '-' && s[0] != '+';
      assert Unsigned(s) == Numeral(s) by { if |s| > 2 { assert IsDigit(s[1]); } }
    }
  }

  /** Where `to_f` and `to_i` part: `to_f` has no radix prefix, so text
      starting "0d" reads as 0 however many digits follow. */
  lemma ToFNoRadixPrefix(s: string)
    requires s != [] && AllDigits(s)
    ensures ToF("0d" + s) == 0 && ToF("0D" + s) == 0
    ensures ToI("0d" + s) == DigitsValue(s)
  {
    ToIRadixPrefix(s);
    var d, e := "0d" + s, "0D" + s;
    assert SkipSpace(d) == d && SkipSpace(e) == e;
    assert d[1..] == "d" + s && e[1..] == "D" + s;
  }

  /** ToIDigits for any text, as an implication. */
  lemma ToIText(s: string)
    ensures AllDigits(s) ==> ToI(s) == DigitsValue(s)
  {
    if AllDigits(s) {
      ToIDigits(s);
    }
  }


  /** A digit string of at most n digits is worth less than 10^n. */
  lemma {:induction false} DigitsValueBound(s: string)
    requires AllDigits(s)
    ensures DigitsValue(s) < Pow10Nat(|s|)
  {
    if s != [] {
      DigitsValueBound(s[..|s| - 1]);
    }
  }

  /** The digits of the energy-register sample "00012345" are worth 12345. */
  lemma SampleDigitsValue(s: string)
    requires s == "00012345"
    ensures AllDigits(s) && DigitsValue(s) == 12345
  {
    assert AllDigits(s);
    assert DigitsValue(s[..3]) == 0 by {
      assert s[..3] == Zeros(3) + [];
      DigitsValueZeros(3, []);
    }
    assert DigitsValue(s[..4]) == 1 by { DigitsValuePrefix(s, 4); }
    assert DigitsValue(s[..5]) == 12 by { DigitsValuePrefix(s, 5); }
    assert DigitsValue(s[..6]) == 123 by { DigitsValuePrefix(s, 6); }
    assert DigitsValue(s[..7]) == 1234 by { DigitsValuePrefix(s, 7); }
    assert DigitsValue(s[..8]) == 12345 by { DigitsValuePrefix(s, 8); }
    assert s[..8] == s;
  }

  function Zeros(k: nat): (z: string)
    ensures |z| == k && AllDigits(z)
    ensures forall i :: 0 <= i < k ==> z[i] == '0'
  {
    seq(k, i => '0')
  }

  /** Leading zeros do not change the value of a digit string. */
  lemma {:induction false} DigitsValueZeros(k: nat, s: string)
    requires AllDigits(s)
    ensures AllDigits(Zeros(k) + s)
    ensures DigitsValue(Zeros(k) + s) == DigitsValue(s)
  {
    var t := Zeros(k) + s;
    assert AllDigits(t) by { forall i | 0 <= i < |t| ensures IsDigit(t[i]) { if i >= k { assert t[i] == s[i - k]; } } }
    if k > 0 {
      assert Zeros(k) == ['0'] + Zeros(k - 1);
      assert t == ['0'] + (Zeros(k - 1) + s);
      DigitsValueZeros(k - 1, s);
      var rest := Zeros(k - 1) + s;
      DigitsValueCons('0', rest);
      assert DigitOf('0') == 0;
      assert DigitsValue(['0'] + rest) == DigitsValue(rest);
      assert DigitsValue(t) == DigitsValue(rest);
    } else {
      assert t == s;
    }
  }

  // ---------------------------------------------------------------------
  // Decimal text of numbers

  /** Decimal digits of a natural number, without leading zeros. */
  function NatText(n: nat): (t: string)
    ensures |t| > 0 && AllDigits(t)
  {
    if n < 10 then [DigitChar(n)] else NatText(n / 10) + [DigitChar(n % 10)]
  }

  lemma {:induction false} NatTextValue(n: nat)
    ensures DigitsValue(NatText(n)) == n
  {
    var t := NatText(n);
    if n < 10 {
      assert t[..0] == [];
    } else {
      NatTextValue(n / 10);
      assert t[..|t| - 1] == NatText(n / 10);
    }
  }

  /** `to_i` reads back what NatText writes. */
  lemma ToINatText(n: nat)
    ensures ToI(NatText(n)) == n
  {
    ToIDigits(NatText(n));
    NatTextValue(n);
  }

  /** The digits after the point of `x.to_s` for a Float x whose fractional
      part is f hundredths: one digit when the second one would be 0. */
  function FractionText(f: nat): (t: string)
    requires f < 100
    ensures 1 <= |t| <= 2 && AllDigits(t)
  {
    if f % 10 == 0 then [DigitChar(f / 10)] else [DigitChar(f / 10), DigitChar(f % 10)]
  }

  /** Ruby's `Float#to_s` of (n / 100.0): the shortest decimal that reads
      back as that Float, which for a whole number of hundredths is the
      integer part, a point and one or two digits ("0.99", "1.0", "0.05"). */
  function HundredthsText(n: int): string
  {
    if n < 0 then "-" + UnsignedHundredthsText(-n) else UnsignedHundredthsText(n)
  }

  /** The text of m / 100.0 for m >= 0: integer part, point, fraction. */
  function UnsignedHundredthsText(m: nat): (t: string)
    ensures |t| > 0 && IsDigit(t[0])
  {
    assert (NatText(m / 100) + "." + FractionText(m % 100))[0] == NatText(m / 100)[0];
    NatText(m / 100) + "." + FractionText(m % 100)
  }

  /** Index of the first '.', or |t| when there is none. */
  function DotIndex(t: string): (k: nat)
    ensures k <= |t|
    ensures k < |t| ==> t[k] == '.'
    ensures forall i :: 0 <= i < k ==> t[i] != '.'
  {
    if t == [] then 0 else if t[0] == '.' then 0 else 1 + DotIndex(t[1..])
  }

  /** Exact value of decimal text "[-]digits.digits"; a reference reading
      independent of how the text was produced. */
  function DecimalValue(t: string): real
  {
    if |t| > 0 && t[0] == '-' then -UnsignedDecimal(t[1..]) else UnsignedDecimal(t)
  }

  function UnsignedDecimal(t: string): real
  {
    var k := DotIndex(t);
    if k < |t| && AllDigits(t[..k]) && AllDigits(t[k + 1..])
    then DigitsValue(t[..k]) as real + DigitsValue(t[k + 1..]) as real / Pow10(|t| - k - 1)
    else 0.0
  }

  lemma FractionValue(f: nat)
    requires f < 100
    ensures DigitsValue(FractionText(f)) as real / Pow10(|FractionText(f)|) == f as real / 100.0
  {
    var t := FractionText(f);
    if f % 10 == 0 {
      assert t[..0] == [];
      assert DigitsValue(t) == f / 10;
    } else {
      var h := t[..1];
      assert h == [DigitChar(f / 10)];
      assert h[..0] == [];
      assert DigitsValue(h) == f / 10;
      assert DigitsValue(t) == 10 * DigitsValue(h) + DigitOf(t[1]);
      assert DigitsValue(t) == 10 * (f / 10) + f % 10;
    }
  }

  /** The first '.' after a run of digits is the one right after it. */
  lemma DotAfterDigits(a: string, b: string)
    requires AllDigits(a)
    ensures DotIndex(a + "." + b) == |a|
  {
    var u := a + "." + b;
    assert u[|a|] == '.';
    forall i | 0 <= i < |a| ensures u[i] != '.' {
      assert u[i] == a[i];
    }
  }

  lemma HundredthsParts(m: nat)
    ensures (m / 100) as real + (m % 100) as real / 100.0 == m as real / 100.0
  {
    assert m == 100 * (m / 100) + m % 100;
  }

  /** The unsigned text of m / 100.0 reads back as m/100. */
  lemma UnsignedHundredths(m: nat)
    ensures UnsignedDecimal(UnsignedHundredthsText(m)) == m as real / 100.0
  {
    var q, f := m / 100, m % 100;
    var u := UnsignedHundredthsText(m);
    assert u == NatText(q) + "." + FractionText(f);
    DotAfterDigits(NatText(q), FractionText(f));
    var k := |NatText(q)|;
    assert u[..k] == NatText(q);
    assert u[k + 1..] == FractionText(f);
    NatTextValue(q);
    FractionValue(f);
    HundredthsParts(m);
  }

  /** HundredthsText writes n/100 exactly: reading its text back gives n/100. */
  lemma HundredthsTextValue(n: int)
    ensures DecimalValue(HundredthsText(n)) == n as real / 100.0
  {
    var m := if n < 0 then -n else n;
    UnsignedHundredths(m);
    SignedDecimal(UnsignedHundredthsText(m));
  }

  /** A leading minus sign negates the value of an unsigned number. */
  lemma SignedDecimal(u: string)
    requires |u| > 0 && IsDigit(u[0])
    ensures DecimalValue(u) == UnsignedDecimal(u)
    ensures DecimalValue("-" + u) == -UnsignedDecimal(u)
  {
    assert ("-" + u)[1..] == u;
  }

}
