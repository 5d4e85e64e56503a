/** The type caster: how the raw slices of a response become typed values
    (lib/ekm-omnimeter/meter.rb, `cast_response_to_correct_types`,
    `to_f_with_decimal_places`, `cast_power_factor`, `as_datetime` and the
    `unpack('H*')` of the identity bytes). */
module Caster {
  import opened Wrappers
  import opened RubyText
  import opened Telemetry

  // ---------------------------------------------------------------------
  // Numbers

  /** `v.to_i` on the values a cast key holds: text is read by String#to_i,
      so plain digits (leading zeros allowed) give their positional value; an
      Integer stays itself. No other kind of value is ever cast; those are
      left as they are. */
  function AsInteger(v: Value): (r: Value)
    ensures v.BytesV? || v.StrV? || v.IntV? ==> r.IntV?
    ensures v.BytesV? && AllDigits(Chars(v.bytes)) ==> r == IntV(DigitsValue(Chars(v.bytes)))
    ensures v.StrV? && AllDigits(v.text) ==> r == IntV(DigitsValue(v.text))
    ensures !v.BytesV? && !v.StrV? ==> r == v
  {
    match v
    case BytesV(b) => ToIText(Chars(b)); IntV(ToI(Chars(b)))
    case StrV(s) => ToIText(s); IntV(ToI(s))
    case _ => v
  }

  /** n / 10^p kept exact: p places for p >= 0; for p < 0 (`10**p` is then a
      Rational) the quotient is the whole number n * 10^-p. */
  function ScaleInt(n: int, p: int): (r: Value)
    ensures r.DecV? && AsReal(r) == n as real / Pow10(p)
    ensures p >= 0 ==> r.mantissa == n && r.places == p
  {
    if p >= 0 then DecV(n, p)
    else
      assert Pow10Nat(0) == 1;
      TimesTenPower(n as real, Pow10Nat(-p) as real);
      DecV(n * Pow10Nat(-p), 0)
  }

  lemma TimesTenPower(x: real, t: real)
    requires t > 0.0
    ensures x * t == x / (1.0 / t)
  {
  }

  lemma DivideTwice(x: real, a: real, b: real)
    requires a > 0.0 && b > 0.0
    ensures x / (a * b) == (x / a) / b
  {
  }

  /** A decimal of q places divided by 10^p, p >= 0: p more places. */
  lemma ScaleDecimalUp(m: int, q: nat, p: nat)
    ensures AsReal(DecV(m, q + p)) == AsReal(DecV(m, q)) / Pow10(p)
  {
    var a, b, c := Pow10Nat(q), Pow10Nat(p), Pow10Nat(q + p);
    Pow10NatAdd(q, p);
    ProductAsReal(a, b, c);
    assert AsReal(DecV(m, q + p)) == m as real / (c as real);
    assert AsReal(DecV(m, q)) == m as real / (a as real);
    assert Pow10(p) == b as real;
    QuotientChain(m as real, a as real, b as real, c as real);
  }

  lemma QuotientChain(x: real, a: real, b: real, c: real)
    requires a > 0.0 && b > 0.0 && c == a * b
    ensures x / c == (x / a) / b
  {
    DivideTwice(x, a, b);
  }

  lemma ProductAsReal(a: nat, b: nat, c: nat)
    requires c == a * b
    ensures c as real == a as real * b as real
  {
  }

  /** A decimal of q places divided by 10^p, p < 0: the mantissa times 10^-p. */
  lemma ScaleDecimalDown(m: int, q: nat, p: int)
    requires p < 0
    ensures AsReal(DecV(m * Pow10Nat(-p), q)) == AsReal(DecV(m, q)) / Pow10(p)
  {
    var a, t := Pow10Nat(q) as real, Pow10Nat(-p) as real;
    assert (m * Pow10Nat(-p)) as real == m as real * t;
    MoveFactor(m as real, t, a);
    TimesTenPower(m as real / a, t);
    assert Pow10(p) == 1.0 / t;
  }

  lemma MoveFactor(x: real, t: real, a: real)
    requires a > 0.0
    ensures (x * t) / a == (x / a) * t
  {
  }

  /** `to_f_with_decimal_places(s, p)`: `s.to_f / 10**p`. Text is read by
      ToF and a number keeps its own value; either is divided by 10^p
      exactly. No other kind of value is ever cast. */
  function Scaled(v: Value, p: int): (r: Value)
    ensures v.BytesV? ==> r.DecV? && AsReal(r) == ToF(Chars(v.bytes)) as real / Pow10(p)
    ensures v.StrV? ==> r.DecV? && AsReal(r) == ToF(v.text) as real / Pow10(p)
    ensures IsNumber(v) ==> r.DecV? && AsReal(r) == AsReal(v) / Pow10(p)
    ensures v.DecV? && p >= 0 ==> r.mantissa == v.mantissa && r.places == v.places + p
    ensures !v.BytesV? && !v.StrV? && !IsNumber(v) ==> r == v
  {
    match v
    case BytesV(b) => ScaleInt(ToF(Chars(b)), p)
    case StrV(s) => ScaleInt(ToF(s), p)
    case IntV(i) => ScaleInt(i, p)
    case DecV(m, q) =>
      if p >= 0 then ScaleDecimalUp(m, q, p); DecV(m, q + p)
      else ScaleDecimalDown(m, q, p); DecV(m * Pow10Nat(-p), q)
    case _ => v
  }

  /** For a slice of plain digits and p >= 0 places, the cast value times
      10^p is exactly the positional value of the digits. */
  lemma ScaledDigits(b: seq<byte>, p: nat)
    requires AllDigits(Chars(b))
    ensures Scaled(BytesV(b), p) == DecV(DigitsValue(Chars(b)), p)
  {
    ToFDigits(Chars(b));
  }

  /** The worked sample of the energy registers: "00012345" with two decimal
      places is 123.45. */
  lemma ScaledSample(s: string)
    requires s == "00012345"
    ensures AsReal(Scaled(StrV(s), 2)) == 123.45
  {
    SampleDigitsValue(s);
    ToFDigits(s);
    var v := Scaled(StrV(s), 2);
    assert v == DecV(12345, 2);
    assert Pow10Nat(2) == 100;
  }

  // ---------------------------------------------------------------------
  // Identity bytes: `unpack('H*')`

  /** The lower-case hex digit of a nibble. */
  function HexChar(n: nat): (c: char)
    requires n < 16
    ensures n < 10 ==> IsDigit(c) && DigitOf(c) == n
    ensures n >= 10 ==> 'a' <= c <= 'f'
  {
    if n < 10 then (('0' as int) + n) as char else (('a' as int) + n - 10) as char
  }

  /** `str.unpack('H*')[0]`: two lower-case hex digits per octet, high nibble first. */
  function Hex(b: seq<byte>): (s: string)
    ensures |s| == 2 * |b|
  {
    if b == [] then "" else [HexChar(b[0] as int / 16), HexChar(b[0] as int % 16)] + Hex(b[1..])
  }

  function HexValue(c: char): Option<nat>
  {
    if '0' <= c <= '9' then Some(c as int - '0' as int)
    else if 'a' <= c <= 'f' then Some(c as int - 'a' as int + 10)
    else None
  }

  /** Reading hex text back into octets; a reference for Hex. */
  function Unhex(s: string): Option<seq<byte>>
  {
    if |s| < 2 then (if s == [] then Some([]) else None)
    else match (HexValue(s[0]), HexValue(s[1]), Unhex(s[2..]))
      case (Some(h), Some(l), Some(rest)) =>
        if h < 16 && l < 16 then Some([(16 * h + l) as byte] + rest) else None
      case _ => None
  }

  lemma HexCharValue(n: nat)
    requires n < 16
    ensures HexValue(HexChar(n)) == Some(n)
  {
  }

  /** Hex loses nothing: its text reads back as the octets it came from. */
  lemma {:induction false} UnhexHex(b: seq<byte>)
    ensures Unhex(Hex(b)) == Some(b)
  {
    if b != [] {
      var x := b[0] as int;
      HexCharValue(x / 16);
      HexCharValue(x % 16);
      var s := Hex(b);
      assert s[2..] == Hex(b[1..]);
      UnhexHex(b[1..]);
      assert (16 * (x / 16) + x % 16) as byte == b[0];
      assert [b[0]] + b[1..] == b;
    }
  }

  /** The firmware octet is unpacked to hex and then sent `to_i`, so it is read
      as a decimal number: 0x15 gives 15, 0x1a gives 1 and 0xa1 gives 0. */
  lemma FirmwareNumber(x: byte)
    ensures ToI(Hex([x])) ==
      var h, l := x as int / 16, x as int % 16;
      if h >= 10 then 0 else if l >= 10 then h else 10 * h + l
  {
    var h, l := x as int / 16, x as int % 16;
    var s := Hex([x]);
    assert s == [HexChar(h), HexChar(l)];
    assert SkipSpace(s) == s;
    assert ToI(s) == Unsigned(s) == Numeral(s);
    var tail := s[1..];
    assert tail == [HexChar(l)];
    if h < 10 {
      assert Numeral(s) == Run(tail, h);
      if l < 10 {
        assert Run(tail, h) == Run(tail[1..], 10 * h + l);
        assert tail[1..] == [];
      } else {
        assert !IsDigit(tail[0]);
      }
    } else {
      assert !IsDigit(s[0]);
    }
  }

  // ---------------------------------------------------------------------
  // Power factor

  /** `cast_power_factor(s)`: the first character (the quadrant indicator) kept
      as is, followed by `s[1,3].to_f / 100.0` written by Float#to_s. */
  function PowerFactorText(b: seq<byte>): string
  {
    var s := Chars(b);
    (if |s| > 0 then [s[0]] else "") + HundredthsText(ToF(SubText(s, 1, 3)))
  }

  /** The text starts with the indicator and the rest reads as the three
      following digits divided by 100. */
  lemma PowerFactorMeaning(b: seq<byte>)
    requires |b| >= 4
    ensures PowerFactorText(b)[0] as int == b[0] as int
    ensures DecimalValue(PowerFactorText(b)[1..]) == ToF(Chars(b)[1..4]) as real / 100.0
    ensures AllDigits(Chars(b)[1..4]) ==>
      DecimalValue(PowerFactorText(b)[1..]) == DigitsValue(Chars(b)[1..4]) as real / 100.0
  {
    var s := Chars(b);
    var t := PowerFactorText(b);
    assert SubText(s, 1, 3) == s[1..4];
    assert t == [s[0]] + HundredthsText(ToF(s[1..4]));
    assert t[1..] == HundredthsText(ToF(s[1..4]));
    HundredthsTextValue(ToF(s[1..4]));
    if AllDigits(s[1..4]) {
      ToFDigits(s[1..4]);
    }
  }

  /** The worked sample: "C099" becomes "C0.99". */
  lemma PowerFactorSample()
    ensures PowerFactorText([67, 48, 57, 57]) == "C0.99"
  {
    var b: seq<byte> := [67, 48, 57, 57];
    var s := Chars(b);
    assert s == "C099";
    assert SubText(s, 1, 3) == "099";
    var d := "099";
    assert AllDigits(d);
    ToFDigits(d);
    assert d[..2] == "09" && d[..2][..1] == "0" && d[..1][..0] == "";
    assert ToF(d) == 99;
    assert NatText(0) == "0";
    assert FractionText(99) == "99";
  }

  // ---------------------------------------------------------------------
  // The meter's clock

  /** The fixed UTC offset `as_datetime` gives every meter timestamp ('-4'). */
  const MeterUtcOffsetHours: int := -4

  /** The fields `as_datetime` reads from the packed YYMMDDWWHHMMSS text:
      year = ("20" + s[0,2]).to_i, month s[2,2], day s[4,2], hour s[8,2],
      minute s[10,2], second s[12,2]; the weekday s[6,2] is not read. */
  function StampFields(s: string): TimeFields
  {
    TimeFields(ToI("20" + SubText(s, 0, 2)), ToI(SubText(s, 2, 2)), ToI(SubText(s, 4, 2)),
               ToI(SubText(s, 8, 2)), ToI(SubText(s, 10, 2)), ToI(SubText(s, 12, 2)))
  }

  /** `as_datetime(s)`: the calendar time at the meter's offset, or the
      decode-time clock when `DateTime.new` refuses the fields. Which fields
      form a date is the date library's business, given here as `accepts`.
      On the 14-digit text the meter sends, the fields are two digits each at
      YY MM DD .. HH MM SS, the year in the 2000s; the weekday digits are not
      read. */
  function AsDateTime(s: string, accepts: TimeFields -> bool, now: real): (t: MeterTime)
    ensures t.Calendar? ==> accepts(t.fields) && t.utcOffsetHours == MeterUtcOffsetHours
    ensures t.Clock? ==> t.at == now
    ensures |s| == 14 && AllDigits(s) ==>
      var f := TimeFields(2000 + TwoDigits(s, 0), TwoDigits(s, 2), TwoDigits(s, 4),
                          TwoDigits(s, 8), TwoDigits(s, 10), TwoDigits(s, 12));
      t == if accepts(f) then Calendar(f, MeterUtcOffsetHours) else Clock(now)
  {
    StampText(s);
    if accepts(StampFields(s)) then Calendar(StampFields(s), MeterUtcOffsetHours) else Clock(now)
  }

  lemma StampText(s: string)
    ensures |s| == 14 && AllDigits(s) ==>
      StampFields(s) == TimeFields(2000 + TwoDigits(s, 0), TwoDigits(s, 2), TwoDigits(s, 4),
                                   TwoDigits(s, 8), TwoDigits(s, 10), TwoDigits(s, 12))
  {
    if |s| == 14 && AllDigits(s) {
      StampFieldsDigits(s);
    }
  }

  function TwoDigits(s: string, i: nat): nat
    requires i + 2 <= |s| && IsDigit(s[i]) && IsDigit(s[i + 1])
  {
    10 * DigitOf(s[i]) + DigitOf(s[i + 1])
  }

  lemma TwoDigitsToI(s: string, i: nat)
    requires i + 2 <= |s| && IsDigit(s[i]) && IsDigit(s[i + 1])
    ensures ToI(SubText(s, i, 2)) == TwoDigits(s, i)
    ensures ToI("20" + SubText(s, i, 2)) == 2000 + TwoDigits(s, i)
  {
    var t := s[i..i + 2];
    assert AllDigits(t);
    ToIDigits(t);
    DigitsValueTwo(t);
    assert SubText(s, i, 2) == t;
    var u := "20" + t;
    assert AllDigits(u);
    ToIDigits(u);
    assert u == ['2'] + (['0'] + t);
    DigitsValueCons('0', t);
    DigitsValueCons('2', ['0'] + t);
  }

  /** On a 14-digit clock text each field is its two digits, the year in the
      2000s. */
  lemma StampFieldsDigits(s: string)
    requires |s| == 14 && AllDigits(s)
    ensures StampFields(s) == TimeFields(2000 + TwoDigits(s, 0), TwoDigits(s, 2), TwoDigits(s, 4),
                                         TwoDigits(s, 8), TwoDigits(s, 10), TwoDigits(s, 12))
  {
    TwoDigitsToI(s, 0);
    TwoDigitsToI(s, 2);
    TwoDigitsToI(s, 4);
    TwoDigitsToI(s, 8);
    TwoDigitsToI(s, 10);
    TwoDigitsToI(s, 12);
  }

  /** The weekday digits have no influence on the clock. */
  lemma StampIgnoresWeekday(s: string, w: string)
    requires |s| == 14 && |w| == 2
    ensures StampFields(s[..6] + w + s[8..]) == StampFields(s)
  {
    var s' := s[..6] + w + s[8..];
    assert s'[0..2] == s[0..2] && s'[2..4] == s[2..4] && s'[4..6] == s[4..6];
    assert s'[8..10] == s[8..10] && s'[10..12] == s[10..12] && s'[12..14] == s[12..14];
  }
}
