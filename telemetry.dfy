/** The data model of a decoded meter reading: the keys of the values hash
    (`@values` in lib/ekm-omnimeter/meter.rb), the typed values stored under
    them, and the errors a read can raise. */
module Telemetry {
  import opened RubyText

  /** The symbols used as keys of the values hash: the raw fields of both
      response layouts, followed by the keys derived while decoding. */
  datatype Field =
    // shared header of both responses
    | MeterType | MeterFirmware | Address
    // energy registers of response A
    | TotalKwh | ReactiveKwhKvarh | TotalReverseKwh
    | TotalKwhL1 | TotalKwhL2 | TotalKwhL3
    | ReverseKwhL1 | ReverseKwhL2 | ReverseKwhL3
    | ResettableTotalKwh | ResettableReverseKwh
    // energy registers of response B, per tariff
    | TotalKwhT1 | TotalKwhT2 | TotalKwhT3 | TotalKwhT4
    | ReverseKwhT1 | ReverseKwhT2 | ReverseKwhT3 | ReverseKwhT4
    // per-line readings of both responses
    | VoltsL1 | VoltsL2 | VoltsL3 | AmpsL1 | AmpsL2 | AmpsL3
    | WattsL1 | WattsL2 | WattsL3 | WattsTotal
    | PowerFactor1 | PowerFactor2 | PowerFactor3
    // the rest of response A
    | ReactivePower1 | ReactivePower2 | ReactivePower3 | TotalReactivePower
    | Frequency | Pulse1Count | Pulse2Count | Pulse3Count
    | PulseInputHilo | DirectionOfCurrent | OutputsOnoff | KwhDataDecimalPlaces
    // the rest of response B
    | MaximumDemand | MaximumDemandPeriod
    | Pulse1Ratio | Pulse2Ratio | Pulse3Ratio | CtRatio
    | AutoResetMaxDemand | SettablePulsePerKwhRatio
    // trailer of both responses
    | Checksum
    // derived while decoding
    | MeterTimestamp
    | Pulse1Input | Pulse2Input | Pulse3Input
    | CurrentDirectionL1 | CurrentDirectionL2 | CurrentDirectionL3
    | Output1 | Output2
    | Volts | Amps | Watts | TotalForwardKwh | NetKwh

  datatype PulseLevel = High | Low
  datatype Flow = Forward | Reverse
  datatype Switch = On | Off
  datatype ResetMode = ResetOff | Monthly | Weekly | Daily | Hourly

  /** The calendar fields read from the meter's packed clock. */
  datatype TimeFields = TimeFields(year: int, month: int, day: int, hour: int, minute: int, second: int)

  /** A `DateTime`: the meter's clock at a fixed UTC offset, or the decode-time
      clock when the meter's fields do not form a date. */
  datatype MeterTime = Calendar(fields: TimeFields, utcOffsetHours: int) | Clock(at: real)

  /** What the values hash holds under a key. BytesV is a slice of the binary
      response, StrV text made while decoding, DecV a Ruby Float kept exact as
      mantissa / 10^places, NilV Ruby's nil (a failed table lookup). */
  datatype Value =
    | NilV
    | BytesV(bytes: seq<byte>)
    | StrV(text: string)
    | IntV(i: int)
    | DecV(mantissa: int, places: nat)
    | TimeV(time: MeterTime)
    | LevelV(level: PulseLevel)
    | FlowV(flow: Flow)
    | SwitchV(state: Switch)
    | ResetV(mode: ResetMode)

  /** The errors a meter session raises. */
  datatype Error =
    | ConfigurationError(name: string)  // EkmOmnimeterError from `initialize`
    | NoResponse                        // the transport returned nil
    | UnknownField(field: Field)        // `super` in `method_missing`: NoMethodError

  /** The keys computed while decoding rather than received from the meter. */
  predicate Derived(f: Field)
  {
    || f.MeterTimestamp? || f.Pulse1Input? || f.Pulse2Input? || f.Pulse3Input?
    || f.CurrentDirectionL1? || f.CurrentDirectionL2? || f.CurrentDirectionL3?
    || f.Output1? || f.Output2?
    || f.Volts? || f.Amps? || f.Watts? || f.TotalForwardKwh? || f.NetKwh?
  }

  predicate IsNumber(v: Value) { v.IntV? || v.DecV? }

  /** The number a numeric value stands for. */
  function AsReal(v: Value): real
    requires IsNumber(v)
  {
    if v.IntV? then v.i as real else v.mantissa as real / (Pow10Nat(v.places) as real)
  }

  lemma {:induction false} Pow10NatAdd(a: nat, b: nat)
    ensures Pow10Nat(a + b) == Pow10Nat(a) * Pow10Nat(b)
  {
    if b > 0 {
      Pow10NatAdd(a, b - 1);
      assert Pow10Nat(a + b) == 10 * Pow10Nat(a + b - 1);
    }
  }

  lemma CancelFactor(m: int, d: nat, k: nat)
    requires d > 0 && k > 0
    ensures (m * k) as real / ((d * k) as real) == m as real / (d as real)
  {
    var x, y, z := m as real, d as real, k as real;
    assert (m * k) as real == x * z;
    assert (d * k) as real == y * z;
    assert (x * z) / (y * z) == x / y;
  }

  /** The same number written with `extra` more places. */
  function Widen(m: int, places: nat, extra: nat): (r: Value)
    ensures r == DecV(m * Pow10Nat(extra), places + extra)
    ensures AsReal(r) == AsReal(DecV(m, places))
  {
    Pow10NatAdd(places, extra);
    CancelFactor(m, Pow10Nat(places), Pow10Nat(extra));
    DecV(m * Pow10Nat(extra), places + extra)
  }

  /** A number as a decimal with at least `places` places, value unchanged. */
  function AsDecimal(v: Value, places: nat): (r: Value)
    requires IsNumber(v)
    ensures r.DecV? && r.places == (if v.DecV? && v.places > places then v.places else places)
    ensures AsReal(r) == AsReal(v)
  {
    if v.IntV? then Widen(v.i, 0, places)
    else if v.places >= places then v
    else Widen(v.mantissa, v.places, places - v.places)
  }

  lemma AddQuotients(a: int, b: int, d: nat)
    requires d > 0
    ensures (a + b) as real / (d as real) == a as real / (d as real) + b as real / (d as real)
  {
  }

  /** Ruby's `+` on numbers: Integer + Integer stays an Integer, anything with
      a Float is a Float. */
  function Plus(a: Value, b: Value): (r: Value)
    requires IsNumber(a) && IsNumber(b)
    ensures IsNumber(r) && AsReal(r) == AsReal(a) + AsReal(b)
    ensures r.IntV? <==> a.IntV? && b.IntV?
  {
    if a.IntV? && b.IntV? then IntV(a.i + b.i)
    else
      var q := if a.DecV? && b.DecV? then (if a.places > b.places then a.places else b.places)
               else if a.DecV? then a.places else b.places;
      var x, y := AsDecimal(a, q), AsDecimal(b, q);
      AddQuotients(x.mantissa, y.mantissa, Pow10Nat(q));
      DecV(x.mantissa + y.mantissa, q)
  }

  /** The additive inverse, for Minus. */
  function Negate(v: Value): (r: Value)
    requires IsNumber(v)
    ensures IsNumber(r) && AsReal(r) == -AsReal(v) && (r.IntV? <==> v.IntV?)
  {
    if v.IntV? then IntV(-v.i) else DecV(-v.mantissa, v.places)
  }

  /** Ruby's `-` on numbers, with the same Integer/Float rule as Plus. */
  function Minus(a: Value, b: Value): (r: Value)
    requires IsNumber(a) && IsNumber(b)
    ensures IsNumber(r) && AsReal(r) == AsReal(a) - AsReal(b)
    ensures r.IntV? <==> a.IntV? && b.IntV?
  {
    Plus(a, Negate(b))
  }

  /** A number stored under a key. */
  predicate NumberAt(d: map<Field, Value>, k: Field)
  {
    k in d && IsNumber(d[k])
  }

  /** The per-line readings are numbers, as `calculate_measurement` needs. */
  predicate LinesNumeric(d: map<Field, Value>)
  {
    && NumberAt(d, VoltsL1) && NumberAt(d, VoltsL2) && NumberAt(d, VoltsL3)
    && NumberAt(d, AmpsL1) && NumberAt(d, AmpsL2) && NumberAt(d, AmpsL3)
    && NumberAt(d, WattsL1) && NumberAt(d, WattsL2) && NumberAt(d, WattsL3)
  }
}
