/** The decoding half of `request_a` and `request_b`
    (lib/ekm-omnimeter/meter.rb): from the raw response to the hash `d` each
    request returns — split, join, the identity and power-factor casts, the
    clock, `cast_response_to_correct_types`, and the table lookups. */
module Decoding {
  import opened Wrappers
  import opened RubyText
  import opened Telemetry
  import opened Caster
  import opened Tables
  import opened Frame
  import opened Casting

  /** Ruby's `hash[k]`: nil for a missing key. */
  function Get(d: map<Field, Value>, k: Field): Value
  {
    if k in d then d[k] else NilV
  }

  /** The bytes a split stored under a key. Every key of the layout is
      stored (an exhausted `shift` yields an empty array), so the default is
      never used on a decoded response; see `SplitKeys`. */
  function Raw(s: Split, k: Field): seq<byte>
  {
    if k in s.fields then s.fields[k] else []
  }

  /** `d.each { |k, v| d[k] = v.join('') }`. */
  function Joined(f: map<Field, seq<byte>>): map<Field, Value>
  {
    map k | k in f :: BytesV(f[k])
  }

  // ---------------------------------------------------------------------
  // The casts made before `cast_response_to_correct_types`. Each step
  // states which keys it writes; every other key keeps its value.

  /** `d[:meter_type] = d[:meter_type].unpack('H*')[0]`, and the same for the
      firmware byte. */
  function HexStep(d: map<Field, Value>, s: Split): map<Field, Value>
  {
    d[MeterType := StrV(Hex(Raw(s, MeterType)))][MeterFirmware := StrV(Hex(Raw(s, MeterFirmware)))]
  }

  /** `d[:power_factor_i] = cast_power_factor(d[:power_factor_i])`. */
  function PowerFactorStep(d: map<Field, Value>, s: Split): map<Field, Value>
  {
    d[PowerFactor1 := StrV(PowerFactorText(Raw(s, PowerFactor1)))]
     [PowerFactor2 := StrV(PowerFactorText(Raw(s, PowerFactor2)))]
     [PowerFactor3 := StrV(PowerFactorText(Raw(s, PowerFactor3)))]
  }

  /** `d[:meter_timestamp] = as_datetime(meter_timestamp)`. */
  function ClockStep(d: map<Field, Value>, s: Split, accepts: TimeFields -> bool, now: real): map<Field, Value>
  {
    d[MeterTimestamp := TimeV(AsDateTime(Chars(s.stamp), accepts, now))]
  }

  /** The joined hash after the text casts and the clock. */
  function Prepared(s: Split, accepts: TimeFields -> bool, now: real): map<Field, Value>
  {
    ClockStep(PowerFactorStep(HexStep(Joined(s.fields), s), s), s, accepts, now)
  }

  // ---------------------------------------------------------------------
  // Table lookups with Ruby's Hash semantics: a missing key (or a key of
  // another type) gives nil, and `a, b, c = nil` sets all three to nil.

  function TypeNameOf(v: Value): Value
  {
    if v.StrV? && MeterTypeName(v.text).Some? then StrV(MeterTypeName(v.text).value) else NilV
  }

  function PulseInputsOf(v: Value): (Value, Value, Value)
  {
    if v.IntV? && PulseInputs(v.i).Some? then
      var t := PulseInputs(v.i).value;
      (LevelV(t.0), LevelV(t.1), LevelV(t.2))
    else (NilV, NilV, NilV)
  }

  function DirectionsOf(v: Value): (Value, Value, Value)
  {
    if v.IntV? && CurrentDirections(v.i).Some? then
      var t := CurrentDirections(v.i).value;
      (FlowV(t.0), FlowV(t.1), FlowV(t.2))
    else (NilV, NilV, NilV)
  }

  function OutputsOf(v: Value): (Value, Value)
  {
    if v.IntV? && Outputs(v.i).Some? then
      var t := Outputs(v.i).value;
      (SwitchV(t.0), SwitchV(t.1))
    else (NilV, NilV)
  }

  function DemandPeriodOf(v: Value): Value
  {
    if v.IntV? && DemandPeriodMinutes(v.i).Some? then IntV(DemandPeriodMinutes(v.i).value) else NilV
  }

  function AutoResetOf(v: Value): Value
  {
    if v.IntV? && AutoResetMode(v.i).Some? then ResetV(AutoResetMode(v.i).value) else NilV
  }

  /** `d[:meter_type] = METER_TYPE_MAP[d[:meter_type]]`. */
  function NameStep(d: map<Field, Value>): map<Field, Value>
  {
    d[MeterType := TypeNameOf(Get(d, MeterType))]
  }

  /** `d[:pulse_1_input], d[:pulse_2_input], d[:pulse_3_input] =
      PULSE_INPUT_STATE_MAP[d[:pulse_input_hilo]]`. */
  function PulseStep(d: map<Field, Value>): map<Field, Value>
  {
    var p := PulseInputsOf(Get(d, PulseInputHilo));
    d[Pulse1Input := p.0][Pulse2Input := p.1][Pulse3Input := p.2]
  }

  /** `d[:current_direction_l1], ... = DIRECTION_OF_CURRENT_MAP[d[:direction_of_current]]`. */
  function DirectionStep(d: map<Field, Value>): map<Field, Value>
  {
    var c := DirectionsOf(Get(d, DirectionOfCurrent));
    d[CurrentDirectionL1 := c.0][CurrentDirectionL2 := c.1][CurrentDirectionL3 := c.2]
  }

  /** `d[:output_1], d[:output_2] = OUTPUT_INDICATOR_MAP[d[:outputs_onoff]]`. */
  function OutputStep(d: map<Field, Value>): map<Field, Value>
  {
    var o := OutputsOf(Get(d, OutputsOnoff));
    d[Output1 := o.0][Output2 := o.1]
  }

  /** `d[:maximum_demand_period] = DEMAND_PERIOD_TIME_MAP[...]` and
      `d[:auto_reset_max_demand] = AUTO_RESET_MAX_DEMAND_MAP[...]`. */
  function SettingsStep(d: map<Field, Value>): map<Field, Value>
  {
    d[MaximumDemandPeriod := DemandPeriodOf(Get(d, MaximumDemandPeriod))]
     [AutoResetMaxDemand := AutoResetOf(Get(d, AutoResetMaxDemand))]
  }

  /** The lookups of `request_a`, in source order. */
  function LookupsA(d: map<Field, Value>): map<Field, Value>
  {
    OutputStep(DirectionStep(PulseStep(NameStep(d))))
  }

  /** The lookups of `request_b`, in source order. */
  function LookupsB(d: map<Field, Value>): map<Field, Value>
  {
    SettingsStep(NameStep(d))
  }

  // ---------------------------------------------------------------------
  // What each step writes and keeps

  /** The text casts before `cast_response_to_correct_types` add the clock
      and rewrite the identity and power-factor keys; every other field is
      still the joined text of its bytes. */
  lemma PreparedKeeps(s: Split, accepts: TimeFields -> bool, now: real, k: Field)
    requires k in s.fields && k != MeterTimestamp
    requires k != MeterType && k != MeterFirmware
    requires k != PowerFactor1 && k != PowerFactor2 && k != PowerFactor3
    ensures k in Prepared(s, accepts, now) && Prepared(s, accepts, now)[k] == BytesV(s.fields[k])
  {
    var j := Joined(s.fields);
    assert k in j && j[k] == BytesV(s.fields[k]);
    var h := HexStep(j, s);
    assert k in h && h[k] == j[k];
    PowerFactorStepKeeps(h, s, k);
  }

  lemma PreparedKeys(s: Split, accepts: TimeFields -> bool, now: real)
    ensures Prepared(s, accepts, now).Keys ==
      s.fields.Keys + {MeterType, MeterFirmware, PowerFactor1, PowerFactor2, PowerFactor3, MeterTimestamp}
  {
  }

  /** What the casts before `cast_response_to_correct_types` store: the
      identity bytes as hex text, each power factor as its quadrant letter
      and two-place value, and the meter's clock. */
  lemma PreparedCasts(s: Split, accepts: TimeFields -> bool, now: real)
    ensures MeterType in Prepared(s, accepts, now)
    ensures Prepared(s, accepts, now)[MeterType] == StrV(Hex(Raw(s, MeterType)))
    ensures MeterFirmware in Prepared(s, accepts, now)
    ensures Prepared(s, accepts, now)[MeterFirmware] == StrV(Hex(Raw(s, MeterFirmware)))
    ensures PowerFactor1 in Prepared(s, accepts, now)
    ensures Prepared(s, accepts, now)[PowerFactor1] == StrV(PowerFactorText(Raw(s, PowerFactor1)))
    ensures PowerFactor2 in Prepared(s, accepts, now)
    ensures Prepared(s, accepts, now)[PowerFactor2] == StrV(PowerFactorText(Raw(s, PowerFactor2)))
    ensures PowerFactor3 in Prepared(s, accepts, now)
    ensures Prepared(s, accepts, now)[PowerFactor3] == StrV(PowerFactorText(Raw(s, PowerFactor3)))
    ensures MeterTimestamp in Prepared(s, accepts, now)
    ensures Prepared(s, accepts, now)[MeterTimestamp] == TimeV(AsDateTime(Chars(s.stamp), accepts, now))
  {
    PreparedHexKey(s, accepts, now, MeterType);
    PreparedHexKey(s, accepts, now, MeterFirmware);
    PreparedPowerFactors(s, accepts, now);
  }

  lemma PreparedHexKey(s: Split, accepts: TimeFields -> bool, now: real, k: Field)
    requires k == MeterType || k == MeterFirmware
    ensures k in Prepared(s, accepts, now) && Prepared(s, accepts, now)[k] == StrV(Hex(Raw(s, k)))
  {
    HexStepSets(Joined(s.fields), s);
    AfterHexStep(HexStep(Joined(s.fields), s), s, accepts, now, k);
  }

  /** A key the power-factor casts and the clock do not write keeps what the
      hex casts left under it. */
  lemma AfterHexStep(h: map<Field, Value>, s: Split, accepts: TimeFields -> bool, now: real, k: Field)
    requires k in h && k != PowerFactor1 && k != PowerFactor2 && k != PowerFactor3 && k != MeterTimestamp
    ensures var r := ClockStep(PowerFactorStep(h, s), s, accepts, now); k in r && r[k] == h[k]
  {
    PowerFactorStepKeeps(h, s, k);
  }


  lemma PreparedPowerFactors(s: Split, accepts: TimeFields -> bool, now: real)
    ensures PowerFactor1 in Prepared(s, accepts, now)
    ensures Prepared(s, accepts, now)[PowerFactor1] == StrV(PowerFactorText(Raw(s, PowerFactor1)))
    ensures PowerFactor2 in Prepared(s, accepts, now)
    ensures Prepared(s, accepts, now)[PowerFactor2] == StrV(PowerFactorText(Raw(s, PowerFactor2)))
    ensures PowerFactor3 in Prepared(s, accepts, now)
    ensures Prepared(s, accepts, now)[PowerFactor3] == StrV(PowerFactorText(Raw(s, PowerFactor3)))
  {
    PowerFactorStepSets(HexStep(Joined(s.fields), s), s);
  }

  lemma HexStepSets(d: map<Field, Value>, s: Split)
    ensures MeterType in HexStep(d, s) && HexStep(d, s)[MeterType] == StrV(Hex(Raw(s, MeterType)))
    ensures MeterFirmware in HexStep(d, s) && HexStep(d, s)[MeterFirmware] == StrV(Hex(Raw(s, MeterFirmware)))
  {
  }

  lemma PowerFactorStepSets(d: map<Field, Value>, s: Split)
    ensures PowerFactor1 in PowerFactorStep(d, s)
    ensures PowerFactorStep(d, s)[PowerFactor1] == StrV(PowerFactorText(Raw(s, PowerFactor1)))
    ensures PowerFactor2 in PowerFactorStep(d, s)
    ensures PowerFactorStep(d, s)[PowerFactor2] == StrV(PowerFactorText(Raw(s, PowerFactor2)))
    ensures PowerFactor3 in PowerFactorStep(d, s)
    ensures PowerFactorStep(d, s)[PowerFactor3] == StrV(PowerFactorText(Raw(s, PowerFactor3)))
  {
  }

  lemma PowerFactorStepKeeps(d: map<Field, Value>, s: Split, k: Field)
    requires k in d && k != PowerFactor1 && k != PowerFactor2 && k != PowerFactor3
    ensures k in PowerFactorStep(d, s) && PowerFactorStep(d, s)[k] == d[k]
  {
  }

  /** The lookups of `request_a` rewrite the meter type and add the eight
      states; every other key keeps its value. */
  lemma LookupsAKeeps(d: map<Field, Value>, k: Field)
    requires k in d && k != MeterType
    requires k != Pulse1Input && k != Pulse2Input && k != Pulse3Input
    requires k != CurrentDirectionL1 && k != CurrentDirectionL2 && k != CurrentDirectionL3
    requires k != Output1 && k != Output2
    ensures k in LookupsA(d) && LookupsA(d)[k] == d[k]
  {
  }

  lemma LookupsAKeys(d: map<Field, Value>)
    ensures LookupsA(d).Keys == d.Keys + {MeterType, Pulse1Input, Pulse2Input, Pulse3Input}
      + {CurrentDirectionL1, CurrentDirectionL2, CurrentDirectionL3, Output1, Output2}
  {
  }

  /** What the lookups of `request_a` store: the type's name and the states
      under the three status numbers. */
  lemma LookupsASets(d: map<Field, Value>)
    requires PulseInputHilo in d && DirectionOfCurrent in d && OutputsOnoff in d
    ensures MeterType in LookupsA(d) && LookupsA(d)[MeterType] == TypeNameOf(Get(d, MeterType))
    ensures Pulse1Input in LookupsA(d) && LookupsA(d)[Pulse1Input] == PulseInputsOf(d[PulseInputHilo]).0
    ensures Pulse2Input in LookupsA(d) && LookupsA(d)[Pulse2Input] == PulseInputsOf(d[PulseInputHilo]).1
    ensures Pulse3Input in LookupsA(d) && LookupsA(d)[Pulse3Input] == PulseInputsOf(d[PulseInputHilo]).2
    ensures CurrentDirectionL1 in LookupsA(d)
    ensures LookupsA(d)[CurrentDirectionL1] == DirectionsOf(d[DirectionOfCurrent]).0
    ensures CurrentDirectionL2 in LookupsA(d)
    ensures LookupsA(d)[CurrentDirectionL2] == DirectionsOf(d[DirectionOfCurrent]).1
    ensures CurrentDirectionL3 in LookupsA(d)
    ensures LookupsA(d)[CurrentDirectionL3] == DirectionsOf(d[DirectionOfCurrent]).2
    ensures Output1 in LookupsA(d) && LookupsA(d)[Output1] == OutputsOf(d[OutputsOnoff]).0
    ensures Output2 in LookupsA(d) && LookupsA(d)[Output2] == OutputsOf(d[OutputsOnoff]).1
  {
    LookupsAName(d);
    LookupsAPulses(d);
    LookupsADirections(d);
    LookupsAOutputs(d);
  }

  lemma LookupsAOutputs(d: map<Field, Value>)
    requires OutputsOnoff in d
    ensures Output1 in LookupsA(d) && LookupsA(d)[Output1] == OutputsOf(d[OutputsOnoff]).0
    ensures Output2 in LookupsA(d) && LookupsA(d)[Output2] == OutputsOf(d[OutputsOnoff]).1
  {
    var c := DirectionStep(PulseStep(NameStep(d)));
    assert Get(c, OutputsOnoff) == d[OutputsOnoff];
  }

  lemma LookupsAName(d: map<Field, Value>)
    ensures MeterType in LookupsA(d) && LookupsA(d)[MeterType] == TypeNameOf(Get(d, MeterType))
  {
  }

  lemma LookupsAPulses(d: map<Field, Value>)
    requires PulseInputHilo in d
    ensures Pulse1Input in LookupsA(d) && LookupsA(d)[Pulse1Input] == PulseInputsOf(d[PulseInputHilo]).0
    ensures Pulse2Input in LookupsA(d) && LookupsA(d)[Pulse2Input] == PulseInputsOf(d[PulseInputHilo]).1
    ensures Pulse3Input in LookupsA(d) && LookupsA(d)[Pulse3Input] == PulseInputsOf(d[PulseInputHilo]).2
  {
    var n := NameStep(d);
    assert Get(n, PulseInputHilo) == d[PulseInputHilo];
  }

  lemma LookupsADirections(d: map<Field, Value>)
    requires DirectionOfCurrent in d
    ensures CurrentDirectionL1 in LookupsA(d)
    ensures LookupsA(d)[CurrentDirectionL1] == DirectionsOf(d[DirectionOfCurrent]).0
    ensures CurrentDirectionL2 in LookupsA(d)
    ensures LookupsA(d)[CurrentDirectionL2] == DirectionsOf(d[DirectionOfCurrent]).1
    ensures CurrentDirectionL3 in LookupsA(d)
    ensures LookupsA(d)[CurrentDirectionL3] == DirectionsOf(d[DirectionOfCurrent]).2
  {
    var p := PulseStep(NameStep(d));
    assert Get(p, DirectionOfCurrent) == d[DirectionOfCurrent];
  }

  /** The lookups of `request_b` rewrite three keys and keep the rest. */
  lemma LookupsBKeeps(d: map<Field, Value>, k: Field)
    requires k in d && k != MeterType && k != MaximumDemandPeriod && k != AutoResetMaxDemand
    ensures k in LookupsB(d) && LookupsB(d)[k] == d[k]
  {
  }

  lemma LookupsBKeys(d: map<Field, Value>)
    ensures LookupsB(d).Keys == d.Keys + {MeterType, MaximumDemandPeriod, AutoResetMaxDemand}
  {
  }

  lemma LookupsBSets(d: map<Field, Value>)
    ensures MeterType in LookupsB(d) && LookupsB(d)[MeterType] == TypeNameOf(Get(d, MeterType))
    ensures MaximumDemandPeriod in LookupsB(d)
    ensures LookupsB(d)[MaximumDemandPeriod] == DemandPeriodOf(Get(d, MaximumDemandPeriod))
    ensures AutoResetMaxDemand in LookupsB(d)
    ensures LookupsB(d)[AutoResetMaxDemand] == AutoResetOf(Get(d, AutoResetMaxDemand))
  {
  }

  // ---------------------------------------------------------------------
  // The two decoders, on a split response

  /** The keys `request_a` adds to the response fields. */
  const DerivedA: set<Field> :=
    {MeterTimestamp, Pulse1Input, Pulse2Input, Pulse3Input,
     CurrentDirectionL1, CurrentDirectionL2, CurrentDirectionL3, Output1, Output2}

  /** `d[:kwh_data_decimal_places].to_i`, which `request_a` stores in the
      values hash before casting, so that its own energy registers use it. */
  function Places(s: Split): int
  {
    ToI(Chars(Raw(s, KwhDataDecimalPlaces)))
  }

  /** The hash `request_a` builds from the split of its response. */
  function FieldsA(s: Split, accepts: TimeFields -> bool, now: real): map<Field, Value>
  {
    LookupsA(CastAll(Prepared(s, accepts, now), Places(s)))
  }

  /** The hash `request_b` builds from the split of its response; its energy
      registers use the decimal places held by the session. */
  function FieldsB(s: Split, kwhPlaces: int, accepts: TimeFields -> bool, now: real): map<Field, Value>
  {
    LookupsB(CastAll(Prepared(s, accepts, now), kwhPlaces))
  }

  lemma FieldsAKeys(s: Split, accepts: TimeFields -> bool, now: real)
    ensures FieldsA(s, accepts, now).Keys ==
      s.fields.Keys + {MeterType, MeterFirmware, PowerFactor1, PowerFactor2, PowerFactor3} + DerivedA
  {
    PreparedKeys(s, accepts, now);
    LookupsAKeys(CastAll(Prepared(s, accepts, now), Places(s)));
  }

  lemma FieldsBKeys(s: Split, kwhPlaces: int, accepts: TimeFields -> bool, now: real)
    ensures FieldsB(s, kwhPlaces, accepts, now).Keys ==
      s.fields.Keys + {MeterType, MeterFirmware, PowerFactor1, PowerFactor2, PowerFactor3}
        + {MeterTimestamp, MaximumDemandPeriod, AutoResetMaxDemand}
  {
    PreparedKeys(s, accepts, now);
    LookupsBKeys(CastAll(Prepared(s, accepts, now), kwhPlaces));
  }

  lemma FieldsAValue(s: Split, accepts: TimeFields -> bool, now: real, k: Field)
    requires k in s.fields && !Derived(k)
    requires k != MeterType && k != MeterFirmware
    requires k != PowerFactor1 && k != PowerFactor2 && k != PowerFactor3
    ensures k in FieldsA(s, accepts, now)
    ensures FieldsA(s, accepts, now)[k] == CastField(k, BytesV(s.fields[k]), Places(s))
  {
    var p := Prepared(s, accepts, now);
    PreparedKeeps(s, accepts, now, k);
    LookupsAKeeps(CastAll(p, Places(s)), k);
  }

  lemma FieldsBValue(s: Split, kwhPlaces: int, accepts: TimeFields -> bool, now: real, k: Field)
    requires k in s.fields && !Derived(k)
    requires k != MeterType && k != MeterFirmware
    requires k != PowerFactor1 && k != PowerFactor2 && k != PowerFactor3
    requires k != MaximumDemandPeriod && k != AutoResetMaxDemand
    ensures k in FieldsB(s, kwhPlaces, accepts, now)
    ensures FieldsB(s, kwhPlaces, accepts, now)[k] == CastField(k, BytesV(s.fields[k]), kwhPlaces)
  {
    var p := Prepared(s, accepts, now);
    PreparedKeeps(s, accepts, now, k);
    LookupsBKeeps(CastAll(p, kwhPlaces), k);
  }

  lemma FieldsAIdentity(s: Split, accepts: TimeFields -> bool, now: real)
    requires PulseInputHilo in s.fields && DirectionOfCurrent in s.fields && OutputsOnoff in s.fields
    ensures var d := FieldsA(s, accepts, now);
      && MeterType in d && d[MeterType] == TypeNameOf(StrV(Hex(Raw(s, MeterType))))
      && MeterFirmware in d && d[MeterFirmware] == IntV(ToI(Hex(Raw(s, MeterFirmware))))
      && PowerFactor1 in d && d[PowerFactor1] == StrV(PowerFactorText(Raw(s, PowerFactor1)))
      && PowerFactor2 in d && d[PowerFactor2] == StrV(PowerFactorText(Raw(s, PowerFactor2)))
      && PowerFactor3 in d && d[PowerFactor3] == StrV(PowerFactorText(Raw(s, PowerFactor3)))
      && MeterTimestamp in d && d[MeterTimestamp] == TimeV(AsDateTime(Chars(s.stamp), accepts, now))
  {
    var c := CastAll(Prepared(s, accepts, now), Places(s));
    PreparedCasts(s, accepts, now);
    CastIdentity(Prepared(s, accepts, now), Places(s));
    LookupsASets(c);
    LookupsAKeeps(c, MeterFirmware);
    LookupsAKeeps(c, PowerFactor1);
    LookupsAKeeps(c, PowerFactor2);
    LookupsAKeeps(c, PowerFactor3);
    LookupsAKeeps(c, MeterTimestamp);
  }

  lemma FieldsBIdentity(s: Split, kwhPlaces: int, accepts: TimeFields -> bool, now: real)
    ensures var d := FieldsB(s, kwhPlaces, accepts, now);
      && MeterType in d && d[MeterType] == TypeNameOf(StrV(Hex(Raw(s, MeterType))))
      && MeterFirmware in d && d[MeterFirmware] == IntV(ToI(Hex(Raw(s, MeterFirmware))))
      && PowerFactor1 in d && d[PowerFactor1] == StrV(PowerFactorText(Raw(s, PowerFactor1)))
      && PowerFactor2 in d && d[PowerFactor2] == StrV(PowerFactorText(Raw(s, PowerFactor2)))
      && PowerFactor3 in d && d[PowerFactor3] == StrV(PowerFactorText(Raw(s, PowerFactor3)))
      && MeterTimestamp in d && d[MeterTimestamp] == TimeV(AsDateTime(Chars(s.stamp), accepts, now))
  {
    var c := CastAll(Prepared(s, accepts, now), kwhPlaces);
    PreparedCasts(s, accepts, now);
    CastIdentity(Prepared(s, accepts, now), kwhPlaces);
    LookupsBSets(c);
    LookupsBKeeps(c, MeterFirmware);
    LookupsBKeeps(c, PowerFactor1);
    LookupsBKeeps(c, PowerFactor2);
    LookupsBKeeps(c, PowerFactor3);
    LookupsBKeeps(c, MeterTimestamp);
  }

  /** An Integer field after casting is the number its text reads as (the
      firmware, unpacked to hex first, is the exception). */
  lemma CastStatus(s: Split, accepts: TimeFields -> bool, now: real, places: int, k: Field)
    requires k in s.fields && CastOf(k) == Some(ToInteger) && k != MeterFirmware
    ensures k in CastAll(Prepared(s, accepts, now), places)
    ensures CastAll(Prepared(s, accepts, now), places)[k] == IntV(ToI(Chars(s.fields[k])))
  {
    PreparedKeeps(s, accepts, now, k);
    CastToInteger(Prepared(s, accepts, now), places, k);
  }

  lemma FieldsAStatus(s: Split, accepts: TimeFields -> bool, now: real)
    requires PulseInputHilo in s.fields && DirectionOfCurrent in s.fields && OutputsOnoff in s.fields
    ensures Pulse1Input in FieldsA(s, accepts, now) && Pulse2Input in FieldsA(s, accepts, now)
    ensures Pulse3Input in FieldsA(s, accepts, now)
    ensures FieldsA(s, accepts, now)[Pulse1Input] == PulseInputsOf(IntV(ToI(Chars(s.fields[PulseInputHilo])))).0
    ensures FieldsA(s, accepts, now)[Pulse2Input] == PulseInputsOf(IntV(ToI(Chars(s.fields[PulseInputHilo])))).1
    ensures FieldsA(s, accepts, now)[Pulse3Input] == PulseInputsOf(IntV(ToI(Chars(s.fields[PulseInputHilo])))).2
    ensures CurrentDirectionL1 in FieldsA(s, accepts, now) && CurrentDirectionL2 in FieldsA(s, accepts, now)
    ensures CurrentDirectionL3 in FieldsA(s, accepts, now)
    ensures FieldsA(s, accepts, now)[CurrentDirectionL1] == DirectionsOf(IntV(ToI(Chars(s.fields[DirectionOfCurrent])))).0
    ensures FieldsA(s, accepts, now)[CurrentDirectionL2] == DirectionsOf(IntV(ToI(Chars(s.fields[DirectionOfCurrent])))).1
    ensures FieldsA(s, accepts, now)[CurrentDirectionL3] == DirectionsOf(IntV(ToI(Chars(s.fields[DirectionOfCurrent])))).2
    ensures Output1 in FieldsA(s, accepts, now) && Output2 in FieldsA(s, accepts, now)
    ensures FieldsA(s, accepts, now)[Output1] == OutputsOf(IntV(ToI(Chars(s.fields[OutputsOnoff])))).0
    ensures FieldsA(s, accepts, now)[Output2] == OutputsOf(IntV(ToI(Chars(s.fields[OutputsOnoff])))).1
  {
    var c := CastAll(Prepared(s, accepts, now), Places(s));
    StatusCasts();
    CastStatus(s, accepts, now, Places(s), PulseInputHilo);
    CastStatus(s, accepts, now, Places(s), DirectionOfCurrent);
    CastStatus(s, accepts, now, Places(s), OutputsOnoff);
    LookupsASets(c);
  }

  lemma FieldsBSettings(s: Split, kwhPlaces: int, accepts: TimeFields -> bool, now: real)
    requires MaximumDemandPeriod in s.fields && AutoResetMaxDemand in s.fields
    ensures MaximumDemandPeriod in FieldsB(s, kwhPlaces, accepts, now)
    ensures FieldsB(s, kwhPlaces, accepts, now)[MaximumDemandPeriod] ==
      DemandPeriodOf(IntV(ToI(Chars(s.fields[MaximumDemandPeriod]))))
    ensures AutoResetMaxDemand in FieldsB(s, kwhPlaces, accepts, now)
    ensures FieldsB(s, kwhPlaces, accepts, now)[AutoResetMaxDemand] ==
      AutoResetOf(IntV(ToI(Chars(s.fields[AutoResetMaxDemand]))))
  {
    var c := CastAll(Prepared(s, accepts, now), kwhPlaces);
    StatusCasts();
    CastStatus(s, accepts, now, kwhPlaces, MaximumDemandPeriod);
    CastStatus(s, accepts, now, kwhPlaces, AutoResetMaxDemand);
    LookupsBSets(c);
  }

  lemma FieldsANumber(s: Split, accepts: TimeFields -> bool, now: real, k: Field)
    requires k in s.fields && Reading(k)
    ensures NumberAt(FieldsA(s, accepts, now), k)
  {
    ReadingCasts(k);
    FieldsAValue(s, accepts, now, k);
    CastFieldNumber(k, BytesV(s.fields[k]), Places(s));
  }

  lemma FieldsBNumber(s: Split, kwhPlaces: int, accepts: TimeFields -> bool, now: real, k: Field)
    requires k in s.fields && Reading(k)
    ensures NumberAt(FieldsB(s, kwhPlaces, accepts, now), k)
  {
    ReadingCasts(k);
    FieldsBValue(s, kwhPlaces, accepts, now, k);
    CastFieldNumber(k, BytesV(s.fields[k]), kwhPlaces);
  }

  // ---------------------------------------------------------------------
  // The two decoders, on the raw response

  /** The places `request_a` reads from its own response. */
  function PlacesA(response: seq<byte>): int
  {
    Places(SplitResponse(response, LayoutA))
  }

  /** The hash `request_a` returns for a response. */
  function DecodeA(response: seq<byte>, accepts: TimeFields -> bool, now: real): map<Field, Value>
  {
    FieldsA(SplitResponse(response, LayoutA), accepts, now)
  }

  /** The hash `request_b` returns for a response, given the energy places
      the session holds. */
  function DecodeB(response: seq<byte>, kwhPlaces: int, accepts: TimeFields -> bool, now: real): map<Field, Value>
  {
    FieldsB(SplitResponse(response, LayoutB), kwhPlaces, accepts, now)
  }

  /** The decoding steps of `request_a`, one at a time: the shifts, the
      join, the energy places (stored before any cast), the identity and
      power-factor casts and the clock, `cast_response_to_correct_types`
      with those places, and the lookups. */
  method DecodeResponseA(response: seq<byte>, accepts: TimeFields -> bool, now: real)
    returns (d: map<Field, Value>, places: int)
    ensures d == DecodeA(response, accepts, now) && places == PlacesA(response)
    ensures LinesNumeric(d) && NumberAt(d, TotalKwh) && NumberAt(d, TotalReverseKwh)
  {
    var fields, stamp := ShiftFields(response, LayoutA);
    var s := Split(fields, stamp);
    d := Joined(fields);
    places := ToI(Chars(Raw(s, KwhDataDecimalPlaces)));
    d := ClockStep(PowerFactorStep(HexStep(d, s), s), s, accepts, now);
    d := CastResponse(d, places);
    d := LookupsA(d);
    DecodeANumeric(response, accepts, now);
  }

  /** The decoding steps of `request_b`, with the energy places the session
      holds. */
  method DecodeResponseB(response: seq<byte>, kwhPlaces: int, accepts: TimeFields -> bool, now: real)
    returns (d: map<Field, Value>)
    ensures d == DecodeB(response, kwhPlaces, accepts, now)
    ensures LinesNumeric(d)
  {
    var fields, stamp := ShiftFields(response, LayoutB);
    var s := Split(fields, stamp);
    d := Joined(fields);
    d := ClockStep(PowerFactorStep(HexStep(d, s), s), s, accepts, now);
    d := CastResponse(d, kwhPlaces);
    d := LookupsB(d);
    DecodeBNumeric(response, kwhPlaces, accepts, now);
  }

  /** A split stores exactly the keys its layout names. */
  lemma SplitKeys(response: seq<byte>, l: seq<Entry>)
    ensures SplitResponse(response, l).fields.Keys == KeptFields(l)
  {
    WalkKeys(response, l, Split(map[], []));
  }

  lemma LayoutAStoresCasts()
    ensures MeterType in KeptFields(LayoutA) && MeterFirmware in KeptFields(LayoutA)
    ensures PowerFactor1 in KeptFields(LayoutA) && PowerFactor2 in KeptFields(LayoutA)
    ensures PowerFactor3 in KeptFields(LayoutA)
  {
    LayoutKeys();
    HeaderFacts();
    BodyAKeys();
  }

  lemma LayoutBStoresCasts()
    ensures MeterType in KeptFields(LayoutB) && MeterFirmware in KeptFields(LayoutB)
    ensures PowerFactor1 in KeptFields(LayoutB) && PowerFactor2 in KeptFields(LayoutB)
    ensures PowerFactor3 in KeptFields(LayoutB)
    ensures MaximumDemandPeriod in KeptFields(LayoutB) && AutoResetMaxDemand in KeptFields(LayoutB)
  {
    LayoutKeys();
    HeaderFacts();
    BodyBKeys();
  }

  lemma LayoutAStatusKeys()
    ensures PulseInputHilo in KeptFields(LayoutA) && DirectionOfCurrent in KeptFields(LayoutA)
    ensures OutputsOnoff in KeptFields(LayoutA)
    ensures TotalKwh in KeptFields(LayoutA) && TotalReverseKwh in KeptFields(LayoutA)
    ensures KwhDataDecimalPlaces in KeptFields(LayoutA)
  {
    LayoutKeys();
    BodyAKeys();
  }

  /** Both layouts store every per-line reading. */
  lemma LayoutsStoreLines()
    ensures KeptFields(Lines) <= KeptFields(LayoutA) && KeptFields(Lines) <= KeptFields(LayoutB)
  {
    LayoutKeys();
    Concat(EnergyA, Lines);
    Concat(EnergyA + Lines, TailA);
    Concat(EnergyB, Lines);
    Concat(EnergyB + Lines, TailB);
  }

  /** `request_a` returns every field of its layout, the clock, and the
      eight looked-up states, whatever the response holds. */
  lemma DecodeAKeys(response: seq<byte>, accepts: TimeFields -> bool, now: real)
    ensures DecodeA(response, accepts, now).Keys == KeptFields(LayoutA) + DerivedA
  {
    SplitKeys(response, LayoutA);
    LayoutAStoresCasts();
    FieldsAKeysOf(SplitResponse(response, LayoutA), accepts, now, KeptFields(LayoutA));
  }

  lemma FieldsAKeysOf(s: Split, accepts: TimeFields -> bool, now: real, kept: set<Field>)
    requires s.fields.Keys == kept
    requires MeterType in kept && MeterFirmware in kept
    requires PowerFactor1 in kept && PowerFactor2 in kept && PowerFactor3 in kept
    ensures FieldsA(s, accepts, now).Keys == kept + DerivedA
  {
    FieldsAKeys(s, accepts, now);
    AbsorbIdentity(kept);
  }

  /** Adding keys a set already holds changes nothing. */
  lemma AbsorbIdentity(kept: set<Field>)
    requires MeterType in kept && MeterFirmware in kept
    requires PowerFactor1 in kept && PowerFactor2 in kept && PowerFactor3 in kept
    ensures kept + {MeterType, MeterFirmware, PowerFactor1, PowerFactor2, PowerFactor3} == kept
  {
  }

  lemma AbsorbSettings(kept: set<Field>)
    requires MeterType in kept && MeterFirmware in kept
    requires PowerFactor1 in kept && PowerFactor2 in kept && PowerFactor3 in kept
    requires MaximumDemandPeriod in kept && AutoResetMaxDemand in kept
    ensures kept + {MeterType, MeterFirmware, PowerFactor1, PowerFactor2, PowerFactor3}
      + {MeterTimestamp, MaximumDemandPeriod, AutoResetMaxDemand} == kept + {MeterTimestamp}
  {
  }

  /** `request_b` returns every field of its layout and the clock. */
  lemma DecodeBKeys(response: seq<byte>, kwhPlaces: int, accepts: TimeFields -> bool, now: real)
    ensures DecodeB(response, kwhPlaces, accepts, now).Keys == KeptFields(LayoutB) + {MeterTimestamp}
  {
    SplitKeys(response, LayoutB);
    LayoutBStoresCasts();
    FieldsBKeysOf(SplitResponse(response, LayoutB), kwhPlaces, accepts, now, KeptFields(LayoutB));
  }

  lemma FieldsBKeysOf(s: Split, kwhPlaces: int, accepts: TimeFields -> bool, now: real, kept: set<Field>)
    requires s.fields.Keys == kept
    requires MeterType in kept && MeterFirmware in kept
    requires PowerFactor1 in kept && PowerFactor2 in kept && PowerFactor3 in kept
    requires MaximumDemandPeriod in kept && AutoResetMaxDemand in kept
    ensures FieldsB(s, kwhPlaces, accepts, now).Keys == kept + {MeterTimestamp}
  {
    FieldsBKeys(s, kwhPlaces, accepts, now);
    AbsorbSettings(kept);
  }

  /** Field by field, what `request_a` returns for every received field
      other than the identity and power factors: the field's bytes under the
      cast the reference table gives it, the energy registers with the
      response's own decimal places. */
  lemma DecodeAValues(response: seq<byte>, accepts: TimeFields -> bool, now: real, k: Field)
    requires k in KeptFields(LayoutA)
    requires k != MeterType && k != MeterFirmware
    requires k != PowerFactor1 && k != PowerFactor2 && k != PowerFactor3
    ensures k in DecodeA(response, accepts, now)
    ensures DecodeA(response, accepts, now)[k] ==
      CastField(k, BytesV(Raw(SplitResponse(response, LayoutA), k)), PlacesA(response))
  {
    SplitKeys(response, LayoutA);
    LayoutsReceived();
    FieldsAValue(SplitResponse(response, LayoutA), accepts, now, k);
  }

  /** The same for `request_b`, whose energy registers use the places held
      by the session; its demand period and reset mode are looked up. */
  lemma DecodeBValues(response: seq<byte>, kwhPlaces: int, accepts: TimeFields -> bool, now: real, k: Field)
    requires k in KeptFields(LayoutB)
    requires k != MeterType && k != MeterFirmware
    requires k != PowerFactor1 && k != PowerFactor2 && k != PowerFactor3
    requires k != MaximumDemandPeriod && k != AutoResetMaxDemand
    ensures k in DecodeB(response, kwhPlaces, accepts, now)
    ensures DecodeB(response, kwhPlaces, accepts, now)[k] ==
      CastField(k, BytesV(Raw(SplitResponse(response, LayoutB), k)), kwhPlaces)
  {
    SplitKeys(response, LayoutB);
    LayoutsReceived();
    FieldsBValue(SplitResponse(response, LayoutB), kwhPlaces, accepts, now, k);
  }

  /** The identity of the meter in response A: the meter type by name (nil
      for an unlisted type), the firmware as the number its hex text reads
      as, each power factor as its `C0.99` text, and the meter's clock. */
  lemma DecodeAIdentity(response: seq<byte>, accepts: TimeFields -> bool, now: real)
    ensures var s, d := SplitResponse(response, LayoutA), DecodeA(response, accepts, now);
      && MeterType in d && d[MeterType] == TypeNameOf(StrV(Hex(Raw(s, MeterType))))
      && MeterFirmware in d && d[MeterFirmware] == IntV(ToI(Hex(Raw(s, MeterFirmware))))
      && PowerFactor1 in d && d[PowerFactor1] == StrV(PowerFactorText(Raw(s, PowerFactor1)))
      && PowerFactor2 in d && d[PowerFactor2] == StrV(PowerFactorText(Raw(s, PowerFactor2)))
      && PowerFactor3 in d && d[PowerFactor3] == StrV(PowerFactorText(Raw(s, PowerFactor3)))
      && MeterTimestamp in d && d[MeterTimestamp] == TimeV(AsDateTime(Chars(s.stamp), accepts, now))
  {
    SplitKeys(response, LayoutA);
    LayoutAStatusKeys();
    FieldsAIdentity(SplitResponse(response, LayoutA), accepts, now);
  }

  /** The same identity in response B. */
  lemma DecodeBIdentity(response: seq<byte>, kwhPlaces: int, accepts: TimeFields -> bool, now: real)
    ensures var s, d := SplitResponse(response, LayoutB), DecodeB(response, kwhPlaces, accepts, now);
      && MeterType in d && d[MeterType] == TypeNameOf(StrV(Hex(Raw(s, MeterType))))
      && MeterFirmware in d && d[MeterFirmware] == IntV(ToI(Hex(Raw(s, MeterFirmware))))
      && PowerFactor1 in d && d[PowerFactor1] == StrV(PowerFactorText(Raw(s, PowerFactor1)))
      && PowerFactor2 in d && d[PowerFactor2] == StrV(PowerFactorText(Raw(s, PowerFactor2)))
      && PowerFactor3 in d && d[PowerFactor3] == StrV(PowerFactorText(Raw(s, PowerFactor3)))
      && MeterTimestamp in d && d[MeterTimestamp] == TimeV(AsDateTime(Chars(s.stamp), accepts, now))
  {
    FieldsBIdentity(SplitResponse(response, LayoutB), kwhPlaces, accepts, now);
  }

  /** The states `request_a` looks up for the status bytes: pulse input
      levels, current directions and outputs under the number each byte
      reads as, all nil together when the number is not in the table. */
  lemma DecodeAStatus(response: seq<byte>, accepts: TimeFields -> bool, now: real)
    ensures var s, d := SplitResponse(response, LayoutA), DecodeA(response, accepts, now);
      var p := PulseInputsOf(IntV(ToI(Chars(Raw(s, PulseInputHilo)))));
      var c := DirectionsOf(IntV(ToI(Chars(Raw(s, DirectionOfCurrent)))));
      var o := OutputsOf(IntV(ToI(Chars(Raw(s, OutputsOnoff)))));
      && DerivedA <= d.Keys
      && d[Pulse1Input] == p.0 && d[Pulse2Input] == p.1 && d[Pulse3Input] == p.2
      && d[CurrentDirectionL1] == c.0 && d[CurrentDirectionL2] == c.1 && d[CurrentDirectionL3] == c.2
      && d[Output1] == o.0 && d[Output2] == o.1
  {
    SplitKeys(response, LayoutA);
    LayoutAStatusKeys();
    DecodeAKeys(response, accepts, now);
    FieldsAStatus(SplitResponse(response, LayoutA), accepts, now);
  }

  /** `request_b` delivers the demand period in minutes and the reset mode,
      looked up under the numbers their bytes read as (nil when unlisted). */
  lemma DecodeBSettings(response: seq<byte>, kwhPlaces: int, accepts: TimeFields -> bool, now: real)
    ensures var s, d := SplitResponse(response, LayoutB), DecodeB(response, kwhPlaces, accepts, now);
      && MaximumDemandPeriod in d
      && d[MaximumDemandPeriod] == DemandPeriodOf(IntV(ToI(Chars(Raw(s, MaximumDemandPeriod)))))
      && AutoResetMaxDemand in d
      && d[AutoResetMaxDemand] == AutoResetOf(IntV(ToI(Chars(Raw(s, AutoResetMaxDemand)))))
  {
    SplitKeys(response, LayoutB);
    LayoutBStoresCasts();
    FieldsBSettings(SplitResponse(response, LayoutB), kwhPlaces, accepts, now);
  }

  /** Every per-line reading of response A, and its two energy totals, is
      delivered as a number. */
  lemma DecodeANumeric(response: seq<byte>, accepts: TimeFields -> bool, now: real)
    ensures LinesNumeric(DecodeA(response, accepts, now))
    ensures NumberAt(DecodeA(response, accepts, now), TotalKwh)
    ensures NumberAt(DecodeA(response, accepts, now), TotalReverseKwh)
  {
    SplitKeys(response, LayoutA);
    LayoutsStoreLines();
    LinesKeys();
    LayoutAStatusKeys();
    FieldsALines(SplitResponse(response, LayoutA), accepts, now);
  }

  /** Every per-line reading of response B is delivered as a number. */
  lemma DecodeBNumeric(response: seq<byte>, kwhPlaces: int, accepts: TimeFields -> bool, now: real)
    ensures LinesNumeric(DecodeB(response, kwhPlaces, accepts, now))
  {
    SplitKeys(response, LayoutB);
    LayoutsStoreLines();
    LinesKeys();
    FieldsBLines(SplitResponse(response, LayoutB), kwhPlaces, accepts, now);
  }

  /** Response A carries the energy places as an Integer: the number its
      byte reads as, the same number `request_a` stores before casting. */
  lemma DecodeAPlaces(response: seq<byte>, accepts: TimeFields -> bool, now: real)
    ensures KwhDataDecimalPlaces in DecodeA(response, accepts, now)
    ensures DecodeA(response, accepts, now)[KwhDataDecimalPlaces] == IntV(PlacesA(response))
  {
    SplitKeys(response, LayoutA);
    LayoutAStatusKeys();
    FieldsAPlaces(SplitResponse(response, LayoutA), accepts, now);
  }

  lemma FieldsAPlaces(s: Split, accepts: TimeFields -> bool, now: real)
    requires KwhDataDecimalPlaces in s.fields
    ensures KwhDataDecimalPlaces in FieldsA(s, accepts, now)
    ensures FieldsA(s, accepts, now)[KwhDataDecimalPlaces] == IntV(Places(s))
  {
    StatusCasts();
    CastStatus(s, accepts, now, Places(s), KwhDataDecimalPlaces);
    LookupsAKeeps(CastAll(Prepared(s, accepts, now), Places(s)), KwhDataDecimalPlaces);
  }

  lemma FieldsALines(s: Split, accepts: TimeFields -> bool, now: real)
    requires VoltsL1 in s.fields && VoltsL2 in s.fields && VoltsL3 in s.fields
    requires AmpsL1 in s.fields && AmpsL2 in s.fields && AmpsL3 in s.fields
    requires WattsL1 in s.fields && WattsL2 in s.fields && WattsL3 in s.fields
    requires TotalKwh in s.fields && TotalReverseKwh in s.fields
    ensures LinesNumeric(FieldsA(s, accepts, now))
    ensures NumberAt(FieldsA(s, accepts, now), TotalKwh) && NumberAt(FieldsA(s, accepts, now), TotalReverseKwh)
  {
    FieldsAThree(s, accepts, now, VoltsL1, VoltsL2, VoltsL3);
    FieldsAThree(s, accepts, now, AmpsL1, AmpsL2, AmpsL3);
    FieldsAThree(s, accepts, now, WattsL1, WattsL2, WattsL3);
    FieldsAThree(s, accepts, now, TotalKwh, TotalReverseKwh, TotalReverseKwh);
  }

  lemma FieldsBLines(s: Split, kwhPlaces: int, accepts: TimeFields -> bool, now: real)
    requires VoltsL1 in s.fields && VoltsL2 in s.fields && VoltsL3 in s.fields
    requires AmpsL1 in s.fields && AmpsL2 in s.fields && AmpsL3 in s.fields
    requires WattsL1 in s.fields && WattsL2 in s.fields && WattsL3 in s.fields
    ensures LinesNumeric(FieldsB(s, kwhPlaces, accepts, now))
  {
    FieldsBThree(s, kwhPlaces, accepts, now, VoltsL1, VoltsL2, VoltsL3);
    FieldsBThree(s, kwhPlaces, accepts, now, AmpsL1, AmpsL2, AmpsL3);
    FieldsBThree(s, kwhPlaces, accepts, now, WattsL1, WattsL2, WattsL3);
  }

  /** Three received readings at once (one line group). */
  lemma FieldsAThree(s: Split, accepts: TimeFields -> bool, now: real, x: Field, y: Field, z: Field)
    requires x in s.fields && y in s.fields && z in s.fields
    requires Reading(x) && Reading(y) && Reading(z)
    ensures NumberAt(FieldsA(s, accepts, now), x) && NumberAt(FieldsA(s, accepts, now), y)
    ensures NumberAt(FieldsA(s, accepts, now), z)
  {
    FieldsANumber(s, accepts, now, x);
    FieldsANumber(s, accepts, now, y);
    FieldsANumber(s, accepts, now, z);
  }

  lemma FieldsBThree(s: Split, kwhPlaces: int, accepts: TimeFields -> bool, now: real, x: Field, y: Field, z: Field)
    requires x in s.fields && y in s.fields && z in s.fields
    requires Reading(x) && Reading(y) && Reading(z)
    ensures NumberAt(FieldsB(s, kwhPlaces, accepts, now), x) && NumberAt(FieldsB(s, kwhPlaces, accepts, now), y)
    ensures NumberAt(FieldsB(s, kwhPlaces, accepts, now), z)
  {
    FieldsBNumber(s, kwhPlaces, accepts, now, x);
    FieldsBNumber(s, kwhPlaces, accepts, now, y);
    FieldsBNumber(s, kwhPlaces, accepts, now, z);
  }

  /** A per-line reading or an energy total: received, and cast to a number. */
  lemma ReadingCasts(k: Field)
    requires Reading(k)
    ensures CastOf(k).Some? && !Derived(k)
    ensures k != MeterType && k != MeterFirmware
    ensures k != PowerFactor1 && k != PowerFactor2 && k != PowerFactor3
    ensures k != MaximumDemandPeriod && k != AutoResetMaxDemand
  {
  }

  predicate Reading(k: Field)
  {
    k in {VoltsL1, VoltsL2, VoltsL3, AmpsL1, AmpsL2, AmpsL3, WattsL1, WattsL2, WattsL3, TotalKwh, TotalReverseKwh}
  }
}
