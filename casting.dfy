/** `cast_response_to_correct_types` (lib/ekm-omnimeter/meter.rb): four
    passes over fixed key lists that turn the joined response strings into
    Integers and fixed-point Floats, each key cast only when the hash has it. */
module Casting {
  import opened Wrappers
  import opened RubyText
  import opened Telemetry
  import opened Caster

  /** The type a key is cast to: an Integer, a Float with a fixed number of
      decimal places, or a Float with the meter's configured energy places. */
  datatype Cast = ToInteger | Fixed(places: nat) | Kwh

  /** One cast; `kwhPlaces` is `@values[:kwh_data_decimal_places]`. */
  function Apply(c: Cast, v: Value, kwhPlaces: int): Value
  {
    match c
    case ToInteger => AsInteger(v)
    case Fixed(p) => Scaled(v, p)
    case Kwh => Scaled(v, kwhPlaces)
  }

  /** The reference table: the type each field of a reading is delivered as,
      by field. Fields without an entry are never cast. */
  function CastOf(f: Field): Option<Cast>
  {
    match f
    case MeterFirmware | KwhDataDecimalPlaces | WattsL1 | WattsL2 | WattsL3 | WattsTotal
      | CtRatio | Pulse1Count | Pulse1Ratio | Pulse2Count | Pulse2Ratio | Pulse3Count | Pulse3Ratio
      | ReactivePower1 | ReactivePower2 | ReactivePower3 | TotalReactivePower
      | SettablePulsePerKwhRatio | PulseInputHilo | DirectionOfCurrent | OutputsOnoff
      | MaximumDemandPeriod | AutoResetMaxDemand => Some(ToInteger)
    case VoltsL1 | VoltsL2 | VoltsL3 | AmpsL1 | AmpsL2 | AmpsL3 | MaximumDemand => Some(Fixed(1))
    case Frequency => Some(Fixed(2))
    case TotalKwh | ReactiveKwhKvarh | TotalForwardKwh | TotalReverseKwh | NetKwh
      | TotalKwhL1 | TotalKwhL2 | TotalKwhL3 | ReverseKwhL1 | ReverseKwhL2 | ReverseKwhL3
      | ResettableTotalKwh | ResettableReverseKwh
      | TotalKwhT1 | TotalKwhT2 | TotalKwhT3 | TotalKwhT4
      | ReverseKwhT1 | ReverseKwhT2 | ReverseKwhT3 | ReverseKwhT4 => Some(Kwh)
    case _ => None
  }

  /** The value a field of the reading should hold after casting, by the
      reference table. */
  function CastField(k: Field, v: Value, kwhPlaces: int): Value
  {
    match CastOf(k)
    case None => v
    case Some(c) => Apply(c, v, kwhPlaces)
  }

  /** The reading as the reference table says it is delivered: every field
      cast once by its entry, no field added or lost. */
  function CastAll(d: map<Field, Value>, kwhPlaces: int): map<Field, Value>
  {
    map k | k in d :: CastField(k, d[k], kwhPlaces)
  }

  // ---------------------------------------------------------------------
  // The key lists of `cast_response` (meter.rb:437-504), in their order:
  // the Integer keys, the keys with one decimal place, the key with two, and
  // the keys with `kwh_data_decimal_places`; the first and the last list are
  // each written as three consecutive parts

  const IntegerKeys1: seq<Field> :=
    [MeterFirmware, KwhDataDecimalPlaces, WattsL1, WattsL2, WattsL3, WattsTotal, CtRatio, Pulse1Count]
  const IntegerKeys2: seq<Field> :=
    [Pulse1Ratio, Pulse2Count, Pulse2Ratio, Pulse3Count, Pulse3Ratio,
     ReactivePower1, ReactivePower2, ReactivePower3]
  const IntegerKeys3: seq<Field> :=
    [TotalReactivePower, SettablePulsePerKwhRatio, PulseInputHilo, DirectionOfCurrent,
     OutputsOnoff, MaximumDemandPeriod, AutoResetMaxDemand]
  const IntegerKeys: seq<Field> := IntegerKeys1 + IntegerKeys2 + IntegerKeys3

  const TenthsKeys: seq<Field> := [VoltsL1, VoltsL2, VoltsL3, AmpsL1, AmpsL2, AmpsL3, MaximumDemand]

  const HundredthsKeys: seq<Field> := [Frequency]

  const EnergyKeys1: seq<Field> :=
    [TotalKwh, ReactiveKwhKvarh, TotalForwardKwh, TotalReverseKwh, NetKwh,
     TotalKwhL1, TotalKwhL2, TotalKwhL3]
  const EnergyKeys2: seq<Field> :=
    [ReverseKwhL1, ReverseKwhL2, ReverseKwhL3, ResettableTotalKwh, ResettableReverseKwh,
     TotalKwhT1, TotalKwhT2, TotalKwhT3]
  const EnergyKeys3: seq<Field> :=
    [TotalKwhT4, ReverseKwhT1, ReverseKwhT2, ReverseKwhT3, ReverseKwhT4]
  const EnergyKeys: seq<Field> := EnergyKeys1 + EnergyKeys2 + EnergyKeys3

  // ---------------------------------------------------------------------
  // The passes

  /** One `keys.each { |k| d[k] = cast(d[k]) if d.has_key?(k) }` pass. */
  function CastKeys(d: map<Field, Value>, keys: seq<Field>, c: Cast, kwhPlaces: int): map<Field, Value>
    decreases |keys|
  {
    if keys == [] then d
    else
      var k := keys[0];
      CastKeys(if k in d then d[k := Apply(c, d[k], kwhPlaces)] else d, keys[1..], c, kwhPlaces)
  }

  /** `cast_response_to_correct_types(d)` with the energy places given: the
      four passes in source order. */
  function CastPasses(d: map<Field, Value>, kwhPlaces: int): map<Field, Value>
  {
    var d1 := CastKeys(d, IntegerKeys, ToInteger, kwhPlaces);
    var d2 := CastKeys(d1, TenthsKeys, Fixed(1), kwhPlaces);
    var d3 := CastKeys(d2, HundredthsKeys, Fixed(2), kwhPlaces);
    CastKeys(d3, EnergyKeys, Kwh, kwhPlaces)
  }

  /** One pass, as the source's `each` loop. */
  method CastEach(d: map<Field, Value>, keys: seq<Field>, c: Cast, kwhPlaces: int) returns (r: map<Field, Value>)
    ensures r == CastKeys(d, keys, c, kwhPlaces)
  {
    r := d;
    var i := 0;
    while i < |keys|
      invariant i <= |keys|
      invariant CastKeys(r, keys[i..], c, kwhPlaces) == CastKeys(d, keys, c, kwhPlaces)
    {
      var k := keys[i];
      if k in r {
        r := r[k := Apply(c, r[k], kwhPlaces)];
      }
      assert keys[i..][1..] == keys[i + 1..];
      i := i + 1;
    }
    assert keys[i..] == [];
  }

  /** `cast_response_to_correct_types(d)`: the four passes in source order. */
  method CastResponse(d: map<Field, Value>, kwhPlaces: int) returns (r: map<Field, Value>)
    ensures r == CastPasses(d, kwhPlaces)
    ensures r == CastAll(d, kwhPlaces)
  {
    r := CastEach(d, IntegerKeys, ToInteger, kwhPlaces);
    r := CastEach(r, TenthsKeys, Fixed(1), kwhPlaces);
    r := CastEach(r, HundredthsKeys, Fixed(2), kwhPlaces);
    r := CastEach(r, EnergyKeys, Kwh, kwhPlaces);
    PassesMatchTable(d, kwhPlaces);
  }

  // ---------------------------------------------------------------------
  // Facts about one pass

  predicate Distinct(s: seq<Field>)
  {
    forall i, j | 0 <= i < j < |s| :: s[i] != s[j]
  }

  predicate Apart(a: seq<Field>, b: seq<Field>)
  {
    forall i | 0 <= i < |a| :: a[i] !in b
  }

  /** A pass keeps the set of keys: it never adds one that was missing. */
  lemma {:induction false} CastKeysDomain(d: map<Field, Value>, keys: seq<Field>, c: Cast, kwhPlaces: int)
    ensures CastKeys(d, keys, c, kwhPlaces).Keys == d.Keys
    decreases |keys|
  {
    if keys != [] {
      var k := keys[0];
      CastKeysDomain(if k in d then d[k := Apply(c, d[k], kwhPlaces)] else d, keys[1..], c, kwhPlaces);
    }
  }

  /** A key outside the list keeps its value. */
  lemma {:induction false} CastKeysOther(d: map<Field, Value>, keys: seq<Field>, c: Cast, kwhPlaces: int, k: Field)
    requires k in d && k !in keys
    ensures k in CastKeys(d, keys, c, kwhPlaces) && CastKeys(d, keys, c, kwhPlaces)[k] == d[k]
    decreases |keys|
  {
    if keys != [] {
      var j := keys[0];
      assert k != j;
      CastKeysOther(if j in d then d[j := Apply(c, d[j], kwhPlaces)] else d, keys[1..], c, kwhPlaces, k);
    }
  }

  /** A key on a list without repeats is cast exactly once. */
  lemma {:induction false} CastKeysHit(d: map<Field, Value>, keys: seq<Field>, c: Cast, kwhPlaces: int, k: Field)
    requires k in d && k in keys && Distinct(keys)
    ensures k in CastKeys(d, keys, c, kwhPlaces)
    ensures CastKeys(d, keys, c, kwhPlaces)[k] == Apply(c, d[k], kwhPlaces)
    decreases |keys|
  {
    var j := keys[0];
    var d' := if j in d then d[j := Apply(c, d[j], kwhPlaces)] else d;
    assert Distinct(keys[1..]) by {
      forall a, b | 0 <= a < b < |keys[1..]|
        ensures keys[1..][a] != keys[1..][b]
      {
        assert keys[1..][a] == keys[a + 1] && keys[1..][b] == keys[b + 1];
      }
    }
    if j == k {
      assert k !in keys[1..] by {
        forall a | 0 <= a < |keys[1..]|
          ensures keys[1..][a] != k
        {
          assert keys[1..][a] == keys[a + 1];
        }
      }
      CastKeysOther(d', keys[1..], c, kwhPlaces, k);
    } else {
      assert k in keys[1..];
      CastKeysHit(d', keys[1..], c, kwhPlaces, k);
    }
  }

  lemma DistinctAppend(a: seq<Field>, b: seq<Field>)
    requires Distinct(a) && Distinct(b) && Apart(a, b)
    ensures Distinct(a + b)
  {
    var c := a + b;
    forall i, j | 0 <= i < j < |c|
      ensures c[i] != c[j]
    {
      if i < |a| && j >= |a| {
        assert c[j] == b[j - |a|];
      } else if i >= |a| {
        assert c[i] == b[i - |a|] && c[j] == b[j - |a|];
      }
    }
  }

  // ---------------------------------------------------------------------
  // Facts about the lists

  lemma Integer1Distinct() ensures Distinct(IntegerKeys1) {}
  lemma Integer2Distinct() ensures Distinct(IntegerKeys2) {}
  lemma Integer3Distinct() ensures Distinct(IntegerKeys3) {}
  lemma Integer12Apart() ensures Apart(IntegerKeys1, IntegerKeys2) {}
  lemma Integer123Apart() ensures Apart(IntegerKeys1 + IntegerKeys2, IntegerKeys3) {}
  lemma Energy1Distinct() ensures Distinct(EnergyKeys1) {}
  lemma Energy2Distinct() ensures Distinct(EnergyKeys2) {}
  lemma Energy3Distinct() ensures Distinct(EnergyKeys3) {}
  lemma Energy12Apart() ensures Apart(EnergyKeys1, EnergyKeys2) {}
  lemma Energy123Apart() ensures Apart(EnergyKeys1 + EnergyKeys2, EnergyKeys3) {}

  lemma IntegerKeysDistinct() ensures Distinct(IntegerKeys)
  {
    Integer1Distinct(); Integer2Distinct(); Integer3Distinct();
    Integer12Apart(); Integer123Apart();
    DistinctAppend(IntegerKeys1, IntegerKeys2);
    DistinctAppend(IntegerKeys1 + IntegerKeys2, IntegerKeys3);
  }

  lemma EnergyKeysDistinct() ensures Distinct(EnergyKeys)
  {
    Energy1Distinct(); Energy2Distinct(); Energy3Distinct();
    Energy12Apart(); Energy123Apart();
    DistinctAppend(EnergyKeys1, EnergyKeys2);
    DistinctAppend(EnergyKeys1 + EnergyKeys2, EnergyKeys3);
  }

  lemma TenthsKeysDistinct() ensures Distinct(TenthsKeys) {}
  lemma HundredthsKeysDistinct() ensures Distinct(HundredthsKeys) {}

  /** No list names a key twice, so every listed key is cast exactly once. */
  lemma ListsDistinct()
    ensures Distinct(IntegerKeys) && Distinct(TenthsKeys) && Distinct(HundredthsKeys) && Distinct(EnergyKeys)
  {
    IntegerKeysDistinct();
    EnergyKeysDistinct();
    TenthsKeysDistinct();
    HundredthsKeysDistinct();
  }

  /** The lists and the reference table agree: a key is on a list exactly
      when the table gives it that list's cast. */
  lemma IntegerKeysMatchTable(k: Field)
    ensures k in IntegerKeys <==> CastOf(k) == Some(ToInteger)
  {
    IntegerListed(k);
    IntegerTabled(k);
  }

  lemma IntegerListed(k: Field)
    ensures k in IntegerKeys ==> CastOf(k) == Some(ToInteger)
  {
    assert k in IntegerKeys ==> k in IntegerKeys1 || k in IntegerKeys2 || k in IntegerKeys3;
    IntegerListed1(k);
    IntegerListed2(k);
    IntegerListed3(k);
  }

  lemma IntegerListed1(k: Field) ensures k in IntegerKeys1 ==> CastOf(k) == Some(ToInteger) {}
  lemma IntegerListed2(k: Field) ensures k in IntegerKeys2 ==> CastOf(k) == Some(ToInteger) {}
  lemma IntegerListed3(k: Field) ensures k in IntegerKeys3 ==> CastOf(k) == Some(ToInteger) {}

  lemma IntegerTabled(k: Field)
    ensures CastOf(k) == Some(ToInteger) ==> k in IntegerKeys
  {
  }

  lemma TenthsKeysMatchTable(k: Field)
    ensures k in TenthsKeys <==> CastOf(k) == Some(Fixed(1))
  {
  }

  lemma HundredthsKeysMatchTable(k: Field)
    ensures k in HundredthsKeys <==> CastOf(k) == Some(Fixed(2))
  {
  }

  lemma EnergyKeysMatchTable(k: Field)
    ensures k in EnergyKeys <==> CastOf(k) == Some(Kwh)
  {
    EnergyListed(k);
    EnergyTabled(k);
  }

  lemma EnergyListed(k: Field)
    ensures k in EnergyKeys ==> CastOf(k) == Some(Kwh)
  {
    assert k in EnergyKeys ==> k in EnergyKeys1 || k in EnergyKeys2 || k in EnergyKeys3;
    EnergyListed1(k);
    EnergyListed2(k);
    EnergyListed3(k);
  }

  lemma EnergyListed1(k: Field) ensures k in EnergyKeys1 ==> CastOf(k) == Some(Kwh) {}
  lemma EnergyListed2(k: Field) ensures k in EnergyKeys2 ==> CastOf(k) == Some(Kwh) {}
  lemma EnergyListed3(k: Field) ensures k in EnergyKeys3 ==> CastOf(k) == Some(Kwh) {}

  lemma EnergyTabled(k: Field)
    ensures CastOf(k) == Some(Kwh) ==> k in EnergyKeys
  {
  }

  /** The source's passes deliver the reading the reference table
      describes: every key of the reading ends up with the type the table
      gives it, cast once from its text, and no key is added or lost. */
  lemma PassesMatchTable(d: map<Field, Value>, kwhPlaces: int)
    ensures CastPasses(d, kwhPlaces) == CastAll(d, kwhPlaces)
  {
    PassesByField(d, kwhPlaces);
    var r, t := CastPasses(d, kwhPlaces), CastAll(d, kwhPlaces);
    assert r.Keys == t.Keys;
    assert forall k | k in r :: r[k] == t[k];
  }

  lemma PassesByField(d: map<Field, Value>, kwhPlaces: int)
    ensures CastPasses(d, kwhPlaces).Keys == d.Keys
    ensures forall k | k in d :: CastPasses(d, kwhPlaces)[k] == CastField(k, d[k], kwhPlaces)
  {
    var d1 := CastKeys(d, IntegerKeys, ToInteger, kwhPlaces);
    var d2 := CastKeys(d1, TenthsKeys, Fixed(1), kwhPlaces);
    var d3 := CastKeys(d2, HundredthsKeys, Fixed(2), kwhPlaces);
    CastKeysDomain(d, IntegerKeys, ToInteger, kwhPlaces);
    CastKeysDomain(d1, TenthsKeys, Fixed(1), kwhPlaces);
    CastKeysDomain(d2, HundredthsKeys, Fixed(2), kwhPlaces);
    CastKeysDomain(d3, EnergyKeys, Kwh, kwhPlaces);
    ListsDistinct();
    forall k | k in d
      ensures CastPasses(d, kwhPlaces)[k] == CastField(k, d[k], kwhPlaces)
    {
      CastOneField(d, kwhPlaces, k);
    }
  }

  lemma CastOneField(d: map<Field, Value>, kwhPlaces: int, k: Field)
    requires k in d
    requires Distinct(IntegerKeys) && Distinct(TenthsKeys) && Distinct(HundredthsKeys) && Distinct(EnergyKeys)
    ensures k in CastPasses(d, kwhPlaces) && CastPasses(d, kwhPlaces)[k] == CastField(k, d[k], kwhPlaces)
  {
    FourPasses(d, IntegerKeys, TenthsKeys, HundredthsKeys, EnergyKeys, kwhPlaces, k);
    CastChain(k, d[k], kwhPlaces);
  }

  /** Four passes over lists without repeats, for any four lists. */
  lemma FourPasses(d: map<Field, Value>, ks1: seq<Field>, ks2: seq<Field>, ks3: seq<Field>, ks4: seq<Field>,
                   kwhPlaces: int, k: Field)
    requires k in d && Distinct(ks1) && Distinct(ks2) && Distinct(ks3) && Distinct(ks4)
    ensures var r := CastKeys(CastKeys(CastKeys(CastKeys(d, ks1, ToInteger, kwhPlaces), ks2, Fixed(1), kwhPlaces),
                                       ks3, Fixed(2), kwhPlaces), ks4, Kwh, kwhPlaces);
      var v1 := if k in ks1 then Apply(ToInteger, d[k], kwhPlaces) else d[k];
      var v2 := if k in ks2 then Apply(Fixed(1), v1, kwhPlaces) else v1;
      var v3 := if k in ks3 then Apply(Fixed(2), v2, kwhPlaces) else v2;
      k in r && r[k] == if k in ks4 then Apply(Kwh, v3, kwhPlaces) else v3
  {
    var d1 := CastKeys(d, ks1, ToInteger, kwhPlaces);
    var d2 := CastKeys(d1, ks2, Fixed(1), kwhPlaces);
    var d3 := CastKeys(d2, ks3, Fixed(2), kwhPlaces);
    CastPass(d, ks1, ToInteger, kwhPlaces, k);
    CastPass(d1, ks2, Fixed(1), kwhPlaces, k);
    CastPass(d2, ks3, Fixed(2), kwhPlaces, k);
    CastPass(d3, ks4, Kwh, kwhPlaces, k);
  }

  /** One pass over a list without repeats casts a present key exactly when
      the list names it. */
  lemma CastPass(d: map<Field, Value>, keys: seq<Field>, c: Cast, kwhPlaces: int, k: Field)
    requires k in d && Distinct(keys)
    ensures k in CastKeys(d, keys, c, kwhPlaces)
    ensures CastKeys(d, keys, c, kwhPlaces)[k] == if k in keys then Apply(c, d[k], kwhPlaces) else d[k]
  {
    if k in keys {
      CastKeysHit(d, keys, c, kwhPlaces, k);
    } else {
      CastKeysOther(d, keys, c, kwhPlaces, k);
    }
  }

  /** The four passes in a row cast a value as the reference table says. */
  lemma CastChain(k: Field, v: Value, kwhPlaces: int)
    ensures var v1 := if k in IntegerKeys then Apply(ToInteger, v, kwhPlaces) else v;
      var v2 := if k in TenthsKeys then Apply(Fixed(1), v1, kwhPlaces) else v1;
      var v3 := if k in HundredthsKeys then Apply(Fixed(2), v2, kwhPlaces) else v2;
      (if k in EnergyKeys then Apply(Kwh, v3, kwhPlaces) else v3) == CastField(k, v, kwhPlaces)
  {
    IntegerKeysMatchTable(k);
    TenthsKeysMatchTable(k);
    HundredthsKeysMatchTable(k);
    EnergyKeysMatchTable(k);
  }

  /** A field received as plain digits is delivered as the number those
      digits spell: a whole number for the Integer keys, and that number with
      the decimal point placed 1, 2 or `kwhPlaces` digits from the right for
      the Float keys. */
  lemma CastDigits(k: Field, b: seq<byte>, kwhPlaces: nat)
    requires AllDigits(Chars(b))
    ensures CastOf(k) == Some(ToInteger) ==> CastField(k, BytesV(b), kwhPlaces) == IntV(DigitsValue(Chars(b)))
    ensures CastOf(k) == Some(Fixed(1)) ==> CastField(k, BytesV(b), kwhPlaces) == DecV(DigitsValue(Chars(b)), 1)
    ensures CastOf(k) == Some(Fixed(2)) ==> CastField(k, BytesV(b), kwhPlaces) == DecV(DigitsValue(Chars(b)), 2)
    ensures CastOf(k) == Some(Kwh) ==> CastField(k, BytesV(b), kwhPlaces) == DecV(DigitsValue(Chars(b)), kwhPlaces)
    ensures CastOf(k) == None ==> CastField(k, BytesV(b), kwhPlaces) == BytesV(b)
  {
    ToIDigits(Chars(b));
    var v := CastField(k, BytesV(b), kwhPlaces);
    match CastOf(k)
    case None =>
      assert v == BytesV(b);
    case Some(c) =>
      assert v == Apply(c, BytesV(b), kwhPlaces);
  }

  /** Every cast of received text is a number: an Integer for the integer
      keys, an exact decimal for the others. */
  lemma CastFieldNumber(k: Field, v: Value, kwhPlaces: int)
    requires v.BytesV? || v.StrV?
    ensures CastOf(k) == Some(ToInteger) ==> CastField(k, v, kwhPlaces).IntV?
    ensures CastOf(k).Some? && CastOf(k) != Some(ToInteger) ==> CastField(k, v, kwhPlaces).DecV?
    ensures CastOf(k).Some? ==> IsNumber(CastField(k, v, kwhPlaces))
  {
  }


  /** `cast_response_to_correct_types` on the identity keys: only the
      firmware text is read as a number. */
  lemma CastIdentity(p: map<Field, Value>, places: int)
    requires MeterType in p && MeterFirmware in p && MeterTimestamp in p
    requires PowerFactor1 in p && PowerFactor2 in p && PowerFactor3 in p
    ensures MeterType in CastAll(p, places) && CastAll(p, places)[MeterType] == p[MeterType]
    ensures MeterFirmware in CastAll(p, places)
    ensures CastAll(p, places)[MeterFirmware] == AsInteger(p[MeterFirmware])
    ensures PowerFactor1 in CastAll(p, places) && CastAll(p, places)[PowerFactor1] == p[PowerFactor1]
    ensures PowerFactor2 in CastAll(p, places) && CastAll(p, places)[PowerFactor2] == p[PowerFactor2]
    ensures PowerFactor3 in CastAll(p, places) && CastAll(p, places)[PowerFactor3] == p[PowerFactor3]
    ensures MeterTimestamp in CastAll(p, places) && CastAll(p, places)[MeterTimestamp] == p[MeterTimestamp]
  {
    CastUncast(p, places, MeterType);
    CastUncast(p, places, PowerFactor1);
    CastUncast(p, places, PowerFactor2);
    CastUncast(p, places, PowerFactor3);
    CastUncast(p, places, MeterTimestamp);
    CastToInteger(p, places, MeterFirmware);
  }

  /** A field without an entry in the table passes the cast unchanged. */
  lemma CastUncast(p: map<Field, Value>, places: int, k: Field)
    requires k in p && CastOf(k) == None
    ensures k in CastAll(p, places) && CastAll(p, places)[k] == p[k]
  {
  }

  /** An Integer field is sent `to_i`. */
  lemma CastToInteger(p: map<Field, Value>, places: int, k: Field)
    requires k in p && CastOf(k) == Some(ToInteger)
    ensures k in CastAll(p, places) && CastAll(p, places)[k] == AsInteger(p[k])
  {
  }

  /** The status and setting bytes and the energy places are among the
      Integer fields. */
  lemma StatusCasts()
    ensures CastOf(PulseInputHilo) == Some(ToInteger) && CastOf(DirectionOfCurrent) == Some(ToInteger)
    ensures CastOf(OutputsOnoff) == Some(ToInteger)
    ensures CastOf(MaximumDemandPeriod) == Some(ToInteger) && CastOf(AutoResetMaxDemand) == Some(ToInteger)
    ensures CastOf(KwhDataDecimalPlaces) == Some(ToInteger)
  {
  }
}
