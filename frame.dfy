/** The positional layouts of the two 255-byte responses and the shift walk
    `request_a` / `request_b` perform over them (lib/ekm-omnimeter/meter.rb,
    the `a.shift(n)` sequences). A layout is a table of (slot, width)
    entries; walking it consumes the response left to right. */
module Frame {
  import opened Wrappers
  import opened RubyText
  import opened Telemetry

  /** What a shift does with the bytes it takes: store them under a key,
      throw them away (STX, reserved and marker spans), or keep them as the
      `meter_timestamp` local. */
  datatype Slot = Keep(field: Field) | Discard | Stamp

  datatype Entry = Entry(slot: Slot, width: nat)

  /** The result of a walk: the hash `d` of byte slices and the timestamp text. */
  datatype Split = Split(fields: map<Field, seq<byte>>, stamp: seq<byte>)

  // ---------------------------------------------------------------------
  // The width tables

  /** STX, meter type, firmware and address: the prefix both responses share. */
  const Header: seq<Entry> :=
    [Entry(Discard, 1), Entry(Keep(MeterType), 2), Entry(Keep(MeterFirmware), 1), Entry(Keep(Address), 12)]

  /** Total active, total reactive and total reverse energy of response A. */
  const TotalsA: seq<Entry> :=
    [Entry(Keep(TotalKwh), 8), Entry(Keep(ReactiveKwhKvarh), 8), Entry(Keep(TotalReverseKwh), 8)]

  /** Forward and reverse energy per line, response A. */
  const PhaseEnergyA: seq<Entry> :=
    [Entry(Keep(TotalKwhL1), 8), Entry(Keep(TotalKwhL2), 8), Entry(Keep(TotalKwhL3), 8),
     Entry(Keep(ReverseKwhL1), 8), Entry(Keep(ReverseKwhL2), 8), Entry(Keep(ReverseKwhL3), 8)]

  /** The resettable energy registers of response A. */
  const ResettableA: seq<Entry> := [Entry(Keep(ResettableTotalKwh), 8), Entry(Keep(ResettableReverseKwh), 8)]

  /** The energy registers of response A. */
  const EnergyA: seq<Entry> := TotalsA + PhaseEnergyA + ResettableA

  /** Forward energy per tariff, response B. */
  const TariffB: seq<Entry> :=
    [Entry(Keep(TotalKwhT1), 8), Entry(Keep(TotalKwhT2), 8), Entry(Keep(TotalKwhT3), 8), Entry(Keep(TotalKwhT4), 8)]

  /** Reverse energy per tariff, response B. */
  const TariffReverseB: seq<Entry> :=
    [Entry(Keep(ReverseKwhT1), 8), Entry(Keep(ReverseKwhT2), 8), Entry(Keep(ReverseKwhT3), 8), Entry(Keep(ReverseKwhT4), 8)]

  /** The energy registers of response B. */
  const EnergyB: seq<Entry> := TariffB + TariffReverseB

  const LineVolts: seq<Entry> := [Entry(Keep(VoltsL1), 4), Entry(Keep(VoltsL2), 4), Entry(Keep(VoltsL3), 4)]
  const LineAmps: seq<Entry> := [Entry(Keep(AmpsL1), 5), Entry(Keep(AmpsL2), 5), Entry(Keep(AmpsL3), 5)]
  const LineWatts: seq<Entry> :=
    [Entry(Keep(WattsL1), 7), Entry(Keep(WattsL2), 7), Entry(Keep(WattsL3), 7), Entry(Keep(WattsTotal), 7)]
  const LinePowerFactors: seq<Entry> :=
    [Entry(Keep(PowerFactor1), 4), Entry(Keep(PowerFactor2), 4), Entry(Keep(PowerFactor3), 4)]

  /** Volts, amps, watts and power factor per line, in both responses. */
  const Lines: seq<Entry> := LineVolts + LineAmps + LineWatts + LinePowerFactors

  /** Reactive power per line and in total, response A. */
  const ReactiveA: seq<Entry> :=
    [Entry(Keep(ReactivePower1), 7), Entry(Keep(ReactivePower2), 7), Entry(Keep(ReactivePower3), 7),
     Entry(Keep(TotalReactivePower), 7)]

  /** Frequency and the three pulse counters, response A. */
  const CountsA: seq<Entry> :=
    [Entry(Keep(Frequency), 4), Entry(Keep(Pulse1Count), 8), Entry(Keep(Pulse2Count), 8), Entry(Keep(Pulse3Count), 8)]

  /** The status octets of response A, then 2 reserved bytes. */
  const StatusA: seq<Entry> :=
    [Entry(Keep(PulseInputHilo), 1), Entry(Keep(DirectionOfCurrent), 1), Entry(Keep(OutputsOnoff), 1),
     Entry(Keep(KwhDataDecimalPlaces), 1), Entry(Discard, 2)]

  /** What follows the per-line readings in response A. */
  const TailA: seq<Entry> := ReactiveA + CountsA + StatusA

  /** Maximum demand, its period and the pulse ratios, response B. */
  const DemandB: seq<Entry> :=
    [Entry(Keep(MaximumDemand), 8), Entry(Keep(MaximumDemandPeriod), 1),
     Entry(Keep(Pulse1Ratio), 4), Entry(Keep(Pulse2Ratio), 4), Entry(Keep(Pulse3Ratio), 4)]

  /** CT ratio and the reset and pulse settings, then 56 reserved bytes. */
  const SettingsB: seq<Entry> :=
    [Entry(Keep(CtRatio), 4), Entry(Keep(AutoResetMaxDemand), 1), Entry(Keep(SettablePulsePerKwhRatio), 4),
     Entry(Discard, 56)]

  /** What follows the per-line readings in response B. */
  const TailB: seq<Entry> := DemandB + SettingsB

  /** The meter's clock, the 6 marker bytes and the CRC, ending both responses. */
  const Trailer: seq<Entry> := [Entry(Stamp, 14), Entry(Discard, 6), Entry(Keep(Checksum), 2)]

  /** What lies between the header and the trailer in each response. */
  const BodyA: seq<Entry> := EnergyA + Lines + TailA
  const BodyB: seq<Entry> := EnergyB + Lines + TailB

  /** The full width tables of `request_a` and `request_b`. */
  const LayoutA: seq<Entry> := Header + BodyA + Trailer
  const LayoutB: seq<Entry> := Header + BodyB + Trailer

  // ---------------------------------------------------------------------
  // Accounting over a table

  /** The bytes a table consumes. */
  function Width(l: seq<Entry>): nat
  {
    if l == [] then 0 else l[0].width + Width(l[1..])
  }

  /** Where entry i starts. */
  function Offset(l: seq<Entry>, i: nat): nat
    requires i <= |l|
  {
    Width(l[..i])
  }

  /** The keys a table stores. */
  function KeptFields(l: seq<Entry>): set<Field>
  {
    if l == [] then {}
    else (if l[0].slot.Keep? then {l[0].slot.field} else {}) + KeptFields(l[1..])
  }

  /** Ruby's `a.shift(n)`: the first n elements, or all that remain. */
  function Take(a: seq<byte>, n: nat): (r: seq<byte>)
    ensures |r| == if n <= |a| then n else |a|
  {
    if n <= |a| then a[..n] else a
  }

  /** What `a` holds after `a.shift(n)`. */
  function Drop(a: seq<byte>, n: nat): (r: seq<byte>)
    ensures |r| == if n <= |a| then |a| - n else 0
  {
    if n <= |a| then a[n..] else []
  }

  /** One shift and what it does with the bytes it took. */
  function Step(a: seq<byte>, e: Entry, acc: Split): Split
  {
    match e.slot
    case Keep(f) => acc.(fields := acc.fields[f := Take(a, e.width)])
    case Discard => acc
    case Stamp => acc.(stamp := Take(a, e.width))
  }

  /** The shifts of a table performed in order on `a`, starting from `acc`. */
  function Walk(a: seq<byte>, l: seq<Entry>, acc: Split): Split
    decreases |l|
  {
    if l == [] then acc else Walk(Drop(a, l[0].width), l[1..], Step(a, l[0], acc))
  }

  /** The hash `d` and the timestamp text a response yields under a layout. */
  function SplitResponse(response: seq<byte>, l: seq<Entry>): Split
  {
    Walk(response, l, Split(map[], []))
  }

  /** The shift sequence of `request_a` / `request_b` (before the `join`),
      performed as a loop over the layout table. */
  method ShiftFields(response: seq<byte>, layout: seq<Entry>) returns (d: map<Field, seq<byte>>, stamp: seq<byte>)
    ensures Split(d, stamp) == SplitResponse(response, layout)
  {
    var a := response;
    d, stamp := map[], [];
    var i := 0;
    while i < |layout|
      invariant i <= |layout|
      invariant Walk(a, layout[i..], Split(d, stamp)) == SplitResponse(response, layout)
    {
      var e := layout[i];
      var piece := Take(a, e.width);
      a := Drop(a, e.width);
      match e.slot {
        case Keep(f) => d := d[f := piece];
        case Discard =>
        case Stamp => stamp := piece;
      }
      assert layout[i..][1..] == layout[i + 1..];
      i := i + 1;
    }
    assert layout[i..] == [];
  }

  // ---------------------------------------------------------------------
  // Lemmas about tables

  lemma {:induction false} WidthAppend(a: seq<Entry>, b: seq<Entry>)
    ensures Width(a + b) == Width(a) + Width(b)
  {
    if a != [] {
      assert (a + b)[1..] == a[1..] + b;
      WidthAppend(a[1..], b);
    } else {
      assert a + b == b;
    }
  }

  lemma {:induction false} KeptFieldsAppend(a: seq<Entry>, b: seq<Entry>)
    ensures KeptFields(a + b) == KeptFields(a) + KeptFields(b)
  {
    if a != [] {
      assert (a + b)[1..] == a[1..] + b;
      KeptFieldsAppend(a[1..], b);
    } else {
      assert a + b == b;
    }
  }

  /** Width and keys of a concatenation of tables. */
  lemma Concat(a: seq<Entry>, b: seq<Entry>)
    ensures Width(a + b) == Width(a) + Width(b)
    ensures KeptFields(a + b) == KeptFields(a) + KeptFields(b)
  {
    WidthAppend(a, b);
    KeptFieldsAppend(a, b);
  }

  /** Entries of a table's right part start where the left part ends. */
  lemma OffsetAppend(a: seq<Entry>, b: seq<Entry>, j: nat)
    requires j <= |b|
    ensures Offset(a + b, |a| + j) == Width(a) + Offset(b, j)
  {
    assert (a + b)[..|a| + j] == a + b[..j];
    WidthAppend(a, b[..j]);
  }

  /** Entry i + 1 starts where entry i ends: the entries are contiguous. */
  lemma OffsetNext(l: seq<Entry>, i: nat)
    requires i < |l|
    ensures Offset(l, i + 1) == Offset(l, i) + l[i].width
  {
    assert l[..i + 1] == l[..i] + [l[i]];
    WidthAppend(l[..i], [l[i]]);
  }

  /** Entries do not overlap: an earlier entry ends before a later one
      starts, and every entry ends within the table's width. */
  lemma {:induction false} OffsetsOrdered(l: seq<Entry>, i: nat, j: nat)
    requires i < j <= |l|
    ensures Offset(l, i) + l[i].width <= Offset(l, j) <= Width(l)
    decreases |l| - i
  {
    OffsetNext(l, i);
    if j > i + 1 {
      OffsetsOrdered(l, i + 1, j);
    } else {
      assert l[..|l|] == l;
      if j < |l| {
        OffsetsOrdered(l, j, |l|);
      }
    }
  }

  lemma HeaderFacts()
    ensures Width(Header) == 16
    ensures KeptFields(Header) == {MeterType, MeterFirmware, Address}
  {
  }

  lemma TotalsAFacts()
    ensures Width(TotalsA) == 24
    ensures KeptFields(TotalsA) == {TotalKwh, ReactiveKwhKvarh, TotalReverseKwh}
  {
  }

  lemma PhaseEnergyAFacts()
    ensures Width(PhaseEnergyA) == 48
    ensures KeptFields(PhaseEnergyA) == {TotalKwhL1, TotalKwhL2, TotalKwhL3, ReverseKwhL1, ReverseKwhL2,
                                         ReverseKwhL3}
  {
  }

  lemma ResettableAFacts()
    ensures Width(ResettableA) == 16
    ensures KeptFields(ResettableA) == {ResettableTotalKwh, ResettableReverseKwh}
  {
  }

  lemma TariffBFacts()
    ensures Width(TariffB) == 32
    ensures KeptFields(TariffB) == {TotalKwhT1, TotalKwhT2, TotalKwhT3, TotalKwhT4}
  {
  }

  lemma TariffReverseBFacts()
    ensures Width(TariffReverseB) == 32
    ensures KeptFields(TariffReverseB) == {ReverseKwhT1, ReverseKwhT2, ReverseKwhT3, ReverseKwhT4}
  {
  }

  lemma LineVoltsFacts()
    ensures Width(LineVolts) == 12
    ensures KeptFields(LineVolts) == {VoltsL1, VoltsL2, VoltsL3}
  {
  }

  lemma LineAmpsFacts()
    ensures Width(LineAmps) == 15
    ensures KeptFields(LineAmps) == {AmpsL1, AmpsL2, AmpsL3}
  {
  }

  lemma LineWattsFacts()
    ensures Width(LineWatts) == 28
    ensures KeptFields(LineWatts) == {WattsL1, WattsL2, WattsL3, WattsTotal}
  {
  }

  lemma LinePowerFactorsFacts()
    ensures Width(LinePowerFactors) == 12
    ensures KeptFields(LinePowerFactors) == {PowerFactor1, PowerFactor2, PowerFactor3}
  {
  }

  lemma ReactiveAFacts()
    ensures Width(ReactiveA) == 28
    ensures KeptFields(ReactiveA) == {ReactivePower1, ReactivePower2, ReactivePower3, TotalReactivePower}
  {
  }

  lemma CountsAFacts()
    ensures Width(CountsA) == 28
    ensures KeptFields(CountsA) == {Frequency, Pulse1Count, Pulse2Count, Pulse3Count}
  {
  }

  lemma StatusAFacts()
    ensures Width(StatusA) == 6
    ensures KeptFields(StatusA) == {PulseInputHilo, DirectionOfCurrent, OutputsOnoff, KwhDataDecimalPlaces}
  {
  }

  lemma DemandBFacts()
    ensures Width(DemandB) == 21
    ensures KeptFields(DemandB) == {MaximumDemand, MaximumDemandPeriod, Pulse1Ratio, Pulse2Ratio, Pulse3Ratio}
  {
  }

  lemma SettingsBFacts()
    ensures Width(SettingsB) == 65
    ensures KeptFields(SettingsB) == {CtRatio, AutoResetMaxDemand, SettablePulsePerKwhRatio}
  {
  }

  lemma TrailerFacts()
    ensures Width(Trailer) == 22
    ensures KeptFields(Trailer) == {Checksum}
  {
  }

  lemma EnergyAWidth()
    ensures Width(EnergyA) == 88
  {
    TotalsAFacts();
    PhaseEnergyAFacts();
    ResettableAFacts();
    Concat(TotalsA, PhaseEnergyA);
    Concat(TotalsA + PhaseEnergyA, ResettableA);
  }

  lemma EnergyAKeys()
    ensures KeptFields(EnergyA) == {TotalKwh, ReactiveKwhKvarh, TotalReverseKwh, TotalKwhL1, TotalKwhL2,
                                    TotalKwhL3, ReverseKwhL1, ReverseKwhL2, ReverseKwhL3, ResettableTotalKwh,
                                    ResettableReverseKwh}
  {
    TotalsAFacts();
    PhaseEnergyAFacts();
    ResettableAFacts();
    Concat(TotalsA, PhaseEnergyA);
    Concat(TotalsA + PhaseEnergyA, ResettableA);
  }

  lemma EnergyBWidth()
    ensures Width(EnergyB) == 64
  {
    TariffBFacts();
    TariffReverseBFacts();
    Concat(TariffB, TariffReverseB);
  }

  lemma EnergyBKeys()
    ensures KeptFields(EnergyB) == {TotalKwhT1, TotalKwhT2, TotalKwhT3, TotalKwhT4, ReverseKwhT1, ReverseKwhT2,
                                    ReverseKwhT3, ReverseKwhT4}
  {
    TariffBFacts();
    TariffReverseBFacts();
    Concat(TariffB, TariffReverseB);
  }

  lemma LinesWidth()
    ensures Width(Lines) == 67
  {
    LineVoltsFacts();
    LineAmpsFacts();
    LineWattsFacts();
    LinePowerFactorsFacts();
    Concat(LineVolts, LineAmps);
    Concat(LineVolts + LineAmps, LineWatts);
    Concat(LineVolts + LineAmps + LineWatts, LinePowerFactors);
  }

  lemma LinesKeys()
    ensures KeptFields(Lines) == {VoltsL1, VoltsL2, VoltsL3, AmpsL1, AmpsL2, AmpsL3, WattsL1, WattsL2,
                                  WattsL3, WattsTotal, PowerFactor1, PowerFactor2, PowerFactor3}
  {
    LineVoltsFacts();
    LineAmpsFacts();
    LineWattsFacts();
    LinePowerFactorsFacts();
    Concat(LineVolts, LineAmps);
    Concat(LineVolts + LineAmps, LineWatts);
    Concat(LineVolts + LineAmps + LineWatts, LinePowerFactors);
  }

  lemma TailAWidth()
    ensures Width(TailA) == 62
  {
    ReactiveAFacts();
    CountsAFacts();
    StatusAFacts();
    Concat(ReactiveA, CountsA);
    Concat(ReactiveA + CountsA, StatusA);
  }

  lemma TailAKeys()
    ensures KeptFields(TailA) == {ReactivePower1, ReactivePower2, ReactivePower3, TotalReactivePower,
                                  Frequency, Pulse1Count, Pulse2Count, Pulse3Count, PulseInputHilo,
                                  DirectionOfCurrent, OutputsOnoff, KwhDataDecimalPlaces}
  {
    ReactiveAFacts();
    CountsAFacts();
    StatusAFacts();
    Concat(ReactiveA, CountsA);
    Concat(ReactiveA + CountsA, StatusA);
  }

  lemma TailBWidth()
    ensures Width(TailB) == 86
  {
    DemandBFacts();
    SettingsBFacts();
    Concat(DemandB, SettingsB);
  }

  lemma TailBKeys()
    ensures KeptFields(TailB) == {MaximumDemand, MaximumDemandPeriod, Pulse1Ratio, Pulse2Ratio, Pulse3Ratio,
                                  CtRatio, AutoResetMaxDemand, SettablePulsePerKwhRatio}
  {
    DemandBFacts();
    SettingsBFacts();
    Concat(DemandB, SettingsB);
  }

  lemma BodyAWidth()
    ensures Width(BodyA) == 217
  {
    EnergyAWidth();
    LinesWidth();
    TailAWidth();
    Concat(EnergyA, Lines);
    Concat(EnergyA + Lines, TailA);
  }

  lemma BodyAKeys()
    ensures KeptFields(BodyA) == {TotalKwh, ReactiveKwhKvarh, TotalReverseKwh, TotalKwhL1, TotalKwhL2,
                                  TotalKwhL3, ReverseKwhL1, ReverseKwhL2, ReverseKwhL3, ResettableTotalKwh,
                                  ResettableReverseKwh, VoltsL1, VoltsL2, VoltsL3, AmpsL1, AmpsL2, AmpsL3,
                                  WattsL1, WattsL2, WattsL3, WattsTotal, PowerFactor1, PowerFactor2,
                                  PowerFactor3, ReactivePower1, ReactivePower2, ReactivePower3,
                                  TotalReactivePower, Frequency, Pulse1Count, Pulse2Count, Pulse3Count,
                                  PulseInputHilo, DirectionOfCurrent, OutputsOnoff, KwhDataDecimalPlaces}
  {
    EnergyAKeys();
    LinesKeys();
    TailAKeys();
    Concat(EnergyA, Lines);
    Concat(EnergyA + Lines, TailA);
  }

  lemma BodyBWidth()
    ensures Width(BodyB) == 217
  {
    EnergyBWidth();
    LinesWidth();
    TailBWidth();
    Concat(EnergyB, Lines);
    Concat(EnergyB + Lines, TailB);
  }

  lemma BodyBKeys()
    ensures KeptFields(BodyB) == {TotalKwhT1, TotalKwhT2, TotalKwhT3, TotalKwhT4, ReverseKwhT1, ReverseKwhT2,
                                  ReverseKwhT3, ReverseKwhT4, VoltsL1, VoltsL2, VoltsL3, AmpsL1, AmpsL2,
                                  AmpsL3, WattsL1, WattsL2, WattsL3, WattsTotal, PowerFactor1, PowerFactor2,
                                  PowerFactor3, MaximumDemand, MaximumDemandPeriod, Pulse1Ratio, Pulse2Ratio,
                                  Pulse3Ratio, CtRatio, AutoResetMaxDemand, SettablePulsePerKwhRatio}
  {
    EnergyBKeys();
    LinesKeys();
    TailBKeys();
    Concat(EnergyB, Lines);
    Concat(EnergyB + Lines, TailB);
  }

  /** Both layouts consume exactly 255 bytes. */
  lemma LayoutWidths()
    ensures Width(LayoutA) == 255 && Width(LayoutB) == 255
  {
    HeaderFacts();
    BodyAWidth();
    BodyBWidth();
    TrailerFacts();
    Concat(Header, BodyA);
    Concat(Header + BodyA, Trailer);
    Concat(Header, BodyB);
    Concat(Header + BodyB, Trailer);
  }

  /** The keys each layout stores: header, body and checksum keys. */
  lemma LayoutKeys()
    ensures KeptFields(LayoutA) == KeptFields(Header) + KeptFields(BodyA) + {Checksum}
    ensures KeptFields(LayoutB) == KeptFields(Header) + KeptFields(BodyB) + {Checksum}
  {
    TrailerFacts();
    Concat(Header, BodyA);
    Concat(Header + BodyA, Trailer);
    Concat(Header, BodyB);
    Concat(Header + BodyB, Trailer);
  }

  /** A table that stores only received keys, none of the derived ones. */
  predicate Received(l: seq<Entry>)
  {
    forall f | f in KeptFields(l) :: !Derived(f)
  }

  lemma ReceivedAppend(a: seq<Entry>, b: seq<Entry>)
    requires Received(a) && Received(b)
    ensures Received(a + b)
  {
    KeptFieldsAppend(a, b);
  }

  lemma HeaderReceived() ensures Received(Header) && Received(Trailer) { HeaderFacts(); TrailerFacts(); }
  lemma EnergyAReceived() ensures Received(EnergyA) { EnergyAKeys(); }
  lemma EnergyBReceived() ensures Received(EnergyB) { EnergyBKeys(); }
  lemma LinesReceived() ensures Received(Lines) { LinesKeys(); }
  lemma TailAReceived() ensures Received(TailA) { TailAKeys(); }
  lemma TailBReceived() ensures Received(TailB) { TailBKeys(); }

  /** Neither layout stores a key that decoding computes: the clock, the
      looked-up states and the session totals are never overwritten by a
      received field. */
  lemma LayoutsReceived()
    ensures Received(LayoutA) && Received(LayoutB)
  {
    HeaderReceived();
    EnergyAReceived();
    EnergyBReceived();
    LinesReceived();
    TailAReceived();
    TailBReceived();
    ReceivedAppend(EnergyA, Lines);
    ReceivedAppend(EnergyA + Lines, TailA);
    ReceivedAppend(EnergyB, Lines);
    ReceivedAppend(EnergyB + Lines, TailB);
    ReceivedAppend(Header, BodyA);
    ReceivedAppend(Header + BodyA, Trailer);
    ReceivedAppend(Header, BodyB);
    ReceivedAppend(Header + BodyB, Trailer);
  }

  lemma AppendAssoc(a: seq<Entry>, b: seq<Entry>, c: seq<Entry>)
    ensures a + b + c == a + (b + c)
  {
  }

  // ---------------------------------------------------------------------
  // Lemmas about walks

  lemma DropDrop(a: seq<byte>, x: nat, y: nat)
    ensures Drop(Drop(a, x), y) == Drop(a, x + y)
  {
  }

  /** Walking a concatenation is walking the left part, then the right part
      on what the left part left over. */
  lemma {:induction false} WalkAppend(a: seq<byte>, l1: seq<Entry>, l2: seq<Entry>, acc: Split)
    ensures Walk(a, l1 + l2, acc) == Walk(Drop(a, Width(l1)), l2, Walk(a, l1, acc))
    decreases |l1|
  {
    if l1 == [] {
      assert l1 + l2 == l2;
      assert Drop(a, 0) == a;
    } else {
      var e, rest := l1[0], l1[1..];
      var a', acc' := Drop(a, e.width), Step(a, e, acc);
      assert (l1 + l2)[0] == e;
      assert (l1 + l2)[1..] == rest + l2;
      assert Walk(a, l1 + l2, acc) == Walk(a', rest + l2, acc');
      assert Walk(a, l1, acc) == Walk(a', rest, acc');
      WalkAppend(a', rest, l2, acc');
      DropDrop(a, e.width, Width(rest));
      assert Drop(a, Width(l1)) == Drop(a', Width(rest));
    }
  }

  /** A walk stores exactly the keys of its table, whatever the response
      length: a short response leaves shorter (possibly empty) slices. */
  lemma {:induction false} WalkKeys(a: seq<byte>, l: seq<Entry>, acc: Split)
    ensures Walk(a, l, acc).fields.Keys == acc.fields.Keys + KeptFields(l)
    decreases |l|
  {
    if l != [] {
      WalkKeys(Drop(a, l[0].width), l[1..], Step(a, l[0], acc));
    }
  }

  /** A key the rest of a table does not store keeps its value. */
  lemma {:induction false} WalkKeeps(a: seq<byte>, l: seq<Entry>, acc: Split, f: Field)
    requires f in acc.fields && f !in KeptFields(l)
    ensures f in Walk(a, l, acc).fields && Walk(a, l, acc).fields[f] == acc.fields[f]
    decreases |l|
  {
    if l != [] {
      WalkKeeps(Drop(a, l[0].width), l[1..], Step(a, l[0], acc), f);
    }
  }

  /** A table without a Stamp entry leaves the timestamp text alone. */
  lemma {:induction false} WalkKeepsStamp(a: seq<byte>, l: seq<Entry>, acc: Split)
    requires forall j :: 0 <= j < |l| ==> !l[j].slot.Stamp?
    ensures Walk(a, l, acc).stamp == acc.stamp
    decreases |l|
  {
    if l != [] {
      assert !l[0].slot.Stamp?;
      WalkKeepsStamp(Drop(a, l[0].width), l[1..], Step(a, l[0], acc));
    }
  }

  /** The key of entry i holds exactly the bytes at that entry's offset
      when no later entry stores the same key and the response reaches
      that far. */
  lemma {:induction false} WalkField(a: seq<byte>, l: seq<Entry>, acc: Split, i: nat)
    requires i < |l| && l[i].slot.Keep? && l[i].slot.field !in KeptFields(l[i + 1..])
    requires Offset(l, i) + l[i].width <= |a|
    ensures l[i].slot.field in Walk(a, l, acc).fields
    ensures Walk(a, l, acc).fields[l[i].slot.field] == a[Offset(l, i)..Offset(l, i) + l[i].width]
    decreases |l|
  {
    var w := l[0].width;
    var next := Step(a, l[0], acc);
    assert Walk(a, l, acc) == Walk(Drop(a, w), l[1..], next);
    if i == 0 {
      var f := l[0].slot.field;
      assert next.fields[f] == a[..w];
      WalkKeeps(Drop(a, w), l[1..], next, f);
    } else {
      WalkFieldLater(a, l, i);
      WalkField(Drop(a, w), l[1..], next, i - 1);
    }
  }

  lemma WalkFieldLater(a: seq<byte>, l: seq<Entry>, i: nat)
    requires 0 < i < |l|
    requires Offset(l, i) + l[i].width <= |a|
    ensures l[1..][i - 1] == l[i] && l[1..][i..] == l[i + 1..]
    ensures Offset(l, i) == l[0].width + Offset(l[1..], i - 1)
    ensures Offset(l[1..], i - 1) + l[i].width <= |Drop(a, l[0].width)|
    ensures Drop(a, l[0].width)[Offset(l[1..], i - 1)..Offset(l[1..], i - 1) + l[i].width]
            == a[Offset(l, i)..Offset(l, i) + l[i].width]
  {
    OffsetAppend([l[0]], l[1..], i - 1);
    assert [l[0]] + l[1..] == l;
    assert Width([l[0]]) == l[0].width;
  }

  /** A key stored only by entry i of a full response holds the bytes at
      that entry's offset. */
  lemma SplitField(response: seq<byte>, l: seq<Entry>, i: nat)
    requires i < |l| && l[i].slot.Keep? && l[i].slot.field !in KeptFields(l[i + 1..])
    requires |response| == Width(l)
    ensures Offset(l, i) + l[i].width <= |response|
    ensures l[i].slot.field in SplitResponse(response, l).fields
    ensures SplitResponse(response, l).fields[l[i].slot.field] == response[Offset(l, i)..Offset(l, i) + l[i].width]
  {
    OffsetsOrdered(l, i, |l|);
    assert l[..|l|] == l;
    WalkField(response, l, Split(map[], []), i);
  }

  // ---------------------------------------------------------------------
  // The two layouts on a full response

  /** Walking the header stores the identity bytes at offsets 1, 3 and 4. */
  lemma WalkHeader(a: seq<byte>, acc: Split)
    requires |a| >= 16
    ensures Walk(a, Header, acc).fields == acc.fields[MeterType := a[1..3]][MeterFirmware := a[3..4]][Address := a[4..16]]
    ensures Walk(a, Header, acc).stamp == acc.stamp
  {
    var h := Header;
    assert h[1..][1..][1..][1..] == [];
    var a1 := Drop(a, 1);
    var a2 := Drop(a1, 2);
    var a3 := Drop(a2, 1);
    assert a1[..2] == a[1..3] && a2[..1] == a[3..4] && a3[..12] == a[4..16];
  }

  /** Neither body stores the identity keys. */
  lemma BodiesOmitIdentity()
    ensures MeterType !in KeptFields(BodyA) && MeterFirmware !in KeptFields(BodyA) && Address !in KeptFields(BodyA)
    ensures MeterType !in KeptFields(BodyB) && MeterFirmware !in KeptFields(BodyB) && Address !in KeptFields(BodyB)
  {
    BodyAOmitsIdentity();
    BodyBOmitsIdentity();
  }

  lemma BodyAOmitsIdentity()
    ensures MeterType !in KeptFields(BodyA) && MeterFirmware !in KeptFields(BodyA) && Address !in KeptFields(BodyA)
  {
    GroupsOmitIdentity();
    Concat(EnergyA, Lines);
    Concat(EnergyA + Lines, TailA);
  }

  lemma BodyBOmitsIdentity()
    ensures MeterType !in KeptFields(BodyB) && MeterFirmware !in KeptFields(BodyB) && Address !in KeptFields(BodyB)
  {
    GroupsOmitIdentity();
    Concat(EnergyB, Lines);
    Concat(EnergyB + Lines, TailB);
  }

  lemma GroupsOmitIdentity()
    ensures MeterType !in KeptFields(EnergyA) && MeterFirmware !in KeptFields(EnergyA) && Address !in KeptFields(EnergyA)
    ensures MeterType !in KeptFields(EnergyB) && MeterFirmware !in KeptFields(EnergyB) && Address !in KeptFields(EnergyB)
    ensures MeterType !in KeptFields(Lines) && MeterFirmware !in KeptFields(Lines) && Address !in KeptFields(Lines)
    ensures MeterType !in KeptFields(TailA) && MeterFirmware !in KeptFields(TailA) && Address !in KeptFields(TailA)
    ensures MeterType !in KeptFields(TailB) && MeterFirmware !in KeptFields(TailB) && Address !in KeptFields(TailB)
  {
    EnergyAOmitsIdentity();
    EnergyBOmitsIdentity();
    LinesOmitIdentity();
    TailAOmitsIdentity();
    TailBOmitsIdentity();
  }

  lemma EnergyAOmitsIdentity()
    ensures MeterType !in KeptFields(EnergyA) && MeterFirmware !in KeptFields(EnergyA) && Address !in KeptFields(EnergyA)
  {
    EnergyAKeys();
  }

  lemma EnergyBOmitsIdentity()
    ensures MeterType !in KeptFields(EnergyB) && MeterFirmware !in KeptFields(EnergyB) && Address !in KeptFields(EnergyB)
  {
    EnergyBKeys();
  }

  lemma LinesOmitIdentity()
    ensures MeterType !in KeptFields(Lines) && MeterFirmware !in KeptFields(Lines) && Address !in KeptFields(Lines)
  {
    LinesKeys();
  }

  lemma TailAOmitsIdentity()
    ensures MeterType !in KeptFields(TailA) && MeterFirmware !in KeptFields(TailA) && Address !in KeptFields(TailA)
  {
    TailAKeys();
  }

  lemma TailBOmitsIdentity()
    ensures MeterType !in KeptFields(TailB) && MeterFirmware !in KeptFields(TailB) && Address !in KeptFields(TailB)
  {
    TailBKeys();
  }

  /** Response B does not carry the energy places: only response A sets them. */
  lemma LayoutBOmitsPlaces()
    ensures KwhDataDecimalPlaces !in KeptFields(LayoutB)
  {
    LayoutKeys();
    HeaderFacts();
    BodyBOmitsPlaces();
  }

  lemma BodyBOmitsPlaces()
    ensures KwhDataDecimalPlaces !in KeptFields(BodyB)
  {
    assert KwhDataDecimalPlaces !in KeptFields(EnergyB) by { EnergyBKeys(); }
    assert KwhDataDecimalPlaces !in KeptFields(Lines) by { LinesKeys(); }
    assert KwhDataDecimalPlaces !in KeptFields(TailB) by { TailBKeys(); }
    Concat(EnergyB, Lines);
    Concat(EnergyB + Lines, TailB);
  }

  /** A header followed by tables that do not store the identity keys
      leaves the identity bytes at offsets 1, 3 and 4. */
  lemma HeaderFirst(response: seq<byte>, rest: seq<Entry>)
    requires |response| >= 16
    requires MeterType !in KeptFields(rest) && MeterFirmware !in KeptFields(rest) && Address !in KeptFields(rest)
    ensures MeterType in SplitResponse(response, Header + rest).fields
    ensures MeterFirmware in SplitResponse(response, Header + rest).fields
    ensures Address in SplitResponse(response, Header + rest).fields
    ensures SplitResponse(response, Header + rest).fields[MeterType] == response[1..3]
    ensures SplitResponse(response, Header + rest).fields[MeterFirmware] == response[3..4]
    ensures SplitResponse(response, Header + rest).fields[Address] == response[4..16]
  {
    HeaderFacts();
    var start := Split(map[], []);
    WalkAppend(response, Header, rest, start);
    var h := Walk(response, Header, start);
    WalkHeader(response, start);
    var tail := Drop(response, 16);
    WalkKeeps(tail, rest, h, MeterType);
    WalkKeeps(tail, rest, h, MeterFirmware);
    WalkKeeps(tail, rest, h, Address);
  }

  /** Both responses start with meter type, firmware and address at offsets
      1, 3 and 4: the identity bytes mean the same in either layout. */
  lemma HeaderOffsets(response: seq<byte>, l: seq<Entry>)
    requires |response| == 255 && (l == LayoutA || l == LayoutB)
    ensures MeterType in SplitResponse(response, l).fields && MeterFirmware in SplitResponse(response, l).fields
    ensures Address in SplitResponse(response, l).fields
    ensures SplitResponse(response, l).fields[MeterType] == response[1..3]
    ensures SplitResponse(response, l).fields[MeterFirmware] == response[3..4]
    ensures SplitResponse(response, l).fields[Address] == response[4..16]
  {
    var body := if l == LayoutA then BodyA else BodyB;
    AppendAssoc(Header, body, Trailer);
    TrailerFacts();
    BodiesOmitIdentity();
    Concat(body, Trailer);
    HeaderFirst(response, body + Trailer);
  }

  /** Walking the trailer keeps the clock text and the CRC. */
  lemma WalkTrailer(a: seq<byte>, acc: Split)
    requires |a| == 22
    ensures Walk(a, Trailer, acc).stamp == a[..14]
    ensures Walk(a, Trailer, acc).fields == acc.fields[Checksum := a[20..22]]
  {
    var t := Trailer;
    assert t[1..][1..][1..] == [];
    var a1 := Drop(a, 14);
    var a2 := Drop(a1, 6);
    assert a2[..2] == a[20..22];
  }

  /** In both responses the meter's clock is bytes 233..247 and the CRC the
      last two bytes, 253..255. */
  lemma TrailerOffsets(response: seq<byte>, l: seq<Entry>)
    requires |response| == 255 && (l == LayoutA || l == LayoutB)
    ensures SplitResponse(response, l).stamp == response[233..247]
    ensures Checksum in SplitResponse(response, l).fields
    ensures SplitResponse(response, l).fields[Checksum] == response[253..255]
  {
    var front := if l == LayoutA then Header + BodyA else Header + BodyB;
    HeaderFacts();
    BodyAWidth();
    BodyBWidth();
    Concat(Header, BodyA);
    Concat(Header, BodyB);
    var start := Split(map[], []);
    WalkAppend(response, front, Trailer, start);
    var rest := Drop(response, 233);
    WalkTrailer(rest, Walk(response, front, start));
    assert rest[..14] == response[233..247] && rest[20..22] == response[253..255];
  }

  /** Ruby's `response[1..-3]`, the span the CRC covers: from the byte after
      STX up to and including the third byte from the end; nil when the
      start lies past the end. */
  function ChecksumSpan(response: seq<byte>): (r: Option<seq<byte>>)
  {
    if |response| < 1 then None
    else if |response| < 3 then Some([])
    else Some(response[1..|response| - 2])
  }

  /** On a full response the CRC covers everything between STX and the CRC. */
  lemma ChecksumSpanFrame(response: seq<byte>)
    requires |response| == 255
    ensures ChecksumSpan(response).Some?
    ensures [response[0]] + ChecksumSpan(response).value + response[253..255] == response
    ensures |ChecksumSpan(response).value| == 252
  {
    assert [response[0]] + response[1..253] + response[253..255] == response;
  }
}
