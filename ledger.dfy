/** The updates `request_a` and `request_b` make to the values hash of a
    session (lib/ekm-omnimeter/meter.rb): `@values.merge!(d)`, the line
    aggregates from `calculate_measurement` and, after response A, the energy
    balances. */
module Ledger {
  import opened Telemetry
  import opened Wiring

  /** The keys a request computes from the merged values rather than from its
      own response. */
  const Totalled: set<Field> := {Volts, Amps, Watts}
  const Aggregates: set<Field> := Totalled + {TotalForwardKwh, NetKwh}

  // ---------------------------------------------------------------------
  // The steps

  /** `@values[:volts]`, `[:amps]` and `[:watts]` from `calculate_measurement`
      over the per-line readings the hash holds: each is the sum of the
      readings of the lines the configuration connects. */
  function Totals(v: map<Field, Value>, c: PowerConfiguration): (r: map<Field, Value>)
    requires LinesNumeric(v)
    ensures Volts in r && IsNumber(r[Volts])
    ensures AsReal(r[Volts]) == ConnectedSum(c, AsReal(v[VoltsL1]), AsReal(v[VoltsL2]), AsReal(v[VoltsL3]))
    ensures Amps in r && IsNumber(r[Amps])
    ensures AsReal(r[Amps]) == ConnectedSum(c, AsReal(v[AmpsL1]), AsReal(v[AmpsL2]), AsReal(v[AmpsL3]))
    ensures Watts in r && IsNumber(r[Watts])
    ensures AsReal(r[Watts]) == ConnectedSum(c, AsReal(v[WattsL1]), AsReal(v[WattsL2]), AsReal(v[WattsL3]))
  {
    MeasurementSumsConnected(c, v[VoltsL1], v[VoltsL2], v[VoltsL3]);
    MeasurementSumsConnected(c, v[AmpsL1], v[AmpsL2], v[AmpsL3]);
    MeasurementSumsConnected(c, v[WattsL1], v[WattsL2], v[WattsL3]);
    v[Volts := CalculateMeasurement(c, v[VoltsL1], v[VoltsL2], v[VoltsL3])]
     [Amps := CalculateMeasurement(c, v[AmpsL1], v[AmpsL2], v[AmpsL3])]
     [Watts := CalculateMeasurement(c, v[WattsL1], v[WattsL2], v[WattsL3])]
  }

  /** `@values[:total_forward_kwh] = total_kwh - total_reverse_kwh` and then
      `@values[:net_kwh] = total_forward_kwh - total_reverse_kwh`: the
      reverse energy is taken off twice. */
  function Balances(v: map<Field, Value>): (r: map<Field, Value>)
    requires NumberAt(v, TotalKwh) && NumberAt(v, TotalReverseKwh)
    ensures TotalForwardKwh in r && IsNumber(r[TotalForwardKwh])
    ensures AsReal(r[TotalForwardKwh]) == AsReal(v[TotalKwh]) - AsReal(v[TotalReverseKwh])
    ensures NetKwh in r && IsNumber(r[NetKwh])
    ensures AsReal(r[NetKwh]) == AsReal(v[TotalKwh]) - 2.0 * AsReal(v[TotalReverseKwh])
  {
    var forward := Minus(v[TotalKwh], v[TotalReverseKwh]);
    v[TotalForwardKwh := forward][NetKwh := Minus(forward, v[TotalReverseKwh])]
  }

  /** The line aggregates add their three keys and change no other. */
  lemma TotalsFrame(v: map<Field, Value>, c: PowerConfiguration, k: Field)
    requires LinesNumeric(v)
    ensures k in Totals(v, c) <==> k in v || k in Totalled
    ensures k in v && k !in Totalled ==> Totals(v, c)[k] == v[k]
  {
  }

  /** The energy balances add their two keys and change no other. */
  lemma BalancesFrame(v: map<Field, Value>, k: Field)
    requires NumberAt(v, TotalKwh) && NumberAt(v, TotalReverseKwh)
    ensures k in Balances(v) <==> k in v || k == TotalForwardKwh || k == NetKwh
    ensures k in v && k != TotalForwardKwh && k != NetKwh ==> Balances(v)[k] == v[k]
  {
  }

  /** What `request_a` leaves in the values hash, given the hash `d` it
      returns and the energy places it read: the places first, then
      `merge!(d)`, then the aggregates. */
  function RecordA(values: map<Field, Value>, d: map<Field, Value>, places: int, c: PowerConfiguration): map<Field, Value>
    requires LinesNumeric(d) && NumberAt(d, TotalKwh) && NumberAt(d, TotalReverseKwh)
  {
    var merged := values[KwhDataDecimalPlaces := IntV(places)] + d;
    var totals := Totals(merged, c);
    TotalsFrame(merged, c, TotalKwh);
    TotalsFrame(merged, c, TotalReverseKwh);
    Balances(totals)
  }

  /** What `request_b` leaves in the values hash: `merge!(d)`, then the three
      line aggregates. */
  function RecordB(values: map<Field, Value>, d: map<Field, Value>, c: PowerConfiguration): map<Field, Value>
    requires LinesNumeric(d)
  {
    Totals(values + d, c)
  }

  /** The stages of request A's update, for a caller that performs them one
      at a time. */
  lemma RecordAStages(values: map<Field, Value>, d: map<Field, Value>, places: int, c: PowerConfiguration)
    requires LinesNumeric(d) && NumberAt(d, TotalKwh) && NumberAt(d, TotalReverseKwh)
    ensures LinesNumeric(values[KwhDataDecimalPlaces := IntV(places)] + d)
    ensures NumberAt(Totals(values[KwhDataDecimalPlaces := IntV(places)] + d, c), TotalKwh)
    ensures NumberAt(Totals(values[KwhDataDecimalPlaces := IntV(places)] + d, c), TotalReverseKwh)
    ensures RecordA(values, d, places, c) == Balances(Totals(values[KwhDataDecimalPlaces := IntV(places)] + d, c))
  {
    var merged := values[KwhDataDecimalPlaces := IntV(places)] + d;
    TotalsFrame(merged, c, TotalKwh);
    TotalsFrame(merged, c, TotalReverseKwh);
  }

  /** The stages of request B's update. */
  lemma RecordBStages(values: map<Field, Value>, d: map<Field, Value>, c: PowerConfiguration)
    requires LinesNumeric(d)
    ensures LinesNumeric(values + d)
    ensures RecordB(values, d, c) == Totals(values + d, c)
  {
  }

  // ---------------------------------------------------------------------
  // What the two updates do to the hash

  /** Request A's update, key by key: a key is there afterwards exactly
      when it was there before, is returned in `d`, is the energy places or
      is an aggregate. */
  lemma RecordAHas(values: map<Field, Value>, d: map<Field, Value>, places: int, c: PowerConfiguration, k: Field)
    requires LinesNumeric(d) && NumberAt(d, TotalKwh) && NumberAt(d, TotalReverseKwh)
    ensures k in RecordA(values, d, places, c) <==> k in values || k in d || k == KwhDataDecimalPlaces || k in Aggregates
  {
    var merged := values[KwhDataDecimalPlaces := IntV(places)] + d;
    RecordAStages(values, d, places, c);
    TotalsFrame(merged, c, k);
    BalancesFrame(Totals(merged, c), k);
  }

  /** The returned hash wins on every key it holds; only the aggregates are
      recomputed afterwards. */
  lemma RecordAPrefersNew(values: map<Field, Value>, d: map<Field, Value>, places: int, c: PowerConfiguration, k: Field)
    requires LinesNumeric(d) && NumberAt(d, TotalKwh) && NumberAt(d, TotalReverseKwh)
    requires k !in Aggregates && k in d
    ensures RecordA(values, d, places, c)[k] == d[k]
  {
    RecordAFrame(values, d, places, c, k);
  }

  /** The energy places are those read from the response when `d` lacks
      them. */
  lemma RecordASetsPlaces(values: map<Field, Value>, d: map<Field, Value>, places: int, c: PowerConfiguration)
    requires LinesNumeric(d) && NumberAt(d, TotalKwh) && NumberAt(d, TotalReverseKwh)
    requires KwhDataDecimalPlaces !in d
    ensures RecordA(values, d, places, c)[KwhDataDecimalPlaces] == IntV(places)
  {
    RecordAFrame(values, d, places, c, KwhDataDecimalPlaces);
  }

  /** A returned hash that carries the energy places leaves them in the
      hash. */
  lemma RecordAPlaces(values: map<Field, Value>, d: map<Field, Value>, places: int, c: PowerConfiguration)
    requires LinesNumeric(d) && NumberAt(d, TotalKwh) && NumberAt(d, TotalReverseKwh)
    requires KwhDataDecimalPlaces in d && d[KwhDataDecimalPlaces] == IntV(places)
    ensures KwhDataDecimalPlaces in RecordA(values, d, places, c)
    ensures RecordA(values, d, places, c)[KwhDataDecimalPlaces] == IntV(places)
  {
    RecordAFrame(values, d, places, c, KwhDataDecimalPlaces);
  }

  /** Every key neither returned nor the energy places nor an aggregate
      keeps its value. */
  lemma RecordAKeepsOld(values: map<Field, Value>, d: map<Field, Value>, places: int, c: PowerConfiguration, k: Field)
    requires LinesNumeric(d) && NumberAt(d, TotalKwh) && NumberAt(d, TotalReverseKwh)
    requires k !in Aggregates && k !in d && k != KwhDataDecimalPlaces && k in values
    ensures RecordA(values, d, places, c)[k] == values[k]
  {
    RecordAFrame(values, d, places, c, k);
  }

  /** Outside the aggregates the update is the merge. */
  lemma RecordAFrame(values: map<Field, Value>, d: map<Field, Value>, places: int, c: PowerConfiguration, k: Field)
    requires LinesNumeric(d) && NumberAt(d, TotalKwh) && NumberAt(d, TotalReverseKwh)
    requires k !in Aggregates && k in values[KwhDataDecimalPlaces := IntV(places)] + d
    ensures var merged := values[KwhDataDecimalPlaces := IntV(places)] + d;
      k in RecordA(values, d, places, c) && RecordA(values, d, places, c)[k] == merged[k]
  {
    var merged := values[KwhDataDecimalPlaces := IntV(places)] + d;
    RecordAStages(values, d, places, c);
    TotalsFrame(merged, c, k);
    BalancesFrame(Totals(merged, c), k);
  }

  /** After request A the hash holds its old keys, every key of the
      returned hash, the energy places and the five aggregates, and no
      other key. */
  lemma RecordAKeys(values: map<Field, Value>, d: map<Field, Value>, places: int, c: PowerConfiguration)
    requires LinesNumeric(d) && NumberAt(d, TotalKwh) && NumberAt(d, TotalReverseKwh)
    ensures RecordA(values, d, places, c).Keys == values.Keys + d.Keys + {KwhDataDecimalPlaces} + Aggregates
  {
    forall k: Field
      ensures k in RecordA(values, d, places, c) <==> k in values || k in d || k == KwhDataDecimalPlaces || k in Aggregates
    {
      RecordAHas(values, d, places, c, k);
    }
  }

  /** The three aggregates of request A follow the connected lines of the
      returned readings. */
  lemma RecordATotals(values: map<Field, Value>, d: map<Field, Value>, places: int, c: PowerConfiguration)
    requires LinesNumeric(d) && NumberAt(d, TotalKwh) && NumberAt(d, TotalReverseKwh)
    ensures var r := RecordA(values, d, places, c);
      && Volts in r && IsNumber(r[Volts])
      && AsReal(r[Volts]) == ConnectedSum(c, AsReal(d[VoltsL1]), AsReal(d[VoltsL2]), AsReal(d[VoltsL3]))
      && Amps in r && IsNumber(r[Amps])
      && AsReal(r[Amps]) == ConnectedSum(c, AsReal(d[AmpsL1]), AsReal(d[AmpsL2]), AsReal(d[AmpsL3]))
      && Watts in r && IsNumber(r[Watts])
      && AsReal(r[Watts]) == ConnectedSum(c, AsReal(d[WattsL1]), AsReal(d[WattsL2]), AsReal(d[WattsL3]))
  {
    var merged := values[KwhDataDecimalPlaces := IntV(places)] + d;
    var totals := Totals(merged, c);
    RecordAStages(values, d, places, c);
    BalancesFrame(totals, Volts);
    BalancesFrame(totals, Amps);
    BalancesFrame(totals, Watts);
  }

  /** The energy balances of request A: forward energy is the total less the
      reverse energy, and the net energy takes the reverse energy off a
      second time. */
  lemma RecordABalances(values: map<Field, Value>, d: map<Field, Value>, places: int, c: PowerConfiguration)
    requires LinesNumeric(d) && NumberAt(d, TotalKwh) && NumberAt(d, TotalReverseKwh)
    ensures var r := RecordA(values, d, places, c);
      && TotalForwardKwh in r && IsNumber(r[TotalForwardKwh])
      && AsReal(r[TotalForwardKwh]) == AsReal(d[TotalKwh]) - AsReal(d[TotalReverseKwh])
      && NetKwh in r && IsNumber(r[NetKwh])
      && AsReal(r[NetKwh]) == AsReal(d[TotalKwh]) - 2.0 * AsReal(d[TotalReverseKwh])
  {
    var merged := values[KwhDataDecimalPlaces := IntV(places)] + d;
    TotalsFrame(merged, c, TotalKwh);
    TotalsFrame(merged, c, TotalReverseKwh);
  }

  /** Request B's update, key by key: the key is there afterwards exactly
      when it was there before, is returned in `d` or is a line aggregate.
      The returned hash wins on every key it holds and every other key keeps
      its value, the energy balances of request A included. */
  lemma RecordBKeeps(values: map<Field, Value>, d: map<Field, Value>, c: PowerConfiguration, k: Field)
    requires LinesNumeric(d)
    ensures k in RecordB(values, d, c) <==> k in values || k in d || k in Totalled
    ensures k !in Totalled && k in d ==> RecordB(values, d, c)[k] == d[k]
    ensures k !in Totalled && k !in d && k in values ==> RecordB(values, d, c)[k] == values[k]
  {
    TotalsFrame(values + d, c, k);
  }

  /** After request B the hash holds its old keys, every key of the
      returned hash and the three line aggregates, and no other key. */
  lemma RecordBKeys(values: map<Field, Value>, d: map<Field, Value>, c: PowerConfiguration)
    requires LinesNumeric(d)
    ensures RecordB(values, d, c).Keys == values.Keys + d.Keys + Totalled
  {
    forall k: Field
      ensures k in RecordB(values, d, c) <==> k in values || k in d || k in Totalled
    {
      RecordBKeeps(values, d, c, k);
    }
  }

  /** The three aggregates of request B follow the connected lines of the
      returned readings. */
  lemma RecordBTotals(values: map<Field, Value>, d: map<Field, Value>, c: PowerConfiguration)
    requires LinesNumeric(d)
    ensures var r := RecordB(values, d, c);
      && Volts in r && IsNumber(r[Volts])
      && AsReal(r[Volts]) == ConnectedSum(c, AsReal(d[VoltsL1]), AsReal(d[VoltsL2]), AsReal(d[VoltsL3]))
      && Amps in r && IsNumber(r[Amps])
      && AsReal(r[Amps]) == ConnectedSum(c, AsReal(d[AmpsL1]), AsReal(d[AmpsL2]), AsReal(d[AmpsL3]))
      && Watts in r && IsNumber(r[Watts])
      && AsReal(r[Watts]) == ConnectedSum(c, AsReal(d[WattsL1]), AsReal(d[WattsL2]), AsReal(d[WattsL3]))
  {
  }

  // ---------------------------------------------------------------------
  // A complete read: request A, then request B

  /** After both updates the hash answers from response B where it has the
      key, otherwise from response A, otherwise as before; response B wins
      on every key the two share. */
  lemma RecordBOverA(values: map<Field, Value>, da: map<Field, Value>, places: int, db: map<Field, Value>,
                     c: PowerConfiguration, k: Field)
    requires LinesNumeric(da) && NumberAt(da, TotalKwh) && NumberAt(da, TotalReverseKwh) && LinesNumeric(db)
    requires k !in Aggregates && KwhDataDecimalPlaces in da
    ensures var r := RecordB(RecordA(values, da, places, c), db, c);
      && (k in r <==> k in db || k in da || k in values)
      && (k in db ==> r[k] == db[k])
      && (k !in db && k in da ==> r[k] == da[k])
      && (k !in db && k !in da && k in values ==> r[k] == values[k])
  {
    var ra := RecordA(values, da, places, c);
    RecordBKeeps(ra, db, c, k);
    RecordAHas(values, da, places, c, k);
    if k !in db && k in da {
      RecordAPrefersNew(values, da, places, c, k);
    } else if k !in db && k in values {
      RecordAKeepsOld(values, da, places, c, k);
    }
  }

  /** The keys after both updates, in terms of the keys each response
      returned. */
  lemma RecordBOverAKeys(values: map<Field, Value>, da: map<Field, Value>, places: int, db: map<Field, Value>,
                         c: PowerConfiguration)
    requires LinesNumeric(da) && NumberAt(da, TotalKwh) && NumberAt(da, TotalReverseKwh) && LinesNumeric(db)
    requires KwhDataDecimalPlaces in da
    ensures RecordB(RecordA(values, da, places, c), db, c).Keys == values.Keys + da.Keys + db.Keys + Aggregates
  {
    RecordAKeys(values, da, places, c);
    RecordBKeys(RecordA(values, da, places, c), db, c);
    KeysRegroup(values.Keys, da.Keys, db.Keys);
  }

  lemma KeysRegroup(v: set<Field>, a: set<Field>, b: set<Field>)
    requires KwhDataDecimalPlaces in a
    ensures v + a + {KwhDataDecimalPlaces} + Aggregates + b + Totalled == v + a + b + Aggregates
  {
  }
}
