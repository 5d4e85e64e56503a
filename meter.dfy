/** A meter session (lib/ekm-omnimeter/meter.rb, `EkmOmnimeter::Meter`): the
    configured meter, the values hash `@values` that both requests merge into,
    the time of the last read, and the attribute lookup through
    `method_missing` that refreshes stale values. The transport that carries a
    request to the meter and brings back its response is a parameter: a
    function from the request text to the response bytes, or None when the
    meter does not answer. */
module Omnimeter {
  import opened Wrappers
  import opened RubyText
  import opened Telemetry
  import opened Request
  import opened Wiring
  import opened Frame
  import opened Casting
  import opened Decoding
  import opened Ledger

  type Transport = string -> Option<seq<byte>>

  /** The values hash after `request_a` received a response. */
  function AfterA(values: map<Field, Value>, response: seq<byte>, c: PowerConfiguration,
                  accepts: TimeFields -> bool, now: real): map<Field, Value>
  {
    DecodeANumeric(response, accepts, now);
    RecordA(values, DecodeA(response, accepts, now), PlacesA(response), c)
  }

  /** The values hash after `request_b` received a response; its energy
      registers are cast with the places the hash holds. */
  function AfterB(values: map<Field, Value>, response: seq<byte>, c: PowerConfiguration,
                  accepts: TimeFields -> bool, now: real): map<Field, Value>
    requires KwhDataDecimalPlaces in values && values[KwhDataDecimalPlaces].IntV?
  {
    DecodeBNumeric(response, values[KwhDataDecimalPlaces].i, accepts, now);
    RecordB(values, DecodeB(response, values[KwhDataDecimalPlaces].i, accepts, now), c)
  }

  /** Request A leaves the energy places of its own response in the hash,
      where request B and later casts find them. */
  lemma AfterAPlaces(values: map<Field, Value>, response: seq<byte>, c: PowerConfiguration,
                     accepts: TimeFields -> bool, now: real)
    ensures KwhDataDecimalPlaces in AfterA(values, response, c, accepts, now)
    ensures AfterA(values, response, c, accepts, now)[KwhDataDecimalPlaces] == IntV(PlacesA(response))
  {
    DecodeANumeric(response, accepts, now);
    DecodeAPlaces(response, accepts, now);
    RecordAPlaces(values, DecodeA(response, accepts, now), PlacesA(response), c);
  }

  /** Request B does not change the energy places. */
  lemma AfterBPlaces(values: map<Field, Value>, response: seq<byte>, c: PowerConfiguration,
                     accepts: TimeFields -> bool, now: real)
    requires KwhDataDecimalPlaces in values && values[KwhDataDecimalPlaces].IntV?
    ensures KwhDataDecimalPlaces in AfterB(values, response, c, accepts, now)
    ensures AfterB(values, response, c, accepts, now)[KwhDataDecimalPlaces] == values[KwhDataDecimalPlaces]
  {
    var places := values[KwhDataDecimalPlaces].i;
    var d := DecodeB(response, places, accepts, now);
    DecodeBNumeric(response, places, accepts, now);
    DecodeBKeys(response, places, accepts, now);
    LayoutBOmitsPlaces();
    RecordBKeeps(values, d, c, KwhDataDecimalPlaces);
  }

  /** The state of a session after `read`, and the error it raised, if any. */
  datatype Outcome = Outcome(values: map<Field, Value>, lastRead: Option<real>, error: Option<Error>)

  /** `read`: request A, then request B. A request without a response raises
      and leaves what the earlier request did; `@last_read_timestamp` is set
      by each request that received a response. */
  function ReadOutcome(values: map<Field, Value>, lastRead: Option<real>, number: string, c: PowerConfiguration,
                       transport: Transport, accepts: TimeFields -> bool, now: real): Outcome
  {
    match transport(RequestText(number, A))
    case None => Outcome(values, lastRead, Some(NoResponse))
    case Some(a) =>
      var afterA := AfterA(values, a, c, accepts, now);
      AfterAPlaces(values, a, c, accepts, now);
      match transport(RequestText(number, B))
      case None => Outcome(afterA, Some(now), Some(NoResponse))
      case Some(b) => Outcome(AfterB(afterA, b, c, accepts, now), Some(now), None)
  }

  /** A complete read: response B is cast with the energy places response
      A just stored, and the hash answers from response B where it has the
      key, otherwise from response A, otherwise as before. */
  lemma ReadMerges(values: map<Field, Value>, lastRead: Option<real>, number: string, c: PowerConfiguration,
                   transport: Transport, accepts: TimeFields -> bool, now: real, k: Field)
    requires transport(RequestText(number, A)).Some? && transport(RequestText(number, B)).Some?
    requires k !in Aggregates
    ensures var a := transport(RequestText(number, A)).value;
      var b := transport(RequestText(number, B)).value;
      var o := ReadOutcome(values, lastRead, number, c, transport, accepts, now);
      var da := DecodeA(a, accepts, now);
      var db := DecodeB(b, PlacesA(a), accepts, now);
      && o.error.None? && o.lastRead == Some(now)
      && (k in db ==> Get(o.values, k) == db[k])
      && (k !in db && k in da ==> Get(o.values, k) == da[k])
      && (k !in db && k !in da ==> Get(o.values, k) == Get(values, k))
  {
    var a := transport(RequestText(number, A)).value;
    var b := transport(RequestText(number, B)).value;
    AfterAPlaces(values, a, c, accepts, now);
    DecodeANumeric(a, accepts, now);
    DecodeAPlaces(a, accepts, now);
    DecodeBNumeric(b, PlacesA(a), accepts, now);
    RecordBOverA(values, DecodeA(a, accepts, now), PlacesA(a), DecodeB(b, PlacesA(a), accepts, now), c, k);
  }

  /** After a complete read the session responds to every field of both
      responses, the clock, the looked-up states and the aggregates, besides
      the keys it held before, and to nothing else. */
  lemma ReadKeys(values: map<Field, Value>, lastRead: Option<real>, number: string, c: PowerConfiguration,
                 transport: Transport, accepts: TimeFields -> bool, now: real)
    requires transport(RequestText(number, A)).Some? && transport(RequestText(number, B)).Some?
    ensures ReadOutcome(values, lastRead, number, c, transport, accepts, now).values.Keys
      == values.Keys + KeptFields(LayoutA) + KeptFields(LayoutB) + DerivedA + Aggregates
  {
    var a := transport(RequestText(number, A)).value;
    var b := transport(RequestText(number, B)).value;
    AfterAPlaces(values, a, c, accepts, now);
    DecodeANumeric(a, accepts, now);
    DecodeAPlaces(a, accepts, now);
    DecodeBNumeric(b, PlacesA(a), accepts, now);
    DecodeAKeys(a, accepts, now);
    DecodeBKeys(b, PlacesA(a), accepts, now);
    RecordBOverAKeys(values, DecodeA(a, accepts, now), PlacesA(a), DecodeB(b, PlacesA(a), accepts, now), c);
    ReadKeysRegroup(values.Keys, KeptFields(LayoutA), KeptFields(LayoutB));
  }

  lemma ReadKeysRegroup(v: set<Field>, ka: set<Field>, kb: set<Field>)
    ensures v + (ka + DerivedA) + (kb + {MeterTimestamp}) + Aggregates == v + ka + kb + DerivedA + Aggregates
  {
    assert MeterTimestamp in DerivedA;
  }

  // ---------------------------------------------------------------------
  // The cache policy of `method_missing`

  /** The seconds since the last read; zero before the first one. */
  function Elapsed(lastRead: Option<real>, now: real): (e: real)
    ensures lastRead.None? ==> e == 0.0
    ensures lastRead.Some? ==> lastRead.value + e == now
  {
    if lastRead.None? then 0.0 else now - lastRead.value
  }

  /** The refresh test as written: `et > 250`, with `et` in seconds. */
  predicate StaleAsWritten(elapsed: real)
  {
    elapsed > 250.0
  }

  /** The refresh test as intended: more than 0.25 seconds. */
  predicate Stale(elapsed: real)
  {
    elapsed > 0.25
  }

  /** What a lookup through `method_missing` leaves and answers. */
  datatype Answer = Answer(after: Outcome, result: Result<Value, Error>)

  /** `method_missing(k)`, given whether the values count as stale: stale
      values are read again first, and an error of that read is raised; then
      the hash answers, or the lookup fails as `super` does when the key is
      not there. */
  function MethodMissing(values: map<Field, Value>, lastRead: Option<real>, number: string, c: PowerConfiguration,
                         transport: Transport, accepts: TimeFields -> bool, now: real, k: Field,
                         stale: bool): Answer
  {
    var o := if stale then ReadOutcome(values, lastRead, number, c, transport, accepts, now)
             else Outcome(values, lastRead, None);
    Answer(o, if o.error.Some? then Err(o.error.value)
              else if k in o.values then Ok(o.values[k]) else Err(UnknownField(k)))
  }

  /** The test as written serves values a full second old, four times the
      intended limit, from the hash: the lookup leaves the session as it was,
      while the corrected test reads the meter again. */
  lemma StaleAsWrittenServesOldValues(values: map<Field, Value>, t: real, number: string, c: PowerConfiguration,
                                      transport: Transport, accepts: TimeFields -> bool, k: Field)
    ensures var a := MethodMissing(values, Some(t), number, c, transport, accepts, t + 1.0, k,
                                   StaleAsWritten(Elapsed(Some(t), t + 1.0)));
      && a.after == Outcome(values, Some(t), None)
      && a.result == (if k in values then Ok(values[k]) else Err(UnknownField(k)))
    ensures var a := MethodMissing(values, Some(t), number, c, transport, accepts, t + 1.0, k,
                                   Stale(Elapsed(Some(t), t + 1.0)));
      a.after == ReadOutcome(values, Some(t), number, c, transport, accepts, t + 1.0)
  {
    assert Elapsed(Some(t), t + 1.0) == 1.0;
  }

  /** The corrected test refreshes exactly when more than 250 milliseconds
      have passed since the last read: a lookup then reads the meter again,
      and otherwise answers from the hash. Before the first read, and for
      the lookups a request makes right after setting the time, it does not
      refresh. */
  lemma StaleMeansQuarterSecond(values: map<Field, Value>, t: real, e: real, number: string, c: PowerConfiguration,
                                transport: Transport, accepts: TimeFields -> bool, k: Field)
    ensures Stale(e) <==> e * 1000.0 > 250.0
    ensures var a := MethodMissing(values, Some(t), number, c, transport, accepts, t + e, k,
                                   Stale(Elapsed(Some(t), t + e)));
      && (e * 1000.0 > 250.0 ==> a.after == ReadOutcome(values, Some(t), number, c, transport, accepts, t + e))
      && (e * 1000.0 <= 250.0 ==> a.after == Outcome(values, Some(t), None))
    ensures !Stale(Elapsed(None, t)) && !Stale(Elapsed(Some(t), t))
  {
    assert Elapsed(Some(t), t + e) == e;
  }

  // ---------------------------------------------------------------------
  // The session

  class Meter {
    /** The meter number padded to 12 characters, as sent in every request. */
    const meterNumber: string
    const powerConfiguration: PowerConfiguration
    /** Kept but without effect: a checksum mismatch is only logged. */
    const verifyChecksums: bool
    var values: map<Field, Value>
    var lastReadTimestamp: Option<real>

    /** The session holds the energy places of the last response A as an
        Integer, as `to_kwh_float` needs when response B is cast. */
    predicate Valid()
      reads this
    {
      KwhDataDecimalPlaces in values && values[KwhDataDecimalPlaces].IntV?
    }

    /** `respond_to?` for a key of the values hash. */
    predicate RespondsTo(k: Field)
      reads this
    {
      k in values
    }

    /** `respond_to?` is true exactly for the keys that a lookup which does
        not refresh answers from the hash, with the value it answers. */
    lemma RespondsToAnswered(transport: Transport, accepts: TimeFields -> bool, now: real, k: Field)
      ensures RespondsTo(k) <==>
        MethodMissing(values, lastReadTimestamp, meterNumber, powerConfiguration, transport, accepts, now, k, false).result.Ok?
      ensures RespondsTo(k) ==>
        MethodMissing(values, lastReadTimestamp, meterNumber, powerConfiguration, transport, accepts, now, k, false).result
          == Ok(values[k])
    {
    }

    /** The state `initialize` sets up before its first read. */
    constructor (number: string, configuration: PowerConfiguration, verify: bool)
      ensures meterNumber == PadMeterNumber(number)
      ensures powerConfiguration == configuration && verifyChecksums == verify
      ensures values == map[] && lastReadTimestamp == None
    {
      meterNumber := PadMeterNumber(number);
      powerConfiguration := configuration;
      verifyChecksums := verify;
      values := map[];
      lastReadTimestamp := None;
    }

    /** `initialize`: pad the number, check the configuration (absent means
        single_phase_3wire), and read. Either a refused configuration or a
        read without a response raises, and no session is made. */
    static method Open(number: string, configuration: Option<string>, verify: Option<bool>,
                       transport: Transport, accepts: TimeFields -> bool, now: real)
      returns (r: Result<Meter, Error>)
      ensures ParseConfiguration(configuration).Err? ==> r == Err(ParseConfiguration(configuration).error)
      ensures ParseConfiguration(configuration).Ok? ==>
        var o := ReadOutcome(map[], None, PadMeterNumber(number), ParseConfiguration(configuration).value,
                             transport, accepts, now);
        && (o.error.Some? ==> r == Err(o.error.value))
        && (o.error.None? ==> r.Ok? && fresh(r.value) && r.value.values == o.values && r.value.lastReadTimestamp == o.lastRead)
      ensures r.Ok? ==> r.value.meterNumber == PadMeterNumber(number)
      ensures r.Ok? ==> r.value.powerConfiguration == ParseConfiguration(configuration).value
      ensures r.Ok? ==> r.value.verifyChecksums == (verify == Some(true))
      ensures r.Ok? ==> r.value.Valid()
    {
      var c := ParseConfiguration(configuration);
      if c.Err? {
        return Err(c.error);
      }
      var m := new Meter(number, c.value, verify == Some(true));
      var result := m.Read(transport, accepts, now);
      if result.Err? {
        return Err(result.error);
      }
      return Ok(m);
    }

    /** `request_a`: send the A command, decode the response, store its
        energy places, merge into the values hash, set the read time and
        compute the aggregates. Returns the hash of this response alone. */
    method RequestA(transport: Transport, accepts: TimeFields -> bool, now: real)
      returns (r: Result<map<Field, Value>, Error>)
      modifies this
      ensures var response := transport(RequestText(meterNumber, A));
        && (response.None? ==> r == Err(NoResponse) && values == old(values) && lastReadTimestamp == old(lastReadTimestamp))
        && (response.Some? ==> && r == Ok(DecodeA(response.value, accepts, now))
                               && values == AfterA(old(values), response.value, powerConfiguration, accepts, now)
                               && lastReadTimestamp == Some(now))
      ensures transport(RequestText(meterNumber, A)).Some? ==> Valid()
    {
      var response := transport(RequestText(meterNumber, A));
      if response.None? {
        return Err(NoResponse);
      }
      var d, places := DecodeResponseA(response.value, accepts, now);
      values := values[KwhDataDecimalPlaces := IntV(places)];
      RecordAStages(old(values), d, places, powerConfiguration);
      values := values + d;
      lastReadTimestamp := Some(now);
      values := Totals(values, powerConfiguration);
      values := Balances(values);
      AfterAPlaces(old(values), response.value, powerConfiguration, accepts, now);
      return Ok(d);
    }

    /** `request_b`: the same with the B command; the energy registers are
        cast with the places the last response A stored, and the energy
        balances are not recomputed. */
    method RequestB(transport: Transport, accepts: TimeFields -> bool, now: real)
      returns (r: Result<map<Field, Value>, Error>)
      requires Valid()
      modifies this
      ensures var response := transport(RequestText(meterNumber, B));
        && (response.None? ==> r == Err(NoResponse) && values == old(values) && lastReadTimestamp == old(lastReadTimestamp))
        && (response.Some? ==> && r == Ok(DecodeB(response.value, old(values)[KwhDataDecimalPlaces].i, accepts, now))
                               && values == AfterB(old(values), response.value, powerConfiguration, accepts, now)
                               && lastReadTimestamp == Some(now))
      ensures Valid()
    {
      var response := transport(RequestText(meterNumber, B));
      if response.None? {
        return Err(NoResponse);
      }
      var d := DecodeResponseB(response.value, values[KwhDataDecimalPlaces].i, accepts, now);
      RecordBStages(values, d, powerConfiguration);
      values := values + d;
      lastReadTimestamp := Some(now);
      values := Totals(values, powerConfiguration);
      AfterBPlaces(old(values), response.value, powerConfiguration, accepts, now);
      return Ok(d);
    }

    /** `read`: both requests, then the whole values hash. */
    method Read(transport: Transport, accepts: TimeFields -> bool, now: real)
      returns (r: Result<map<Field, Value>, Error>)
      modifies this
      ensures var o := ReadOutcome(old(values), old(lastReadTimestamp), meterNumber, powerConfiguration,
                                   transport, accepts, now);
        && values == o.values && lastReadTimestamp == o.lastRead
        && r == (if o.error.Some? then Err(o.error.value) else Ok(values))
      ensures transport(RequestText(meterNumber, A)).Some? ==> Valid()
      ensures old(Valid()) ==> Valid()
    {
      var a := RequestA(transport, accepts, now);
      if a.Err? {
        return Err(a.error);
      }
      AfterAPlaces(old(values), transport(RequestText(meterNumber, A)).value, powerConfiguration, accepts, now);
      var b := RequestB(transport, accepts, now);
      if b.Err? {
        return Err(b.error);
      }
      return Ok(values);
    }

    /** `method_missing` for a key of the values hash, with the corrected
        staleness test: refresh when the values are more than 0.25 seconds
        old, then answer from the hash, or fail as `super` does when the key
        is not there. */
    method Lookup(k: Field, transport: Transport, accepts: TimeFields -> bool, now: real)
      returns (r: Result<Value, Error>)
      modifies this
      ensures var a := MethodMissing(old(values), old(lastReadTimestamp), meterNumber, powerConfiguration,
                                     transport, accepts, now, k, Stale(Elapsed(old(lastReadTimestamp), now)));
        values == a.after.values && lastReadTimestamp == a.after.lastRead && r == a.result
      ensures var o := ReadOutcome(old(values), old(lastReadTimestamp), meterNumber, powerConfiguration,
                                   transport, accepts, now);
        if Stale(Elapsed(old(lastReadTimestamp), now)) then
          && values == o.values && lastReadTimestamp == o.lastRead
          && (o.error.Some? ==> r == Err(o.error.value))
        else
          values == old(values) && lastReadTimestamp == old(lastReadTimestamp)
      ensures r.Ok? <==> RespondsTo(k) && !(r.Err? && r.error == NoResponse)
      ensures r.Ok? ==> r.value == values[k]
      ensures r.Err? ==> r.error == NoResponse || (r.error == UnknownField(k) && !RespondsTo(k))
      ensures old(Valid()) ==> Valid()
    {
      r := LookupWhen(k, Stale(Elapsed(lastReadTimestamp, now)), transport, accepts, now);
    }

    /** `method_missing` with the staleness test as written, `et > 250` on a
        number of seconds. */
    method LookupAsWritten(k: Field, transport: Transport, accepts: TimeFields -> bool, now: real)
      returns (r: Result<Value, Error>)
      modifies this
      ensures var a := MethodMissing(old(values), old(lastReadTimestamp), meterNumber, powerConfiguration,
                                     transport, accepts, now, k, StaleAsWritten(Elapsed(old(lastReadTimestamp), now)));
        values == a.after.values && lastReadTimestamp == a.after.lastRead && r == a.result
      ensures old(Valid()) ==> Valid()
    {
      r := LookupWhen(k, StaleAsWritten(Elapsed(lastReadTimestamp, now)), transport, accepts, now);
    }

    /** The body of `method_missing`, once the staleness test has been
        decided. */
    method LookupWhen(k: Field, stale: bool, transport: Transport, accepts: TimeFields -> bool, now: real)
      returns (r: Result<Value, Error>)
      modifies this
      ensures var a := MethodMissing(old(values), old(lastReadTimestamp), meterNumber, powerConfiguration,
                                     transport, accepts, now, k, stale);
        values == a.after.values && lastReadTimestamp == a.after.lastRead && r == a.result
      ensures old(Valid()) ==> Valid()
    {
      if stale {
        var refreshed := Read(transport, accepts, now);
        if refreshed.Err? {
          return Err(refreshed.error);
        }
      }
      if k in values {
        return Ok(values[k]);
      }
      return Err(UnknownField(k));
    }
  }
}
