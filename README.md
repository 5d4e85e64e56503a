# EKM Omnimeter telemetry codec in Dafny

A model of `EkmOmnimeter::Meter` (lib/ekm-omnimeter/meter.rb): the Ruby client
for EKM Omnimeter electricity meters that speaks the vendor's iSerial ASCII
protocol. A meter session

- pads the meter number to 12 characters and checks the wiring configuration
  it was opened with;
- builds the two read commands `"/?" + number + "00!\r\n"` (request A) and
  `"/?" + number + "01!\r\n"` (request B);
- splits each 255-byte response into named fields with a fixed sequence of
  `Array#shift` calls;
- turns the byte slices into typed values: hex identity bytes, power-factor
  text, the meter's clock, integers, fixed-point decimals with 1 or 2 places,
  and energy registers scaled by the decimal places the meter reports in
  response A;
- replaces status codes by the states the constant tables give them;
- merges each response into the session's values hash and computes the
  per-configuration totals of volts, amps and watts and the energy balances;
- answers attribute reads from that hash through `method_missing`, first
  refreshing it when it is stale.

Modules, in dependency order:

| file | module | what it holds |
|---|---|---|
| wrappers.dfy | Wrappers | `Option` and `Result` |
| ruby_text.dfy | RubyText | `String#to_i`, `str[start, len]`, `rjust` fill, Float#to_s of n/100 |
| telemetry.dfy | Telemetry | the keys of the values hash, the values and errors, exact `+` and `-` |
| request.dfy | Request | the meter number and the read commands |
| tables.dfy | Tables | the six constant lookup tables |
| wiring.dfy | Wiring | the wiring configurations and `calculate_measurement` |
| frame.dfy | Frame | the two width tables and the shift walk over a response |
| caster.dfy | Caster | `to_f_with_decimal_places`, `unpack('H*')`, `cast_power_factor`, `as_datetime` |
| casting.dfy | Casting | `cast_response_to_correct_types`: four passes over key lists |
| decoding.dfy | Decoding | the decoding steps of `request_a` / `request_b` |
| ledger.dfy | Ledger | the merge into `@values` and the totals and balances computed after it |
| meter.dfy | Omnimeter | the session class `Meter`: `initialize`, `read`, both requests and `method_missing` |

Ruby Floats are modelled as exact decimals: a mantissa and a number of places.
Time is real seconds. Three things the session depends on but cannot compute
itself are parameters:

- the transport, a function from request text to the response bytes, or None
  when the meter does not answer;
- the current time;
- which calendar fields `DateTime.new` accepts.

What the code does at its edges, and the model with it:

- The code never checks the response length: `shift` returns fewer bytes
  from a short response. So the decoder takes any byte sequence, and only
  the positional lemmas assume 255 bytes.
- A malformed number does not raise: `to_i` and `to_f` read the leading digits, or 0.
- A code outside a lookup table yields nil, not an error.
- When request B gets no response, what request A merged stays in the hash.
- The staleness test of `method_missing` compares seconds with 250. The
  model keeps that test as written in `Meter.LookupAsWritten` and uses the
  corrected 0.25-second test in `Meter.Lookup` (see Findings).

## Model

| member | source | states |
|---|---|---|
| Request.PadMeterNumber | lib/ekm-omnimeter/meter.rb:95 | the padded number is 12 characters, or the whole number when it is longer; it ends with the given number and everything before it is '0' |
| Request.PadPreservesNumber | lib/ekm-omnimeter/meter.rb:95 | zero-filling a digit string keeps the number `to_i` reads, and padding twice is padding once |
| Request.RequestText | lib/ekm-omnimeter/meter.rb:174 | the read command `"/?" + number + code + "!\r\n"`; RequestRoundTrip and RequestLayout state what it determines (also line 283) |
| Request.VariantCode | lib/ekm-omnimeter/meter.rb:174 | each variant code is two characters (also line 283) |
| Request.RequestRoundTrip | lib/ekm-omnimeter/meter.rb:174 | a command text reads back as (number, variant) exactly when it is the command for that number and variant, so it determines both (also line 283) |
| Request.RequestLayout | lib/ekm-omnimeter/meter.rb:174 | with a number of at most 12 characters the command is 19 characters, with the zero-filled number at 2..14 and the variant code at 14..16 (also lines 95, 283) |
| Tables.MeterTypeName | lib/ekm-omnimeter/meter.rb:32-36 | a type name exists exactly for "1017", "1022" and "1024"; "1024" is the Pulse v.4 (also line 255) |
| Tables.PulseInputs | lib/ekm-omnimeter/meter.rb:38-47 | defined exactly for 0..7; input i is low exactly when bit 3-i of the code is set (also line 256) |
| Tables.PulseInputsBijective | lib/ekm-omnimeter/meter.rb:38-47 | the table maps 0..7 one to one onto the level triples, inverse to the bit encoding |
| Tables.CurrentDirections | lib/ekm-omnimeter/meter.rb:49-58 | defined exactly for 1..8; code 1 is all forward and code 8 all reverse (also line 257) |
| Tables.CurrentDirectionsBijective | lib/ekm-omnimeter/meter.rb:49-58 | the table maps 1..8 one to one onto the direction triples; codes 2-4 have one reversed line and 5-7 two |
| Tables.Outputs | lib/ekm-omnimeter/meter.rb:60-65 | defined exactly for 1..4; output 1 is on for codes 3 and 4 and output 2 for the even codes (also line 258) |
| Tables.DemandPeriodMinutes | lib/ekm-omnimeter/meter.rb:67-71 | defined exactly for 1..3, giving 15, 30 and 60 minutes (also line 361) |
| Tables.AutoResetMode | lib/ekm-omnimeter/meter.rb:73-79 | defined exactly for 0..4; 0 is off and 4 hourly (also line 362) |
| Tables.AutoResetModeBijective | lib/ekm-omnimeter/meter.rb:73-79 | distinct codes give distinct modes and every mode has a code |
| Wiring.ParseConfiguration | lib/ekm-omnimeter/meter.rb:104-112 | no option means single_phase_3wire; a name is accepted exactly when it names one of the four configurations, and any other name is refused with a configuration error naming it |
| Wiring.ConfigurationNameRoundTrip | lib/ekm-omnimeter/meter.rb:13-18 | every configuration's own name is accepted as that configuration, and no two configurations share a name (also lines 104-112) |
| Wiring.CalculateMeasurement | lib/ekm-omnimeter/meter.rb:512-522 | m1 for single_phase_2wire; m1+m2, m1+m3 and m1+m2+m3 for the other three, exactly; integers stay integers |
| Wiring.MeasurementSumsConnected | lib/ekm-omnimeter/meter.rb:512-522 | the measurement is the sum of the lines the configuration connects |
| Telemetry.Plus | lib/ekm-omnimeter/meter.rb:516-520 | Ruby `+` on numbers gives the exact sum and stays an Integer exactly when both operands are |
| Telemetry.Minus | lib/ekm-omnimeter/meter.rb:268-269 | Ruby `-` on numbers gives the exact difference, with the same Integer rule |
| RubyText.Sub | lib/ekm-omnimeter/meter.rb:529 | `str[start, len]` is nil exactly when start lies past the end, is never longer than len, and is the exact slice when it fits (also line 540) |
| RubyText.ToI | lib/ekm-omnimeter/meter.rb:460 | String#to_i: leading white space skipped, an optional sign, an optional `0d`/`0D` prefix, then digits in which a single `_` may stand between two digits, 0 when there is no digit; ToIDigits, ToIRadixPrefix and ToINatText state its value (also lines 245, 529) |
| RubyText.ToF | lib/ekm-omnimeter/meter.rb:554 | the whole-number part of String#to_f: leading white space skipped, an optional sign, then digits in which a single `_` may stand between two digits, with no radix prefix, 0 when there is no digit; ToFDigits and ToFNoRadixPrefix state its value (also line 540) |
| RubyText.ToFDigits | lib/ekm-omnimeter/meter.rb:554 | on a digit string `to_f`'s whole-number part is the positional value of the digits, the same as `to_i` (also line 540) |
| RubyText.ToFNoRadixPrefix | lib/ekm-omnimeter/meter.rb:554 | `to_f` takes no `0d` prefix: `"0d12".to_f` reads as 0 while `"0d12".to_i` is 12 (also line 540) |
| RubyText.ToIRadixPrefix | lib/ekm-omnimeter/meter.rb:460 | `"0d12".to_i` is 12: a `0d` or `0D` before digits is skipped, also after a minus sign |
| RubyText.ToIDigits | lib/ekm-omnimeter/meter.rb:245 | on a digit string with leading zeros allowed, `to_i` is the positional value of the digits (also line 460) |
| RubyText.ToINatText | lib/ekm-omnimeter/meter.rb:540 | `to_i` reads back the decimal text of a natural number |
| RubyText.HundredthsTextValue | lib/ekm-omnimeter/meter.rb:540 | the text written for n / 100.0 reads back as exactly n/100 |
| Frame.ShiftFields | lib/ekm-omnimeter/meter.rb:185-236 | the shift loop over a width table yields the fields and the clock text of walking the table over the response (also lines 293-342) |
| Frame.SplitResponse | lib/ekm-omnimeter/meter.rb:185-236 | the fields and the clock text that walking a width table over a response gives; ShiftFields, SplitField and LayoutKeys state what it holds (also lines 293-342) |
| Frame.LayoutWidths | lib/ekm-omnimeter/meter.rb:189-236 | both width tables consume exactly 255 bytes (also lines 297-342) |
| Frame.OffsetsOrdered | lib/ekm-omnimeter/meter.rb:189-236 | entries are contiguous and do not overlap: each ends at or before the start of every later one, all within the table's width (also lines 297-342) |
| Frame.LayoutKeys | lib/ekm-omnimeter/meter.rb:189-236 | each layout stores exactly the shared header keys, its own body keys and the checksum (also lines 297-342) |
| Frame.HeaderOffsets | lib/ekm-omnimeter/meter.rb:189-192 | in both responses meter type, firmware and address are bytes 1..3, 3..4 and 4..16 (also lines 297-300) |
| Frame.TrailerOffsets | lib/ekm-omnimeter/meter.rb:234-236 | in both responses the clock text is bytes 233..247 and the CRC bytes 253..255 (also lines 340-342) |
| Frame.SplitField | lib/ekm-omnimeter/meter.rb:185-236 | a key stored by one entry of a full response holds exactly the bytes at that entry's offset (also lines 293-342) |
| Frame.LayoutBOmitsPlaces | lib/ekm-omnimeter/meter.rb:293-342 | response B carries no energy decimal places |
| Frame.ChecksumSpanFrame | lib/ekm-omnimeter/meter.rb:420-423 | on a full response the span checked is everything between STX and the CRC, 252 bytes |
| Caster.AsInteger | lib/ekm-omnimeter/meter.rb:460-461 | `to_i` gives an Integer for text and keeps an Integer; on digit text (leading zeros allowed) that Integer is the positional value of the digits; nothing else is changed |
| Caster.Scaled | lib/ekm-omnimeter/meter.rb:552-560 | `s.to_f / 10**p` as an exact decimal: the value of text is the number `to_f` reads (ToF) divided by 10^p, the value of a number is that number divided by 10^p, for either sign of p; nothing else is changed |
| Caster.ScaledDigits | lib/ekm-omnimeter/meter.rb:552-560 | for a slice of digits, the scaled value times 10^p is exactly the positional value of the digits |
| Caster.ScaledSample | lib/ekm-omnimeter/meter.rb:552-560 | "00012345" with two places is 123.45 |
| Caster.Hex | lib/ekm-omnimeter/meter.rb:246-247 | `unpack('H*')`: two characters per octet; UnhexHex states that the text determines the octets |
| Caster.UnhexHex | lib/ekm-omnimeter/meter.rb:246-247 | `unpack('H*')` loses nothing: its text reads back as the octets it came from |
| Caster.FirmwareNumber | lib/ekm-omnimeter/meter.rb:247 | the firmware octet read back by `to_i` from its hex text: 0x15 gives 15, a letter nibble cuts the number short (also line 460) |
| Caster.PowerFactorText | lib/ekm-omnimeter/meter.rb:539-541 | `"#{s[0]}#{s[1,3].to_f / 100.0}"`; PowerFactorMeaning and PowerFactorSample state what it writes |
| Caster.PowerFactorMeaning | lib/ekm-omnimeter/meter.rb:539-541 | the power-factor text starts with the input's first character, and the rest reads as the number `to_f` reads from characters 1..3, divided by 100; for digits that number is their positional value |
| Caster.PowerFactorSample | lib/ekm-omnimeter/meter.rb:539-541 | "C099" becomes "C0.99" |
| Caster.AsDateTime | lib/ekm-omnimeter/meter.rb:527-535 | a calendar time is one the date library accepts, at UTC-4, and the fallback is the current time; on a 14-digit clock text the fields are two digits each at YY MM DD .. HH MM SS with the year in the 2000s, the weekday digits unread, giving that calendar time exactly when the library accepts them |
| Caster.StampFields | lib/ekm-omnimeter/meter.rb:529 | the six `to_i` of `as_datetime`; StampFieldsDigits and StampIgnoresWeekday state their values |
| Caster.StampFieldsDigits | lib/ekm-omnimeter/meter.rb:529 | on a 14-digit clock text the year is 2000 plus digits 0..2 and month, day, hour, minute and second are digits 2..4, 4..6, 8..10, 10..12 and 12..14 |
| Caster.StampIgnoresWeekday | lib/ekm-omnimeter/meter.rb:529 | changing the weekday digits 6..8 does not change the clock |
| Casting.CastResponse | lib/ekm-omnimeter/meter.rb:434-508 | the four passes over the key lists give the per-field cast table applied to every key, and nothing else |
| Casting.CastEach | lib/ekm-omnimeter/meter.rb:460-462 | one `.each` pass over a key list, a loop whose invariant ties it to the pass function: every listed key present is cast in list order, and no key is added (also lines 472-474, 478-480, 504-506) |
| Casting.PassesMatchTable | lib/ekm-omnimeter/meter.rb:434-508 | running the four lists in order is the same as casting each key once by its own rule; no key is added or lost |
| Casting.CastKeysDomain | lib/ekm-omnimeter/meter.rb:459 | a pass casts only keys already present: the key set is unchanged (also lines 473, 479, 505) |
| Casting.CastKeysHit | lib/ekm-omnimeter/meter.rb:459 | a present key on a list without repeats is cast exactly once (also lines 473, 479, 505) |
| Casting.ListsDistinct | lib/ekm-omnimeter/meter.rb:437-504 | no key list names a key twice |
| Casting.CastDigits | lib/ekm-omnimeter/meter.rb:434-508 | on digit text, the Integer keys become the digits' value, volts, amps and maximum demand that value with 1 place, frequency with 2 places, the energy keys with the reported places; keys on no list are untouched (also lines 546-548) |
| Casting.CastFieldNumber | lib/ekm-omnimeter/meter.rb:434-508 | every cast of received text is a number: an Integer for the Integer keys, an exact decimal for the rest |
| Casting.StatusCasts | lib/ekm-omnimeter/meter.rb:437-460 | the status codes, the demand settings and the energy places are Integer keys |
| Decoding.DecodeResponseA | lib/ekm-omnimeter/meter.rb:185-258 | the decoding steps of request A give its decoded hash and the energy places its response carries; the per-line readings and both energy totals are numbers |
| Decoding.DecodeResponseB | lib/ekm-omnimeter/meter.rb:293-362 | the decoding steps of request B give its decoded hash; the per-line readings are numbers |
| Decoding.DecodeA | lib/ekm-omnimeter/meter.rb:185-258 | the hash request A returns for a response; the DecodeA* lemmas state its keys and values |
| Decoding.DecodeB | lib/ekm-omnimeter/meter.rb:293-362 | the hash request B returns for a response and the held places; the DecodeB* lemmas state its keys and values |
| Decoding.DecodeAKeys | lib/ekm-omnimeter/meter.rb:185-258 | request A returns every key of its layout, the clock and the eight looked-up states, whatever the response holds |
| Decoding.DecodeBKeys | lib/ekm-omnimeter/meter.rb:293-362 | request B returns every key of its layout and the clock |
| Decoding.DecodeAValues | lib/ekm-omnimeter/meter.rb:185-252 | every other received key of response A holds its field's cast, energy registers scaled by response A's own places |
| Decoding.DecodeBValues | lib/ekm-omnimeter/meter.rb:293-357 | every other received key of response B holds its field's cast, energy registers scaled by the places the session holds (also lines 546-548) |
| Decoding.DecodeAIdentity | lib/ekm-omnimeter/meter.rb:246-255 | the meter type is the table name of its hex text, the firmware the number its hex reads as, each power factor its text, and the clock its calendar time |
| Decoding.DecodeBIdentity | lib/ekm-omnimeter/meter.rb:351-360 | the same identity values in response B |
| Decoding.DecodeAStatus | lib/ekm-omnimeter/meter.rb:256-258 | the pulse inputs, line directions and outputs are the table entries for the numbers the status bytes read as, all nil together outside the table |
| Decoding.DecodeBSettings | lib/ekm-omnimeter/meter.rb:361-362 | the demand period in minutes and the reset mode are looked up under the numbers their bytes read as, nil outside the table |
| Decoding.DecodeAPlaces | lib/ekm-omnimeter/meter.rb:232 | response A carries the energy places as the Integer its byte reads as, the same number stored before casting (also line 245) |
| Decoding.DecodeANumeric | lib/ekm-omnimeter/meter.rb:265-269 | the readings the aggregates read are numbers in response A |
| Ledger.Totals | lib/ekm-omnimeter/meter.rb:265-267 | volts, amps and watts are set to the sum of the lines the configuration connects (also lines 369-371) |
| Ledger.Balances | lib/ekm-omnimeter/meter.rb:268-269 | forward energy is total minus reverse, and net energy total minus twice reverse |
| Ledger.RecordA | lib/ekm-omnimeter/meter.rb:261-269 | the hash after request A: the places, `merge!`, the totals and the balances; the RecordA* lemmas state keys and values (also line 245) |
| Ledger.RecordB | lib/ekm-omnimeter/meter.rb:365-371 | the hash after request B: `merge!` and the totals; the RecordB* lemmas state keys and values |
| Ledger.TotalsFrame | lib/ekm-omnimeter/meter.rb:265-267 | computing the totals adds only volts, amps and watts and changes no other key |
| Ledger.RecordAHas | lib/ekm-omnimeter/meter.rb:261-269 | after request A a key is present exactly when it was before, came in the response, is the energy places, or is an aggregate (also line 245) |
| Ledger.RecordAKeys | lib/ekm-omnimeter/meter.rb:261-269 | the key set after request A is the old keys, the response's keys, the energy places and the aggregates (also line 245) |
| Ledger.RecordAPrefersNew | lib/ekm-omnimeter/meter.rb:261 | a key of the response that is not an aggregate holds the response's value |
| Ledger.RecordAKeepsOld | lib/ekm-omnimeter/meter.rb:261 | a key the response lacks keeps its old value |
| Ledger.RecordAPlaces | lib/ekm-omnimeter/meter.rb:245 | when the response carries the places, the hash holds them (also line 261) |
| Ledger.RecordATotals | lib/ekm-omnimeter/meter.rb:261-267 | after request A the totals are the connected sums of the merged lines |
| Ledger.RecordABalances | lib/ekm-omnimeter/meter.rb:268-269 | after request A the balances are computed from the merged energy totals |
| Ledger.RecordBKeeps | lib/ekm-omnimeter/meter.rb:365 | after request B a non-aggregate key holds the response's value if it has one, else its old value |
| Ledger.RecordBKeys | lib/ekm-omnimeter/meter.rb:365-371 | the key set after request B is the old keys, the response's keys and the three totals |
| Ledger.RecordBTotals | lib/ekm-omnimeter/meter.rb:365-371 | after request B the totals are the connected sums of the merged lines |
| Ledger.RecordBOverA | lib/ekm-omnimeter/meter.rb:132-136 | after A then B a non-aggregate key answers from B if B has it, else from A, else as before (also lines 261, 365) |
| Omnimeter.AfterAPlaces | lib/ekm-omnimeter/meter.rb:245 | after request A the hash holds the energy places of that response, where request B finds them (also lines 546-548) |
| Omnimeter.AfterBPlaces | lib/ekm-omnimeter/meter.rb:293-371 | request B leaves the energy places unchanged |
| Omnimeter.ReadMerges | lib/ekm-omnimeter/meter.rb:132-136 | a read with both responses raises nothing, sets the read time, casts response B with the places response A just stored, and answers from B, else A, else as before (also lines 261-262, 365-366) |
| Omnimeter.ReadKeys | lib/ekm-omnimeter/meter.rb:132-136 | after a complete read the session holds exactly the old keys, both layouts' keys, the derived keys and the aggregates (also lines 159-165) |
| Omnimeter.ReadOutcome | lib/ekm-omnimeter/meter.rb:132-136 | the state and error of `read`: request A, then request B, each raising on no response after what earlier requests did; ReadMerges and ReadKeys state the result |
| Omnimeter.Elapsed | lib/ekm-omnimeter/meter.rb:142 | seconds since the last read: 0 before the first read, otherwise the read time plus the result is now |
| Omnimeter.Meter.RespondsToAnswered | lib/ekm-omnimeter/meter.rb:159-165 | `respond_to?` is true exactly for the keys of the values hash, which are the keys a lookup that does not refresh answers, with their values; ReadKeys gives those keys after a complete read |
| Omnimeter.StaleAsWritten | lib/ekm-omnimeter/meter.rb:144 | the refresh test as written, `et > 250` on a number of seconds |
| Omnimeter.MethodMissing | lib/ekm-omnimeter/meter.rb:140-155 | what `method_missing` leaves and answers once staleness is decided: a stale session is read again and that read's error raised, then the hash answers or the key fails as unknown |
| Omnimeter.StaleAsWrittenServesOldValues | lib/ekm-omnimeter/meter.rb:141-147 | one second after a read, the lookup with the test as written leaves hash and read time as they were and answers from the old hash, while the corrected test reads the meter again |
| Omnimeter.StaleMeansQuarterSecond | lib/ekm-omnimeter/meter.rb:141-147 | with the corrected test, a lookup e seconds after a read reads the meter again exactly when e is over 250 ms and otherwise leaves the session as it was; no refresh before the first read or right after a request |
| Omnimeter.Meter.constructor | lib/ekm-omnimeter/meter.rb:95-123 | the padded number, the configuration and the checksum flag, with an empty hash and no read time |
| Omnimeter.Meter.Open | lib/ekm-omnimeter/meter.rb:87-128 | a refused configuration raises its error; otherwise the session is made only if the first read succeeds, and then holds that read's hash and time; the flag is set only when given as true; a session made holds the energy places as an Integer |
| Omnimeter.Meter.RequestA | lib/ekm-omnimeter/meter.rb:170-274 | no response raises and changes nothing; otherwise it returns response A's decoded hash and leaves the merged hash with totals and balances and the read time now; a response leaves the energy places as an Integer |
| Omnimeter.Meter.RequestB | lib/ekm-omnimeter/meter.rb:279-376 | no response raises and changes nothing; otherwise it returns response B's hash cast with the held places and leaves the merged hash with totals and the read time now; the energy places stay an Integer |
| Omnimeter.Meter.Read | lib/ekm-omnimeter/meter.rb:132-136 | request A then B: the state and the error are those of the read outcome, and a successful read returns the whole hash; a response A leaves the energy places as an Integer, and they stay one otherwise |
| Omnimeter.Meter.Lookup | lib/ekm-omnimeter/meter.rb:140-165 | `method_missing` with the corrected 0.25 s test: the session and answer are those of MethodMissing; a stale session is read first, and a failed refresh raises; the lookup succeeds exactly when the key is present, and then gives its value; an absent key fails as an unknown field; the energy places stay an Integer |
| Omnimeter.Meter.LookupAsWritten | lib/ekm-omnimeter/meter.rb:140-155 | `method_missing` with the test as written: the session and the answer are those of MethodMissing under `et > 250` |
| Omnimeter.Meter.LookupWhen | lib/ekm-omnimeter/meter.rb:144-154 | the body of `method_missing` once staleness is decided: the session and the answer are those of MethodMissing; the energy places stay an Integer |

## Left out

- The socket transport, `get_remote_meter_data`, and the 4-byte goodbye it writes are a parameter: a function from request text to an optional response. Remote address and port, which only feed it, are not modelled.
- The CRC16 algorithm is not part of this model: `Crc16` lives in a file not included and is marked as not working. Only the span it would cover is modelled, and a mismatch is only logged, so `verifyChecksums` has no effect on any result.
- Logging, the `puts`/`pp` of the options, and the logger plumbing are I/O and are left out.
- Omnimeter.Meter.Open: assumes that obtaining the logger succeeds. As written it does not: meter.rb:91 calls `logger(self)`, but the `logger` that `include Logger` brings in (logger.rb:155-157) takes no argument. So `Meter.new` would raise ArgumentError before the power configuration is checked. This is a defect in the source, found by reading and not executed. The model starts where the evident intent would: with the configuration check.
- `Time.now` is a parameter, and one value serves both requests of a read. Which fields `DateTime.new` accepts is a parameter predicate, and the `DateTime.now` fallback is the same clock value.
- Floating-point rounding is not modelled: `to_f / 10**p` and `/ 100.0` are exact decimals.
- Caster.Scaled: `s.to_f` is modelled by RubyText.ToF, which reads only the whole-number part. It matches Ruby on text with leading white space, an optional sign, and digits with single underscores, which covers what the meter sends. Like Ruby's `to_f`, and unlike `to_i`, it takes no `0d` prefix. It stops at a decimal point or an exponent: `"1e2".to_f` is 100.0 and `"1.5".to_f` is 1.5, but ToF gives 1 for both. The model does not cover that text.
- Caster.PowerFactorText: `s[1,3].to_f` is modelled by RubyText.ToF, as for Caster.Scaled. This matches Ruby on the three digits the meter sends, and on `"C0d1"`, which gives `"C0.0"`. It does not match on text with a decimal point: for `"C1.5"` Ruby gives `"C0.015"` and the model gives `"C0.01"`. A negative zero is not modelled either: for `"C-00"` Ruby's `-0.0.to_s` gives `"C-0.0"`; the model reads `-00` as the integer 0 and writes `"C0.0"`.
- Caster.Scaled: on nil (a key missing from the hash) Ruby's `to_f_with_decimal_places` returns what `logger.error` returns. The model does not cover that branch because it is unreachable: a pass casts a key only when `has_key?` finds it, and every key present at that point holds the bytes `shift` took, which are never nil. The model leaves nil as it is and does not model the log.
- The aggregates read `volts_l1` and the others through `method_missing`. Right after `@last_read_timestamp` has been set the elapsed time is zero, so no refresh happens there, and the model reads the hash directly.
- The `raise EkmOmnimeter, ...` on a missing response names a module, not an exception class, so Ruby raises a TypeError instead. The model calls it NoResponse: what matters is that the request raises after changing nothing.
- Responses are byte sequences. Ruby's `split('')` works on characters, which is the same for the single-byte text the meter sends.
- Omnimeter.Meter.Lookup: models `method_missing` and `respond_to?` for keys of the values hash only; calls that name other methods reach Ruby's own dispatch, which is not part of this model.
- Omnimeter.Meter.Lookup uses the corrected staleness test; the test as written is modelled by Omnimeter.Meter.LookupAsWritten (see Findings).
- The configuration option's `to_sym` on a non-string, and the option defaults loaded from YAML, are not modelled: the option is an optional name.

## Findings

| source | as written | input that shows it | evidently intended | confidence | as-written member | corrected member |
|---|---|---|---|---|---|---|
| lib/ekm-omnimeter/meter.rb:141-147 | `et > 250`, where `et` is `Time.now - @last_read_timestamp`, a number of seconds | a lookup 1.0 s after a read answers from the old hash without refreshing | refresh after 0.25 s, as the comment and the log message say | not executed | Omnimeter.StaleAsWrittenServesOldValues | Omnimeter.StaleMeansQuarterSecond |
