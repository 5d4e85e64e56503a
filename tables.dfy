/** The constant lookup tables of lib/ekm-omnimeter/meter.rb (METER_TYPE_MAP,
    PULSE_INPUT_STATE_MAP, DIRECTION_OF_CURRENT_MAP, OUTPUT_INDICATOR_MAP,
    DEMAND_PERIOD_TIME_MAP, AUTO_RESET_MAX_DEMAND_MAP). `Hash#[]` gives nil
    for a code outside a table, so each lookup returns an Option. */
module Tables {
  import opened Wrappers
  import opened Telemetry

  /** METER_TYPE_MAP, keyed by the hex text of the two meter-type octets. */
  function MeterTypeName(code: string): (r: Option<string>)
    ensures r.Some? <==> code == "1017" || code == "1022" || code == "1024"
    ensures code == "1017" ==> r == Some("OmniMeter I v.3")
    ensures code == "1022" ==> r == Some("OmniMeter II UL v.3")
    ensures code == "1024" ==> r == Some("OmniMeter Pulse v.4")
  {
    if code == "1017" then Some("OmniMeter I v.3")
    else if code == "1022" then Some("OmniMeter II UL v.3")
    else if code == "1024" then Some("OmniMeter Pulse v.4")
    else None
  }

  /** PULSE_INPUT_STATE_MAP: the code is a 3-bit number, input i (1-based) is
      low exactly when bit 3 - i is set. */
  function PulseInputs(code: int): (r: Option<(PulseLevel, PulseLevel, PulseLevel)>)
    ensures r.Some? <==> 0 <= code <= 7
    ensures r.Some? ==> (r.value.0 == Low <==> (code / 4) % 2 == 1)
    ensures r.Some? ==> (r.value.1 == Low <==> (code / 2) % 2 == 1)
    ensures r.Some? ==> (r.value.2 == Low <==> code % 2 == 1)
  {
    match code
    case 0 => Some((High, High, High))
    case 1 => Some((High, High, Low))
    case 2 => Some((High, Low, High))
    case 3 => Some((High, Low, Low))
    case 4 => Some((Low, High, High))
    case 5 => Some((Low, High, Low))
    case 6 => Some((Low, Low, High))
    case 7 => Some((Low, Low, Low))
    case _ => None
  }

  function Bit(level: PulseLevel): int { if level == Low then 1 else 0 }

  /** The code of a triple of input levels; a reference for PulseInputs. */
  function PulseCode(t: (PulseLevel, PulseLevel, PulseLevel)): int
  {
    4 * Bit(t.0) + 2 * Bit(t.1) + Bit(t.2)
  }

  /** PulseInputs is a bijection between 0..7 and the level triples. */
  lemma PulseInputsBijective(code: int, t: (PulseLevel, PulseLevel, PulseLevel))
    ensures PulseInputs(code) == Some(t) <==> 0 <= code <= 7 && PulseCode(t) == code
  {
    if PulseInputs(code) == Some(t) {
      assert 0 <= code <= 7;
    }
  }

  /** DIRECTION_OF_CURRENT_MAP: codes 1..8 list the triples by the number of
      reversed lines, from all forward (1) to all reverse (8). */
  function CurrentDirections(code: int): (r: Option<(Flow, Flow, Flow)>)
    ensures r.Some? <==> 1 <= code <= 8
    ensures code == 1 ==> r == Some((Forward, Forward, Forward))
    ensures code == 8 ==> r == Some((Reverse, Reverse, Reverse))
  {
    match code
    case 1 => Some((Forward, Forward, Forward))
    case 2 => Some((Forward, Forward, Reverse))
    case 3 => Some((Forward, Reverse, Forward))
    case 4 => Some((Reverse, Forward, Forward))
    case 5 => Some((Forward, Reverse, Reverse))
    case 6 => Some((Reverse, Forward, Reverse))
    case 7 => Some((Reverse, Reverse, Forward))
    case 8 => Some((Reverse, Reverse, Reverse))
    case _ => None
  }

  function Reversed(f: Flow): nat { if f == Reverse then 1 else 0 }

  function ReversedLines(t: (Flow, Flow, Flow)): nat
  {
    Reversed(t.0) + Reversed(t.1) + Reversed(t.2)
  }

  /** The code of a triple of line directions; a reference for CurrentDirections. */
  function DirectionCode(t: (Flow, Flow, Flow)): int
  {
    match t
    case (Forward, Forward, Forward) => 1
    case (Forward, Forward, Reverse) => 2
    case (Forward, Reverse, Forward) => 3
    case (Reverse, Forward, Forward) => 4
    case (Forward, Reverse, Reverse) => 5
    case (Reverse, Forward, Reverse) => 6
    case (Reverse, Reverse, Forward) => 7
    case (Reverse, Reverse, Reverse) => 8
  }

  /** CurrentDirections is a bijection between 1..8 and the direction triples,
      and the code grows with the number of reversed lines. */
  lemma CurrentDirectionsBijective(code: int, t: (Flow, Flow, Flow))
    ensures CurrentDirections(code) == Some(t) <==> 1 <= code <= 8 && DirectionCode(t) == code
    ensures CurrentDirections(code) == Some(t) ==>
      ReversedLines(t) == (if code == 1 then 0 else if code <= 4 then 1 else if code <= 7 then 2 else 3)
  {
    if CurrentDirections(code) == Some(t) {
      assert 1 <= code <= 8;
    }
  }

  /** OUTPUT_INDICATOR_MAP: output 1 is on for codes 3 and 4, output 2 for the
      even codes. */
  function Outputs(code: int): (r: Option<(Switch, Switch)>)
    ensures r.Some? <==> 1 <= code <= 4
    ensures r.Some? ==> (r.value.0 == On <==> code >= 3)
    ensures r.Some? ==> (r.value.1 == On <==> code % 2 == 0)
  {
    match code
    case 1 => Some((Off, Off))
    case 2 => Some((Off, On))
    case 3 => Some((On, Off))
    case 4 => Some((On, On))
    case _ => None
  }

  /** DEMAND_PERIOD_TIME_MAP, in minutes: 15, 30 and 60 for codes 1, 2, 3. */
  function DemandPeriodMinutes(code: int): (r: Option<int>)
    ensures r.Some? <==> 1 <= code <= 3
    ensures code == 1 ==> r == Some(15)
    ensures code == 2 ==> r == Some(30)
    ensures code == 3 ==> r == Some(60)
  {
    match code
    case 1 => Some(15)
    case 2 => Some(30)
    case 3 => Some(60)
    case _ => None
  }

  /** AUTO_RESET_MAX_DEMAND_MAP: off, monthly, weekly, daily, hourly for 0..4. */
  function AutoResetMode(code: int): (r: Option<ResetMode>)
    ensures r.Some? <==> 0 <= code <= 4
    ensures code == 0 ==> r == Some(ResetOff)
    ensures code == 1 ==> r == Some(Monthly)
    ensures code == 2 ==> r == Some(Weekly)
    ensures code == 3 ==> r == Some(Daily)
    ensures code == 4 ==> r == Some(Hourly)
  {
    match code
    case 0 => Some(ResetOff)
    case 1 => Some(Monthly)
    case 2 => Some(Weekly)
    case 3 => Some(Daily)
    case 4 => Some(Hourly)
    case _ => None
  }

  /** Distinct codes name distinct modes, and every mode has a code. */
  lemma AutoResetModeBijective(a: int, b: int, m: ResetMode)
    ensures AutoResetMode(a).Some? && AutoResetMode(a) == AutoResetMode(b) ==> a == b
    ensures exists c :: 0 <= c <= 4 && AutoResetMode(c) == Some(m)
  {
    match m
    case ResetOff => assert AutoResetMode(0) == Some(m);
    case Monthly => assert AutoResetMode(1) == Some(m);
    case Weekly => assert AutoResetMode(2) == Some(m);
    case Daily => assert AutoResetMode(3) == Some(m);
    case Hourly => assert AutoResetMode(4) == Some(m);
  }
}
