/** The wiring configuration of a meter session and the per-line aggregation
    it selects (lib/ekm-omnimeter/meter.rb, VALID_POWER_CONFIGURATIONS, the
    configuration check in `initialize`, `calculate_measurement`). */
module Wiring {
  import opened Wrappers
  import opened Telemetry

  datatype PowerConfiguration = SinglePhase2Wire | SinglePhase3Wire | ThreePhase3Wire | ThreePhase4Wire

  /** The symbol each configuration is given by. */
  function ConfigurationName(c: PowerConfiguration): string
  {
    match c
    case SinglePhase2Wire => "single_phase_2wire"
    case SinglePhase3Wire => "single_phase_3wire"
    case ThreePhase3Wire => "three_phase_3wire"
    case ThreePhase4Wire => "three_phase_4wire"
  }

  /** The configuration option as `initialize` treats it: absent means
      single_phase_3wire; any name other than the four valid ones raises. */
  function ParseConfiguration(option: Option<string>): (r: Result<PowerConfiguration, Error>)
    ensures option.None? ==> r == Ok(SinglePhase3Wire)
    ensures option.Some? ==> (r.Ok? <==> exists c :: ConfigurationName(c) == option.value)
    ensures option.Some? && r.Ok? ==> ConfigurationName(r.value) == option.value
    ensures option.Some? && r.Err? ==> r.error == ConfigurationError(option.value)
  {
    match option
    case None => Ok(SinglePhase3Wire)
    case Some(name) =>
      if name == "single_phase_2wire" then assert ConfigurationName(SinglePhase2Wire) == name; Ok(SinglePhase2Wire)
      else if name == "single_phase_3wire" then assert ConfigurationName(SinglePhase3Wire) == name; Ok(SinglePhase3Wire)
      else if name == "three_phase_3wire" then assert ConfigurationName(ThreePhase3Wire) == name; Ok(ThreePhase3Wire)
      else if name == "three_phase_4wire" then assert ConfigurationName(ThreePhase4Wire) == name; Ok(ThreePhase4Wire)
      else
        assert forall c :: ConfigurationName(c) != name;
        Err(ConfigurationError(name))
  }

  /** Each configuration has one name, and reading it back gives it again. */
  lemma ConfigurationNameRoundTrip(c: PowerConfiguration, d: PowerConfiguration)
    ensures ParseConfiguration(Some(ConfigurationName(c))) == Ok(c)
    ensures ConfigurationName(c) == ConfigurationName(d) ==> c == d
  {
  }

  /** `calculate_measurement(m1, m2, m3)`: line 1 alone for single_phase_2wire,
      lines 1 and 2 for single_phase_3wire, lines 1 and 3 for three_phase_3wire
      and all three lines for three_phase_4wire. Integers stay integers. */
  function CalculateMeasurement(c: PowerConfiguration, m1: Value, m2: Value, m3: Value): (r: Value)
    requires IsNumber(m1) && IsNumber(m2) && IsNumber(m3)
    ensures IsNumber(r)
    ensures c == SinglePhase2Wire ==> r == m1
    ensures c == SinglePhase3Wire ==> AsReal(r) == AsReal(m1) + AsReal(m2)
    ensures c == ThreePhase3Wire ==> AsReal(r) == AsReal(m1) + AsReal(m3)
    ensures c == ThreePhase4Wire ==> AsReal(r) == AsReal(m1) + AsReal(m2) + AsReal(m3)
    ensures m1.IntV? && m2.IntV? && m3.IntV? ==> r.IntV?
  {
    match c
    case SinglePhase2Wire => m1
    case SinglePhase3Wire => Plus(m1, m2)
    case ThreePhase3Wire => Plus(m1, m3)
    case ThreePhase4Wire => Plus(Plus(m1, m2), m3)
  }

  /** Which of the three lines a configuration connects: line 1 always,
      line 2 on the split-phase and four-wire services, line 3 on the two
      three-phase services. */
  predicate Connected(c: PowerConfiguration, line: int)
  {
    || line == 1
    || (line == 2 && (c == SinglePhase3Wire || c == ThreePhase4Wire))
    || (line == 3 && (c == ThreePhase3Wire || c == ThreePhase4Wire))
  }

  /** The sum of the readings of the connected lines; a reference for
      CalculateMeasurement. */
  function ConnectedSum(c: PowerConfiguration, x1: real, x2: real, x3: real): real
  {
    (if Connected(c, 1) then x1 else 0.0) + (if Connected(c, 2) then x2 else 0.0)
      + (if Connected(c, 3) then x3 else 0.0)
  }

  /** The aggregate of a reading is the sum over exactly the lines the
      configuration connects. */
  lemma MeasurementSumsConnected(c: PowerConfiguration, m1: Value, m2: Value, m3: Value)
    requires IsNumber(m1) && IsNumber(m2) && IsNumber(m3)
    ensures AsReal(CalculateMeasurement(c, m1, m2, m3)) == ConnectedSum(c, AsReal(m1), AsReal(m2), AsReal(m3))
  {
  }
}
