/**
 * Entity readings and how `_get_state_value` turns one into a number:
 * `_has_state`, the per-domain choice of field in `_get_temperature`, the
 * temperature-mode decision, and the outcome of parsing.
 */
module Readings {
  import opened Common

  /** A value as the source sees it: Python's None, a string, or a number. */
  datatype Raw = Null | Text(s: string) | Num(x: real)

  /** The domain part of an entity id, as far as the sensor distinguishes it. */
  datatype Domain = Weather | Climate | WaterHeater | OtherDomain

  /**
   * A state object: its entity id and domain, the state string, the
   * `unit_of_measurement`, `icon`, `temperature` and `current_temperature`
   * attributes, and `last_changed` as seconds.
   */
  datatype Reading = Reading(
    entityId: string, domain: Domain, state: string,
    unit: Option<string>, icon: Option<string>,
    temperature: Raw, currentTemperature: Raw,
    lastChanged: real)

  /**
   * What the sensor is given from outside: Python's `float()` on a string
   * (None where it raises ValueError), `convert_temperature` from a unit to
   * the configured temperature unit (None where it raises), that unit,
   * `round(_, precision)`, and the `process_undef_as` fallback.
   */
  datatype Env = Env(
    parse: string -> Option<real>,
    convert: (real, Option<string>) -> Option<real>,
    haUnit: string,
    round: real -> real,
    undef: Option<real>)

  const STATE_UNKNOWN: string := "unknown"
  const STATE_UNAVAILABLE: string := "unavailable"

  /** `_has_state`: the value is not None, "unknown", "unavailable" or "None". */
  predicate HasState(v: Raw)
    ensures v.Num? ==> HasState(v)
    ensures v.Text? && v.s == "" ==> HasState(v)
    ensures !HasState(v) <==> v == Null || v == Text(STATE_UNKNOWN) || v == Text(STATE_UNAVAILABLE) || v == Text("None")
  {
    v != Null && !(v.Text? && v.s in [STATE_UNKNOWN, STATE_UNAVAILABLE, "None"])
  }

  /** Exactly four values count as undefined; in particular every number is defined. */
  lemma UndefinedValues(v: Raw)
    ensures !HasState(v) <==> v in [Null, Text("unknown"), Text("unavailable"), Text("None")]
    ensures v.Num? ==> HasState(v)
  {
  }

  /** Python's `float()` on a value already known to be defined. */
  function FloatOf(v: Raw, parse: string -> Option<real>): Option<real>
  {
    match v
    case Num(x) => Some(x)
    case Text(s) => parse(s)
    case Null => None
  }

  /**
   * What reading a value can give: an undefined value, a string `float()`
   * rejects inside the `try` of `_get_state_value`, an exception that escapes
   * (`float()` or `convert_temperature` failing inside `_get_temperature`),
   * or a number.
   */
  datatype Extracted = Undefined | Unparsable | Raises | Parsed(v: real)

  /** The field `_get_temperature` reads for a domain, and the unit it is in. */
  function TemperatureField(env: Env, r: Reading): (f: (Raw, Option<string>))
    ensures r.domain != OtherDomain ==> f.1 == Some(env.haUnit)
    ensures r.domain == Weather ==> f.0 == r.temperature
    ensures r.domain == Climate || r.domain == WaterHeater ==> f.0 == r.currentTemperature
    ensures r.domain == OtherDomain ==> f == (Text(r.state), r.unit)
  {
    match r.domain
    case Weather => (r.temperature, Some(env.haUnit))
    case Climate => (r.currentTemperature, Some(env.haUnit))
    case WaterHeater => (r.currentTemperature, Some(env.haUnit))
    case OtherDomain => (Text(r.state), r.unit)
  }

  /**
   * The value `_get_state_value` works on: in temperature mode the converted
   * temperature of `_get_temperature`, otherwise the state string.
   */
  function Extract(env: Env, temperatureMode: bool, r: Reading): (e: Extracted)
    ensures !temperatureMode ==> (e.Undefined? <==> !HasState(Text(r.state)))
    ensures !temperatureMode && e.Parsed? ==> env.parse(r.state) == Some(e.v)
    ensures temperatureMode ==> !e.Unparsable?
    ensures temperatureMode && r.domain == Weather ==> (e.Undefined? <==> !HasState(r.temperature))
    ensures temperatureMode ==> (e.Undefined? <==> !HasState(TemperatureField(env, r).0))
    ensures var (t, unit) := TemperatureField(env, r);
            temperatureMode && HasState(t) && FloatOf(t, env.parse).None? ==> e.Raises?
    ensures var (t, unit) := TemperatureField(env, r);
            temperatureMode && HasState(t) && FloatOf(t, env.parse).Some? && env.convert(FloatOf(t, env.parse).value, unit).None? ==> e.Raises?
    ensures var (t, unit) := TemperatureField(env, r);
            temperatureMode && e.Parsed? ==> exists x :: FloatOf(t, env.parse) == Some(x) && env.convert(x, unit) == Some(e.v)
    ensures !temperatureMode ==> !e.Raises?
    ensures !temperatureMode && HasState(Text(r.state)) && env.parse(r.state).None? ==> e.Unparsable?
    ensures !temperatureMode && HasState(Text(r.state)) && env.parse(r.state).Some? ==> e == Parsed(env.parse(r.state).value)
    ensures var (t, unit) := TemperatureField(env, r); temperatureMode && HasState(t) && FloatOf(t, env.parse).Some? && env.convert(FloatOf(t, env.parse).value, unit).Some? ==> e == Parsed(env.convert(FloatOf(t, env.parse).value, unit).value)
  {
    if temperatureMode then
      var (t, unit) := TemperatureField(env, r);
      if !HasState(t) then Undefined
      else match FloatOf(t, env.parse)
        case None => Raises
        case Some(x) =>
          match env.convert(x, unit)
          case None => Raises
          case Some(y) => Parsed(y)
    else if !HasState(Text(r.state)) then Undefined
    else match env.parse(r.state)
      case None => Unparsable
      case Some(x) => Parsed(x)
  }

  /**
   * A weather, climate or water-heater reading is converted from the host's
   * own unit: its `unit_of_measurement` attribute plays no part.
   */
  lemma DomainReadingsUseHostUnit(env: Env, r: Reading, unit: Option<string>)
    requires r.domain != OtherDomain
    ensures Extract(env, true, r) == Extract(env, true, r.(unit := unit))
    ensures TemperatureField(env, r).1 == Some(env.haUnit)
  {
  }

  /** The value `_get_state_value` returns when nothing escapes. */
  function ValueOf(env: Env, e: Extracted): (v: Option<real>)
    requires !e.Raises?
    ensures e.Parsed? ==> v == Some(e.v)
    ensures e.Undefined? ==> v == env.undef
    ensures e.Unparsable? ==> v.None?
  {
    match e
    case Undefined => env.undef
    case Unparsable => None
    case Parsed(x) => Some(x)
  }

  /** The temperature units of the host (`TEMPERATURE_UNITS`). */
  const TEMPERATURE_UNITS: seq<string> := ["°C", "°F"]

  /** The decision of `_update_state` on the first entity found: a temperature entity or not. */
  predicate IsTemperatureEntity(r: Reading)
    ensures IsTemperatureEntity(r) <==> r.domain != OtherDomain || r.unit == Some("°C") || r.unit == Some("°F")
    ensures r.unit.None? ==> (IsTemperatureEntity(r) <==> r.domain != OtherDomain)
  {
    r.domain == Weather || r.domain == Climate || r.domain == WaterHeater || (r.unit.Some? && r.unit.value in TEMPERATURE_UNITS)
  }

  /** The temperature mode with the unit and icon the sensor takes over. */
  datatype Decision = Decision(temperatureMode: bool, unit: Option<string>, icon: Option<string>)

  function Decide(env: Env, r: Reading): (d: Decision)
    ensures d.temperatureMode ==> d.unit == Some(env.haUnit) && d.icon == Some("mdi:thermometer")
    ensures !d.temperatureMode ==> d.unit == r.unit && d.icon == r.icon
    ensures d.temperatureMode <==> r.domain != OtherDomain || r.unit == Some("°C") || r.unit == Some("°F")
  {
    if IsTemperatureEntity(r) then Decision(true, Some(env.haUnit), Some("mdi:thermometer"))
    else Decision(false, r.unit, r.icon)
  }
}
