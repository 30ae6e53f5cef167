/**
 * The telemetry side of the home screen: the connection status strings and
 * the projection of one inbound MQTT payload onto the four readings shown.
 * Gson's parsing is abstracted: a payload is either not a JSON object, or an
 * object whose members either yield a number through `asDouble` (kept as the
 * text Kotlin prints for that double) or make `asDouble` throw.
 */
module Telemetry {
  import opened Wrappers

  const Disconnected: string := "Disconnected"
  const Connected: string := "Connected"
  const ConnectionFailed: string := "Connection Failed"

  /** Unit suffixes appended to each displayed value; before any reading, the value shown is "--". */
  const TemperatureUnit: string := " °C"
  const HumidityUnit: string := " %"
  const PressureUnit: string := " hPa"
  const LuminosityUnit: string := " lx"
  const NoValue: string := "--"

  /** Completion of an asynchronous MQTT request: `throwable == null` or not. */
  datatype Outcome = Success | Failure

  /** What `asDouble` does with one member of the payload object. */
  datatype Member = Numeric(printed: string) | NotNumeric
  type JsonObject = map<string, Member>

  /** The four values read out of one payload, as Kotlin prints them. */
  datatype Reading = Reading(temperature: string, humidity: string, pressure: string, luminosity: string)

  const Fields: seq<string> := ["temperature", "humidity", "pressure", "luminosity"]

  /** The reading's values, in the order of `Fields`. */
  function Values(r: Reading): seq<string> {
    [r.temperature, r.humidity, r.pressure, r.luminosity]
  }

  /** `jsonObject[key].asDouble`: a missing member (null) or a non-numeric one throws. */
  function ReadDouble(obj: JsonObject, key: string): Option<string> {
    if key in obj && obj[key].Numeric? then Some(obj[key].printed) else None
  }

  /** Every one of the four fields is present and numeric. */
  predicate HasAllFields(obj: JsonObject) {
    forall i | 0 <= i < |Fields| :: Fields[i] in obj && obj[Fields[i]].Numeric?
  }

  /**
   * The reads done by `parsePayload` before it writes anything: a reading when
   * the payload is an object and all four reads succeed, nothing otherwise.
   */
  function Project(payload: Option<JsonObject>): (r: Option<Reading>)
    ensures r.Some? <==> payload.Some? && HasAllFields(payload.value)
    ensures r.Some? ==> forall i | 0 <= i < |Fields| :: Values(r.value)[i] == payload.value[Fields[i]].printed
  {
    match payload
    case None => None
    case Some(obj) =>
      assert Fields[0] == "temperature" && Fields[1] == "humidity";
      assert Fields[2] == "pressure" && Fields[3] == "luminosity";
      var t := ReadDouble(obj, "temperature");
      var h := ReadDouble(obj, "humidity");
      var p := ReadDouble(obj, "pressure");
      var l := ReadDouble(obj, "luminosity");
      if t.Some? && h.Some? && p.Some? && l.Some? then
        Some(Reading(t.value, h.value, p.value, l.value))
      else
        None
  }

  /** Members other than the four fields are ignored: adding one never changes the projection. */
  lemma ExtraMembersIgnored(obj: JsonObject, key: string, m: Member)
    requires key !in Fields
    ensures Project(Some(obj[key := m])) == Project(Some(obj))
  {
  }
}
