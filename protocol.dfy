/**
 * The messages the client and the control server exchange: one JSON object
 * per line. json.dumps and json.loads are not modelled; they are parameters,
 * and RoundTrips states what the framing relies on for a given object.
 */
module Protocol {
  import opened Wrappers
  import opened Json
  import opened Zone

  /** {"log": m} */
  function LogMessage(m: string): Json {
    JObject([("log", JString(m))])
  }

  /** {"command": "start", "zone": zone} */
  function StartCommand(zone: Rect): Json {
    JObject([("command", JString("start")), ("zone", JArray(AsJson(zone)))])
  }

  /** {"command": "stop"} */
  const StopCommand := JObject([("command", JString("stop"))])

  /** json.dumps(v) encoded and followed by a newline: one frame on the wire. */
  function Frame(dumps: Json -> string, v: Json): string {
    dumps(v) + "\n"
  }

  /**
   * What the framing needs of the JSON text of `v`: a single non-blank line
   * that json.loads turns back into `v`.
   */
  predicate RoundTrips(dumps: Json -> string, loads: string -> Option<Json>, v: Json) {
    '\n' !in dumps(v) && !IsBlank(dumps(v)) && loads(dumps(v)) == Some(v)
  }

  /**
   * send_log: the bytes that reach the client for one log message. A failed
   * sendall (`delivered` false) is swallowed, so the call never raises; it
   * then writes nothing.
   */
  function SendLog(dumps: Json -> string, delivered: bool, m: string): (bytes: string)
    ensures delivered ==> bytes == Frame(dumps, LogMessage(m))
    ensures !delivered ==> bytes == ""
  {
    if delivered then Frame(dumps, LogMessage(m)) else ""
  }

  /** The bytes the server writes for a sequence of delivered log messages. */
  function LogStream(dumps: Json -> string, ms: seq<string>): string
    decreases |ms|
  {
    if ms == [] then "" else SendLog(dumps, true, ms[0]) + LogStream(dumps, ms[1..])
  }
}
