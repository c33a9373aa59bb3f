/**
 * JSON values as they come out of JSON.parse and go into JSON.stringify,
 * plus the raw payload a subscriber receives from the broker.
 * Numbers are exact reals (IEEE-754 rounding is not modelled); a JSON object
 * with a repeated key keeps the last value, as JSON.parse does, so objects are maps.
 */
module Json {

  import opened Wrappers

  datatype Json =
    | JNull
    | JBool(b: bool)
    | JNum(n: real)
    | JStr(s: string)
    | JArr(items: seq<Json>)
    | JObj(fields: map<string, Json>)

  /** A raw payload: text that JSON.parse rejects, or the value it yields. */
  datatype Payload = Malformed | Parsed(value: Json)

  /** The single well-known channel every participant publishes and listens on. */
  const Channel: string := "orion:bus"

  /** One publication on the broker: the channel and the serialised value. */
  datatype Wire = Wire(channel: string, payload: Json)

  /** What a subscriber on Channel later receives for a publication. */
  function Received(w: Wire): Payload {
    Parsed(w.payload)
  }

  predicate StrField(o: map<string, Json>, k: string) {
    k in o && o[k].JStr?
  }

  predicate OptStrField(o: map<string, Json>, k: string) {
    k !in o || o[k].JStr?
  }

  predicate OptRecordField(o: map<string, Json>, k: string) {
    k !in o || o[k].JObj?
  }

  predicate OptNumField(o: map<string, Json>, k: string) {
    k !in o || o[k].JNum?
  }

  function Str(o: map<string, Json>, k: string): string
    requires StrField(o, k)
  {
    o[k].s
  }

  function OptStr(o: map<string, Json>, k: string): Option<string>
    requires OptStrField(o, k)
  {
    if k in o then Some(o[k].s) else None
  }

  function OptRecord(o: map<string, Json>, k: string): Option<map<string, Json>>
    requires OptRecordField(o, k)
  {
    if k in o then Some(o[k].fields) else None
  }

  function OptNum(o: map<string, Json>, k: string): Option<real>
    requires OptNumField(o, k)
  {
    if k in o then Some(o[k].n) else None
  }

  /** The object entry for an optional value, as JSON.stringify writes it: nothing for undefined. */
  function Entry(k: string, v: Option<Json>): map<string, Json> {
    if v.Some? then map[k := v.value] else map[]
  }

  function StrOpt(v: Option<string>): Option<Json> {
    if v.Some? then Some(JStr(v.value)) else None
  }

  function RecordOpt(v: Option<map<string, Json>>): Option<Json> {
    if v.Some? then Some(JObj(v.value)) else None
  }

  function NumOpt(v: Option<real>): Option<Json> {
    if v.Some? then Some(JNum(v.value)) else None
  }

}
