/**
 * The JavaScript values the three components pass around: `null`-able values,
 * and the JSON records of the backend whose fields the components read and
 * copy with object spread.
 */
module JsObjects {

  /** A value the source writes as `null` when absent. */
  datatype Option<+T> = None | Some(value: T)

  /** A JSON object whose fields hold text, as the job records and image bodies do. */
  type Record = map<string, string>

  /** `obj.key` inside a template literal: the field's text, or `undefined` when the field is absent. */
  function Field(obj: Record, key: string): (text: string)
    ensures key in obj ==> text == obj[key]
    ensures key !in obj ==> text == "undefined"
  {
    if key in obj then obj[key] else "undefined"
  }

  /** Object spread `{...base, ...extra}`: every field of both, `extra` winning on a clash. */
  function Spread(base: Record, extra: Record): (r: Record)
    ensures r.Keys == base.Keys + extra.Keys
    ensures forall k :: k in extra ==> r[k] == extra[k]
    ensures forall k :: k in base && k !in extra ==> r[k] == base[k]
  {
    base + extra
  }
}
