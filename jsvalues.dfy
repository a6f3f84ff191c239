/** The few JavaScript values the endpoint looks at: request fields and the
    properties read off a worker's parsed attributes. */
module JsValues {

  /** `undefined`, a string, or any other value (null, number, boolean,
      object, array), which the endpoint only copies or compares and which is
      carried here by its JSON text. */
  datatype JsValue = Undefined | JsString(s: string) | JsOther(json: string)

  /** A plain JavaScript object: reading a missing property gives `undefined`. */
  type JsObject = map<string, JsValue>

  /** `o[key]`. */
  function Get(o: JsObject, key: string): (v: JsValue)
    ensures key !in o ==> v == Undefined
    ensures key in o ==> v == o[key]
  {
    if key in o then o[key] else Undefined
  }

  /** `typeof o[key] === 'string'`, the test io-ts `t.string` applies. */
  predicate IsStringField(o: JsObject, key: string)
  {
    key in o && o[key].JsString?
  }
}
