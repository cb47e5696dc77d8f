/**
  Plain JavaScript objects as far as object spread sees them: a map from
  property names to values, where a property may exist and hold `undefined`.
 */
module JsObjects {

  datatype JsValue = JsString(s: string) | JsBoolean(b: bool) | JsUndefined

  type JsObject = map<string, JsValue>

  /** `{ ...base, ...over }`: every own property of `over` replaces the one of `base`. */
  function Spread(base: JsObject, over: JsObject): (r: JsObject)
    ensures r.Keys == base.Keys + over.Keys
    ensures forall k :: k in over ==> r[k] == over[k]
    ensures forall k :: k in base && k !in over ==> r[k] == base[k]
  {
    base + over
  }
}
