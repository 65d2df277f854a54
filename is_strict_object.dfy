/** isStrictObject (src/utils/isStrictObject.js): is a value a plain object, and optionally a non-empty one? */
module StrictObject {
  import opened JsValues

  /** `isStrictObject(value, checkIfEmpty)`; the flag defaults to false. */
  function IsStrictObject(value: JsValue, checkIfEmpty: bool): (r: bool)
    ensures r <==> value.Object? && (checkIfEmpty ==> |value.entries| > 0)
  {
    if TypeTag(value) != "[object Object]" then false
    else if checkIfEmpty && |Entries(value)| == 0 then false
    else true
  }

  /** Only plain objects carry the `[object Object]` tag. */
  lemma ObjectTagOnlyForObjects(value: JsValue)
    ensures TypeTag(value) == "[object Object]" <==> value.Object?
  {
    if !value.Object? {
      assert TypeTag(value)[8] != 'O';
    }
  }

  /** The empty-check can only turn a true answer into false, never the reverse. */
  lemma FlagOnlyNarrows(value: JsValue)
    ensures IsStrictObject(value, true) ==> IsStrictObject(value, false)
    ensures IsStrictObject(value, false) && !IsStrictObject(value, true) <==> value == Object([])
  {
  }
}
