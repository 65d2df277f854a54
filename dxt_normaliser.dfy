/**
 * normalizePayload (src/api/scoring/dxt-normaliser.js): the pre-handler that rewrites a
 * key-value payload `{ data: { main: {...} } }` into the `answers` list format, in place.
 */
module DxtNormaliser {
  import opened JsValues

  /** The answers list a value becomes: an array as it is, another non-null value wrapped, null or undefined empty. */
  function AnswerList(value: JsValue): (r: seq<JsValue>)
    ensures value.Array? ==> r == value.items
    ensures !value.Array? && NotNullish(value) ==> r == [value]
    ensures !NotNullish(value) ==> r == []
  {
    if value.Array? then value.items else if NotNullish(value) then [value] else []
  }

  /** `{ questionId: key, answers: [...] }`. */
  function AnswerEntry(key: string, value: JsValue): JsValue
  {
    Object([("questionId", Str(key)), ("answers", Array(AnswerList(value)))])
  }

  /** `Object.entries(main).map(([key, value]) => ...)`: one answer entry per key, in order. */
  function AnswerEntries(entries: seq<(string, JsValue)>): (r: seq<JsValue>)
    ensures |r| == |entries|
    ensures forall i :: 0 <= i < |entries| ==> r[i] == AnswerEntry(entries[i].0, entries[i].1)
  {
    seq(|entries|, i requires 0 <= i < |entries| => AnswerEntry(entries[i].0, entries[i].1))
  }

  /** A payload's own property, `undefined` when absent. */
  function Get(props: map<string, JsValue>, key: string): JsValue
  {
    if key in props then props[key] else Undefined
  }

  /** The `data.main` the handler looks at; it acts only when this is truthy. */
  function Main(props: map<string, JsValue>): JsValue
  {
    OptionalProperty(Get(props, "data"), "main")
  }

  /** Reference definition of the payload after normalisation. */
  function Normalized(props: map<string, JsValue>): (r: map<string, JsValue>)
    ensures !Truthy(Main(props)) ==> r == props
    ensures Truthy(Main(props)) ==>
      && "data" !in r
      && "answers" in r
      && r["answers"] == Array(AnswerEntries(Entries(Main(props))))
      && (forall k :: k in r <==> (k in props && k != "data") || k == "answers")
      && (forall k :: k in props && k != "data" && k != "answers" ==> r[k] == props[k])
  {
    var main := Main(props);
    if Truthy(main) then props["answers" := Array(AnswerEntries(Entries(main)))] - {"data"} else props
  }

  /** The Hapi response toolkit's `continue` signal. */
  datatype Lifecycle = Continue

  /** A request payload, whose properties the handler reassigns and deletes. */
  class Payload {
    var props: map<string, JsValue>

    constructor (props: map<string, JsValue>)
      ensures this.props == props
    {
      this.props := props;
    }

    /** Rewrites `data.main` into `answers` and deletes `data`; always lets the request continue. */
    method NormalizePayload() returns (r: Lifecycle)
      modifies this
      ensures props == Normalized(old(props))
      ensures r == Continue
    {
      var main := OptionalProperty(Get(props, "data"), "main");
      if Truthy(main) {
        props := props["answers" := Array(AnswerEntries(Entries(main)))];
        props := props - {"data"};
      }
      r := Continue;
    }
  }

  /** Normalising twice is normalising once: the rewritten payload has no `data` left to act on. */
  lemma NormalizedIdempotent(props: map<string, JsValue>)
    ensures Normalized(Normalized(props)) == Normalized(props)
  {
    if Truthy(Main(props)) {
      assert Get(Normalized(props), "data") == Undefined;
    }
  }

  /** Every entry the rewrite produces names its key and holds an array of answers. */
  lemma AnswerEntriesWellFormed(entries: seq<(string, JsValue)>, i: nat)
    requires i < |entries|
    ensures AnswerEntries(entries)[i].Object?
    ensures Property(AnswerEntries(entries)[i].entries, "questionId") == Str(entries[i].0)
    ensures Property(AnswerEntries(entries)[i].entries, "answers").Array?
  {
  }
}
