/**
  * How call_gemini picks the generated text out of the decoded JSON body
  * (main.py:204-221). The HTTP exchange itself is not modelled: the status code
  * and the decoded body are inputs.
  */
module Gateway {
  import opened Wrappers
  import opened Guard

  /** A decoded JSON value, as Python's json module gives it (integers only). */
  datatype Json =
    | JNull
    | JBool(b: bool)
    | JNum(n: int)
    | JStr(s: string)
    | JArr(items: seq<Json>)
    | JObj(fields: map<string, Json>)

  /** Python truthiness of a decoded value. */
  predicate Truthy(v: Json)
  {
    match v
    case JNull => false
    case JBool(b) => b
    case JNum(n) => n != 0
    case JStr(s) => s != ""
    case JArr(items) => items != []
    case JObj(fields) => fields != map[]
  }

  /** `d.get(key)`: a missing key reads as None. */
  function Get(fields: map<string, Json>, key: string): Json
  {
    if key in fields then fields[key] else JNull
  }

  /**
    * `d.get(k0) or d.get(k1) or ... or ""`: the first truthy value among the keys,
    * in order, or the empty string when there is none.
    */
  function FirstTruthy(fields: map<string, Json>, keys: seq<string>): (v: Json)
    ensures Truthy(v) || v == JStr("")
    ensures Truthy(v) ==>
      exists i :: 0 <= i < |keys| && Get(fields, keys[i]) == v && (forall j :: 0 <= j < i ==> !Truthy(Get(fields, keys[j])))
    ensures !Truthy(v) ==> forall i :: 0 <= i < |keys| ==> !Truthy(Get(fields, keys[i]))
    decreases |keys|
  {
    if keys == [] then JStr("")
    else if Truthy(Get(fields, keys[0])) then Get(fields, keys[0])
    else
      var rest := FirstTruthy(fields, keys[1..]);
      assert forall j :: 1 <= j < |keys| ==> keys[j] == keys[1..][j - 1];
      rest
  }

  /** The body holds a non-empty list under "candidates" (main.py:211-212). */
  predicate HasCandidates(data: Json)
  {
    && data.JObj?
    && "candidates" in data.fields
    && data.fields["candidates"].JArr?
    && data.fields["candidates"].items != []
  }

  /** What call_gemini makes of a decoded body. */
  datatype Extracted =
    | Output(value: Json)   // the object returned as generated text
    | Rendered(data: Json)  // `str(data)` of a body that is not an object
    | NoGetMethod           // the first candidate is not an object: `.get` raises

  /**
    * The first candidate's "output", else its "content", else ""; without
    * candidates, the body's own "output", else "text", else ""; a body that is not
    * an object is rendered with `str`.
    */
  function ExtractOutput(data: Json): (e: Extracted)
    ensures e.Rendered? <==> !data.JObj?
    ensures e.Rendered? ==> e.data == data
    ensures e.NoGetMethod? <==> HasCandidates(data) && !data.fields["candidates"].items[0].JObj?
    ensures e.Output? ==> Truthy(e.value) || e.value == JStr("")
    ensures e.Output? && HasCandidates(data) ==>
      e.value == FirstTruthy(data.fields["candidates"].items[0].fields, ["output", "content"])
    ensures e.Output? && !HasCandidates(data) ==> e.value == FirstTruthy(data.fields, ["output", "text"])
  {
    match data
    case JObj(fields) =>
      if HasCandidates(data) then
        var first := fields["candidates"].items[0];
        if first.JObj? then Output(FirstTruthy(first.fields, ["output", "content"]))
        else NoGetMethod
      else Output(FirstTruthy(fields, ["output", "text"]))
    case _ => Rendered(data)
  }

  /**
    * What handle_message receives from call_gemini for a response with the given
    * status and decoded body: a non-200 status or a raised error is a failure, a
    * string output is the generated text. `None` marks the outputs that are not
    * strings (a rendered body, a non-string field), which this model does not follow.
    */
  function CallOutcome(status: int, data: Json): (o: Option<BackendOutcome>)
    ensures status != 200 ==> o == Some(Failed)
    ensures status == 200 && ExtractOutput(data).NoGetMethod? ==> o == Some(Failed)
    ensures o.Some? && o.value.Generated? ==> status == 200 && ExtractOutput(data) == Output(JStr(o.value.text))
    ensures status == 200 && ExtractOutput(data).Output? && ExtractOutput(data).value.JStr? ==> o.Some? && o.value.Generated?
  {
    if status != 200 then Some(Failed)
    else
      match ExtractOutput(data)
      case NoGetMethod => Some(Failed)
      case Output(JStr(s)) => Some(Generated(s))
      case _ => None
  }

  /** A body with no usable field yields the empty text, never None (main.py:219-220 cannot fire). */
  lemma EmptyBodyGivesEmptyText()
    ensures ExtractOutput(JObj(map[])) == Output(JStr(""))
    ensures CallOutcome(200, JObj(map[])) == Some(Generated(""))
  {
  }
}
