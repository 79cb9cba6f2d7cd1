/** The JSON values the handlers receive and return, and Python's `d[key]` on them. */
module Events {
  import opened Wrappers

  datatype Json =
    | JNull
    | JBool(b: bool)
    | JNum(n: int)
    | JStr(s: string)
    | JArr(items: seq<Json>)
    | JObj(fields: map<string, Json>)

  /** The exceptions a handler raises on an input that lacks what it reads or on an item the
      log table refuses, the state machine's own error for a path it cannot resolve, and the
      waiter task's failure. */
  datatype Fault =
    | KeyError(key: string)   // `d[key]` on a dict without `key`
    | TypeError               // `d[key]` on a value that is not a dict, `list.pop(k, default)`
    | AttributeError          // a dict method such as `pop` called on a string, number, bool or None
    | StatesRuntime           // a JSONPath in a state's parameters that selects nothing
    | ValidationException     // `put_item` of an item whose key attribute is not a non-empty string
    | WaiterFailed            // the waiter ends without reporting success: `float()` or `time.sleep`
                              // raised, or its Lambda ran out of time

  /** Python's `d[key]` on a value loaded from JSON. */
  function Field(j: Json, key: string): (r: Result<Json, Fault>)
    ensures r.Ok? <==> j.JObj? && key in j.fields
    ensures r.Ok? ==> r.value == j.fields[key]
    ensures r.Err? ==> r.error == if j.JObj? then KeyError(key) else TypeError
  {
    if !j.JObj? then Err(TypeError)
    else if key in j.fields then Ok(j.fields[key])
    else Err(KeyError(key))
  }

  /** A list of strings as a JSON array. */
  function Strings(ns: seq<string>): (r: Json)
    ensures r.JArr? && |r.items| == |ns|
    ensures forall i :: 0 <= i < |ns| ==> r.items[i] == JStr(ns[i])
  {
    if ns == [] then JArr([])
    else JArr(Strings(ns[..|ns| - 1]).items + [JStr(ns[|ns| - 1])])
  }
}
