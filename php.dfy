/**
 * The few PHP run-time notions the HTTP layer relies on: the values that
 * reach `json_encode`, PHP's boolean conversion, array-key assignment,
 * exceptions and the JSON response object built by `response()->json(...)`.
 */
module Php {
  import opened Wrappers

  /** A PHP value as it is handed to `json_encode`. Arrays are string-keyed. */
  datatype Value =
    | Null
    | Bool(b: bool)
    | Int(i: int)
    | Str(s: string)
    | Arr(entries: map<string, Value>)

  /** PHP's conversion to bool: null, false, 0, "", "0" and [] are falsy. */
  predicate Truthy(v: Value)
    ensures !Truthy(v) <==> v in {Null, Bool(false), Int(0), Str(""), Str("0"), Arr(map[])}
  {
    match v
    case Null => false
    case Bool(b) => b
    case Int(i) => i != 0
    case Str(s) => s != "" && s != "0"
    case Arr(m) => m != map[]
  }

  /**
   * `$container[key] = x`. An array gets the key added or overwritten; null
   * and false are turned into a fresh array; any other scalar raises a PHP
   * `Error` ("Cannot use a scalar value as an array" / string offsets), which
   * is `None` here.
   */
  function AssignKey(container: Value, key: string, x: Value): (r: Option<Value>)
    ensures r.Some? <==> container.Arr? || container == Null || container == Bool(false)
    ensures r.Some? ==> r.value.Arr? && key in r.value.entries && r.value.entries[key] == x
    ensures r.Some? ==> r.value.entries.Keys == {key} + (if container.Arr? then container.entries.Keys else {})
    ensures r.Some? && container.Arr? ==>
      forall k | k in container.entries && k != key :: r.value.entries[k] == container.entries[k]
  {
    match container
    case Arr(m) => Some(Arr(m[key := x]))
    case Null => Some(Arr(map[key := x]))
    case Bool(b) => if b then None else Some(Arr(map[key := x]))
    case _ => None
  }

  /** A `Throwable` as the error envelope sees it. */
  datatype Throwable = Throwable(message: string, file: string, line: int)

  /** `response()->json($body, $status, $headers)`. */
  datatype JsonResponse = JsonResponse(body: Value, status: int, headers: map<string, string>)
}
