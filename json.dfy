/** Parsed JSON values as `json.load` returns them, and the few Python
    operations the validator applies to them: `dict.get`, subscription
    `x[k]` and iteration `for e in x`. The exceptions these raise are
    modelled as `Fault` values. */
module Json {
  import opened Wrappers

  /** A JSON number is kept as an integer; floating point is not modelled. */
  datatype Json =
    | JNull
    | JBool(b: bool)
    | JNumber(n: int)
    | JString(s: string)
    | JArray(items: seq<Json>)
    | JObject(members: map<string, Json>)

  /** The uncaught Python exceptions the validator can run into. */
  datatype Fault =
    /** `KeyError`: a dictionary subscripted with a key it lacks (or with `None`). */
    | KeyNotFound(key: Option<string>)
    /** `TypeError`/`AttributeError`: `x[k]`, `x.get(k)` or `x.keys()` on a value that is not a dictionary. */
    | NotAMapping
    /** `TypeError`: a `for` loop over `None`, a number or a boolean. */
    | NotIterable
    /** `AttributeError`: `x.__len__()` on `None`, a number or a boolean. */
    | NoLength

  /** The values that have a `__len__`: strings, arrays and objects. */
  predicate HasLength(x: Json)
  {
    x.JString? || x.JArray? || x.JObject?
  }

  /** `d.get(k)`: the value under `k`, or `None` (here `JNull`) when `k` is absent.
      A key that maps to JSON `null` reads the same as a missing key. */
  function Get(d: map<string, Json>, k: Option<string>): (r: Json)
    ensures r != JNull ==> k.Some? && k.value in d && d[k.value] == r
    ensures k.Some? && k.value in d ==> r == d[k.value]
  {
    if k.Some? && k.value in d then d[k.value] else JNull
  }

  /** `x[k]` for a string (or `None`) key `k`. */
  function Subscript(x: Json, k: Option<string>): (r: Result<Json, Fault>)
    ensures r.Success? <==> x.JObject? && k.Some? && k.value in x.members
    ensures r.Success? ==> r.value == x.members[k.value]
    ensures r.Failure? ==> r.error == (if x.JObject? then KeyNotFound(k) else NotAMapping)
  {
    if !x.JObject? then Failure(NotAMapping)
    else if k.None? || k.value !in x.members then Failure(KeyNotFound(k))
    else Success(x.members[k.value])
  }

  /** The elements `for e in x` visits, as far as the validator can use them.
      Iterating a non-empty object or string yields strings, and the first
      of these makes every loop of the validator fail with `NotAMapping`
      before it can return; that failure is reported here. */
  function Iterate(x: Json): (r: Result<seq<Json>, Fault>)
    ensures r.Success? <==> x.JArray? || x == JObject(map[]) || x == JString("")
    ensures x.JArray? ==> r == Success(x.items)
    ensures r.Success? && !x.JArray? ==> r.value == []
    ensures r.Failure? ==> r.error == (if x.JObject? || x.JString? then NotAMapping else NotIterable)
  {
    match x
    case JArray(items) => Success(items)
    case JObject(m) => if m == map[] then Success([]) else Failure(NotAMapping)
    case JString(s) => if s == "" then Success([]) else Failure(NotAMapping)
    case _ => Failure(NotIterable)
  }
}
