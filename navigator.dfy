/** The response navigator: finds the single top-level object named by the
    schema and the key under it that holds the records. A miss is reported
    as `None`, not raised. */
module ResponseNavigator {
  import opened Wrappers
  import opened Json

  /** A map with exactly one key that contains `k` has `k` as its only key. */
  lemma SoleKey(d: map<string, Json>, k: string)
    requires |d| == 1 && k in d
    ensures d.Keys == {k}
  {
    var rest := d.Keys - {k};
    assert |d.Keys| == |rest| + 1;
    assert rest == {};
  }

  /** The object name, when the response has exactly one top-level key,
      that key is `objSchema`, and its value is not `null`. */
  function GetDataObjectResponse(response: map<string, Json>, objSchema: string): (r: Option<string>)
    ensures r.Some? ==> r.value == objSchema
    ensures r.Some? <==> response.Keys == {objSchema} && response[objSchema] != JNull
    ensures |response| != 1 ==> r == None
    ensures forall k :: response.Keys == {k} && k != objSchema ==> r == None
  {
    if |response| == 1 then
      if Get(response, Some(objSchema)) != JNull then
        SoleKey(response, objSchema);
        Some(objSchema)
      else None
    else None
  }

  /** The data key, when the object holds it with a value that is not
      `null`. The log message built on the way calls `__len__` on that
      value, which raises for a number or a boolean. */
  function GetDataNameResponse(dataRes: map<string, Json>, dataNameSchema: string): (r: Result<Option<string>, Fault>)
    ensures r == Success(Some(dataNameSchema)) <==> dataNameSchema in dataRes && HasLength(dataRes[dataNameSchema])
    ensures r == Success(None) <==> dataNameSchema !in dataRes || dataRes[dataNameSchema] == JNull
    ensures r.Failure? <==> dataNameSchema in dataRes && dataRes[dataNameSchema] != JNull && !HasLength(dataRes[dataNameSchema])
    ensures r.Failure? ==> r.error == NoLength
    ensures r.Success? && r.value.Some? ==> r.value.value == dataNameSchema
  {
    var value := Get(dataRes, Some(dataNameSchema));
    if value != JNull then
      if HasLength(value) then Success(Some(dataNameSchema)) else Failure(NoLength)
    else Success(None)
  }
}
