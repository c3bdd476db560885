/** The field matcher: every record of the data list must carry exactly the
    fields the schema declares. */
module FieldMatcher {
  import opened Wrappers
  import opened Json

  /** A record whose key set is exactly the declared field set. */
  predicate HasFields(e: Json, fields: set<string>)
  {
    e.JObject? && e.members.Keys == fields
  }

  /** The records visited in order: the first element that is not an object
      raises, the first object with another key set gives `false`. */
  function FieldCheck(items: seq<Json>, fields: set<string>): (r: Result<bool, Fault>)
    decreases |items|
  {
    if items == [] then Success(true)
    else if !items[0].JObject? then Failure(NotAMapping)
    else if items[0].members.Keys != fields then Success(false)
    else FieldCheck(items[1..], fields)
  }

  /** `is_matched_fields_res(data, fields)`, as a value. */
  function MatchFields(data: Json, fields: set<string>): Result<bool, Fault>
  {
    match Iterate(data)
    case Failure(f) => Failure(f)
    case Success(items) => FieldCheck(items, fields)
  }

  /** The check passes exactly when every record has exactly the declared fields. */
  lemma {:induction false} FieldCheckPasses(items: seq<Json>, fields: set<string>)
    ensures FieldCheck(items, fields) == Success(true)
        <==> forall i :: 0 <= i < |items| ==> HasFields(items[i], fields)
  {
    if items != [] {
      FieldCheckPasses(items[1..], fields);
      assert forall i :: 1 <= i < |items| ==> items[i] == items[1..][i - 1];
    }
  }

  /** On a list of objects the check never raises: it answers true or false. */
  lemma {:induction false} FieldCheckOnRecords(items: seq<Json>, fields: set<string>)
    requires forall i :: 0 <= i < |items| ==> items[i].JObject?
    ensures FieldCheck(items, fields).Success?
  {
    if items != [] {
      FieldCheckOnRecords(items[1..], fields);
    }
  }

  /** A record with an extra or a missing field makes a list of objects fail. */
  lemma FieldCheckRejectsMismatch(items: seq<Json>, fields: set<string>, i: nat)
    requires forall j :: 0 <= j < |items| ==> items[j].JObject?
    requires i < |items| && items[i].members.Keys != fields
    ensures FieldCheck(items, fields) == Success(false)
  {
    FieldCheckOnRecords(items, fields);
    FieldCheckPasses(items, fields);
    assert !HasFields(items[i], fields);
    assert FieldCheck(items, fields) != Success(true);
    assert FieldCheck(items, fields).Success?;
    assert FieldCheck(items, fields).value == false;
  }

  /** On a list of objects the verdict depends only on which records occur,
      not on their order or repetition. */
  lemma FieldCheckOrderFree(a: seq<Json>, b: seq<Json>, fields: set<string>)
    requires forall i :: 0 <= i < |a| ==> a[i].JObject?
    requires forall x :: x in a <==> x in b
    ensures FieldCheck(a, fields) == FieldCheck(b, fields)
  {
    assert forall j :: 0 <= j < |b| ==> b[j] in a;
    assert forall j :: 0 <= j < |b| ==> b[j].JObject?;
    FieldCheckOnRecords(a, fields);
    FieldCheckOnRecords(b, fields);
    FieldCheckPasses(a, fields);
    FieldCheckPasses(b, fields);
    assert forall j :: 0 <= j < |a| ==> a[j] in b;
    var allA := forall i :: 0 <= i < |a| ==> HasFields(a[i], fields);
    var allB := forall j :: 0 <= j < |b| ==> HasFields(b[j], fields);
    assert allA <==> allB by {
      if allA {
        forall j | 0 <= j < |b| ensures HasFields(b[j], fields) {
          var i :| 0 <= i < |a| && a[i] == b[j];
        }
      }
      if allB {
        forall i | 0 <= i < |a| ensures HasFields(a[i], fields) {
          var j :| 0 <= j < |b| && b[j] == a[i];
        }
      }
    }
    assert FieldCheck(a, fields).value == allA;
    assert FieldCheck(b, fields).value == allB;
  }

  /** `is_matched_fields_res`: walks the records and stops at the first one
      whose key set differs from `fields`. */
  method IsMatchedFieldsRes(data: Json, fields: set<string>) returns (r: Result<bool, Fault>)
    ensures r == MatchFields(data, fields)
    ensures r == Success(true) <==>
      Iterate(data).Success? && forall i :: 0 <= i < |Iterate(data).value| ==> HasFields(Iterate(data).value[i], fields)
  {
    var it := Iterate(data);
    if it.Failure? {
      return Failure(it.error);
    }
    var items := it.value;
    FieldCheckPasses(items, fields);
    var i := 0;
    while i < |items|
      invariant 0 <= i <= |items|
      invariant FieldCheck(items[i..], fields) == FieldCheck(items, fields)
    {
      var element := items[i];
      if !element.JObject? {
        return Failure(NotAMapping);
      }
      if element.members.Keys != fields {
        return Success(false);
      }
      assert items[i..][1..] == items[i + 1..];
      i := i + 1;
    }
    return Success(true);
  }
}
