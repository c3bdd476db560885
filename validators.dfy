/** The two validation policies: every record's `group_code`, and for the
    full policy also its `ma_dv_hc` and the field named by `date_key`, must
    equal the expected values given on the command line. */
module Validators {
  import opened Wrappers
  import opened Json

  /** The expected values as parsed from the command line; the optional
      ones are `None` when not given. */
  datatype Args = Args(groupCode: string, maDvHc: Option<string>, kyDuLieu: Option<string>, dateKey: Option<string>)

  datatype Policy = Full | Required

  /** Python's `v == expected` for a JSON value and a command-line value:
      exact string equality, and `None` equals only JSON `null`. */
  predicate Equals(v: Json, expected: Option<string>)
  {
    match expected
    case None => v == JNull
    case Some(s) => v == JString(s)
  }

  /** One record under the full policy: the three fields are read and
      compared in the order `group_code`, `ma_dv_hc`, `date_key`; the first
      mismatch answers `false` and no later field is read. */
  function FullRecordCheck(e: Json, args: Args): Result<bool, Fault>
  {
    var g :- Subscript(e, Some("group_code"));
    if !Equals(g, Some(args.groupCode)) then Success(false) else
    var m :- Subscript(e, Some("ma_dv_hc"));
    if !Equals(m, args.maDvHc) then Success(false) else
    var d :- Subscript(e, args.dateKey);
    Success(Equals(d, args.kyDuLieu))
  }

  /** One record under the required policy: only `group_code` is compared. */
  function RequiredRecordCheck(e: Json, args: Args): Result<bool, Fault>
  {
    var g :- Subscript(e, Some("group_code"));
    Success(Equals(g, Some(args.groupCode)))
  }

  function RecordCheck(p: Policy, e: Json, args: Args): Result<bool, Fault>
  {
    match p
    case Full => FullRecordCheck(e, args)
    case Required => RequiredRecordCheck(e, args)
  }

  /** The records visited in order until the first one that does not pass. */
  function Scan(p: Policy, items: seq<Json>, args: Args): Result<bool, Fault>
    decreases |items|
  {
    if items == [] then Success(true)
    else if RecordCheck(p, items[0], args) != Success(true) then RecordCheck(p, items[0], args)
    else Scan(p, items[1..], args)
  }

  /** `full_valid_check` / `required_valid_check` as values: the records are
      `response_data[object_res_name][data_key_res_name]`. */
  function Validate(p: Policy, responseData: map<string, Json>, objectResName: Option<string>,
                    dataKeyResName: Option<string>, args: Args): Result<bool, Fault>
  {
    var obj :- Subscript(JObject(responseData), objectResName);
    var data :- Subscript(obj, dataKeyResName);
    var items :- Iterate(data);
    Scan(p, items, args)
  }

  /** A record passes the full policy exactly when it is an object whose
      `group_code`, `ma_dv_hc` and `date_key` fields exist and equal the
      expected values. */
  lemma FullRecordPasses(e: Json, args: Args)
    ensures FullRecordCheck(e, args) == Success(true) <==>
      && e.JObject?
      && "group_code" in e.members && Equals(e.members["group_code"], Some(args.groupCode))
      && "ma_dv_hc" in e.members && Equals(e.members["ma_dv_hc"], args.maDvHc)
      && args.dateKey.Some? && args.dateKey.value in e.members
      && Equals(e.members[args.dateKey.value], args.kyDuLieu)
  {
  }

  /** A record passes the required policy exactly when it is an object whose
      `group_code` field exists and equals the expected value. */
  lemma RequiredRecordPasses(e: Json, args: Args)
    ensures RequiredRecordCheck(e, args) == Success(true) <==>
      e.JObject? && "group_code" in e.members && Equals(e.members["group_code"], Some(args.groupCode))
  {
  }

  /** The comparison order is observable: a wrong `group_code` answers
      `false` even when the later fields are missing, while a right one
      with `ma_dv_hc` missing raises on that key; likewise a wrong
      `ma_dv_hc` answers `false` whatever the date field, while a right one
      raises when the date field is missing or no `date_key` was given. */
  lemma FullRecordOrder(e: Json, args: Args)
    requires e.JObject? && "group_code" in e.members
    ensures !Equals(e.members["group_code"], Some(args.groupCode)) ==> FullRecordCheck(e, args) == Success(false)
    ensures Equals(e.members["group_code"], Some(args.groupCode)) && "ma_dv_hc" !in e.members
      ==> FullRecordCheck(e, args) == Failure(KeyNotFound(Some("ma_dv_hc")))
    ensures Equals(e.members["group_code"], Some(args.groupCode)) && "ma_dv_hc" in e.members
            && !Equals(e.members["ma_dv_hc"], args.maDvHc)
      ==> FullRecordCheck(e, args) == Success(false)
    ensures Equals(e.members["group_code"], Some(args.groupCode)) && "ma_dv_hc" in e.members
            && Equals(e.members["ma_dv_hc"], args.maDvHc)
            && (args.dateKey.None? || args.dateKey.value !in e.members)
      ==> FullRecordCheck(e, args) == Failure(KeyNotFound(args.dateKey))
  {
  }

  /** The scan passes exactly when every record passes. */
  lemma {:induction false} ScanPasses(p: Policy, items: seq<Json>, args: Args)
    ensures Scan(p, items, args) == Success(true)
        <==> forall i :: 0 <= i < |items| ==> RecordCheck(p, items[i], args) == Success(true)
  {
    if items != [] {
      ScanPasses(p, items[1..], args);
      assert forall i :: 1 <= i < |items| ==> items[i] == items[1..][i - 1];
    }
  }

  /** The first record that does not pass decides the verdict; records after
      it are never looked at. */
  lemma {:induction false} ScanStopsAtFirst(p: Policy, items: seq<Json>, args: Args, k: nat)
    requires k < |items|
    requires forall i :: 0 <= i < k ==> RecordCheck(p, items[i], args) == Success(true)
    requires RecordCheck(p, items[k], args) != Success(true)
    ensures Scan(p, items, args) == RecordCheck(p, items[k], args)
  {
    if k > 0 {
      assert items[1..][k - 1] == items[k];
      ScanStopsAtFirst(p, items[1..], args, k - 1);
    }
  }

  /** Per record, the full policy refines the required one: it passes only
      where the required one passes, and fails wherever that one fails. */
  lemma FullRefinesRequiredRecord(e: Json, args: Args)
    ensures FullRecordCheck(e, args) == Success(true) ==> RequiredRecordCheck(e, args) == Success(true)
    ensures RequiredRecordCheck(e, args) == Success(false) ==> FullRecordCheck(e, args) == Success(false)
    ensures RequiredRecordCheck(e, args).Failure? ==> FullRecordCheck(e, args) == RequiredRecordCheck(e, args)
  {
  }

  /** Over a record list, a pass of the full check implies a pass of the
      required check, and a failure of the required check (a `false` or a
      raised error) rules out a pass of the full check. */
  lemma {:induction false} FullRefinesRequired(items: seq<Json>, args: Args)
    ensures Scan(Full, items, args) == Success(true) ==> Scan(Required, items, args) == Success(true)
    ensures Scan(Required, items, args) != Success(true) ==> Scan(Full, items, args) != Success(true)
  {
    if items != [] {
      FullRefinesRequiredRecord(items[0], args);
      FullRefinesRequired(items[1..], args);
    }
  }

  /** The refinement is strict: a record with the right `group_code` and a
      wrong `ma_dv_hc` passes the required check and fails the full one. */
  lemma StrictRefinement()
    ensures var args := Args("G1", Some("M1"), Some("2024"), Some("nam"));
            var rec := JObject(map["group_code" := JString("G1"), "ma_dv_hc" := JString("M2"), "nam" := JString("2024")]);
            Scan(Required, [rec], args) == Success(true) && Scan(Full, [rec], args) == Success(false)
  {
    var args := Args("G1", Some("M1"), Some("2024"), Some("nam"));
    var rec := JObject(map["group_code" := JString("G1"), "ma_dv_hc" := JString("M2"), "nam" := JString("2024")]);
    assert [rec][1..] == [];
  }

  /** `full_valid_check`: navigates to the record list, then compares each
      record's `group_code`, `ma_dv_hc` and `date_key` fields in that order,
      returning `false` at the first mismatch. */
  method FullValidCheck(responseData: map<string, Json>, objectResName: Option<string>,
                        dataKeyResName: Option<string>, args: Args) returns (r: Result<bool, Fault>)
    ensures r == Validate(Full, responseData, objectResName, dataKeyResName, args)
  {
    var obj := Subscript(JObject(responseData), objectResName);
    if obj.Failure? {
      return Failure(obj.error);
    }
    var data := Subscript(obj.value, dataKeyResName);
    if data.Failure? {
      return Failure(data.error);
    }
    var it := Iterate(data.value);
    if it.Failure? {
      return Failure(it.error);
    }
    var items := it.value;
    var i := 0;
    while i < |items|
      invariant 0 <= i <= |items|
      invariant Scan(Full, items[i..], args) == Scan(Full, items, args)
    {
      var element := items[i];
      var g := Subscript(element, Some("group_code"));
      if g.Failure? {
        return Failure(g.error);
      }
      if !Equals(g.value, Some(args.groupCode)) {
        return Success(false);
      }
      var m := Subscript(element, Some("ma_dv_hc"));
      if m.Failure? {
        return Failure(m.error);
      }
      if !Equals(m.value, args.maDvHc) {
        return Success(false);
      }
      var d := Subscript(element, args.dateKey);
      if d.Failure? {
        return Failure(d.error);
      }
      if !Equals(d.value, args.kyDuLieu) {
        return Success(false);
      }
      assert items[i..][1..] == items[i + 1..];
      i := i + 1;
    }
    return Success(true);
  }

  /** `required_valid_check`: navigates to the record list, then compares
      each record's `group_code`, returning `false` at the first mismatch. */
  method RequiredValidCheck(responseData: map<string, Json>, objectResName: Option<string>,
                            dataKeyResName: Option<string>, args: Args) returns (r: Result<bool, Fault>)
    ensures r == Validate(Required, responseData, objectResName, dataKeyResName, args)
  {
    var obj := Subscript(JObject(responseData), objectResName);
    if obj.Failure? {
      return Failure(obj.error);
    }
    var data := Subscript(obj.value, dataKeyResName);
    if data.Failure? {
      return Failure(data.error);
    }
    var it := Iterate(data.value);
    if it.Failure? {
      return Failure(it.error);
    }
    var items := it.value;
    var i := 0;
    while i < |items|
      invariant 0 <= i <= |items|
      invariant Scan(Required, items[i..], args) == Scan(Required, items, args)
    {
      var g := Subscript(items[i], Some("group_code"));
      if g.Failure? {
        return Failure(g.error);
      }
      if !Equals(g.value, Some(args.groupCode)) {
        return Success(false);
      }
      assert items[i..][1..] == items[i + 1..];
      i := i + 1;
    }
    return Success(true);
  }
}
