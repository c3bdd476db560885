/** The command-line flow: the option gate, schema extraction, navigation
    to the record list, the field match and the selected validator. Reading
    the two files, argument parsing and logging are not modelled: the parsed
    schema table, the parsed response and the parsed arguments are inputs. */
module TestCaseService {
  import opened Wrappers
  import opened Json
  import opened SchemaExtractor
  import opened ResponseNavigator
  import opened FieldMatcher
  import opened Validators

  /** The options `--option` accepts. */
  const AcceptedParams: seq<string> := ["full", "required"]

  /** How a run ends. `InvalidOption` and `SchemaRejected` are the logged
      `sys.exit(1)` calls, except `SchemaRejected(MarkerRowMissing)`, the
      uncaught `KeyError` of reading the marker row; `Crashed` is an
      uncaught exception; `Finished`
      records the (logged, otherwise unused) field-match and validation
      verdicts of a run that falls off the end. */
  datatype Outcome =
    | InvalidOption
    | SchemaRejected(error: SchemaError)
    | Crashed(fault: Fault)
    | Finished(fieldsMatched: bool, valid: bool)

  /** The process exit status of a run. Python exits with 1 on an uncaught
      exception, and with 0 when the script ends, whatever the verdicts. */
  function ExitStatus(o: Outcome): (code: int)
    ensures code == 0 <==> o.Finished?
    ensures code == 0 || code == 1
  {
    if o.Finished? then 0 else 1
  }

  /** The validator `--option` selects. */
  function PolicyOf(option: string): Policy
  {
    if option == "full" then Full else Required
  }

  /** The part of a run after the schema is accepted: navigation to the
      record list, the field match and the selected validator. */
  function CheckResponse(p: Policy, spec: SchemaSpec, response: Json, args: Args): (o: Outcome)
    ensures o.Finished? ==> response.JObject? && response.members.Keys == {spec.objectName}
  {
    if !response.JObject? then Crashed(if HasLength(response) then NotAMapping else NoLength)
    else
      var res := response.members;
      var objRes := GetDataObjectResponse(res, spec.objectName);
      var container := Get(res, objRes);
      if !container.JObject? then Crashed(NotAMapping)
      else
        match GetDataNameResponse(container.members, spec.dataKey)
        case Failure(f) => Crashed(f)
        case Success(dataNameRes) =>
          match Subscript(container, dataNameRes)
          case Failure(f) => Crashed(f)
          case Success(innerData) =>
            match MatchFields(innerData, spec.fields)
            case Failure(f) => Crashed(f)
            case Success(matched) =>
              match Validate(p, res, objRes, dataNameRes, args)
              case Failure(f) => Crashed(f)
              case Success(valid) => Finished(matched, valid)
  }

  /** One run of the script on already parsed inputs. */
  function Run(option: string, table: Table, response: Json, args: Args): (o: Outcome)
    ensures option !in AcceptedParams ==> o == InvalidOption
    ensures option in AcceptedParams && ExtractSchema(table).Failure?
      ==> o == SchemaRejected(ExtractSchema(table).error)
    ensures o.Finished? ==>
      && option in AcceptedParams
      && ExtractSchema(table).Success?
      && response.JObject?
      && response.members.Keys == {ExtractSchema(table).value.objectName}
  {
    if option !in AcceptedParams then InvalidOption
    else match ExtractSchema(table)
      case Failure(e) => SchemaRejected(e)
      case Success(spec) => CheckResponse(PolicyOf(option), spec, response, args)
  }

  /** Navigation failure is not guarded: once the option and the schema are
      accepted, a response whose top level is not a single key naming the
      schema's object, with an object as its value, ends in an uncaught
      error, not in a reported mismatch. A top level without a length
      fails at `__len__`; any other fails at a `.get` on a non-dictionary:
      on the top level itself when it is not a dictionary, otherwise on the
      `None` or non-dictionary that the data-key lookup receives. */
  lemma UnguardedNavigation(option: string, table: Table, response: Json, args: Args)
    requires option in AcceptedParams && ExtractSchema(table).Success?
    requires var name := ExtractSchema(table).value.objectName;
             !response.JObject? || response.members.Keys != {name} || !response.members[name].JObject?
    ensures Run(option, table, response, args) == Crashed(if HasLength(response) then NotAMapping else NoLength)
  {
  }

  /** A number or a boolean under the data key makes the log message of the
      data-key lookup raise, before the records are reached. */
  lemma DataValueWithoutLength(option: string, table: Table, response: Json, args: Args)
    requires option in AcceptedParams && ExtractSchema(table).Success?
    requires response.JObject? && response.members.Keys == {ExtractSchema(table).value.objectName}
    requires var obj := response.members[ExtractSchema(table).value.objectName];
             obj.JObject? && DataMarker in obj.members
             && (obj.members[DataMarker].JNumber? || obj.members[DataMarker].JBool?)
    ensures Run(option, table, response, args) == Crashed(NoLength)
  {
  }

  /** A found object without the `data` key (or with `data: null`) raises
      `KeyError` on the `None` key. */
  lemma MissingDataKey(option: string, table: Table, response: Json, args: Args)
    requires option in AcceptedParams && ExtractSchema(table).Success?
    requires response.JObject? && response.members.Keys == {ExtractSchema(table).value.objectName}
    requires var obj := response.members[ExtractSchema(table).value.objectName];
             obj.JObject? && Get(obj.members, Some(DataMarker)) == JNull
    ensures Run(option, table, response, args) == Crashed(KeyNotFound(None))
  {
  }

  /** A finished run has checked every record: the field verdict is true
      exactly when each record has the declared fields, and the validation
      verdict is true exactly when each record passes the selected policy. */
  lemma FinishedMeaning(option: string, table: Table, response: Json, args: Args)
    requires Run(option, table, response, args).Finished?
    ensures var spec := ExtractSchema(table).value;
            var data := response.members[spec.objectName].members[DataMarker];
            && Iterate(data).Success?
            && (Run(option, table, response, args).fieldsMatched
                <==> forall i :: 0 <= i < |Iterate(data).value| ==> HasFields(Iterate(data).value[i], spec.fields))
            && (Run(option, table, response, args).valid
                <==> forall i :: 0 <= i < |Iterate(data).value| ==> RecordCheck(PolicyOf(option), Iterate(data).value[i], args) == Success(true))
  {
    var spec := ExtractSchema(table).value;
    var data := response.members[spec.objectName].members[DataMarker];
    var items := Iterate(data).value;
    FieldCheckPasses(items, spec.fields);
    ScanPasses(PolicyOf(option), items, args);
  }

  /** A run that passes with `--option full` also passes with
      `--option required` on the same inputs, with the same field verdict. */
  lemma FullRunImpliesRequiredRun(table: Table, response: Json, args: Args)
    requires Run("full", table, response, args).Finished? && Run("full", table, response, args).valid
    ensures Run("required", table, response, args) == Finished(Run("full", table, response, args).fieldsMatched, true)
  {
    var spec := ExtractSchema(table).value;
    var data := response.members[spec.objectName].members[DataMarker];
    FullRefinesRequired(Iterate(data).value, args);
  }

  /** A list of three names holds exactly the three names. */
  lemma ThreeNames(names: set<string>, rows: seq<string>)
    requires |rows| == 3
    requires forall f :: f in names <==> f in rows
    ensures names == {rows[0], rows[1], rows[2]}
  {
  }

  /** A one-column schema with the marker and three field rows declares
      those three fields. */
  lemma ThreeFieldSchema(t: Table)
    requires |t.columns| == 1 && |t.cells| == 4 && t.cells[0] == DataMarker
    ensures ExtractSchema(t) == Success(SchemaSpec(t.columns[0], DataMarker, {t.cells[1], t.cells[2], t.cells[3]}))
  {
    var r := ExtractSchema(t);
    assert r.Success?;
    ThreeNames(r.value.fields, t.cells[1..]);
    assert t.cells[1..] == [t.cells[1], t.cells[2], t.cells[3]];
  }

  /** A response holding one record with the declared fields: the checks
      finish, with that record's verdict under the policy. */
  lemma OneRecordResponse(p: Policy, spec: SchemaSpec, rec: map<string, Json>, args: Args)
    requires spec.dataKey == DataMarker && rec.Keys == spec.fields
    requires RecordCheck(p, JObject(rec), args).Success?
    ensures CheckResponse(p, spec, JObject(map[spec.objectName := JObject(map[DataMarker := JArray([JObject(rec)])])]), args)
         == Finished(true, RecordCheck(p, JObject(rec), args).value)
  {
    var name := spec.objectName;
    var items := [JObject(rec)];
    var obj := JObject(map[DataMarker := JArray(items)]);
    var res := map[name := obj];
    assert res.Keys == {name};
    assert GetDataObjectResponse(res, name) == Some(name);
    assert Get(res, Some(name)) == obj;
    assert GetDataNameResponse(obj.members, DataMarker) == Success(Some(DataMarker));
    assert items[1..] == [];
    assert FieldCheck(items, rec.Keys) == Success(true);
    assert Scan(p, items, args) == RecordCheck(p, JObject(rec), args);
  }

  /** A concrete run: a record with the expected `group_code`, `ma_dv_hc`
      and `nam` passes the full check, and a `group_code` of `G2` fails it;
      both runs finish (exit status 0) with the field match passed. */
  lemma FullRunExample()
    ensures var table := Table(["employees"], ["data", "group_code", "ma_dv_hc", "nam"]);
            var args := Args("G1", Some("M1"), Some("2024"), Some("nam"));
            var good := map["group_code" := JString("G1"), "ma_dv_hc" := JString("M1"), "nam" := JString("2024")];
            var bad := good["group_code" := JString("G2")];
            && Run("full", table, JObject(map["employees" := JObject(map["data" := JArray([JObject(good)])])]), args)
               == Finished(true, true)
            && Run("full", table, JObject(map["employees" := JObject(map["data" := JArray([JObject(bad)])])]), args)
               == Finished(true, false)
  {
    var args := Args("G1", Some("M1"), Some("2024"), Some("nam"));
    var good := map["group_code" := JString("G1"), "ma_dv_hc" := JString("M1"), "nam" := JString("2024")];
    var bad := good["group_code" := JString("G2")];
    assert good.Keys == {"group_code", "ma_dv_hc", "nam"};
    assert bad.Keys == {"group_code", "ma_dv_hc", "nam"};
    assert FullRecordCheck(JObject(good), args) == Success(true);
    assert FullRecordCheck(JObject(bad), args) == Success(false);
    var table := Table(["employees"], ["data", "group_code", "ma_dv_hc", "nam"]);
    ThreeFieldSchema(table);
    var spec := SchemaSpec("employees", "data", {"group_code", "ma_dv_hc", "nam"});
    OneRecordResponse(Full, spec, good, args);
    OneRecordResponse(Full, spec, bad, args);
  }
}
