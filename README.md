# Test-case data validator, modelled in Dafny

`moha_tc_api.py` checks one use case directory. It reads a one-column
schema table (`schema.csv`) that names the response's top-level object,
marks the data key with the literal `data` and lists the record fields
below it. It reads a JSON response, finds the object and its record list,
checks that every record carries exactly the declared fields, and then
applies one of two validation policies to every record: `full` (`group_code`,
`ma_dv_hc` and the field named by `--date_key` must equal the command-line
values) or `required` (`group_code` only).

The model covers the schema extractor, the response navigator, the field
matcher, both validators and the script's top-level flow. The parsed
schema table, the parsed JSON response and the parsed command-line values
are inputs. Python exceptions become `Fault` values and `sys.exit(1)`
becomes an `Outcome` value. The exception is `MarkerRowMissing`: it is the uncaught
`KeyError` of line 53, reported as a schema outcome.

- `wrappers.dfy` (`Wrappers`): `Option` replaces the `None` sentinel; `Result` carries an error.
- `json.dfy` (`Json`): JSON values and the Python operations the script applies to them: `dict.get`, `x[k]`, `for e in x`, `x.__len__()`. `Fault` lists the exceptions these raise.
- `schema.dfy` (`SchemaExtractor`): `get_header` … `extract_schema_file`, with the ordered error cascade.
- `navigator.dfy` (`ResponseNavigator`): `get_data_object_response`, `get_data_name_response`.
- `matcher.dfy` (`FieldMatcher`): `is_matched_fields_res` as a loop method, proved equal to a recursive specification. Lemmas give its meaning and show it ignores record order.
- `validators.dfy` (`Validators`): `full_valid_check` and `required_valid_check` as loop methods, proved equal to one recursive specification for each policy, plus the refinement lemmas.
- `service.dfy` (`TestCaseService`): the `__main__` flow as a pure function `Run`, its exit status, and lemmas about it.

Behaviour of the code worth noting:

- A one-column schema with no row under the header never reaches the marker check at line 71: `df.get(f_header)[0]` raises `KeyError` at line 53. This is `SchemaError.MarkerRowMissing`.
- The data key is found only when its value is not `null`, not merely present (line 109).
- The log message at line 110 calls `__len__` on the data value. A number or a boolean there raises `AttributeError` before the records are reached. This is `Crashed(NoLength)`.
- Navigation failure is not reported as absence. A top level that is not a dictionary fails at line 97 (`__len__`), line 98 or line 190 (`.get`). With no object found, `res.get(None)` at line 190 is `None`, and the `.get` on it raises at line 109, inside `get_data_name_response` called from line 190. The same happens at line 109 when the object's value is not a dictionary. With an object but no data key, `res[obj][None]` raises `KeyError` at line 191. These are `Crashed(NoLength)` (line 97), `Crashed(NotAMapping)` and `Crashed(KeyNotFound(None))`.
- The field-match verdict and the validator's verdict are logged and discarded. A run that reaches the end exits 0 whatever they are. `Outcome.Finished` records both verdicts, and `ExitStatus` is 0 for it.

## Model

| member | source | states |
|---|---|---|
| `SchemaExtractor.GetHeader` | moha_tc_api.py:38-45 | an object name exists exactly when the table has one column, and it is that column's name; 0 or 2+ columns give `None` |
| `SchemaExtractor.GetSecHeader` | moha_tc_api.py:48-54 | the marker is `None` exactly when the column count is not 1, otherwise it is the first cell under the header; requires the lookup not to raise |
| `SchemaExtractor.ToSet` | moha_tc_api.py:62 | `set(list)` holds exactly the list's elements and is no larger than the list |
| `SchemaExtractor.ToSetCollapses` | moha_tc_api.py:62 | two equal field rows collapse: the set is strictly smaller than the list |
| `SchemaExtractor.GetFieldList` | moha_tc_api.py:57-63 | `None` exactly when the column count is not 1; otherwise the fields are exactly the cells after the marker row (the marker row is excluded), at most one per row |
| `SchemaExtractor.QuickCheckSchema` | moha_tc_api.py:66-77 | the ordered cascade: missing header, then a marker missing or not `"data"`, then an empty field set; each failure holds exactly when the earlier checks pass; otherwise it returns true |
| `SchemaExtractor.ExtractSchema` | moha_tc_api.py:80-93 | success exactly for one column, a `"data"` marker and at least one field row, giving (header, `"data"`, the cells after the marker); 2+ columns always fail with the first-header error; each error case is characterised by the table's shape |
| `ResponseNavigator.GetDataObjectResponse` | moha_tc_api.py:96-104 | returns the object name exactly when it is the response's only top-level key with a non-null value; any response without exactly one key, or whose one key is another name, gives `None` |
| `ResponseNavigator.GetDataNameResponse` | moha_tc_api.py:107-113 | returns the data key exactly when it is present with a value that has a length (string, list, object); `None` when it is absent or `null`; the `__len__` error of line 110 for a number or boolean |
| `FieldMatcher.IsMatchedFieldsRes` | moha_tc_api.py:116-125 | the loop's result equals the recursive specification; it is true exactly when the data iterates and every record's key set equals the declared fields |
| `FieldMatcher.FieldCheckPasses` | moha_tc_api.py:120-125 | the check passes exactly when every record is an object whose key set equals the declared set; an empty list passes |
| `FieldMatcher.FieldCheckOnRecords` | moha_tc_api.py:120-123 | on a list of objects the check answers true or false and never raises |
| `FieldMatcher.FieldCheckRejectsMismatch` | moha_tc_api.py:121-123 | one record with an extra or a missing key makes a list of objects fail |
| `FieldMatcher.FieldCheckOrderFree` | moha_tc_api.py:120-125 | on objects, two lists with the same records in any order or multiplicity get the same verdict |
| `Validators.FullRecordPasses` | moha_tc_api.py:135-143 | a record passes the full policy exactly when its `group_code`, `ma_dv_hc` and `date_key` fields exist and equal the expected values exactly (a missing optional value matches only `null`) |
| `Validators.RequiredRecordPasses` | moha_tc_api.py:152-154 | a record passes the required policy exactly when its `group_code` exists and equals the expected value |
| `Validators.FullRecordOrder` | moha_tc_api.py:135-143 | fields are compared in the fixed order: a wrong `group_code` gives false even with later fields missing, and a right one with `ma_dv_hc` missing raises `KeyError` on `ma_dv_hc`; then a wrong `ma_dv_hc` gives false whatever the date field, and a right one raises `KeyError` on `date_key` when that field is missing or no `date_key` was given |
| `Validators.ScanPasses` | moha_tc_api.py:134-145 | a policy passes the record list exactly when every record passes it |
| `Validators.ScanStopsAtFirst` | moha_tc_api.py:151-156 | the first record that does not pass decides the result; later records are never read |
| `Validators.FullRefinesRequiredRecord` | moha_tc_api.py:135-137 | per record: a full pass implies a required pass, a required false implies a full false, and a required error is the full check's error too |
| `Validators.FullRefinesRequired` | moha_tc_api.py:134-156 | over a list: a full pass implies a required pass; a required false or error rules out a full pass |
| `Validators.StrictRefinement` | moha_tc_api.py:138-140 | a record with the right `group_code` and a wrong `ma_dv_hc` passes required and fails full |
| `Validators.FullValidCheck` | moha_tc_api.py:127-145 | the loop's result, including every raised error, equals the full policy's specification on `response_data[object][data_key]` |
| `Validators.RequiredValidCheck` | moha_tc_api.py:147-156 | the loop's result, including every raised error, equals the required policy's specification on `response_data[object][data_key]` |
| `TestCaseService.ExitStatus` | moha_tc_api.py:183-197 | the exit status is 0 exactly when the run reaches the end, and is otherwise 1 |
| `TestCaseService.CheckResponse` | moha_tc_api.py:188-197 | once the schema is accepted, the checks finish only when the response's sole top-level key is the schema's object |
| `TestCaseService.Run` | moha_tc_api.py:182-197 | an invalid option is rejected before anything else; then a schema error ends the run with that error; a finished run had a valid option, a valid schema and the schema's object as the response's only key |
| `TestCaseService.UnguardedNavigation` | moha_tc_api.py:189-190 | with a valid option and schema, a response whose top level is not a single key naming the schema's object, with an object as its value, crashes unguarded: at `__len__` (line 97) when the top level has no length, otherwise at a `.get` on a non-dictionary (line 98 or 190 for a top level that is not a dictionary, line 109 otherwise) |
| `TestCaseService.DataValueWithoutLength` | moha_tc_api.py:109-110 | a number or a boolean under the data key crashes at the `__len__` of the log message, before the records are read |
| `TestCaseService.MissingDataKey` | moha_tc_api.py:190-191 | a found object without a non-null `data` key crashes with `KeyError` on the `None` key |
| `TestCaseService.FinishedMeaning` | moha_tc_api.py:191-197 | in a finished run, the field verdict is true exactly when every record has the declared fields, and the validation verdict is true exactly when every record passes the selected policy |
| `TestCaseService.FullRunImpliesRequiredRun` | moha_tc_api.py:194-197 | a run that passes with `full` passes with `required` on the same inputs, with the same field verdict |
| `TestCaseService.ThreeFieldSchema` | moha_tc_api.py:86-92 | a one-column table with the marker and three field rows yields (header, `"data"`, those three fields) |
| `TestCaseService.OneRecordResponse` | moha_tc_api.py:188-197 | a response holding one record with the declared fields finishes with a passed field match and that record's verdict |
| `TestCaseService.FullRunExample` | moha_tc_api.py:182-197 | with `full`, G1/M1/2024/`nam`: a matching record passes; the same record with `group_code` G2 fails, and the run still finishes |

## Left out

- File reading (`read_response`, `read_schema_csv`, path building, lines 15-35) is not modelled. The parsed table and the parsed JSON are inputs, so the `sys.exit(1)` on a missing schema file is not represented.
- Logging (the `logging` calls and the `basicConfig` set-up at lines 172-176) is left out. The one log message that can change the result is the one at line 110, whose `__len__` call is modelled as the `NoLength` fault.
- Argument parsing (lines 160-169, 177) is left out. `Validators.Args` holds the parsed values, with `None` for an optional value not given. `--uc` only names the directory, so it is not modelled.
- pandas' cell typing is not modelled. Cells are strings, so numeric inference and `NaN` for blank cells are out. The model also does not cover header quirks such as duplicated or ragged columns.
- JSON numbers are integers: floating point, and Python's `1 == 1.0`, are left out.
- `Json.Fault` merges Python's `TypeError` and `AttributeError` into `NotAMapping` when a non-dictionary is subscripted or has `.get`/`.keys()` called on it. `NoLength` stands for the `AttributeError` of `__len__`. Either way, the script ends with an uncaught exception.
- `Json.Iterate` reports a non-empty object or string used as the record list as the `NotAMapping` failure that every validator loop reaches at its first element. It does not list the keys or characters Python would iterate.
- `SchemaExtractor.GetSecHeader` and `SchemaExtractor.GetFieldList` require a readable marker row. `SchemaExtractor.QuickCheckSchema` requires a field list whenever the first two checks pass. Outside these conditions, Python raises. In the flow this can only happen as `MarkerRowMissing`, which `ExtractSchema` returns.
