/** The schema extractor: reads the object name, the data-key marker and the
    declared field set out of the one-column schema table. */
module SchemaExtractor {
  import opened Wrappers

  /** The schema table as `pandas.read_csv` delivers it: the header row's
      column names, and the cells of the first column below the header,
      each taken as a string. */
  datatype Table = Table(columns: seq<string>, cells: seq<string>)

  /** What a well-formed schema declares: the response's top-level object
      name, the key under it holding the records, and the record fields. */
  datatype SchemaSpec = SchemaSpec(objectName: string, dataKey: string, fields: set<string>)

  /** The reasons a schema is refused. The first three are the logged
      fatal exits; `MarkerRowMissing` is the `KeyError` raised when the one
      column has no cell to read the marker from. */
  datatype SchemaError =
    | InvalidFirstHeader
    | InvalidSecondHeader
    | EmptyFieldList
    | MarkerRowMissing

  /** The only marker accepted in the row below the header. */
  const DataMarker: string := "data"

  /** The object name: the header of the table's only column. */
  function GetHeader(t: Table): (r: Option<string>)
    ensures r.Some? <==> |t.columns| == 1
    ensures r.Some? ==> r.value == t.columns[0]
  {
    if |t.columns| == 1 then Some(t.columns[0]) else None
  }

  /** What `df.get(f_header)[0]` needs in order not to raise: when the table
      has one column, `f_header` names it and the column has a first cell. */
  predicate Readable(t: Table, fHeader: Option<string>)
  {
    |t.columns| == 1 ==> fHeader == Some(t.columns[0]) && |t.cells| >= 1
  }

  /** The data-key marker: the first cell under the header. */
  function GetSecHeader(t: Table, fHeader: Option<string>): (r: Option<string>)
    requires Readable(t, fHeader)
    ensures r.None? <==> |t.columns| != 1
    ensures r.Some? ==> r.value == t.cells[0]
  {
    if GetHeader(t).Some? then Some(t.cells[0]) else None
  }

  /** Python's `set(xs)`: the distinct elements of a list. */
  function ToSet(xs: seq<string>): (r: set<string>)
    ensures forall x :: x in r <==> x in xs
    ensures |r| <= |xs|
  {
    if xs == [] then {} else {xs[0]} + ToSet(xs[1..])
  }

  /** The declared fields: the distinct cells after the marker row. */
  function GetFieldList(t: Table, fHeader: Option<string>): (r: Option<set<string>>)
    requires Readable(t, fHeader)
    ensures r.None? <==> |t.columns| != 1
    ensures r.Some? ==> forall f :: f in r.value <==> f in t.cells[1..]
    ensures r.Some? ==> |r.value| <= |t.cells| - 1
  {
    if GetSecHeader(t, fHeader).Some? then Some(ToSet(t.cells[1..])) else None
  }

  /** The ordered checks on the three extracted parts. The source returns
      `True` or exits; `len(None)` on the field list cannot be reached when
      the first two checks pass on extracted values, which the requires
      states. */
  function QuickCheckSchema(fHeader: Option<string>, secHeader: Option<string>, fields: Option<set<string>>)
    : (r: Result<bool, SchemaError>)
    requires fHeader.Some? && secHeader == Some(DataMarker) ==> fields.Some?
    ensures r == Failure(InvalidFirstHeader) <==> fHeader.None?
    ensures r == Failure(InvalidSecondHeader) <==> fHeader.Some? && secHeader != Some(DataMarker)
    ensures r == Failure(EmptyFieldList) <==> fHeader.Some? && secHeader == Some(DataMarker) && fields.value == {}
    ensures r.Success? <==> fHeader.Some? && secHeader == Some(DataMarker) && fields.value != {}
    ensures r.Success? ==> r.value
  {
    if fHeader.None? then Failure(InvalidFirstHeader)
    else if secHeader.None? || secHeader.value != DataMarker then Failure(InvalidSecondHeader)
    else if |fields.value| == 0 then Failure(EmptyFieldList)
    else Success(true)
  }

  /** A list has no distinct elements exactly when it is empty. */
  lemma {:induction false} ToSetEmpty(xs: seq<string>)
    ensures ToSet(xs) == {} <==> xs == []
  {
    if xs != [] {
      assert xs[0] in ToSet(xs);
    }
  }

  /** Two equal cells in the list collapse into one field. */
  lemma {:induction false} ToSetCollapses(xs: seq<string>, i: nat, j: nat)
    requires i < j < |xs| && xs[i] == xs[j]
    ensures |ToSet(xs)| < |xs|
  {
    if i == 0 {
      assert xs[0] == xs[1..][j - 1];
      assert ToSet(xs) == ToSet(xs[1..]);
    } else {
      ToSetCollapses(xs[1..], i - 1, j - 1);
    }
  }

  /** Reading, checking and extracting the schema. */
  function ExtractSchema(t: Table): (r: Result<SchemaSpec, SchemaError>)
    ensures |t.columns| != 1 ==> r == Failure(InvalidFirstHeader)
    ensures r == Failure(MarkerRowMissing) <==> |t.columns| == 1 && t.cells == []
    ensures r == Failure(InvalidSecondHeader) <==> |t.columns| == 1 && t.cells != [] && t.cells[0] != DataMarker
    ensures r == Failure(EmptyFieldList) <==> |t.columns| == 1 && t.cells == [DataMarker]
    ensures r.Success? <==> |t.columns| == 1 && |t.cells| >= 2 && t.cells[0] == DataMarker
    ensures r.Success? ==> r.value.objectName == t.columns[0] && r.value.dataKey == DataMarker
    ensures r.Success? ==> forall f :: f in r.value.fields <==> f in t.cells[1..]
  {
    var objectName := GetHeader(t);
    if objectName.Some? && t.cells == [] then Failure(MarkerRowMissing)
    else
      var dataField := GetSecHeader(t, objectName);
      var inner := GetFieldList(t, objectName);
      assert objectName.Some? ==> (inner.value == {} <==> |t.cells| == 1) by {
        if objectName.Some? { ToSetEmpty(t.cells[1..]); }
      }
      match QuickCheckSchema(objectName, dataField, inner)
      case Failure(e) => Failure(e)
      case Success(_) => Success(SchemaSpec(objectName.value, dataField.value, inner.value))
  }
}
