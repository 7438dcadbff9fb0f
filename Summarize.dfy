/** Record mapping of the summarize step: a processing result becomes a CSV
    row under the CSV mode's missing-field policy, CSV strings are cast back
    to typed values through a result schema, and a folder of TIFF files is
    summarized one file at a time. */
module Summarize {
  import opened Common
  import opened Config
  import opened Ordering
  import opened Strings

  // ----- build_csv_row -----

  /** The result dictionary produced for one file by a processor. */
  type ModeResult = map<string, Json>

  /** `col_def.get("default", "")` */
  function DefaultOf(col: ColumnDef): Json {
    if col.default.Some? then col.default.value else JStr("")
  }

  /** The column's `from` key is in the result. */
  predicate Present(col: ColumnDef, result: ModeResult) {
    col.from.Some? && col.from.value in result
  }

  /** The column's key is absent and no non-empty default stands in for it:
      the only case in which the missing-field policy is consulted. */
  predicate Missing(col: ColumnDef, result: ModeResult) {
    !Present(col, result) && DefaultOf(col) == JStr("")
  }

  /** `csv_def.get("on_missing_field", "warn_null")` */
  function Policy(def: CsvDef): string {
    if def.onMissingField.Some? then def.onMissingField.value else "warn_null"
  }

  /** The value written for a column when the row is written: the result's
      value, else the default (which is `""` when none is configured). */
  function Cell(col: ColumnDef, result: ModeResult): Json {
    if Present(col, result) then result[col.from.value] else DefaultOf(col)
  }

  predicate AnyMissing(cols: seq<ColumnDef>, result: ModeResult) {
    exists i :: 0 <= i < |cols| && Missing(cols[i], result)
  }

  function FirstMissing(cols: seq<ColumnDef>, result: ModeResult): (i: nat)
    requires AnyMissing(cols, result)
    ensures i < |cols| && Missing(cols[i], result)
    ensures forall k :: 0 <= k < i ==> !Missing(cols[k], result)
  {
    if Missing(cols[0], result) then 0
    else
      assert AnyMissing(cols[1..], result) by {
        var i :| 0 <= i < |cols| && Missing(cols[i], result);
        assert cols[1..][i - 1] == cols[i];
      }
      1 + FirstMissing(cols[1..], result)
  }

  /** Python's `str(key)` for an optional key. */
  function KeyText(key: Option<string>): string {
    if key.Some? then key.value else "None"
  }

  function MissingFieldMessage(key: Option<string>, processingMode: string, csvMode: string): string {
    "Missing field '" + KeyText(key) + "' for csv_mode=" + csvMode + ", processing_mode=" + processingMode
  }

  /** What `build_csv_row` produces: `Err` for the `KeyError`, `Ok(None)` for
      a skipped row, `Ok(Some(row))` for a row. */
  function CsvRow(result: ModeResult, def: CsvDef, processingMode: string, csvMode: string): (r: Result<Option<seq<Json>>>)
    ensures r.Err? <==> Policy(def) == "error" && AnyMissing(def.columns, result)
    ensures r.Err? ==> r.error.KeyError?
    ensures r == Ok(None) <==> Policy(def) == "skip_row" && AnyMissing(def.columns, result)
    ensures r.Ok? && r.value.Some? ==>
      && |r.value.value| == |def.columns|
      && (forall i :: 0 <= i < |def.columns| && Present(def.columns[i], result) ==>
            r.value.value[i] == result[def.columns[i].from.value])
      && (forall i :: 0 <= i < |def.columns| && !Present(def.columns[i], result) ==>
            r.value.value[i] == DefaultOf(def.columns[i]))
  {
    var cols := def.columns;
    var cells := seq(|cols|, i requires 0 <= i < |cols| => Cell(cols[i], result));
    if AnyMissing(cols, result) && Policy(def) == "error" then
      Err(KeyError(MissingFieldMessage(cols[FirstMissing(cols, result)].from, processingMode, csvMode)))
    else if AnyMissing(cols, result) && Policy(def) == "skip_row" then
      Ok(None)
    else
      Ok(Some(cells))
  }

  /** `build_csv_row`: one pass over the columns, appending a value per column
      and returning early on the first missing field under the `error` and
      `skip_row` policies. */
  method BuildCsvRow(result: ModeResult, def: CsvDef, processingMode: string, csvMode: string)
    returns (r: Result<Option<seq<Json>>>)
    ensures r == CsvRow(result, def, processingMode, csvMode)
  {
    var columns := def.columns;
    var onMissing := if def.onMissingField.Some? then def.onMissingField.value else "warn_null";
    var rowValues: seq<Json> := [];
    for i := 0 to |columns|
      invariant |rowValues| == i
      invariant forall k :: 0 <= k < i ==> rowValues[k] == Cell(columns[k], result)
      invariant onMissing == "error" || onMissing == "skip_row" ==>
        forall k :: 0 <= k < i ==> !Missing(columns[k], result)
    {
      var col := columns[i];
      var key := col.from;
      var default := if col.default.Some? then col.default.value else JStr("");
      if key.Some? && key.value in result {
        rowValues := rowValues + [result[key.value]];
        continue;
      }
      if default != JStr("") {
        rowValues := rowValues + [default];
        continue;
      }
      if onMissing == "error" {
        assert FirstMissing(columns, result) == i by {
          var f := FirstMissing(columns, result);
          assert !(f < i) && !(i < f);
        }
        return Err(KeyError(MissingFieldMessage(key, processingMode, csvMode)));
      }
      if onMissing == "skip_row" {
        return Ok(None);
      }
      rowValues := rowValues + [JStr("")];
    }
    assert rowValues == seq(|columns|, i requires 0 <= i < |columns| => Cell(columns[i], result));
    return Ok(Some(rowValues));
  }

  /** A non-empty default stands in for a missing key under every policy:
      the column never triggers the policy and a written row holds the
      default. */
  lemma DefaultBeatsPolicy(result: ModeResult, def: CsvDef, processingMode: string, csvMode: string, i: nat)
    requires i < |def.columns| && !Present(def.columns[i], result)
    requires def.columns[i].default.Some? && def.columns[i].default.value != JStr("")
    ensures !Missing(def.columns[i], result)
    ensures var r := CsvRow(result, def, processingMode, csvMode);
            r.Ok? && r.value.Some? ==> r.value.value[i] == def.columns[i].default.value
  {
  }

  /** A `default: null` is not `""`: an absent key whose default is null
      never consults the policy, and the row is written with `None` in that
      cell, even under `error` and `skip_row`. */
  lemma NullDefaultWritesNone(result: ModeResult, def: CsvDef, processingMode: string, csvMode: string)
    requires forall i :: 0 <= i < |def.columns| && !Present(def.columns[i], result) ==>
      def.columns[i].default == Some(JNull)
    ensures var r := CsvRow(result, def, processingMode, csvMode);
      && r.Ok? && r.value.Some?
      && forall i :: 0 <= i < |def.columns| && !Present(def.columns[i], result) ==> r.value.value[i] == JNull
  {
    assert !AnyMissing(def.columns, result);
  }

  /** Under `warn_null` (the default) and any policy name other than `error`
      and `skip_row`, a missing field is written as `""` and the row is kept. */
  lemma WarnNullWritesEmpty(result: ModeResult, def: CsvDef, processingMode: string, csvMode: string, i: nat)
    requires Policy(def) != "error" && Policy(def) != "skip_row"
    requires i < |def.columns| && Missing(def.columns[i], result)
    ensures CsvRow(result, def, processingMode, csvMode).Ok?
    ensures CsvRow(result, def, processingMode, csvMode).value.Some?
    ensures CsvRow(result, def, processingMode, csvMode).value.value[i] == JStr("")
  {
  }

  // ----- _cast_value and build_result_object_from_csv_row -----

  /** A value cast from a CSV string: `None`, an `int`, a `float` or the
      string itself. */
  datatype Typed = TNone | TInt(i: int) | TFloat(f: PyFloat) | TStr(s: string)

  /** `_cast_value`. `parseInt` and `parseFloat` stand for Python's `int(s)`
      and `float(s)`, `None` meaning that they raise `ValueError`. */
  function CastValue(val: Option<string>, typ: string, parseInt: string -> Option<int>, parseFloat: string -> Option<PyFloat>): (r: Typed)
    ensures val.None? ==> r == TNone
    ensures val.Some? && typ == "int" ==>
      (parseInt(val.value).None? ==> r == TNone) && (parseInt(val.value).Some? ==> r == TInt(parseInt(val.value).value))
    ensures val.Some? && typ == "float" ==>
      (parseFloat(val.value).None? ==> r == TNone) && (parseFloat(val.value).Some? ==> r == TFloat(parseFloat(val.value).value))
    ensures val.Some? && typ != "int" && typ != "float" ==> r == TStr(val.value)
  {
    if val.None? then TNone
    else if typ == "int" then
      (match parseInt(val.value) case Some(n) => TInt(n) case None => TNone)
    else if typ == "float" then
      (match parseFloat(val.value) case Some(x) => TFloat(x) case None => TNone)
    else TStr(val.value)
  }

  /** A CSV row read back as a dictionary of column name to text. */
  type CsvRecord = map<string, string>

  /** `field_def.get("type", "string")` */
  function TypeName(fd: FieldDef): string {
    if fd.typ.Some? then fd.typ.value else "string"
  }

  /** The typed value of one schema field: `_cast_value(row.get(col), typ)`. */
  function FieldValue(row: CsvRecord, fd: FieldDef, parseInt: string -> Option<int>, parseFloat: string -> Option<PyFloat>): Typed {
    CastValue(if fd.column in row then Some(row[fd.column]) else None, TypeName(fd), parseInt, parseFloat)
  }

  /** The object after assigning the given fields in order. */
  function ObjectOf(row: CsvRecord, fields: seq<FieldDef>, parseInt: string -> Option<int>, parseFloat: string -> Option<PyFloat>): map<string, Typed>
    decreases |fields|
  {
    if fields == [] then map[]
    else
      var last := fields[|fields| - 1];
      ObjectOf(row, fields[..|fields| - 1], parseInt, parseFloat)[last.field := FieldValue(row, last, parseInt, parseFloat)]
  }

  /** The field that decides an object key is the last definition of it. */
  predicate IsLastDefinition(fields: seq<FieldDef>, k: int) {
    0 <= k < |fields| && forall j :: k < j < |fields| ==> fields[j].field != fields[k].field
  }

  /** The object has exactly the schema's field names as keys, and each is
      the cast of its column under its last definition. */
  lemma {:induction false} ObjectOfKeys(row: CsvRecord, fields: seq<FieldDef>, parseInt: string -> Option<int>, parseFloat: string -> Option<PyFloat>)
    ensures ObjectOf(row, fields, parseInt, parseFloat).Keys == set k | 0 <= k < |fields| :: fields[k].field
    decreases |fields|
  {
    if fields != [] {
      var n := |fields| - 1;
      var init := fields[..n];
      ObjectOfKeys(row, init, parseInt, parseFloat);
      var keys := set k | 0 <= k < |fields| :: fields[k].field;
      var initKeys := set k | 0 <= k < n :: init[k].field;
      forall x | x in keys ensures x in initKeys + {fields[n].field} {
        var k :| 0 <= k < |fields| && fields[k].field == x;
        if k < n {
          assert init[k].field == x;
        }
      }
      forall x | x in initKeys ensures x in keys {
        var k :| 0 <= k < n && init[k].field == x;
        assert fields[k].field == x;
      }
      assert fields[n].field in keys;
    }
  }

  lemma {:induction false} ObjectOfValues(row: CsvRecord, fields: seq<FieldDef>, parseInt: string -> Option<int>, parseFloat: string -> Option<PyFloat>, k: int)
    requires IsLastDefinition(fields, k)
    ensures fields[k].field in ObjectOf(row, fields, parseInt, parseFloat)
    ensures ObjectOf(row, fields, parseInt, parseFloat)[fields[k].field] == FieldValue(row, fields[k], parseInt, parseFloat)
    decreases |fields|
  {
    var n := |fields| - 1;
    if k < n {
      var init := fields[..n];
      assert IsLastDefinition(init, k);
      ObjectOfValues(row, init, parseInt, parseFloat, k);
    }
  }

  /** The object has exactly the schema's field names as keys, and each is
      the cast of its column under its last definition. */
  lemma ObjectOfFields(row: CsvRecord, fields: seq<FieldDef>, parseInt: string -> Option<int>, parseFloat: string -> Option<PyFloat>)
    ensures ObjectOf(row, fields, parseInt, parseFloat).Keys == set k | 0 <= k < |fields| :: fields[k].field
    ensures forall k :: IsLastDefinition(fields, k) ==>
      ObjectOf(row, fields, parseInt, parseFloat)[fields[k].field] == FieldValue(row, fields[k], parseInt, parseFloat)
  {
    ObjectOfKeys(row, fields, parseInt, parseFloat);
    forall k | IsLastDefinition(fields, k)
      ensures ObjectOf(row, fields, parseInt, parseFloat)[fields[k].field] == FieldValue(row, fields[k], parseInt, parseFloat)
    {
      ObjectOfValues(row, fields, parseInt, parseFloat, k);
    }
  }

  /** `build_result_object_from_csv_row`: an unknown schema is a `ValueError`. */
  function ResultObject(row: CsvRecord, schemaName: string, cfg: Cfg, parseInt: string -> Option<int>, parseFloat: string -> Option<PyFloat>): (r: Result<map<string, Typed>>)
    ensures r.Err? <==> schemaName !in cfg.resultSchemas
    ensures r.Err? ==> r.error.ValueError?
    ensures r.Ok? ==> r.value.Keys == set k | 0 <= k < |cfg.resultSchemas[schemaName].fields| :: cfg.resultSchemas[schemaName].fields[k].field
  {
    if schemaName !in cfg.resultSchemas then Err(ValueError("Unknown result schema: " + schemaName))
    else
      ObjectOfFields(row, cfg.resultSchemas[schemaName].fields, parseInt, parseFloat);
      Ok(ObjectOf(row, cfg.resultSchemas[schemaName].fields, parseInt, parseFloat))
  }

  /** The loop of `build_result_object_from_csv_row`, assigning `obj[field]`
      for each field definition in turn. */
  method BuildResultObject(row: CsvRecord, schemaName: string, cfg: Cfg, parseInt: string -> Option<int>, parseFloat: string -> Option<PyFloat>)
    returns (r: Result<map<string, Typed>>)
    ensures r == ResultObject(row, schemaName, cfg, parseInt, parseFloat)
  {
    if schemaName !in cfg.resultSchemas {
      return Err(ValueError("Unknown result schema: " + schemaName));
    }
    var fields := cfg.resultSchemas[schemaName].fields;
    var obj: map<string, Typed> := map[];
    for i := 0 to |fields|
      invariant obj == ObjectOf(row, fields[..i], parseInt, parseFloat)
    {
      var fd := fields[i];
      var typ := if fd.typ.Some? then fd.typ.value else "string";
      var rawVal := if fd.column in row then Some(row[fd.column]) else None;
      obj := obj[fd.field := CastValue(rawVal, typ, parseInt, parseFloat)];
      assert fields[..i + 1][..i] == fields[..i];
    }
    assert fields[..|fields|] == fields;
    return Ok(obj);
  }

  // ----- writing a row and reading it back -----

  /** `dict(zip(names, cells))`: a later duplicate name overwrites. */
  function ZipDict(names: seq<string>, cells: seq<string>): (d: map<string, string>)
    requires |names| == |cells|
    ensures d.Keys == set k | 0 <= k < |names| :: names[k]
    decreases |names|
  {
    if names == [] then map[]
    else
      var n := |names| - 1;
      var d := ZipDict(names[..n], cells[..n]);
      assert forall k :: 0 <= k < n ==> names[..n][k] == names[k];
      d[names[n] := cells[n]]
  }

  lemma {:induction false} ZipDictAt(names: seq<string>, cells: seq<string>, k: nat)
    requires |names| == |cells| && k < |names|
    requires forall j :: k < j < |names| ==> names[j] != names[k]
    ensures ZipDict(names, cells)[names[k]] == cells[k]
    decreases |names|
  {
    var n := |names| - 1;
    if k < n {
      ZipDictAt(names[..n], cells[..n], k);
    }
  }

  /** The CSV header: the columns' names. */
  function Header(def: CsvDef): (h: seq<string>)
    ensures |h| == |def.columns| && forall i :: 0 <= i < |h| ==> h[i] == def.columns[i].name
  {
    seq(|def.columns|, i requires 0 <= i < |def.columns| => def.columns[i].name)
  }

  /** A value typed as its schema field expects it to come back. */
  predicate Recovers(v: Json, t: Typed) {
    || (v.JInt? && t == TInt(v.i))
    || (v.JNum? && t == TFloat(Finite(v.x)))
    || (v.JStr? && t == TStr(v.s))
  }

  /** Writing a row with the CSV writer (`render` stands for `str`) and
      reading it back through a result schema recovers the value of a column
      that was present in the result, as an `int`, a `float` or a string
      according to the field's type. */
  lemma RowRoundTrip(result: ModeResult, def: CsvDef, processingMode: string, csvMode: string,
                     schemaName: string, cfg: Cfg, render: Json -> string,
                     parseInt: string -> Option<int>, parseFloat: string -> Option<PyFloat>,
                     i: nat, j: nat)
    requires forall n :: parseInt(render(JInt(n))) == Some(n)
    requires forall x :: parseFloat(render(JNum(x))) == Some(Finite(x))
    requires forall s :: render(JStr(s)) == s
    requires CsvRow(result, def, processingMode, csvMode).Ok? && CsvRow(result, def, processingMode, csvMode).value.Some?
    requires i < |def.columns| && Present(def.columns[i], result)
    requires forall k :: i < k < |def.columns| ==> def.columns[k].name != def.columns[i].name
    requires schemaName in cfg.resultSchemas
    requires IsLastDefinition(cfg.resultSchemas[schemaName].fields, j)
    requires cfg.resultSchemas[schemaName].fields[j].column == def.columns[i].name
    requires var v := result[def.columns[i].from.value];
             var t := TypeName(cfg.resultSchemas[schemaName].fields[j]);
             (t == "int" && v.JInt?) || (t == "float" && v.JNum?) || (t != "int" && t != "float" && v.JStr?)
    ensures var row := CsvRow(result, def, processingMode, csvMode).value.value;
            var text := seq(|row|, k requires 0 <= k < |row| => render(row[k]));
            var obj := ResultObject(ZipDict(Header(def), text), schemaName, cfg, parseInt, parseFloat);
            obj.Ok? && Recovers(result[def.columns[i].from.value], obj.value[cfg.resultSchemas[schemaName].fields[j].field])
  {
    var row := CsvRow(result, def, processingMode, csvMode).value.value;
    var text := seq(|row|, k requires 0 <= k < |row| => render(row[k]));
    var fields := cfg.resultSchemas[schemaName].fields;
    ZipDictAt(Header(def), text, i);
    ObjectOfFields(ZipDict(Header(def), text), fields, parseInt, parseFloat);
  }

  // ----- summarize_folder_to_csv -----

  /** What one file contributes: its row, or nothing when the processor
      raises, `build_csv_row` raises or the row is skipped. */
  function RowOf(path: string, def: CsvDef, processingMode: string, csvMode: string,
                 processor: string -> Result<ModeResult>): (rows: seq<seq<Json>>)
    ensures |rows| <= 1
    ensures |rows| == 1 <==> processor(path).Ok? && CsvRow(processor(path).value, def, processingMode, csvMode).Ok?
                             && CsvRow(processor(path).value, def, processingMode, csvMode).value.Some?
  {
    match processor(path)
    case Err(_) => []
    case Ok(res) =>
      match CsvRow(res, def, processingMode, csvMode)
      case Ok(Some(row)) => [row]
      case _ => []
  }

  /** The rows written for the files, in order. */
  function Rows(paths: seq<string>, def: CsvDef, processingMode: string, csvMode: string,
                processor: string -> Result<ModeResult>): seq<seq<Json>>
    decreases |paths|
  {
    if paths == [] then []
    else
      Rows(paths[..|paths| - 1], def, processingMode, csvMode, processor)
        + RowOf(paths[|paths| - 1], def, processingMode, csvMode, processor)
  }

  lemma {:induction false} RowsAppend(xs: seq<string>, ys: seq<string>, def: CsvDef, processingMode: string, csvMode: string,
                                      processor: string -> Result<ModeResult>)
    ensures Rows(xs + ys, def, processingMode, csvMode, processor)
         == Rows(xs, def, processingMode, csvMode, processor) + Rows(ys, def, processingMode, csvMode, processor)
    decreases |ys|
  {
    if ys == [] {
      assert xs + ys == xs;
    } else {
      var n := |ys| - 1;
      assert (xs + ys)[..|xs + ys| - 1] == xs + ys[..n];
      RowsAppend(xs, ys[..n], def, processingMode, csvMode, processor);
    }
  }

  /** A file whose processing raises, or whose row is skipped or raises,
      drops out without affecting the rows of the other files. */
  lemma FailureDropsOnlyThatFile(xs: seq<string>, p: string, ys: seq<string>, def: CsvDef, processingMode: string,
                                 csvMode: string, processor: string -> Result<ModeResult>)
    requires processor(p).Err? || !CsvRow(processor(p).value, def, processingMode, csvMode).Ok?
             || CsvRow(processor(p).value, def, processingMode, csvMode).value.None?
    ensures Rows(xs + [p] + ys, def, processingMode, csvMode, processor) == Rows(xs + ys, def, processingMode, csvMode, processor)
  {
    var xp := xs + [p];
    assert xs + [p] + ys == xp + ys;
    RowsAppend(xp, ys, def, processingMode, csvMode, processor);
    assert xp[..|xp| - 1] == xs;
    assert Rows(xp, def, processingMode, csvMode, processor) == Rows(xs, def, processingMode, csvMode, processor);
    RowsAppend(xs, ys, def, processingMode, csvMode, processor);
  }

  /** The output file's contents: header and rows. */
  datatype Table = Table(header: seq<string>, rows: seq<seq<Json>>)

  /** `cfg.get("csv_modes", {}).get(csv_mode)` when it is truthy. */
  predicate KnownCsvMode(cfg: Cfg, csvMode: string) {
    csvMode in CsvModes(cfg) && CsvModes(cfg)[csvMode].Some?
  }

  /** The files summarized: the `*.tif` and `*.tiff` matches, as sorted
      distinct resolved paths. `glob(pattern, recursive)` stands for the
      resolved results of `glob` or `rglob` under the input root. */
  function TiffFiles(glob: (string, bool) -> seq<string>, recursive: bool): (files: seq<string>)
    ensures StrictlySorted(files, PathLt)
    ensures forall p :: p in files <==> p in glob("*.tif", recursive) || p in glob("*.tiff", recursive)
  {
    PathLtIsStrictTotalOrder();
    SortedDistinct(glob("*.tif", recursive) + glob("*.tiff", recursive), PathLt)
  }

  /** `summarize_folder_to_csv`: an unknown or empty CSV mode is a
      `ValueError`; otherwise every file is tried in sorted order and a file
      that fails contributes no row while the loop goes on. */
  method SummarizeFolder(glob: (string, bool) -> seq<string>, processingMode: string, csvMode: string, cfg: Cfg,
                         processor: string -> Result<ModeResult>)
    returns (r: Result<Table>)
    ensures r.Err? <==> !KnownCsvMode(cfg, csvMode)
    ensures r.Err? ==> r.error.ValueError?
    ensures r.Ok? ==>
      var def := CsvModes(cfg)[csvMode].value;
      r.value == Table(Header(def), Rows(TiffFiles(glob, cfg.summarizeRecursive), def, processingMode, csvMode, processor))
  {
    var csvModes := if cfg.csvModes.Some? then cfg.csvModes.value else map[];
    if csvMode !in csvModes || csvModes[csvMode].None? {
      return Err(ValueError("Unknown csv_mode: " + csvMode));
    }
    var def := csvModes[csvMode].value;
    var files := TiffFiles(glob, cfg.summarizeRecursive);
    var header := seq(|def.columns|, i requires 0 <= i < |def.columns| => def.columns[i].name);
    var rows: seq<seq<Json>> := [];
    for i := 0 to |files|
      invariant rows == Rows(files[..i], def, processingMode, csvMode, processor)
    {
      var path := files[i];
      assert files[..i + 1][..i] == files[..i];
      var res := processor(path);
      if res.Err? {
        continue;
      }
      var row := BuildCsvRow(res.value, def, processingMode, csvMode);
      if row.Err? || row.value.None? {
        continue;
      }
      rows := rows + [row.value.value];
    }
    assert files[..|files|] == files;
    return Ok(Table(header, rows));
  }

  /** The summary does not depend on the order or repetition in which the
      globs report the files. */
  lemma SummaryIgnoresGlobOrder(glob1: (string, bool) -> seq<string>, glob2: (string, bool) -> seq<string>, recursive: bool)
    requires forall p :: p in glob1("*.tif", recursive) || p in glob1("*.tiff", recursive)
                     <==> p in glob2("*.tif", recursive) || p in glob2("*.tiff", recursive)
    ensures TiffFiles(glob1, recursive) == TiffFiles(glob2, recursive)
  {
    PathLtIsStrictTotalOrder();
    SortedUnique(TiffFiles(glob1, recursive), TiffFiles(glob2, recursive), PathLt);
  }
}
