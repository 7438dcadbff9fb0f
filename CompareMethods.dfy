/** The comparison of processing methods: summary CSV rows are parsed
    leniently, method summaries are discovered first-wins, a value grid is
    built from row/column indices, and the baseline and every method are
    merged per source file with deltas and ratios. */
module CompareMethods {
  import opened Common
  import opened Ordering
  import opened Strings

  // ----- _truncate -----

  /** `_truncate`: a label cut to `maxLen` characters, keeping its head and
      tail around `...` when there is room for them. */
  function Truncate(text: string, maxLen: int): (r: string)
    ensures maxLen <= 0 || |text| <= maxLen ==> r == text
    ensures maxLen > 0 && |text| > maxLen ==> |r| == maxLen
    ensures 0 < maxLen <= 3 && |text| > maxLen ==> r == text[..maxLen]
    ensures maxLen > 3 && |text| > maxLen ==>
      var head := (maxLen - 3) / 2;
      && r[..head] == text[..head]
      && r[head..head + 3] == "..."
      && r[head + 3..] == text[|text| - (maxLen - 3 - head)..]
  {
    if maxLen <= 0 || |text| <= maxLen then text
    else if maxLen <= 3 then text[..maxLen]
    else
      var head := (maxLen - 3) / 2;
      var tail := maxLen - 3 - head;
      text[..head] + "..." + text[|text| - tail..]
  }

  /** The kept head and tail differ by at most one character, the tail
      taking the odd one, and the tail is never empty. */
  lemma TruncateBalanced(maxLen: int)
    requires maxLen > 3
    ensures var head := (maxLen - 3) / 2; var tail := maxLen - 3 - head;
      head <= tail <= head + 1 && tail >= 1
  {
  }

  // ----- _to_float and _to_int -----

  /** `_to_float`: `None` for a missing, blank, unparsable or non-finite
      cell. `parseFloat` stands for Python's `float(s)`, `None` meaning that
      it raises. */
  function ToFloat(x: Option<string>, parseFloat: string -> Option<PyFloat>): (r: Option<real>)
    ensures r.Some? <==> x.Some? && Strip(x.value) != "" && parseFloat(Strip(x.value)).Some?
                         && parseFloat(Strip(x.value)).value.Finite?
    ensures r.Some? ==> parseFloat(Strip(x.value)) == Some(Finite(r.value))
  {
    if x.None? then None
    else
      var s := Strip(x.value);
      if s == "" then None
      else
        match parseFloat(s)
        case None => None
        case Some(v) => if v.Finite? then Some(v.x) else None
  }

  /** Python `int(v)` of a finite float: truncation toward zero. */
  function TruncateToInt(v: real): (n: int)
    ensures v >= 0.0 ==> n as real <= v < n as real + 1.0
    ensures v < 0.0 ==> n as real - 1.0 < v <= n as real
  {
    if v >= 0.0 then v.Floor else -((-v).Floor)
  }

  /** `_to_int`: `int(float(s))`; an infinity (`OverflowError`) or NaN
      (`ValueError`) is caught like a parse failure. */
  function ToInt(x: Option<string>, parseFloat: string -> Option<PyFloat>): (r: Option<int>)
    ensures r.Some? <==> x.Some? && Strip(x.value) != "" && parseFloat(Strip(x.value)).Some?
                         && parseFloat(Strip(x.value)).value.Finite?
  {
    if x.None? then None
    else
      var s := Strip(x.value);
      if s == "" then None
      else
        match parseFloat(s)
        case None => None
        case Some(v) => if v.Finite? then Some(TruncateToInt(v.x)) else None
  }

  /** A parsed int is the parsed float truncated toward zero. */
  lemma ToIntTruncates(x: Option<string>, parseFloat: string -> Option<PyFloat>)
    requires ToInt(x, parseFloat).Some?
    ensures var n := ToInt(x, parseFloat).value; var v := parseFloat(Strip(x.value)).value.x;
      && (v >= 0.0 ==> 0 <= n && n as real <= v < n as real + 1.0)
      && (v < 0.0 ==> n <= 0 && n as real - 1.0 < v <= n as real)
  {
  }

  // ----- load_summary_csv -----

  /** One row of a `csv.DictReader`: a cell missing from a short row reads as
      `None`. */
  type Record = map<string, Option<string>>

  /** `r.get(key)` */
  function Get(r: Record, key: string): Option<string> {
    if key in r then r[key] else None
  }

  /** `str(r.get(key) or "").strip()` */
  function TextField(r: Record, key: string): string {
    Strip(OrEmpty(Get(r, key)))
  }

  datatype SummaryRow = SummaryRow(
    sourceFile: string,
    rowIdx: Option<int>,
    colIdx: Option<int>,
    avgValue: Option<real>,
    stdValue: Option<real>,
    nValid: Option<int>,
    units: string,
    mode: string,
    metricType: string,
    nx: Option<int>,
    ny: Option<int>)

  /** The parsed row of a record with a non-blank `source_file`. */
  function ParseRow(r: Record, parseFloat: string -> Option<PyFloat>): SummaryRow {
    SummaryRow(
      TextField(r, "source_file"),
      ToInt(Get(r, "row_idx"), parseFloat),
      ToInt(Get(r, "col_idx"), parseFloat),
      ToFloat(Get(r, "avg_value"), parseFloat),
      ToFloat(Get(r, "std_value"), parseFloat),
      ToInt(Get(r, "n_valid"), parseFloat),
      TextField(r, "units"),
      TextField(r, "mode"),
      TextField(r, "metric_type"),
      ToInt(Get(r, "nx"), parseFloat),
      ToInt(Get(r, "ny"), parseFloat))
  }

  /** `ParseRow` with the float parser fixed. */
  function RowParser(parseFloat: string -> Option<PyFloat>): Record -> SummaryRow {
    r => ParseRow(r, parseFloat)
  }

  /** What one parsed record contributes: the row itself, or nothing when its
      stripped `source_file` is blank. */
  function RowIfNamed(row: SummaryRow): (rows: seq<SummaryRow>)
    ensures |rows| <= 1
    ensures |rows| == 1 <==> row.sourceFile != ""
    ensures |rows| == 1 ==> rows[0] == row
  {
    if row.sourceFile != "" then [row] else []
  }

  /** The rows `load_summary_csv` keeps, in file order. `parse` is
      `RowParser(parseFloat)`; the filtering reads only the parsed
      `sourceFile`, which is the stripped `source_file` cell. */
  function LoadedRows(records: seq<Record>, parse: Record -> SummaryRow): (rows: seq<SummaryRow>)
    decreases |records|
  {
    if records == [] then []
    else LoadedRows(records[..|records| - 1], parse) + RowIfNamed(parse(records[|records| - 1]))
  }

  /** Every loaded row is the parse of some record and has a non-blank source
      file, and there are no more rows than records. */
  lemma {:induction false} LoadedRowsNonBlank(records: seq<Record>, parse: Record -> SummaryRow)
    ensures var rows := LoadedRows(records, parse);
      |rows| <= |records|
      && forall i :: 0 <= i < |rows| ==> rows[i].sourceFile != "" && exists j :: 0 <= j < |records| && rows[i] == parse(records[j])
    decreases |records|
  {
    if records != [] {
      var n := |records| - 1;
      var init := records[..n];
      LoadedRowsNonBlank(init, parse);
      var rows := LoadedRows(records, parse);
      forall i | 0 <= i < |rows|
        ensures exists j :: 0 <= j < |records| && rows[i] == parse(records[j])
      {
        if i < |LoadedRows(init, parse)| {
          var j :| 0 <= j < |init| && LoadedRows(init, parse)[i] == parse(init[j]);
          assert rows[i] == parse(records[j]);
        } else {
          assert rows[i] == parse(records[n]);
        }
      }
    }
  }

  /** The body of `load_summary_csv`'s loop for one record: the row to append,
      if any. */
  method LoadRecord(r: Record, parseFloat: string -> Option<PyFloat>) returns (rows: seq<SummaryRow>)
    ensures rows == RowIfNamed(RowParser(parseFloat)(r))
  {
    assert RowParser(parseFloat)(r) == ParseRow(r, parseFloat);
    var sourceFile := TextField(r, "source_file");
    if sourceFile == "" {
      return [];
    }
    rows := [ParseRow(r, parseFloat)];
  }

  /** The loop of `load_summary_csv` for the `i`th record. */
  method LoadNext(rows0: seq<SummaryRow>, records: seq<Record>, i: nat, parseFloat: string -> Option<PyFloat>)
    returns (rows: seq<SummaryRow>)
    requires i < |records| && rows0 == LoadedRows(records[..i], RowParser(parseFloat))
    ensures rows == LoadedRows(records[..i + 1], RowParser(parseFloat))
  {
    LoadedRowsSnoc(records, i, RowParser(parseFloat));
    var kept := LoadRecord(records[i], parseFloat);
    rows := rows0 + kept;
  }

  /** `load_summary_csv` over the records the CSV reader yields. */
  method LoadSummaryRows(records: seq<Record>, parseFloat: string -> Option<PyFloat>) returns (rows: seq<SummaryRow>)
    ensures rows == LoadedRows(records, RowParser(parseFloat))
  {
    rows := [];
    var i := 0;
    while i < |records|
      invariant i <= |records|
      invariant rows == LoadedRows(records[..i], RowParser(parseFloat))
    {
      rows := LoadNext(rows, records, i, parseFloat);
      i := i + 1;
    }
    assert records[..i] == records;
  }

  lemma LoadedRowsSnoc(records: seq<Record>, i: nat, parse: Record -> SummaryRow)
    requires i < |records|
    ensures LoadedRows(records[..i + 1], parse) == LoadedRows(records[..i], parse) + RowIfNamed(parse(records[i]))
  {
    assert records[..i + 1][..i] == records[..i];
  }

  /** Loading is record by record: the rows of a concatenation are the
      concatenated rows. */
  lemma {:induction false} LoadedRowsAppend(xs: seq<Record>, ys: seq<Record>, parse: Record -> SummaryRow)
    ensures LoadedRows(xs + ys, parse) == LoadedRows(xs, parse) + LoadedRows(ys, parse)
    decreases |ys|
  {
    if ys == [] {
      assert xs + ys == xs;
    } else {
      var n := |ys| - 1;
      assert (xs + ys)[..|xs + ys| - 1] == xs + ys[..n];
      LoadedRowsAppend(xs, ys[..n], parse);
    }
  }

  /** A record whose stripped `source_file` is blank is dropped and nothing
      else changes; any other record yields exactly its parsed row. */
  lemma BlankSourceDropsOnlyThatRecord(xs: seq<Record>, r: Record, ys: seq<Record>, parse: Record -> SummaryRow)
    ensures parse(r).sourceFile == "" ==> LoadedRows(xs + [r] + ys, parse) == LoadedRows(xs + ys, parse)
    ensures parse(r).sourceFile != "" ==>
      LoadedRows(xs + [r] + ys, parse) == LoadedRows(xs, parse) + [parse(r)] + LoadedRows(ys, parse)
  {
    var xr := xs + [r];
    assert xs + [r] + ys == xr + ys;
    LoadedRowsAppend(xr, ys, parse);
    assert xr[..|xr| - 1] == xs;
    assert LoadedRows(xr, parse) == LoadedRows(xs, parse) + RowIfNamed(parse(r));
    LoadedRowsAppend(xs, ys, parse);
  }

  // ----- discover_method_summaries -----

  /** The path `p` is the first of `paths` whose method name is `name`.
      `methodOf(p)` stands for `p.parents[1].name`, `None` when that raises. */
  ghost predicate IsFirstFor(paths: seq<string>, methodOf: string -> Option<string>, name: string, j: int) {
    0 <= j < |paths| && methodOf(paths[j]) == Some(name)
    && forall k :: 0 <= k < j ==> methodOf(paths[k]) != Some(name)
  }

  /** The entry `(name, path)` records the first path with method name `name`. */
  ghost predicate RecordsFirst(paths: seq<string>, methodOf: string -> Option<string>, entry: (string, string)) {
    exists j :: IsFirstFor(paths, methodOf, entry.0, j) && paths[j] == entry.1
  }

  /** The names of a dictionary kept as its entries in insertion order. */
  function Names<V>(d: seq<(string, V)>): (ns: seq<string>)
    ensures |ns| == |d| && forall i :: 0 <= i < |d| ==> ns[i] == d[i].0
  {
    seq(|d|, i requires 0 <= i < |d| => d[i].0)
  }

  /** The `found` dictionary, as its entries in insertion order: a method's
      first summary is recorded and never overwritten. */
  function Discovered(paths: seq<string>, methodOf: string -> Option<string>): (found: seq<(string, string)>)
    ensures NoDuplicates(Names(found))
    decreases |paths|
  {
    if paths == [] then []
    else
      var prev := Discovered(paths[..|paths| - 1], methodOf);
      var p := paths[|paths| - 1];
      match methodOf(p)
      case None => prev
      case Some(name) => if name in Names(prev) then prev else prev + [(name, p)]
  }

  /** `discover_method_summaries` over the paths `rglob("summary.csv")`
      yields, in its order. */
  method DiscoverMethodSummaries(paths: seq<string>, methodOf: string -> Option<string>)
    returns (found: seq<(string, string)>)
    ensures found == Discovered(paths, methodOf)
  {
    found := [];
    for i := 0 to |paths|
      invariant found == Discovered(paths[..i], methodOf)
    {
      assert paths[..i + 1][..i] == paths[..i];
      var summary := paths[i];
      var methodName := methodOf(summary);
      if methodName.None? {
        continue;
      }
      if methodName.value !in Names(found) {
        found := found + [(methodName.value, summary)];
      }
    }
    assert paths[..|paths|] == paths;
  }

  /** One more path leaves the recorded entries in place and adds at most
      its own, when its method name is new. */
  lemma DiscoveredStep(paths: seq<string>, methodOf: string -> Option<string>)
    requires paths != []
    ensures var n := |paths| - 1;
      var prev := Discovered(paths[..n], methodOf);
      var found := Discovered(paths, methodOf);
      |prev| <= |found| <= |prev| + 1 && found[..|prev|] == prev
      && (|found| == |prev| + 1 ==>
            methodOf(paths[n]).Some? && methodOf(paths[n]).value !in Names(prev)
            && found[|prev|] == (methodOf(paths[n]).value, paths[n]))
      && (methodOf(paths[n]).Some? ==> methodOf(paths[n]).value in Names(found))
  {
    var n := |paths| - 1;
    var prev := Discovered(paths[..n], methodOf);
    var found := Discovered(paths, methodOf);
    if methodOf(paths[n]).Some? {
      var name := methodOf(paths[n]).value;
      if name in Names(prev) {
        assert found == prev;
      } else {
        assert found == prev + [(name, paths[n])];
        assert Names(found)[|prev|] == name;
      }
    }
  }

  /** Every recorded summary is the first path with its method name. */
  lemma {:induction false} DiscoveredRecordsFirst(paths: seq<string>, methodOf: string -> Option<string>)
    ensures forall i :: 0 <= i < |Discovered(paths, methodOf)| ==> RecordsFirst(paths, methodOf, Discovered(paths, methodOf)[i])
    decreases |paths|
  {
    if paths != [] {
      var n := |paths| - 1;
      var init := paths[..n];
      DiscoveredRecordsFirst(init, methodOf);
      DiscoveredStep(paths, methodOf);
      var prev := Discovered(init, methodOf);
      var found := Discovered(paths, methodOf);
      forall i | 0 <= i < |found|
        ensures RecordsFirst(paths, methodOf, found[i])
      {
        if i < |prev| {
          assert found[i] == found[..|prev|][i] == prev[i];
          var j :| IsFirstFor(init, methodOf, prev[i].0, j) && init[j] == prev[i].1;
          assert IsFirstFor(paths, methodOf, found[i].0, j);
        } else {
          var name := methodOf(paths[n]).value;
          forall k | 0 <= k < n ensures methodOf(paths[k]) != Some(name) {
            assert init[k] == paths[k];
            if methodOf(paths[k]) == Some(name) {
              DiscoveredHasAllNames(init, methodOf);
            }
          }
          assert IsFirstFor(paths, methodOf, found[i].0, n);
        }
      }
    }
  }

  /** Every path with a method name has that name recorded. */
  lemma {:induction false} DiscoveredHasAllNames(paths: seq<string>, methodOf: string -> Option<string>)
    ensures forall j :: 0 <= j < |paths| && methodOf(paths[j]).Some? ==>
      methodOf(paths[j]).value in Names(Discovered(paths, methodOf))
    decreases |paths|
  {
    if paths != [] {
      var n := |paths| - 1;
      var init := paths[..n];
      DiscoveredHasAllNames(init, methodOf);
      DiscoveredStep(paths, methodOf);
      var prev := Discovered(init, methodOf);
      var found := Discovered(paths, methodOf);
      forall j | 0 <= j < n && methodOf(paths[j]).Some?
        ensures methodOf(paths[j]).value in Names(found)
      {
        assert init[j] == paths[j];
        var k :| 0 <= k < |prev| && Names(prev)[k] == methodOf(paths[j]).value;
        assert found[k] == found[..|prev|][k] == prev[k];
        assert Names(found)[k] == methodOf(paths[j]).value;
      }
    }
  }

  // ----- build_grid -----

  /** The value a grid is built from: `getattr(r, value_field)`. */
  datatype ValueField = AvgValue | StdValue

  function ValueOf(r: SummaryRow, field: ValueField): Option<real> {
    match field
    case AvgValue => r.avgValue
    case StdValue => r.stdValue
  }

  predicate HasIndices(r: SummaryRow) {
    r.rowIdx.Some? && r.colIdx.Some?
  }

  /** `valid`: the rows with both indices. */
  function ValidRows(rows: seq<SummaryRow>): (valid: seq<SummaryRow>)
    ensures forall i :: 0 <= i < |valid| ==> HasIndices(valid[i])
    ensures forall r :: r in valid <==> r in rows && HasIndices(r)
    decreases |rows|
  {
    if rows == [] then []
    else
      var prev := ValidRows(rows[..|rows| - 1]);
      var r := rows[|rows| - 1];
      assert rows == rows[..|rows| - 1] + [r];
      if HasIndices(r) then prev + [r] else prev
  }

  /** A cell position `(row_idx, col_idx)`. */
  type Point = (int, int)

  function PointOf(r: SummaryRow): Point
    requires HasIndices(r)
  {
    (r.rowIdx.value, r.colIdx.value)
  }

  /** `max(int(r.row_idx) for r in valid)` */
  function MaxRow(valid: seq<SummaryRow>): (m: int)
    requires valid != [] && forall i :: 0 <= i < |valid| ==> valid[i].rowIdx.Some? && valid[i].colIdx.Some?
    ensures forall i :: 0 <= i < |valid| ==> valid[i].rowIdx.value <= m
    ensures exists i :: 0 <= i < |valid| && valid[i].rowIdx.value == m
    decreases |valid|
  {
    var last := valid[|valid| - 1].rowIdx.value;
    if |valid| == 1 then last
    else
      var prev := MaxRow(valid[..|valid| - 1]);
      if last > prev then last else prev
  }

  /** `max(int(r.col_idx) for r in valid)` */
  function MaxCol(valid: seq<SummaryRow>): (m: int)
    requires valid != [] && forall i :: 0 <= i < |valid| ==> valid[i].rowIdx.Some? && valid[i].colIdx.Some?
    ensures forall i :: 0 <= i < |valid| ==> valid[i].colIdx.value <= m
    ensures exists i :: 0 <= i < |valid| && valid[i].colIdx.value == m
    decreases |valid|
  {
    var last := valid[|valid| - 1].colIdx.value;
    if |valid| == 1 then last
    else
      var prev := MaxCol(valid[..|valid| - 1]);
      if last > prev then last else prev
  }

  /** The row contributes a value at `p`. */
  predicate ValueAt(r: SummaryRow, field: ValueField, p: Point) {
    HasIndices(r) && PointOf(r) == p && ValueOf(r, field).Some?
  }

  /** `acc[p]`: the values of the rows at `p`, in row order. */
  function ValuesAt(valid: seq<SummaryRow>, field: ValueField, p: Point): (vals: seq<real>)
    ensures |vals| <= |valid|
    decreases |valid|
  {
    if valid == [] then []
    else
      var prev := ValuesAt(valid[..|valid| - 1], field, p);
      var r := valid[|valid| - 1];
      if ValueAt(r, field, p) then prev + [ValueOf(r, field).value] else prev
  }

  /** The keys of `acc` in insertion order: each position at which some row
      has a value, at its first such row. */
  function AccOrder(valid: seq<SummaryRow>, field: ValueField): (ks: seq<Point>)
    ensures NoDuplicates(ks)
    ensures forall p :: p in ks <==> exists i :: 0 <= i < |valid| && ValueAt(valid[i], field, p)
    decreases |valid|
  {
    if valid == [] then []
    else
      var n := |valid| - 1;
      var prev := AccOrder(valid[..n], field);
      var r := valid[n];
      var ks := if !HasIndices(r) || ValueOf(r, field).None? || PointOf(r) in prev then prev else prev + [PointOf(r)];
      assert forall p :: p in ks <==> exists i :: 0 <= i < |valid| && ValueAt(valid[i], field, p) by {
        forall p ensures p in ks <==> exists i :: 0 <= i < |valid| && ValueAt(valid[i], field, p) {
          if p in ks && p in prev {
            var i :| 0 <= i < n && ValueAt(valid[..n][i], field, p);
            assert ValueAt(valid[i], field, p);
          }
          if exists i :: 0 <= i < |valid| && ValueAt(valid[i], field, p) {
            var i :| 0 <= i < |valid| && ValueAt(valid[i], field, p);
            if i < n {
              assert ValueAt(valid[..n][i], field, p);
            }
          }
        }
      }
      ks
  }

  /** `np.mean(vals)` over the reals. */
  function Mean(vals: seq<real>): real
    requires vals != []
  {
    Sum(vals) / (|vals| as real)
  }

  function Sum(vals: seq<real>): real
    decreases |vals|
  {
    if vals == [] then 0.0 else Sum(vals[..|vals| - 1]) + vals[|vals| - 1]
  }

  /** The numpy index `i` on an axis of size `n`: a negative index counts
      from the end. */
  predicate InBounds(i: int, n: int) {
    -n <= i < n
  }

  function Wrap(i: int, n: int): (k: nat)
    requires InBounds(i, n)
    ensures k < n
  {
    if i < 0 then i + n else i
  }

  /** A grid: `None` is NaN. */
  datatype Grid = Grid(cells: seq<seq<Option<real>>>, nrows: nat, ncols: nat)

  predicate Shaped(cells: seq<seq<Option<real>>>, nrows: nat, ncols: nat) {
    |cells| == nrows && forall i :: 0 <= i < nrows ==> |cells[i]| == ncols
  }

  /** `np.full((nrows, ncols), np.nan)` */
  function NaNGrid(nrows: nat, ncols: nat): (cells: seq<seq<Option<real>>>)
    ensures Shaped(cells, nrows, ncols)
    ensures forall i, j :: 0 <= i < nrows && 0 <= j < ncols ==> cells[i][j].None?
  {
    seq(nrows, _ => seq(ncols, _ => None))
  }

  predicate AllInBounds(ks: seq<Point>, nrows: int, ncols: int) {
    forall i :: 0 <= i < |ks| ==> InBounds(ks[i].0, nrows) && InBounds(ks[i].1, ncols)
  }

  /** What `build_grid` writes at `p`: the mean of the values recorded
      there, NaN when there are none. */
  function CellValue(valid: seq<SummaryRow>, field: ValueField, p: Point): Option<real> {
    var vals := ValuesAt(valid, field, p);
    if vals != [] then Some(Mean(vals)) else None
  }

  /** The grid after writing the mean of each key of `ks`, in order. */
  function Filled(ks: seq<Point>, valid: seq<SummaryRow>, field: ValueField, nrows: nat, ncols: nat): (cells: seq<seq<Option<real>>>)
    requires AllInBounds(ks, nrows, ncols)
    ensures Shaped(cells, nrows, ncols)
    decreases |ks|
  {
    if ks == [] then NaNGrid(nrows, ncols)
    else
      var n := |ks| - 1;
      var prev := Filled(ks[..n], valid, field, nrows, ncols);
      var p := ks[n];
      var i := Wrap(p.0, nrows);
      prev[i := prev[i][Wrap(p.1, ncols) := CellValue(valid, field, p)]]
  }

  const OutOfBounds := IndexError("index is out of bounds for the grid")
  const NegativeDimensions := ValueError("negative dimensions are not allowed")

  /** What `build_grid` returns: `(grid, max_r + 1, max_c + 1)`, or the
      exception numpy raises for a negative dimension or an index outside the
      grid. */
  function GridOf(rows: seq<SummaryRow>, field: ValueField): (r: Result<Grid>)
    ensures r.Ok? ==> Shaped(r.value.cells, r.value.nrows, r.value.ncols)
  {
    GridOfValid(ValidRows(rows), field)
  }

  /** `build_grid` after the filtering into `valid`. */
  function GridOfValid(valid: seq<SummaryRow>, field: ValueField): (r: Result<Grid>)
    requires forall i :: 0 <= i < |valid| ==> valid[i].rowIdx.Some? && valid[i].colIdx.Some?
    ensures valid == [] ==> r == Ok(Grid([], 0, 0))
    ensures r.Ok? ==> Shaped(r.value.cells, r.value.nrows, r.value.ncols)
  {
    if valid == [] then Ok(Grid([], 0, 0))
    else
      var nr := MaxRow(valid) + 1;
      var nc := MaxCol(valid) + 1;
      if nr < 0 || nc < 0 then Err(NegativeDimensions)
      else
        var ks := AccOrder(valid, field);
        if !AllInBounds(ks, nr, nc) then Err(OutOfBounds)
        else Ok(Grid(Filled(ks, valid, field, nr, nc), nr, nc))
  }

  lemma AccOrderSnoc(seen: seq<SummaryRow>, r: SummaryRow, field: ValueField)
    requires HasIndices(r)
    ensures AccOrder(seen + [r], field)
         == if ValueOf(r, field).None? || PointOf(r) in AccOrder(seen, field) then AccOrder(seen, field)
            else AccOrder(seen, field) + [PointOf(r)]
  {
    assert (seen + [r])[..|seen|] == seen;
  }

  lemma ValuesAtSnoc(seen: seq<SummaryRow>, r: SummaryRow, field: ValueField, p: Point)
    ensures ValuesAt(seen + [r], field, p)
         == if ValueAt(r, field, p) then ValuesAt(seen, field, p) + [ValueOf(r, field).value] else ValuesAt(seen, field, p)
  {
    assert (seen + [r])[..|seen|] == seen;
  }

  /** One step of `build_grid`'s first loop: `acc.setdefault(key, []).append(v)`
      for the row `r` that follows the rows `seen`. */
  method AccumulateRow(acc0: map<Point, seq<real>>, order0: seq<Point>, ghost seen: seq<SummaryRow>, r: SummaryRow, field: ValueField)
    returns (acc: map<Point, seq<real>>, order: seq<Point>)
    requires HasIndices(r)
    requires order0 == AccOrder(seen, field)
    requires forall p :: p in acc0 <==> p in order0
    requires forall p :: p in acc0 ==> acc0[p] == ValuesAt(seen, field, p) && acc0[p] != []
    ensures order == AccOrder(seen + [r], field)
    ensures forall p :: p in acc <==> p in order
    ensures forall p :: p in acc ==> acc[p] == ValuesAt(seen + [r], field, p) && acc[p] != []
  {
    AccOrderSnoc(seen, r, field);
    acc, order := acc0, order0;
    var v := ValueOf(r, field);
    if v.None? {
      forall p | p in acc ensures acc[p] == ValuesAt(seen + [r], field, p) {
        ValuesAtSnoc(seen, r, field, p);
      }
      return;
    }
    var key := PointOf(r);
    if key !in acc {
      acc := acc[key := []];
      order := order + [key];
      assert ValuesAt(seen, field, key) == [] by {
        if ValuesAt(seen, field, key) != [] {
          ValuesAtNonEmpty(seen, field, key);
        }
      }
    }
    acc := acc[key := acc[key] + [v.value]];
    forall p | p in acc ensures acc[p] == ValuesAt(seen + [r], field, p) {
      ValuesAtSnoc(seen, r, field, p);
    }
  }

  /** `build_grid`'s first loop: `acc` maps each position to its values in
      row order, and `order` is its keys in insertion order. */
  method Accumulate(valid: seq<SummaryRow>, field: ValueField) returns (acc: map<Point, seq<real>>, order: seq<Point>)
    requires forall i :: 0 <= i < |valid| ==> HasIndices(valid[i])
    ensures order == AccOrder(valid, field)
    ensures forall p :: p in acc <==> p in order
    ensures forall p :: p in acc ==> acc[p] == ValuesAt(valid, field, p) && acc[p] != []
  {
    acc, order := map[], [];
    for k := 0 to |valid|
      invariant order == AccOrder(valid[..k], field)
      invariant forall p :: p in acc <==> p in order
      invariant forall p :: p in acc ==> acc[p] == ValuesAt(valid[..k], field, p) && acc[p] != []
    {
      assert valid[..k + 1] == valid[..k] + [valid[k]];
      acc, order := AccumulateRow(acc, order, valid[..k], valid[k], field);
    }
    assert valid[..|valid|] == valid;
  }

  /** Writing the next key of `ks` after the first `k` is one cell update. */
  lemma FilledSnoc(ks: seq<Point>, k: nat, valid: seq<SummaryRow>, field: ValueField, nrows: nat, ncols: nat)
    requires k < |ks| && AllInBounds(ks[..k], nrows, ncols)
    requires InBounds(ks[k].0, nrows) && InBounds(ks[k].1, ncols)
    ensures AllInBounds(ks[..k + 1], nrows, ncols)
    ensures Filled(ks[..k + 1], valid, field, nrows, ncols)
      == (var prev := Filled(ks[..k], valid, field, nrows, ncols);
          var i := Wrap(ks[k].0, nrows);
          prev[i := prev[i][Wrap(ks[k].1, ncols) := CellValue(valid, field, ks[k])]])
  {
    assert ks[..k + 1][..k] == ks[..k];
    assert forall i :: 0 <= i < k ==> ks[..k + 1][i] == ks[..k][i];
  }

  /** `build_grid`'s second loop: each key's mean written into a NaN grid of
      `nrows` by `ncols`, or the `IndexError` numpy raises at the first key
      outside it. */
  method FillGrid(valid: seq<SummaryRow>, field: ValueField, acc: map<Point, seq<real>>, order: seq<Point>, nrows: nat, ncols: nat)
    returns (r: Result<seq<seq<Option<real>>>>)
    requires forall p :: p in order ==> p in acc && acc[p] == ValuesAt(valid, field, p) && acc[p] != []
    ensures r.Ok? <==> AllInBounds(order, nrows, ncols)
    ensures r.Ok? ==> r.value == Filled(order, valid, field, nrows, ncols)
    ensures r.Err? ==> r.error == OutOfBounds
  {
    var cells := NaNGrid(nrows, ncols);
    for k := 0 to |order|
      invariant AllInBounds(order[..k], nrows, ncols)
      invariant cells == Filled(order[..k], valid, field, nrows, ncols)
    {
      var key := order[k];
      if !(InBounds(key.0, nrows) && InBounds(key.1, ncols)) {
        assert !AllInBounds(order, nrows, ncols) by {
          assert order[k] == key;
        }
        return Err(OutOfBounds);
      }
      FilledSnoc(order, k, valid, field, nrows, ncols);
      var vals := acc[key];
      assert key in order;
      assert Some(Mean(vals)) == CellValue(valid, field, key);
      var i := if key.0 < 0 then key.0 + nrows else key.0;
      var j := if key.1 < 0 then key.1 + ncols else key.1;
      cells := cells[i := cells[i][j := Some(Mean(vals))]];
    }
    assert order[..|order|] == order;
    return Ok(cells);
  }

  /** `build_grid`: collect the values per position in `acc`, then write each
      position's mean into a NaN-filled grid. */
  method BuildGrid(rows: seq<SummaryRow>, field: ValueField) returns (r: Result<Grid>)
    ensures r == GridOf(rows, field)
  {
    var valid := ValidRows(rows);
    r := BuildGridOfValid(valid, field);
  }

  /** `build_grid` after the filtering into `valid`. */
  method BuildGridOfValid(valid: seq<SummaryRow>, field: ValueField) returns (r: Result<Grid>)
    requires forall i :: 0 <= i < |valid| ==> valid[i].rowIdx.Some? && valid[i].colIdx.Some?
    ensures r == GridOfValid(valid, field)
  {
    if valid == [] {
      return Ok(Grid([], 0, 0));
    }
    var nr := MaxRow(valid) + 1;
    var nc := MaxCol(valid) + 1;
    if nr < 0 || nc < 0 {
      return Err(NegativeDimensions);
    }
    var acc, order := Accumulate(valid, field);
    var filled := FillGrid(valid, field, acc, order, nr, nc);
    if filled.Err? {
      return Err(filled.error);
    }
    return Ok(Grid(filled.value, nr, nc));
  }

  /** A position has values exactly when some row has a value there. */
  lemma {:induction false} ValuesAtNonEmpty(valid: seq<SummaryRow>, field: ValueField, p: Point)
    ensures ValuesAt(valid, field, p) != [] <==> exists i :: 0 <= i < |valid| && ValueAt(valid[i], field, p)
    decreases |valid|
  {
    if valid != [] {
      var n := |valid| - 1;
      ValuesAtNonEmpty(valid[..n], field, p);
      if exists i :: 0 <= i < |valid| && ValueAt(valid[i], field, p) {
        var i :| 0 <= i < |valid| && ValueAt(valid[i], field, p);
        if i < n {
          assert ValueAt(valid[..n][i], field, p);
        }
      }
      if exists i :: 0 <= i < n && ValueAt(valid[..n][i], field, p) {
        var i :| 0 <= i < n && ValueAt(valid[..n][i], field, p);
        assert ValueAt(valid[i], field, p);
      }
    }
  }

  /** With non-negative positions, the cell at `(i, j)` holds the mean of the
      values recorded there if `(i, j)` is a key, and stays NaN otherwise. */
  lemma {:induction false} FilledAt(ks: seq<Point>, valid: seq<SummaryRow>, field: ValueField, nrows: nat, ncols: nat, i: nat, j: nat)
    requires forall k :: 0 <= k < |ks| ==> 0 <= ks[k].0 < nrows && 0 <= ks[k].1 < ncols
    requires i < nrows && j < ncols
    ensures AllInBounds(ks, nrows, ncols)
    ensures Filled(ks, valid, field, nrows, ncols)[i][j] == if (i, j) in ks then CellValue(valid, field, (i, j)) else None
    decreases |ks|
  {
    if ks != [] {
      var n := |ks| - 1;
      FilledAt(ks[..n], valid, field, nrows, ncols, i, j);
      assert ks == ks[..n] + [ks[n]];
      var prev := Filled(ks[..n], valid, field, nrows, ncols);
      var p := ks[n];
      assert Filled(ks, valid, field, nrows, ncols) == prev[p.0 := prev[p.0][p.1 := CellValue(valid, field, p)]];
      assert (i, j) in ks <==> (i, j) in ks[..n] || (i, j) == p;
    }
  }

  /** Every key of `acc` lies inside the grid when no index is negative. */
  lemma AccOrderInGrid(valid: seq<SummaryRow>, field: ValueField)
    requires valid != [] && forall i :: 0 <= i < |valid| ==> valid[i].rowIdx.Some? && valid[i].colIdx.Some?
    requires forall i :: 0 <= i < |valid| ==> valid[i].rowIdx.value >= 0 && valid[i].colIdx.value >= 0
    ensures forall k :: 0 <= k < |AccOrder(valid, field)| ==>
      0 <= AccOrder(valid, field)[k].0 < MaxRow(valid) + 1 && 0 <= AccOrder(valid, field)[k].1 < MaxCol(valid) + 1
  {
    var ks := AccOrder(valid, field);
    forall k | 0 <= k < |ks| ensures 0 <= ks[k].0 < MaxRow(valid) + 1 && 0 <= ks[k].1 < MaxCol(valid) + 1 {
      assert ks[k] in ks;
      var m :| 0 <= m < |valid| && ValueAt(valid[m], field, ks[k]);
    }
  }

  /** Writing every key of `acc` leaves each cell at its mean, or NaN where no
      row has a value. */
  lemma FilledMeans(valid: seq<SummaryRow>, field: ValueField, nrows: nat, ncols: nat)
    requires nrows > 0 && ncols > 0
    requires forall k :: 0 <= k < |AccOrder(valid, field)| ==>
      0 <= AccOrder(valid, field)[k].0 < nrows && 0 <= AccOrder(valid, field)[k].1 < ncols
    ensures AllInBounds(AccOrder(valid, field), nrows, ncols)
    ensures forall i, j :: 0 <= i < nrows && 0 <= j < ncols ==>
      Filled(AccOrder(valid, field), valid, field, nrows, ncols)[i][j] == CellValue(valid, field, (i, j))
  {
    var ks := AccOrder(valid, field);
    FilledAt(ks, valid, field, nrows, ncols, 0, 0);
    forall i, j | 0 <= i < nrows && 0 <= j < ncols
      ensures Filled(ks, valid, field, nrows, ncols)[i][j] == CellValue(valid, field, (i, j))
    {
      FilledAt(ks, valid, field, nrows, ncols, i, j);
      ValuesAtNonEmpty(valid, field, (i, j));
    }
  }

  /** Every cell of `g` holds `CellValue` of its position. */
  predicate HoldsMeans(g: Grid, valid: seq<SummaryRow>, field: ValueField) {
    Shaped(g.cells, g.nrows, g.ncols)
    && forall i, j :: 0 <= i < g.nrows && 0 <= j < g.ncols ==> g.cells[i][j] == CellValue(valid, field, (i, j))
  }

  /** The valid rows of rows whose indices are never negative have
      non-negative indices. */
  lemma ValidNonNegative(rows: seq<SummaryRow>)
    requires forall r :: r in rows && HasIndices(r) ==> r.rowIdx.value >= 0 && r.colIdx.value >= 0
    ensures var valid := ValidRows(rows);
      forall i :: 0 <= i < |valid| ==> valid[i].rowIdx.value >= 0 && valid[i].colIdx.value >= 0
  {
    var valid := ValidRows(rows);
    forall i | 0 <= i < |valid| ensures valid[i].rowIdx.value >= 0 && valid[i].colIdx.value >= 0 {
      assert valid[i] in valid;
    }
  }

  /** With non-negative indices the grid has a non-negative size and no key
      of `acc` falls outside it. */
  lemma NonNegativeInBounds(valid: seq<SummaryRow>, field: ValueField, nr: int, nc: int)
    requires valid != [] && forall i :: 0 <= i < |valid| ==> valid[i].rowIdx.Some? && valid[i].colIdx.Some?
    requires forall i :: 0 <= i < |valid| ==> valid[i].rowIdx.value >= 0 && valid[i].colIdx.value >= 0
    requires nr == MaxRow(valid) + 1 && nc == MaxCol(valid) + 1
    ensures nr >= 1 && nc >= 1
    ensures AllInBounds(AccOrder(valid, field), nr, nc)
  {
    AccOrderInGrid(valid, field);
    assert valid[0].rowIdx.value <= MaxRow(valid) && valid[0].colIdx.value <= MaxCol(valid);
  }

  /** With a non-negative size and every key inside, `build_grid` returns the
      filled grid. */
  lemma GridOfInBounds(valid: seq<SummaryRow>, field: ValueField, nr: int, nc: int)
    requires valid != [] && forall i :: 0 <= i < |valid| ==> valid[i].rowIdx.Some? && valid[i].colIdx.Some?
    requires nr == MaxRow(valid) + 1 && nc == MaxCol(valid) + 1
    requires nr >= 0 && nc >= 0
    requires AllInBounds(AccOrder(valid, field), nr, nc)
    ensures GridOfValid(valid, field) == Ok(Grid(Filled(AccOrder(valid, field), valid, field, nr, nc), nr, nc))
  {
  }

  /** When no row has both indices, `build_grid` returns the empty 0 by 0
      grid. */
  lemma NoIndexedRowsEmptyGrid(rows: seq<SummaryRow>, field: ValueField)
    requires forall i :: 0 <= i < |rows| ==> rows[i].rowIdx.None? || rows[i].colIdx.None?
    ensures GridOf(rows, field) == Ok(Grid([], 0, 0))
  {
    NoIndexedRowsNoValid(rows);
  }

  lemma {:induction false} NoIndexedRowsNoValid(rows: seq<SummaryRow>)
    requires forall i :: 0 <= i < |rows| ==> rows[i].rowIdx.None? || rows[i].colIdx.None?
    ensures ValidRows(rows) == []
    decreases |rows|
  {
    if rows != [] {
      NoIndexedRowsNoValid(rows[..|rows| - 1]);
    }
  }

  /** `r` is the grid of `max row + 1` by `max col + 1` cells of `valid`, each
      holding `CellValue` of its position. */
  predicate MeansGrid(r: Result<Grid>, valid: seq<SummaryRow>, field: ValueField)
    requires valid != [] && forall i :: 0 <= i < |valid| ==> valid[i].rowIdx.Some? && valid[i].colIdx.Some?
  {
    && r.Ok?
    && r.value.nrows == MaxRow(valid) + 1 && r.value.ncols == MaxCol(valid) + 1
    && HoldsMeans(r.value, valid, field)
  }

  /** The grid of rows with non-negative indices, after the filtering. */
  lemma GridOfValidMeaning(valid: seq<SummaryRow>, field: ValueField)
    requires valid != [] && forall i :: 0 <= i < |valid| ==> valid[i].rowIdx.Some? && valid[i].colIdx.Some?
    requires forall i :: 0 <= i < |valid| ==> valid[i].rowIdx.value >= 0 && valid[i].colIdx.value >= 0
    ensures MeansGrid(GridOfValid(valid, field), valid, field)
  {
    var nr, nc := MaxRow(valid) + 1, MaxCol(valid) + 1;
    NonNegativeInBounds(valid, field, nr, nc);
    GridOfInBounds(valid, field, nr, nc);
    AccOrderInGrid(valid, field);
    FilledMeans(valid, field, nr, nc);
  }

  /** `build_grid` with non-negative indices: the grid is `max row + 1` by
      `max col + 1`, a cell holds the mean of the values of the rows at that
      position, and a cell no row has a value for stays NaN. */
  lemma GridMeaning(rows: seq<SummaryRow>, field: ValueField)
    requires forall r :: r in rows && HasIndices(r) ==> r.rowIdx.value >= 0 && r.colIdx.value >= 0
    requires ValidRows(rows) != []
    ensures MeansGrid(GridOf(rows, field), ValidRows(rows), field)
  {
    ValidNonNegative(rows);
    GridOfValidMeaning(ValidRows(rows), field);
  }

  // ----- the merge in main -----

  /** `{r.source_file: r for r in rows}`: the last row of a source file wins. */
  function ByKey(rows: seq<SummaryRow>): map<string, SummaryRow> {
    MapOfEntries(seq(|rows|, i requires 0 <= i < |rows| => (rows[i].sourceFile, rows[i])))
  }

  /** Every source file of the rows is a key, holding its last row. */
  lemma ByKeyLastWins(rows: seq<SummaryRow>, k: nat)
    requires k < |rows| && forall j :: k < j < |rows| ==> rows[j].sourceFile != rows[k].sourceFile
    ensures rows[k].sourceFile in ByKey(rows) && ByKey(rows)[rows[k].sourceFile] == rows[k]
  {
    MapOfEntriesLastWins(seq(|rows|, i requires 0 <= i < |rows| => (rows[i].sourceFile, rows[i])), k);
  }

  /** The source files of `rows`, in row order. */
  function Sources(rows: seq<SummaryRow>): (ss: seq<string>)
    ensures forall s :: s in ss <==> exists i :: 0 <= i < |rows| && rows[i].sourceFile == s
  {
    var ss := seq(|rows|, i requires 0 <= i < |rows| => rows[i].sourceFile);
    assert forall i :: 0 <= i < |rows| ==> ss[i] == rows[i].sourceFile;
    ss
  }

  /** The source files of every method's rows, method by method. */
  function AllSources(methodRows: seq<seq<SummaryRow>>): (ss: seq<string>)
    ensures forall s :: s in ss <==>
      exists m, i :: 0 <= m < |methodRows| && 0 <= i < |methodRows[m]| && methodRows[m][i].sourceFile == s
    decreases |methodRows|
  {
    if methodRows == [] then []
    else
      var n := |methodRows| - 1;
      var prev := AllSources(methodRows[..n]);
      var ss := prev + Sources(methodRows[n]);
      assert forall s :: s in ss <==>
        exists m, i :: 0 <= m < |methodRows| && 0 <= i < |methodRows[m]| && methodRows[m][i].sourceFile == s
      by {
        forall s ensures s in ss <==>
          exists m, i :: 0 <= m < |methodRows| && 0 <= i < |methodRows[m]| && methodRows[m][i].sourceFile == s
        {
          if s in prev {
            var m, i :| 0 <= m < n && 0 <= i < |methodRows[..n][m]| && methodRows[..n][m][i].sourceFile == s;
            assert methodRows[m][i].sourceFile == s;
          }
          if exists m, i :: 0 <= m < |methodRows| && 0 <= i < |methodRows[m]| && methodRows[m][i].sourceFile == s {
            var m, i :| 0 <= m < |methodRows| && 0 <= i < |methodRows[m]| && methodRows[m][i].sourceFile == s;
            if m < n {
              assert methodRows[..n][m][i].sourceFile == s;
            }
          }
        }
      }
      ss
  }

  /** `keys`: the sorted, duplicate-free union of the baseline's and the
      methods' source files. */
  function MergeKeys(baselineRows: seq<SummaryRow>, methodRows: seq<seq<SummaryRow>>): (keys: seq<string>)
    ensures StrictlySorted(keys, StrLt)
    ensures forall s :: s in keys <==>
      (exists i :: 0 <= i < |baselineRows| && baselineRows[i].sourceFile == s)
      || (exists m, i :: 0 <= m < |methodRows| && 0 <= i < |methodRows[m]| && methodRows[m][i].sourceFile == s)
  {
    StrLtIsStrictTotalOrder();
    SortedDistinct(Sources(baselineRows) + AllSources(methodRows), StrLt)
  }

  /** A CSV cell: `""`, a float, an int or text. */
  datatype Cell = Blank | Num(x: real) | Int(n: int) | Text(s: string)

  /** `v if v is not None else ""` */
  function OptNum(v: Option<real>): Cell {
    if v.Some? then Num(v.value) else Blank
  }

  function OptInt(v: Option<int>): Cell {
    if v.Some? then Int(v.value) else Blank
  }

  /** The delta and ratio of a float field: both blank unless both sides
      exist, the ratio also blank on a zero baseline. */
  function FloatDelta(b: Option<real>, m: Option<real>): (dr: (Cell, Cell))
    ensures dr.0 != Blank <==> b.Some? && m.Some?
    ensures dr.0 != Blank ==> dr.0 == Num(m.value - b.value)
    ensures dr.1 != Blank <==> b.Some? && m.Some? && b.value != 0.0
    ensures dr.1 != Blank ==> dr.1.Num? && dr.1.x * b.value == m.value
  {
    if b.Some? && m.Some? then
      (Num(m.value - b.value), if b.value != 0.0 then Num(m.value / b.value) else Blank)
    else (Blank, Blank)
  }

  /** The delta (an int) and ratio (a float) of `n_valid`. */
  function IntDelta(b: Option<int>, m: Option<int>): (dr: (Cell, Cell))
    ensures dr.0 != Blank <==> b.Some? && m.Some?
    ensures dr.0 != Blank ==> dr.0 == Int(m.value - b.value)
    ensures dr.1 != Blank <==> b.Some? && m.Some? && b.value != 0
    ensures dr.1 != Blank ==> dr.1.Num? && dr.1.x * (b.value as real) == m.value as real
  {
    if b.Some? && m.Some? then
      (Int(m.value - b.value), if b.value != 0 then Num(m.value as real / b.value as real) else Blank)
    else (Blank, Blank)
  }

  function Lookup(d: map<string, SummaryRow>, k: string): Option<SummaryRow> {
    if k in d then Some(d[k]) else None
  }

  function AvgOf(r: Option<SummaryRow>): Option<real> {
    if r.Some? then r.value.avgValue else None
  }

  function StdOf(r: Option<SummaryRow>): Option<real> {
    if r.Some? then r.value.stdValue else None
  }

  function NValidOf(r: Option<SummaryRow>): Option<int> {
    if r.Some? then r.value.nValid else None
  }

  /** The name the baseline's column gives the baseline method. */
  const BaselineMethodName := "gwyddion_only"

  // The column names of the wide table; a method's own columns are a prefix
  // followed by the method name.
  const ColAvg := "avg__"
  const ColAvgBaseline := "avg__baseline"
  const ColBaselineMethod := "baseline_method"
  const ColColIdx := "col_idx"
  const ColDeltaAvg := "delta_avg__"
  const ColDeltaNValid := "delta_n_valid__"
  const ColDeltaStd := "delta_std__"
  const ColNValid := "n_valid__"
  const ColNValidBaseline := "n_valid__baseline"
  const ColRatioAvg := "ratio_avg__"
  const ColRatioNValid := "ratio_n_valid__"
  const ColRatioStd := "ratio_std__"
  const ColRowIdx := "row_idx"
  const ColSourceFile := "source_file"
  const ColStd := "std__"
  const ColStdBaseline := "std__baseline"
  const ColUnits := "units__"
  const ColUnitsBaseline := "units__baseline"

  /** The first entries written into a wide row: the baseline's columns. */
  function BaselineEntries(k: string, b: Option<SummaryRow>): (es: seq<(string, Cell)>)
    ensures |es| == 8 && es[0] == (ColSourceFile, Text(k))
  {
    [ (ColSourceFile, Text(k)),
      (ColRowIdx, if b.Some? then OptInt(b.value.rowIdx) else Blank),
      (ColColIdx, if b.Some? then OptInt(b.value.colIdx) else Blank),
      (ColBaselineMethod, Text(BaselineMethodName)),
      (ColAvgBaseline, OptNum(AvgOf(b))),
      (ColStdBaseline, OptNum(StdOf(b))),
      (ColNValidBaseline, OptInt(NValidOf(b))),
      (ColUnitsBaseline, Text(if b.Some? then b.value.units else "")) ]
  }

  /** The entries one method writes into a wide row, in order. */
  function MethodEntries(mn: string, b: Option<SummaryRow>, m: Option<SummaryRow>): (es: seq<(string, Cell)>)
    ensures |es| == 10
    ensures es[4] == (ColDeltaAvg + mn, FloatDelta(AvgOf(b), AvgOf(m)).0)
    ensures es[5] == (ColRatioAvg + mn, FloatDelta(AvgOf(b), AvgOf(m)).1)
    ensures es[6] == (ColDeltaStd + mn, FloatDelta(StdOf(b), StdOf(m)).0)
    ensures es[7] == (ColRatioStd + mn, FloatDelta(StdOf(b), StdOf(m)).1)
    ensures es[8] == (ColDeltaNValid + mn, IntDelta(NValidOf(b), NValidOf(m)).0)
    ensures es[9] == (ColRatioNValid + mn, IntDelta(NValidOf(b), NValidOf(m)).1)
  {
    var avg := FloatDelta(AvgOf(b), AvgOf(m));
    var std := FloatDelta(StdOf(b), StdOf(m));
    var nv := IntDelta(NValidOf(b), NValidOf(m));
    [ (ColAvg + mn, OptNum(AvgOf(m))),
      (ColStd + mn, OptNum(StdOf(m))),
      (ColNValid + mn, OptInt(NValidOf(m))),
      (ColUnits + mn, Text(if m.Some? then m.value.units else "")),
      (ColDeltaAvg + mn, avg.0),
      (ColRatioAvg + mn, avg.1),
      (ColDeltaStd + mn, std.0),
      (ColRatioStd + mn, std.1),
      (ColDeltaNValid + mn, nv.0),
      (ColRatioNValid + mn, nv.1) ]
  }

  /** The per-method dictionaries `method_by_key`, in `method_names` order. */
  type MethodTables = seq<(string, map<string, SummaryRow>)>

  /** All entries written into the wide row of `k`, in order. */
  function WideEntries(k: string, baseline: map<string, SummaryRow>, methods: MethodTables): (es: seq<(string, Cell)>)
    ensures |es| == 8 + 10 * |methods|
    decreases |methods|
  {
    if methods == [] then BaselineEntries(k, Lookup(baseline, k))
    else
      var n := |methods| - 1;
      WideEntries(k, baseline, methods[..n])
        + MethodEntries(methods[n].0, Lookup(baseline, k), Lookup(methods[n].1, k))
  }

  /** One row of `comparison_long.csv`, as the dictionary's items in order.
      Its deltas are written out inline, apart from the wide row's. */
  function LongEntries(k: string, mn: string, b: Option<SummaryRow>, m: Option<SummaryRow>): (es: seq<(string, Cell)>)
    ensures |es| == 12 && es[0] == ("source_file", Text(k)) && es[1] == ("method", Text(mn))
  {
    [ ("source_file", Text(k)),
      ("method", Text(mn)),
      ("avg_value", OptNum(AvgOf(m))),
      ("std_value", OptNum(StdOf(m))),
      ("n_valid", OptInt(NValidOf(m))),
      ("units", Text(if m.Some? then m.value.units else "")),
      ("avg_baseline", OptNum(AvgOf(b))),
      ("std_baseline", OptNum(StdOf(b))),
      ("n_valid_baseline", OptInt(NValidOf(b))),
      ("delta_avg", if AvgOf(b).Some? && AvgOf(m).Some? then Num(AvgOf(m).value - AvgOf(b).value) else Blank),
      ("delta_std", if StdOf(b).Some? && StdOf(m).Some? then Num(StdOf(m).value - StdOf(b).value) else Blank),
      ("delta_n_valid", if NValidOf(b).Some? && NValidOf(m).Some? then Int(NValidOf(m).value - NValidOf(b).value) else Blank) ]
  }

  /** The long row's deltas agree with the wide row's columns for the same
      key and method. */
  lemma LongDeltasMatchWide(k: string, mn: string, b: Option<SummaryRow>, m: Option<SummaryRow>)
    ensures LongEntries(k, mn, b, m)[9].1 == MethodEntries(mn, b, m)[4].1
    ensures LongEntries(k, mn, b, m)[10].1 == MethodEntries(mn, b, m)[6].1
    ensures LongEntries(k, mn, b, m)[11].1 == MethodEntries(mn, b, m)[8].1
  {
  }

  /** The long rows of `k`, one per method in order. */
  function LongRowsOf(k: string, baseline: map<string, SummaryRow>, methods: MethodTables): (rows: seq<seq<(string, Cell)>>)
    ensures |rows| == |methods|
    decreases |methods|
  {
    if methods == [] then []
    else
      var n := |methods| - 1;
      LongRowsOf(k, baseline, methods[..n]) + [LongEntries(k, methods[n].0, Lookup(baseline, k), Lookup(methods[n].1, k))]
  }

  /** The `j`th long row of `k` is that of the `j`th method. */
  lemma {:induction false} LongRowsOfAt(k: string, baseline: map<string, SummaryRow>, methods: MethodTables, j: nat)
    requires j < |methods|
    ensures LongRowsOf(k, baseline, methods)[j] == LongEntries(k, methods[j].0, Lookup(baseline, k), Lookup(methods[j].1, k))
    decreases |methods|
  {
    var n := |methods| - 1;
    if j < n {
      LongRowsOfAt(k, baseline, methods[..n], j);
    }
  }

  /** The long rows of all keys, key by key. */
  function LongRows(keys: seq<string>, baseline: map<string, SummaryRow>, methods: MethodTables): (rows: seq<seq<(string, Cell)>>)
    ensures |rows| == |keys| * |methods|
    decreases |keys|
  {
    if keys == [] then []
    else LongRows(keys[..|keys| - 1], baseline, methods) + LongRowsOf(keys[|keys| - 1], baseline, methods)
  }

  /** The wide rows of all keys, in key order. */
  function WideRows(keys: seq<string>, baseline: map<string, SummaryRow>, methods: MethodTables): (rows: seq<map<string, Cell>>)
    ensures |rows| == |keys|
    decreases |keys|
  {
    if keys == [] then []
    else WideRows(keys[..|keys| - 1], baseline, methods) + [MapOfEntries(WideEntries(keys[|keys| - 1], baseline, methods))]
  }

  /** The `i`th wide row is the dictionary of the `i`th key's entries. */
  lemma {:induction false} WideRowsAt(keys: seq<string>, baseline: map<string, SummaryRow>, methods: MethodTables, i: nat)
    requires i < |keys|
    ensures WideRows(keys, baseline, methods)[i] == MapOfEntries(WideEntries(keys[i], baseline, methods))
    decreases |keys|
  {
    var n := |keys| - 1;
    if i < n {
      WideRowsAt(keys[..n], baseline, methods, i);
    }
  }

  /** The keys a method writes differ from `"source_file"`. */
  lemma MethodKeysNotSourceFile(mn: string, b: Option<SummaryRow>, m: Option<SummaryRow>)
    ensures forall j :: 0 <= j < 10 ==> MethodEntries(mn, b, m)[j].0 != "source_file"
  {
    var es := MethodEntries(mn, b, m);
    forall j | 0 <= j < 10 ensures es[j].0 != "source_file" {
      var key := es[j].0;
      assert |key| >= 2;
      assert key[0] != 's' || key[1] != 'o';
    }
  }

  /** No entry after the first of a wide row is `"source_file"`. */
  lemma {:induction false} WideKeysAfterFirst(k: string, baseline: map<string, SummaryRow>, methods: MethodTables)
    ensures forall j :: 0 < j < |WideEntries(k, baseline, methods)| ==> WideEntries(k, baseline, methods)[j].0 != "source_file"
    decreases |methods|
  {
    if methods != [] {
      var n := |methods| - 1;
      WideKeysAfterFirst(k, baseline, methods[..n]);
      MethodKeysNotSourceFile(methods[n].0, Lookup(baseline, k), Lookup(methods[n].1, k));
    } else {
      var es := BaselineEntries(k, Lookup(baseline, k));
      forall j | 0 < j < 8 ensures es[j].0 != "source_file" {
        assert es[j].0[0] != 's' || es[j].0[1] != 'o' || |es[j].0| != 11;
      }
    }
  }

  /** The first entry of a wide row is its key. */
  lemma {:induction false} WideEntriesFirst(k: string, baseline: map<string, SummaryRow>, methods: MethodTables)
    ensures WideEntries(k, baseline, methods)[0] == ("source_file", Text(k))
    decreases |methods|
  {
    if methods != [] {
      WideEntriesFirst(k, baseline, methods[..|methods| - 1]);
    }
  }

  /** A wide row's `source_file` is its key: no method's column overwrites it. */
  lemma WideRowSourceFile(k: string, baseline: map<string, SummaryRow>, methods: MethodTables)
    ensures "source_file" in MapOfEntries(WideEntries(k, baseline, methods))
    ensures MapOfEntries(WideEntries(k, baseline, methods))["source_file"] == Text(k)
  {
    WideKeysAfterFirst(k, baseline, methods);
    WideEntriesFirst(k, baseline, methods);
    MapOfEntriesLastWins(WideEntries(k, baseline, methods), 0);
  }

  /** The entries of one more method follow those of the methods before it. */
  lemma WideEntriesSnoc(k: string, baseline: map<string, SummaryRow>, methods: MethodTables, j: nat)
    requires j < |methods|
    ensures WideEntries(k, baseline, methods[..j + 1])
         == WideEntries(k, baseline, methods[..j]) + MethodEntries(methods[j].0, Lookup(baseline, k), Lookup(methods[j].1, k))
  {
    assert methods[..j + 1][..j] == methods[..j];
  }

  lemma LongRowsSnoc(k: string, baseline: map<string, SummaryRow>, methods: MethodTables, j: nat)
    requires j < |methods|
    ensures LongRowsOf(k, baseline, methods[..j + 1])
         == LongRowsOf(k, baseline, methods[..j]) + [LongEntries(k, methods[j].0, Lookup(baseline, k), Lookup(methods[j].1, k))]
  {
    assert methods[..j + 1][..j] == methods[..j];
  }

  /** One method's columns of the wide row of `k`, and its long row. */
  method MethodColumns(out0: map<string, Cell>, ghost done: seq<(string, Cell)>, k: string, b: Option<SummaryRow>,
                       mn: string, byKey: map<string, SummaryRow>)
    returns (out: map<string, Cell>, longRow: seq<(string, Cell)>)
    requires out0 == MapOfEntries(done)
    ensures out == MapOfEntries(done + MethodEntries(mn, b, Lookup(byKey, k)))
    ensures longRow == LongEntries(k, mn, b, Lookup(byKey, k))
  {
    var mr := Lookup(byKey, k);
    out := PutEntries(out0, done, MethodEntries(mn, b, mr));
    longRow := LongEntries(k, mn, b, mr);
  }

  /** The wide row of one key: its entries written in order into a
      dictionary; and its long rows. */
  method WideRow(k: string, baseline: map<string, SummaryRow>, methods: MethodTables)
    returns (out: map<string, Cell>, long: seq<seq<(string, Cell)>>)
    ensures out == MapOfEntries(WideEntries(k, baseline, methods))
    ensures long == LongRowsOf(k, baseline, methods)
  {
    var b := Lookup(baseline, k);
    var base := BaselineEntries(k, b);
    out := PutEntries(map[], [], base);
    assert [] + base == base;
    long := [];
    for j := 0 to |methods|
      invariant out == MapOfEntries(WideEntries(k, baseline, methods[..j]))
      invariant long == LongRowsOf(k, baseline, methods[..j])
    {
      WideEntriesSnoc(k, baseline, methods, j);
      LongRowsSnoc(k, baseline, methods, j);
      var longRow;
      out, longRow := MethodColumns(out, WideEntries(k, baseline, methods[..j]), k, b, methods[j].0, methods[j].1);
      long := long + [longRow];
    }
    assert methods[..|methods|] == methods;
  }

  /** Entries written one by one into a dictionary built from `done`. */
  method PutEntries(d0: map<string, Cell>, ghost done: seq<(string, Cell)>, es: seq<(string, Cell)>)
    returns (d: map<string, Cell>)
    requires d0 == MapOfEntries(done)
    ensures d == MapOfEntries(done + es)
  {
    d := d0;
    assert done + es[..0] == done;
    for i := 0 to |es|
      invariant d == MapOfEntries(done + es[..i])
    {
      MapOfEntriesStep(done, es, i);
      d := d[es[i].0 := es[i].1];
    }
    assert es[..|es|] == es;
  }

  /** The comparison tables: one wide row per merged key, and one long row
      per key and method. */
  datatype Comparison = Comparison(fields: seq<string>, wide: seq<map<string, Cell>>, long: seq<seq<(string, Cell)>>)

  /** The wide table's columns: the baseline block, then ten columns per
      method. */
  function WideFields(names: seq<string>): (fields: seq<string>)
    ensures |fields| == 8 + 10 * |names|
    ensures fields[..8] == ["source_file", "row_idx", "col_idx", "baseline_method",
                            "avg__baseline", "std__baseline", "n_valid__baseline", "units__baseline"]
    decreases |names|
  {
    if names == [] then
      ["source_file", "row_idx", "col_idx", "baseline_method",
       "avg__baseline", "std__baseline", "n_valid__baseline", "units__baseline"]
    else
      var mn := names[|names| - 1];
      var prev := WideFields(names[..|names| - 1]);
      var fields := prev + ["avg__" + mn, "std__" + mn, "n_valid__" + mn, "units__" + mn,
                            "delta_avg__" + mn, "ratio_avg__" + mn, "delta_std__" + mn, "ratio_std__" + mn,
                            "delta_n_valid__" + mn, "ratio_n_valid__" + mn];
      assert fields[..8] == prev[..8];
      fields
  }

  /** The sorted method names, each with its `method_by_key` table. */
  function MethodTablesOf(names: seq<string>, found: seq<(string, string)>, load: string -> seq<SummaryRow>): (ts: MethodTables)
    requires forall i :: 0 <= i < |names| ==> names[i] in Names(found)
    ensures |ts| == |names| && forall i :: 0 <= i < |names| ==> ts[i].0 == names[i]
  {
    seq(|names|, i requires 0 <= i < |names| => (names[i], ByKey(load(PathOf(found, names[i])))))
  }

  /** `methods[name]` */
  function PathOf(found: seq<(string, string)>, name: string): string
    requires name in Names(found)
  {
    var i := FirstIndex(Names(found), name);
    found[i].1
  }

  function SortedNames(found: seq<(string, string)>): (names: seq<string>)
    ensures StrictlySorted(names, StrLt)
    ensures forall n :: n in names <==> n in Names(found)
  {
    StrLtIsStrictTotalOrder();
    SortedDistinct(Names(found), StrLt)
  }

  /** The start of the exit message when no method summary was discovered;
      the methods root follows it. */
  const NoSummaries := "No summary.csv files found under "

  /** The tables `main` writes, from the baseline rows, the summaries
      discovered under `methodsRoot` (`str(Path(args.methods_root))`) and the
      rows loaded from each. */
  function ComparisonOf(baselineRows: seq<SummaryRow>, methodsRoot: string, found: seq<(string, string)>,
                        load: string -> seq<SummaryRow>): (r: Result<Comparison>)
    ensures r.Err? <==> found == []
    ensures r.Err? ==> r.error == SystemExit(NoSummaries + methodsRoot)
  {
    if found == [] then Err(SystemExit(NoSummaries + methodsRoot))
    else
      var names := SortedNames(found);
      var methods := MethodTablesOf(names, found, load);
      var keys := MergeKeys(baselineRows, MethodRowsOf(names, found, load));
      var baseline := ByKey(baselineRows);
      Ok(Comparison(WideFields(names), WideRows(keys, baseline, methods), LongRows(keys, baseline, methods)))
  }

  /** `method_rows`, in `method_names` order. */
  function MethodRowsOf(names: seq<string>, found: seq<(string, string)>, load: string -> seq<SummaryRow>): (rs: seq<seq<SummaryRow>>)
    requires forall i :: 0 <= i < |names| ==> names[i] in Names(found)
    ensures |rs| == |names| && forall i :: 0 <= i < |names| ==> rs[i] == load(PathOf(found, names[i]))
  {
    seq(|names|, i requires 0 <= i < |names| => load(PathOf(found, names[i])))
  }

  lemma WideAndLongRowsSnoc(keys: seq<string>, i: nat, baseline: map<string, SummaryRow>, methods: MethodTables)
    requires i < |keys|
    ensures WideRows(keys[..i + 1], baseline, methods)
         == WideRows(keys[..i], baseline, methods) + [MapOfEntries(WideEntries(keys[i], baseline, methods))]
    ensures LongRows(keys[..i + 1], baseline, methods)
         == LongRows(keys[..i], baseline, methods) + LongRowsOf(keys[i], baseline, methods)
  {
    assert keys[..i + 1][..i] == keys[..i];
  }

  /** The merge of `main`: the wide and long rows key by key. */
  method Compare(baselineRows: seq<SummaryRow>, methodsRoot: string, found: seq<(string, string)>,
                 load: string -> seq<SummaryRow>)
    returns (r: Result<Comparison>)
    ensures r == ComparisonOf(baselineRows, methodsRoot, found, load)
  {
    if found == [] {
      return Err(SystemExit(NoSummaries + methodsRoot));
    }
    var names := SortedNames(found);
    var keys := MergeKeys(baselineRows, MethodRowsOf(names, found, load));
    var baseline := ByKey(baselineRows);
    var methods := MethodTablesOf(names, found, load);
    var wide: seq<map<string, Cell>> := [];
    var long: seq<seq<(string, Cell)>> := [];
    for i := 0 to |keys|
      invariant wide == WideRows(keys[..i], baseline, methods)
      invariant long == LongRows(keys[..i], baseline, methods)
    {
      WideAndLongRowsSnoc(keys, i, baseline, methods);
      var out, longK := WideRow(keys[i], baseline, methods);
      wide := wide + [out];
      long := long + longK;
    }
    assert keys[..|keys|] == keys;
    return Ok(Comparison(WideFields(names), wide, long));
  }
}
