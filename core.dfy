/** The older single-module implementation of the same entry points. It
    shares the argument checks, the range recogniser, the record builders
    and the walks with the newer modules, and differs from them in two ways:
    formula cells are classified as character data, and an empty result is a
    table without columns. */
module Legacy {

  import opened Wrappers
  import opened Tables
  import opened Reader
  import opened Selection
  import Cells
  import WorkbookInfo
  import Validation

  /** The older classifier: a formula cell is character data holding its
      formula text (none when that text is falsy); every other cell is
      classified as the newer classifier does. */
  function Classify(c: Cell): (r: Cells.Classification)
    ensures !(c.value.Some? && c.dataType == Some(F)) ==> r == Cells.Classify(c)
    ensures c.value.Some? && c.dataType == Some(F) ==>
              r.dataType == Cells.Character && Cells.Classify(c).dataType == Cells.Formula
    ensures c.value.Some? && c.dataType == Some(F) ==>
              r.values == Cells.NoValues.(character := if c.value.value.truthy then Some(c.value.value.text) else None)
    ensures r.dataType != Cells.Formula
    ensures Cells.SlotsAgree(r) <==> !(c.value.Some? && c.dataType == Some(F) && !c.value.value.truthy)
  {
    if c.value.Some? && c.dataType == Some(F) then
      var v := c.value.value;
      Cells.Classification(Cells.Character, Cells.NoValues.(character := if v.truthy then Some(v.text) else None))
    else Cells.Classify(c)
  }

  /** A formula cell whose value is falsy is classified as character data
      with no character value. */
  lemma FalsyFormulaHasNoCharacter(c: Cell)
    requires c.value.Some? && c.dataType == Some(F) && !c.value.value.truthy
    ensures Classify(c).dataType == Cells.Character && Classify(c).values == Cells.NoValues
    ensures !Cells.SlotsAgree(Classify(c))
  {
  }

  /** Two records that differ at most in their data type and character value. */
  predicate SameExceptType(a: Cells.CellRecord, b: Cells.CellRecord) {
    a.(dataType := b.dataType, character := b.character) == b
  }

  /** What one cell's record looks like under each classifier. */
  lemma {:induction false} RecordAgainstNewer(ws: Worksheet, name: string, c: Cell)
    ensures var older, newer := Cells.MakeRecord(ws, name, c, Classify(c)), Cells.MakeRecord(ws, name, c, Cells.Classify(c));
            && SameExceptType(older, newer)
            && (newer.dataType != Cells.Formula ==> older == newer)
            && (newer.dataType == Cells.Formula ==> older.dataType == Cells.Character)
  {
  }

  predicate Corresponds(older: seq<Cells.CellRecord>, newer: seq<Cells.CellRecord>) {
    && |older| == |newer|
    && forall i :: 0 <= i < |older| ==>
         && SameExceptType(older[i], newer[i])
         && (newer[i].dataType != Cells.Formula ==> older[i] == newer[i])
         && (newer[i].dataType == Cells.Formula ==> older[i].dataType == Cells.Character)
  }

  lemma CorrespondsAppend(a: seq<Cells.CellRecord>, b: seq<Cells.CellRecord>, x: seq<Cells.CellRecord>, y: seq<Cells.CellRecord>)
    requires Corresponds(a, b) && Corresponds(x, y)
    ensures Corresponds(a + x, b + y)
  {
    forall i | 0 <= i < |a + x|
      ensures && SameExceptType((a + x)[i], (b + y)[i])
              && ((b + y)[i].dataType != Cells.Formula ==> (a + x)[i] == (b + y)[i])
              && ((b + y)[i].dataType == Cells.Formula ==> (a + x)[i].dataType == Cells.Character)
    {
      if i >= |a| {
        assert (a + x)[i] == x[i - |a|] && (b + y)[i] == y[i - |a|];
      }
    }
  }

  lemma {:induction false} RecordsAgainstNewer(ws: Worksheet, name: string, cells: seq<Cell>, includeBlank: bool)
    ensures Corresponds(Cells.Records(ws, name, cells, includeBlank, Classify), Cells.Records(ws, name, cells, includeBlank, Cells.Classify))
  {
    if cells != [] {
      var c := cells[|cells| - 1];
      RecordsAgainstNewer(ws, name, cells[..|cells| - 1], includeBlank);
      if includeBlank || !Cells.IsBlank(c) {
        RecordAgainstNewer(ws, name, c);
        CorrespondsAppend(Cells.Records(ws, name, cells[..|cells| - 1], includeBlank, Classify),
                          Cells.Records(ws, name, cells[..|cells| - 1], includeBlank, Cells.Classify),
                          [Cells.MakeRecord(ws, name, c, Classify(c))], [Cells.MakeRecord(ws, name, c, Cells.Classify(c))]);
      }
    }
  }

  /** The older walk yields the same records in the same order, except that
      each formula record is a character record instead. */
  lemma {:induction false} CollectedAgainstNewer(wb: Workbook, names: seq<string>, includeBlank: bool)
    requires AllPresent(wb, names)
    ensures Corresponds(Cells.Collected(wb, names, includeBlank, Classify), Cells.Collected(wb, names, includeBlank, Cells.Classify))
  {
    if names != [] {
      var init, name := names[..|names| - 1], names[|names| - 1];
      var ws := Sheet(wb, name);
      CollectedAgainstNewer(wb, init, includeBlank);
      RecordsAgainstNewer(ws, name, Cells.Flatten(ws.rows), includeBlank);
      CorrespondsAppend(Cells.Collected(wb, init, includeBlank, Classify), Cells.Collected(wb, init, includeBlank, Cells.Classify),
                        Cells.Records(ws, name, Cells.Flatten(ws.rows), includeBlank, Classify),
                        Cells.Records(ws, name, Cells.Flatten(ws.rows), includeBlank, Cells.Classify));
    }
  }

  /** The columns a table built from records gets: those of the records,
      or none at all when there are no records. */
  function ColumnsFor<R>(rows: seq<R>, columns: seq<string>): (r: seq<string>)
    ensures rows == [] ==> r == []
    ensures rows != [] ==> r == columns
  {
    if rows == [] then [] else columns
  }

  /** The older `xlsx_cells`: the same checks and walk, the older classifier,
      the rows sorted only when there are any, and no columns when empty. */
  method XlsxCells(path: string, wb: Workbook, sheets: SheetSelection, checkFiletype: bool, includeBlankCells: bool)
    returns (r: Result<Table<Cells.CellRecord>, Failure>)
    ensures r.Err? <==> CheckArguments(path, checkFiletype, wb, sheets).Some?
    ensures r.Err? ==> r.error == CheckArguments(path, checkFiletype, wb, sheets).value
    ensures r.Ok? ==> r.value.rows == SortByKey(Cells.Collected(wb, Resolve(sheets, wb), includeBlankCells, Classify), Cells.CellKey)
    ensures r.Ok? ==> r.value.columns == ColumnsFor(r.value.rows, Cells.CellColumns)
    ensures r.Ok? ==> SortedBy(r.value.rows, Cells.CellKey)
    ensures r.Ok? ==> forall i :: 0 <= i < |r.value.rows| ==> r.value.rows[i].dataType != Cells.Formula
    ensures r.Ok? ==> Corresponds(Cells.Collected(wb, Resolve(sheets, wb), includeBlankCells, Classify),
                                  Cells.Collected(wb, Resolve(sheets, wb), includeBlankCells, Cells.Classify))
  {
    var bad := CheckFiletype(path, checkFiletype);
    if bad.Some? {
      return Err(bad.value);
    }
    var names := Resolve(sheets, wb);
    var missing := FindMissingSheet(names, SheetNames(wb));
    if missing.Some? {
      return Err(SheetNotFound(missing.value, SheetNames(wb)));
    }
    var all := Cells.CollectCells(wb, names, includeBlankCells, Classify);
    CollectedAgainstNewer(wb, names, includeBlankCells);
    NoFormulaRecords(wb, names, includeBlankCells);
    if all == [] {
      return Ok(Table([], []));
    }
    var rows := SortByKey(all, Cells.CellKey);
    return Ok(Table(Cells.CellColumns, rows));
  }

  /** No record the older walk produces has the formula data type. */
  lemma NoFormulaRecords(wb: Workbook, names: seq<string>, includeBlank: bool)
    requires AllPresent(wb, names)
    ensures var rows := SortByKey(Cells.Collected(wb, names, includeBlank, Classify), Cells.CellKey);
            forall i :: 0 <= i < |rows| ==> rows[i].dataType != Cells.Formula
  {
    var all := Cells.Collected(wb, names, includeBlank, Classify);
    Cells.CollectedFrom(wb, names, includeBlank, Classify);
    var rows := SortByKey(all, Cells.CellKey);
    forall i | 0 <= i < |rows| ensures rows[i].dataType != Cells.Formula {
      assert rows[i] in multiset(rows);
      assert rows[i] in all;
    }
  }

  /** The older `xlsx_names`: the same records and order, and no columns
      when the workbook defines no names. */
  method XlsxNames(path: string, wb: Workbook, checkFiletype: bool) returns (r: Result<Table<WorkbookInfo.NameRecord>, Failure>)
    ensures r.Err? <==> checkFiletype && !HasSpreadsheetExtension(path)
    ensures r.Err? ==> r.error == WrongFileType
    ensures r.Ok? ==> r.value.rows == SortByKey(WorkbookInfo.NameRecords(wb, wb.definedNames), WorkbookInfo.NameKey)
    ensures r.Ok? ==> |r.value.rows| == |wb.definedNames|
    ensures r.Ok? ==> r.value.columns == ColumnsFor(wb.definedNames, WorkbookInfo.NameColumns)
  {
    var bad := CheckFiletype(path, checkFiletype);
    if bad.Some? {
      return Err(bad.value);
    }
    var records := WorkbookInfo.CollectNames(wb);
    WorkbookInfo.NameRecordsOneEach(wb, wb.definedNames);
    if records == [] {
      return Ok(Table([], []));
    }
    return Ok(Table(WorkbookInfo.NameColumns, SortByKey(records, WorkbookInfo.NameKey)));
  }

  /** The older `xlsx_validation`: the same checks, records and order, and
      no columns when there are no rules. */
  method XlsxValidation(path: string, wb: Workbook, sheets: SheetSelection, checkFiletype: bool)
    returns (r: Result<Table<Validation.RuleRecord>, Failure>)
    ensures r.Err? <==> CheckArguments(path, checkFiletype, wb, sheets).Some?
    ensures r.Err? ==> r.error == CheckArguments(path, checkFiletype, wb, sheets).value
    ensures r.Ok? ==> r.value.rows == SortByKey(Validation.Collected(wb, Resolve(sheets, wb)), Validation.RuleKey)
    ensures r.Ok? ==> |r.value.rows| == Validation.RuleCount(wb, Resolve(sheets, wb))
    ensures r.Ok? ==> r.value.columns == ColumnsFor(r.value.rows, Validation.ValidationColumns)
  {
    var bad := CheckFiletype(path, checkFiletype);
    if bad.Some? {
      return Err(bad.value);
    }
    var names := Resolve(sheets, wb);
    var missing := FindMissingSheet(names, SheetNames(wb));
    if missing.Some? {
      return Err(SheetNotFound(missing.value, SheetNames(wb)));
    }
    var all := Validation.CollectRules(wb, names);
    Validation.CollectedCount(wb, names);
    if all == [] {
      return Ok(Table([], []));
    }
    return Ok(Table(Validation.ValidationColumns, SortByKey(all, Validation.RuleKey)));
  }
}
