/** Cell extraction: every cell of the selected sheets becomes one tidy
    record carrying its semantic data type, exactly the typed-value column
    that type calls for, its formula metadata, comment and layout. */
module Cells {

  import opened Wrappers
  import opened Text
  import opened Tables
  import opened Reader
  import opened Selection

  /** The `data_type` column; `Label` is the string the column holds. */
  datatype DataType = Blank | Error | Logical | Numeric | Date | Character | Formula {
    function Label(): string {
      match this
      case Blank => "blank"
      case Error => "error"
      case Logical => "logical"
      case Numeric => "numeric"
      case Date => "date"
      case Character => "character"
      case Formula => "formula"
    }
  }

  /** The column's strings name the data types one-to-one, so the model
      may compare data types where the table compares strings. */
  lemma LabelsDistinct(a: DataType, b: DataType)
    ensures a.Label() == b.Label() <==> a == b
  {
  }

  /** The five typed-value columns. */
  datatype TypedValues = TypedValues(
    error: Option<string>,
    logical: Option<bool>,
    numeric: Option<real>,
    date: Option<DateTime>,
    character: Option<string>)

  const NoValues := TypedValues(None, None, None, None, None)

  datatype Classification = Classification(dataType: DataType, values: TypedValues)

  /** The typed-value invariant: a slot is filled exactly when the data type
      names it, so blank and formula cells fill none. */
  predicate SlotsAgree(c: Classification) {
    && (c.values.error.Some? <==> c.dataType == Error)
    && (c.values.logical.Some? <==> c.dataType == Logical)
    && (c.values.numeric.Some? <==> c.dataType == Numeric)
    && (c.values.date.Some? <==> c.dataType == Date)
    && (c.values.character.Some? <==> c.dataType == Character)
  }

  function FilledSlots(v: TypedValues): nat {
    (if v.error.Some? then 1 else 0) + (if v.logical.Some? then 1 else 0)
    + (if v.numeric.Some? then 1 else 0) + (if v.date.Some? then 1 else 0)
    + (if v.character.Some? then 1 else 0)
  }

  lemma AtMostOneSlot(c: Classification)
    requires SlotsAgree(c)
    ensures FilledSlots(c.values) <= 1
    ensures FilledSlots(c.values) == 0 <==> c.dataType == Blank || c.dataType == Formula
  {
  }

  /** The narrow blank test: no value, and a numeric or missing type tag. */
  predicate IsBlank(c: Cell)
    ensures IsBlank(c) ==> Classify(c).dataType == Blank && Classify(c).values == NoValues
  {
    c.value.None? && (c.dataType == Some(N) || c.dataType.None?)
  }

  /** The characters whose presence in a lower-cased number format marks it
      as a date or time format. */
  const DateIndicators := "dmyhs:/-"

  /** `any(indicator in format for indicator in indicators)`. */
  function AnyIndicator(indicators: string, format: string): (r: bool)
    ensures r <==> exists i, k :: 0 <= i < |indicators| && 0 <= k < |format| && format[k] == indicators[i]
  {
    if indicators == [] then false
    else if Contains(format, indicators[0]) then true
    else
      var rest := AnyIndicator(indicators[1..], format);
      assert forall i :: 1 <= i < |indicators| ==> indicators[i] == indicators[1..][i - 1];
      rest
  }

  /** The date heuristic on a cell's number format. */
  function IsDateFormat(numberFormat: Option<string>): (r: bool)
    ensures r <==> numberFormat.Some? && exists k :: 0 <= k < |numberFormat.value| && Lower(numberFormat.value)[k] in DateIndicators
  {
    if numberFormat.None? || numberFormat.value == "" then false
    else
      var r := AnyIndicator(DateIndicators, Lower(numberFormat.value));
      assert r ==> exists k :: 0 <= k < |numberFormat.value| && Lower(numberFormat.value)[k] in DateIndicators;
      assert (exists k :: 0 <= k < |numberFormat.value| && Lower(numberFormat.value)[k] in DateIndicators) ==> r by {
        if k :| 0 <= k < |numberFormat.value| && Lower(numberFormat.value)[k] in DateIndicators {
          var i :| 0 <= i < |DateIndicators| && DateIndicators[i] == Lower(numberFormat.value)[k];
        }
      }
      r
  }

  lemma NoFormatIsNotDate()
    ensures !IsDateFormat(None) && !IsDateFormat(Some(""))
  {
  }

  /** A format none of whose characters is a date indicator, once lower-cased. */
  lemma {:induction false} NotDateIf(f: string)
    requires forall k :: 0 <= k < |f| ==> LowerChar(f[k]) !in DateIndicators
    ensures !IsDateFormat(Some(f))
  {
    var l := Lower(f);
    forall k | 0 <= k < |f| ensures l[k] !in DateIndicators {
      assert l[k] == LowerChar(f[k]);
    }
  }

  lemma FixedPointIsNotDate()
    ensures !IsDateFormat(Some("0.00"))
  {
    NotDateIf("0.00");
  }

  lemma GeneralIsNotDate()
    ensures !IsDateFormat(Some("General"))
  {
    NotDateIf("General");
  }

  /** A format with a date indicator among its lower-cased characters. */
  lemma DateIf(f: string, k: nat)
    requires k < |f| && LowerChar(f[k]) in DateIndicators
    ensures IsDateFormat(Some(f))
  {
    assert Lower(f)[k] == LowerChar(f[k]);
  }

  lemma IsoDateIsDate()
    ensures IsDateFormat(Some("yyyy-mm-dd"))
  {
    DateIf("yyyy-mm-dd", 0);
  }

  lemma ClockTimeIsDate()
    ensures IsDateFormat(Some("HH:MM"))
  {
    DateIf("HH:MM", 0);
  }

  /** The classifier: decides the data type from the value, the type tag and
      the number format, and fills the one slot that data type calls for. */
  function Classify(c: Cell): (r: Classification)
    ensures SlotsAgree(r)
    ensures r.dataType == Blank <==> c.value.None?
    ensures r.dataType == Formula <==> c.value.Some? && c.dataType == Some(F)
    ensures r.dataType == Error ==> r.values.error == Some(c.value.value.text)
    ensures r.dataType == Logical ==> r.values.logical == Some(c.value.value.truthy)
    ensures r.dataType == Character ==> r.values.character == Some(c.value.value.text)
    ensures r.dataType == Numeric ==> r.values.numeric == Some(c.value.value.number)
    ensures r.dataType == Date ==> c.dataType == Some(N) && IsDateFormat(c.numberFormat)
                                   && r.values.date == c.value.value.serialDate
    ensures c.value.Some? && c.dataType == Some(N) ==>
              (r.dataType == Date <==> IsDateFormat(c.numberFormat) && c.value.value.serialDate.Some?)
              && (r.dataType == Numeric <==> !IsDateFormat(c.numberFormat) || c.value.value.serialDate.None?)
    ensures c.value.Some? && c.dataType == Some(E) ==>
              r.dataType == Error && r.values == NoValues.(error := Some(c.value.value.text))
    ensures c.value.Some? && c.dataType == Some(B) ==>
              r.dataType == Logical && r.values == NoValues.(logical := Some(c.value.value.truthy))
    ensures c.value.Some? && c.dataType !in {Some(N), Some(E), Some(B), Some(F)} ==>
              r.dataType == Character && r.values == NoValues.(character := Some(c.value.value.text))
  {
    if c.value.None? then Classification(Blank, NoValues)
    else
      var v := c.value.value;
      match c.dataType
      case Some(E) => Classification(Error, NoValues.(error := Some(v.text)))
      case Some(B) => Classification(Logical, NoValues.(logical := Some(v.truthy)))
      case Some(N) =>
        if IsDateFormat(c.numberFormat) then
          match v.serialDate
          case Some(d) => Classification(Date, NoValues.(date := Some(d)))
          case None => Classification(Numeric, NoValues.(numeric := Some(v.number)))
        else Classification(Numeric, NoValues.(numeric := Some(v.number)))
      case Some(F) => Classification(Formula, NoValues)
      case _ => Classification(Character, NoValues.(character := Some(v.text)))
  }

  /** Blankness implies the blank data type, but a missing value under a
      text tag is classified blank while not counting as blank. */
  lemma BlankImpliesBlankType(c: Cell)
    ensures IsBlank(c) ==> Classify(c).dataType == Blank
    ensures Classify(c).dataType == Blank && !IsBlank(c) <==> c.value.None? && c.dataType.Some? && c.dataType != Some(N)
  {
  }

  /** The formula columns. */
  datatype FormulaInfo = FormulaInfo(formula: Option<string>, isArray: bool, formulaRef: Option<string>, formulaGroup: Option<nat>)

  function GetFormulaInfo(c: Cell): (r: FormulaInfo)
    ensures r.formula.Some? <==> c.dataType == Some(F) && c.value.Some? && c.value.value.truthy
    ensures r.formula.Some? ==> r.formula.value == c.value.value.text
    ensures r.isArray <==> r.formula.Some? && c.arrayFormula
    ensures r.formulaGroup == (if r.formula.Some? then c.sharedFormula else None)
    ensures r.formulaRef.None?
  {
    if c.dataType == Some(F) && c.value.Some? && c.value.value.truthy then
      FormulaInfo(Some(c.value.value.text), c.arrayFormula, None, c.sharedFormula)
    else FormulaInfo(None, false, None, None)
  }

  /** One row of the tidy table. */
  datatype CellRecord = CellRecord(
    sheet: string,
    address: string,
    row: int,
    col: int,
    isBlank: bool,
    content: Option<string>,
    dataType: DataType,
    error: Option<string>,
    logical: Option<bool>,
    numeric: Option<real>,
    date: Option<DateTime>,
    character: Option<string>,
    formula: Option<string>,
    isArray: bool,
    formulaRef: Option<string>,
    formulaGroup: Option<nat>,
    comment: Option<string>,
    height: Option<real>,
    width: Option<real>,
    rowOutlineLevel: int,
    colOutlineLevel: int,
    styleFormat: Option<string>,
    localFormatId: Option<nat>)

  /** The table's columns, in order. */
  const CellColumns: seq<string> := [
    "sheet", "address", "row", "col", "is_blank", "content", "data_type",
    "error", "logical", "numeric", "date", "character", "formula",
    "is_array", "formula_ref", "formula_group", "comment", "height", "width",
    "row_outline_level", "col_outline_level", "style_format", "local_format_id"]

  /** Assembles one cell's record from its classification, its formula
      information, its comment and its sheet's dimensions. */
  function MakeRecord(ws: Worksheet, sheetName: string, c: Cell, cls: Classification): (r: CellRecord)
    ensures r.sheet == sheetName && r.address == c.coordinate && r.row == c.row && r.col == c.column
    ensures r.dataType == cls.dataType && ValuesOf(r) == cls.values
    ensures r.content.Some? <==> c.value.Some?
    ensures (&& SlotsAgree(cls)
             && (cls.dataType == Blank <==> c.value.None?)
             && (cls.dataType == Formula <==> c.value.Some? && c.dataType == Some(F)))
            ==> RecordInvariant(r)
  {
    var f := GetFormulaInfo(c);
    var rowDim := RowDimension(ws, c.row);
    var colDim := ColumnDimension(ws, c.column);
    CellRecord(
      sheet := sheetName,
      address := c.coordinate,
      row := c.row,
      col := c.column,
      isBlank := IsBlank(c),
      content := if c.value.Some? then Some(c.value.value.text) else None,
      dataType := cls.dataType,
      error := cls.values.error,
      logical := cls.values.logical,
      numeric := cls.values.numeric,
      date := cls.values.date,
      character := cls.values.character,
      formula := f.formula,
      isArray := f.isArray,
      formulaRef := f.formulaRef,
      formulaGroup := f.formulaGroup,
      comment := c.comment,
      height := rowDim.size,
      width := colDim.size,
      rowOutlineLevel := rowDim.outlineLevel.GetOr(0),
      colOutlineLevel := colDim.outlineLevel.GetOr(0),
      styleFormat := c.style,
      localFormatId := if c.numberFormat.Some? && c.numberFormat.value != "" then Some(c.formatIdentity) else None)
  }

  function ValuesOf(r: CellRecord): TypedValues {
    TypedValues(r.error, r.logical, r.numeric, r.date, r.character)
  }

  /** What holds of every record the extractor produces. */
  predicate RecordInvariant(r: CellRecord) {
    && SlotsAgree(Classification(r.dataType, ValuesOf(r)))
    && (r.isBlank ==> r.dataType == Blank)
    && (r.dataType == Blank <==> r.content.None?)
    && (r.formula.Some? ==> r.dataType == Formula && r.content == r.formula)
    && (r.isArray ==> r.formula.Some?)
    && r.formulaRef.None?
  }

  lemma {:induction false} RecordWellFormed(ws: Worksheet, sheetName: string, c: Cell)
    ensures RecordInvariant(MakeRecord(ws, sheetName, c, Classify(c)))
    ensures MakeRecord(ws, sheetName, c, Classify(c)).sheet == sheetName
  {
    var cls := Classify(c);
    var r := MakeRecord(ws, sheetName, c, cls);
    assert ValuesOf(r) == cls.values;
  }

  /** Layout defaults: a row without a dimension entry has no height, a
      column without one has the default width, both have outline level 0,
      and so does an entry whose outline level is unset. */
  lemma {:induction false} LayoutDefaults(ws: Worksheet, sheetName: string, c: Cell, cls: Classification)
    ensures c.row !in ws.rowDimensions ==> MakeRecord(ws, sheetName, c, cls).height.None? && MakeRecord(ws, sheetName, c, cls).rowOutlineLevel == 0
    ensures c.column !in ws.columnDimensions ==> MakeRecord(ws, sheetName, c, cls).width == Some(DefaultColumnWidth) && MakeRecord(ws, sheetName, c, cls).colOutlineLevel == 0
    ensures c.row in ws.rowDimensions && ws.rowDimensions[c.row].outlineLevel.None? ==> MakeRecord(ws, sheetName, c, cls).rowOutlineLevel == 0
    ensures c.column in ws.columnDimensions && ws.columnDimensions[c.column].outlineLevel.None? ==> MakeRecord(ws, sheetName, c, cls).colOutlineLevel == 0
  {
  }

  /** A formula that starts with `=` keeps it, and a formula record always
      carries the formula text as its raw content. */
  lemma FormulaTextKept(ws: Worksheet, sheetName: string, c: Cell)
    requires c.dataType == Some(F) && c.value.Some? && c.value.value.truthy
    requires |c.value.value.text| > 0 && c.value.value.text[0] == '='
    ensures var r := MakeRecord(ws, sheetName, c, Classify(c));
            r.dataType == Formula && r.formula == Some(c.value.value.text) && r.formula.value[0] == '='
            && ValuesOf(r) == NoValues
  {
  }

  /** The cells the row iterator yields, row after row. */
  function Flatten(rows: seq<seq<Cell>>): seq<Cell> {
    if rows == [] then [] else Flatten(rows[..|rows| - 1]) + rows[|rows| - 1]
  }

  /** The records the cell loop appends for a run of cells of one sheet. */
  function Records(ws: Worksheet, sheetName: string, cells: seq<Cell>, includeBlank: bool, classify: Cell -> Classification): seq<CellRecord> {
    if cells == [] then []
    else
      var c := cells[|cells| - 1];
      var before := Records(ws, sheetName, cells[..|cells| - 1], includeBlank, classify);
      if !includeBlank && IsBlank(c) then before else before + [MakeRecord(ws, sheetName, c, classify(c))]
  }

  /** The records for the sheets `names`, processed in that order. */
  function Collected(wb: Workbook, names: seq<string>, includeBlank: bool, classify: Cell -> Classification): seq<CellRecord>
    requires AllPresent(wb, names)
  {
    if names == [] then []
    else
      var name := names[|names| - 1];
      var ws := Sheet(wb, name);
      Collected(wb, names[..|names| - 1], includeBlank, classify) + Records(ws, name, Flatten(ws.rows), includeBlank, classify)
  }

  lemma RecordsSnoc(ws: Worksheet, name: string, cells: seq<Cell>, c: Cell, includeBlank: bool, classify: Cell -> Classification)
    ensures Records(ws, name, cells + [c], includeBlank, classify)
            == Records(ws, name, cells, includeBlank, classify)
               + (if !includeBlank && IsBlank(c) then [] else [MakeRecord(ws, name, c, classify(c))])
  {
    assert (cells + [c])[..|cells|] == cells;
  }

  lemma FlattenSnoc(rows: seq<seq<Cell>>, j: nat)
    requires j < |rows|
    ensures Flatten(rows[..j + 1]) == Flatten(rows[..j]) + rows[j]
  {
    assert rows[..j + 1][..j] == rows[..j];
  }

  lemma {:induction false} RecordsAppend(ws: Worksheet, name: string, xs: seq<Cell>, ys: seq<Cell>, includeBlank: bool, classify: Cell -> Classification)
    ensures Records(ws, name, xs + ys, includeBlank, classify)
            == Records(ws, name, xs, includeBlank, classify) + Records(ws, name, ys, includeBlank, classify)
  {
    if ys == [] {
      assert xs + ys == xs;
    } else {
      var init, last := ys[..|ys| - 1], ys[|ys| - 1];
      assert ys == init + [last];
      assert xs + ys == (xs + init) + [last];
      RecordsAppend(ws, name, xs, init, includeBlank, classify);
      RecordsSnoc(ws, name, xs + init, last, includeBlank, classify);
      RecordsSnoc(ws, name, init, last, includeBlank, classify);
    }
  }

  /** The cell loop over one row, appending to `all` every record that the
      blank filter lets through. */
  method AppendRow(all: seq<CellRecord>, ws: Worksheet, name: string, row: seq<Cell>, includeBlank: bool, classify: Cell -> Classification)
    returns (all': seq<CellRecord>)
    ensures all' == all + Records(ws, name, row, includeBlank, classify)
  {
    all' := all;
    var k := 0;
    while k < |row|
      invariant 0 <= k <= |row|
      invariant all' == all + Records(ws, name, row[..k], includeBlank, classify)
    {
      var cell := row[k];
      assert row[..k + 1] == row[..k] + [cell];
      RecordsSnoc(ws, name, row[..k], cell, includeBlank, classify);
      if !includeBlank && IsBlank(cell) {
        k := k + 1;
        continue;
      }
      all' := all' + [MakeRecord(ws, name, cell, classify(cell))];
      k := k + 1;
    }
    assert row[..|row|] == row;
  }

  /** The row loop over one sheet. */
  method AppendSheet(all: seq<CellRecord>, ws: Worksheet, name: string, includeBlank: bool, classify: Cell -> Classification)
    returns (all': seq<CellRecord>)
    ensures all' == all + Records(ws, name, Flatten(ws.rows), includeBlank, classify)
  {
    all' := all;
    var j := 0;
    while j < |ws.rows|
      invariant 0 <= j <= |ws.rows|
      invariant all' == all + Records(ws, name, Flatten(ws.rows[..j]), includeBlank, classify)
    {
      all' := AppendRow(all', ws, name, ws.rows[j], includeBlank, classify);
      RowStep(ws, name, j, includeBlank, classify);
      j := j + 1;
    }
    assert ws.rows[..|ws.rows|] == ws.rows;
  }

  /** One more row contributes exactly that row's records. */
  lemma RowStep(ws: Worksheet, name: string, j: nat, includeBlank: bool, classify: Cell -> Classification)
    requires j < |ws.rows|
    ensures Records(ws, name, Flatten(ws.rows[..j + 1]), includeBlank, classify)
            == Records(ws, name, Flatten(ws.rows[..j]), includeBlank, classify) + Records(ws, name, ws.rows[j], includeBlank, classify)
  {
    FlattenSnoc(ws.rows, j);
    RecordsAppend(ws, name, Flatten(ws.rows[..j]), ws.rows[j], includeBlank, classify);
  }

  /** The sheet loop that builds the record list. */
  method CollectCells(wb: Workbook, names: seq<string>, includeBlank: bool, classify: Cell -> Classification)
    returns (all: seq<CellRecord>)
    requires AllPresent(wb, names)
    ensures all == Collected(wb, names, includeBlank, classify)
  {
    all := [];
    var i := 0;
    while i < |names|
      invariant 0 <= i <= |names|
      invariant all == Collected(wb, names[..i], includeBlank, classify)
    {
      var name := names[i];
      var ws := Sheet(wb, name);
      all := AppendSheet(all, ws, name, includeBlank, classify);
      SheetStep(wb, names, i, includeBlank, classify);
      i := i + 1;
    }
    assert names[..|names|] == names;
  }

  /** One more sheet contributes exactly that sheet's records. */
  lemma SheetStep(wb: Workbook, names: seq<string>, i: nat, includeBlank: bool, classify: Cell -> Classification)
    requires AllPresent(wb, names) && i < |names|
    ensures AllPresent(wb, names[..i]) && AllPresent(wb, names[..i + 1])
    ensures Collected(wb, names[..i + 1], includeBlank, classify)
            == Collected(wb, names[..i], includeBlank, classify)
               + Records(Sheet(wb, names[i]), names[i], Flatten(Sheet(wb, names[i]).rows), includeBlank, classify)
  {
    assert names[..i + 1][..i] == names[..i];
  }

  /** `rows` without its blank records, order kept. */
  function WithoutBlanks(rows: seq<CellRecord>): (r: seq<CellRecord>)
    ensures |r| <= |rows|
    ensures forall x :: x in r <==> x in rows && !x.isBlank
  {
    if rows == [] then []
    else
      var last := rows[|rows| - 1];
      var init := WithoutBlanks(rows[..|rows| - 1]);
      assert forall x :: x in rows <==> x in rows[..|rows| - 1] || x == last by {
        assert rows == rows[..|rows| - 1] + [last];
      }
      if last.isBlank then init else init + [last]
  }

  lemma {:induction false} WithoutBlanksAppend(a: seq<CellRecord>, b: seq<CellRecord>)
    ensures WithoutBlanks(a + b) == WithoutBlanks(a) + WithoutBlanks(b)
  {
    if b == [] {
      assert a + b == a;
    } else {
      var init := b[..|b| - 1];
      assert (a + b)[..|a + b| - 1] == a + init;
      WithoutBlanksAppend(a, init);
    }
  }

  lemma {:induction false} RecordsBlankFilter(ws: Worksheet, name: string, cells: seq<Cell>, classify: Cell -> Classification)
    ensures Records(ws, name, cells, false, classify) == WithoutBlanks(Records(ws, name, cells, true, classify))
  {
    if cells != [] {
      var init, c := cells[..|cells| - 1], cells[|cells| - 1];
      RecordsBlankFilter(ws, name, init, classify);
      var all := Records(ws, name, init, true, classify);
      var rec := MakeRecord(ws, name, c, classify(c));
      assert (all + [rec])[..|all|] == all;
    }
  }

  /** Leaving blanks out drops exactly the blank records of the full
      collection and keeps the order of the rest. */
  lemma {:induction false} CollectedBlankFilter(wb: Workbook, names: seq<string>, classify: Cell -> Classification)
    requires AllPresent(wb, names)
    ensures Collected(wb, names, false, classify) == WithoutBlanks(Collected(wb, names, true, classify))
    ensures |Collected(wb, names, false, classify)| <= |Collected(wb, names, true, classify)|
  {
    if names != [] {
      var init, name := names[..|names| - 1], names[|names| - 1];
      var ws := Sheet(wb, name);
      CollectedBlankFilter(wb, init, classify);
      RecordsBlankFilter(ws, name, Flatten(ws.rows), classify);
      WithoutBlanksAppend(Collected(wb, init, true, classify), Records(ws, name, Flatten(ws.rows), true, classify));
    }
  }

  lemma {:induction false} RecordsFrom(ws: Worksheet, name: string, cells: seq<Cell>, includeBlank: bool, classify: Cell -> Classification)
    ensures forall r :: r in Records(ws, name, cells, includeBlank, classify) ==>
              exists c :: c in cells && (includeBlank || !IsBlank(c)) && r == MakeRecord(ws, name, c, classify(c))
  {
    if cells != [] {
      var init := cells[..|cells| - 1];
      RecordsFrom(ws, name, init, includeBlank, classify);
      assert forall c :: c in init ==> c in cells;
    }
  }

  /** Every collected record was built from a cell of one of the requested
      sheets that the blank filter let through. */
  lemma {:induction false} CollectedFrom(wb: Workbook, names: seq<string>, includeBlank: bool, classify: Cell -> Classification)
    requires AllPresent(wb, names)
    ensures forall r :: r in Collected(wb, names, includeBlank, classify) ==>
              exists n, c :: n in names && c in Flatten(Sheet(wb, n).rows) && (includeBlank || !IsBlank(c))
                             && r == MakeRecord(Sheet(wb, n), n, c, classify(c))
  {
    if names != [] {
      var init, name := names[..|names| - 1], names[|names| - 1];
      var ws := Sheet(wb, name);
      CollectedFrom(wb, init, includeBlank, classify);
      RecordsFrom(ws, name, Flatten(ws.rows), includeBlank, classify);
      assert forall n :: n in init ==> n in names;
    }
  }

  /** What the source promises of every record: it belongs to a requested
      sheet, it satisfies the record invariant, and with blanks excluded it
      is not blank. */
  lemma CollectedRecords(wb: Workbook, names: seq<string>, includeBlank: bool)
    requires AllPresent(wb, names)
    ensures forall r :: r in Collected(wb, names, includeBlank, Classify) ==>
              r.sheet in names && RecordInvariant(r) && (!includeBlank ==> !r.isBlank)
  {
    CollectedFrom(wb, names, includeBlank, Classify);
    forall r | r in Collected(wb, names, includeBlank, Classify)
      ensures r.sheet in names && RecordInvariant(r) && (!includeBlank ==> !r.isBlank)
    {
      var n, c :| n in names && c in Flatten(Sheet(wb, n).rows) && (includeBlank || !IsBlank(c))
                  && r == MakeRecord(Sheet(wb, n), n, c, Classify(c));
      RecordWellFormed(Sheet(wb, n), n, c);
    }
  }

  /** The sorted table rows keep every per-record property. */
  lemma SortedRecords(wb: Workbook, names: seq<string>, includeBlank: bool)
    requires AllPresent(wb, names)
    ensures var rows := SortByKey(Collected(wb, names, includeBlank, Classify), CellKey);
            forall i :: 0 <= i < |rows| ==> rows[i].sheet in names && RecordInvariant(rows[i]) && (!includeBlank ==> !rows[i].isBlank)
  {
    var all := Collected(wb, names, includeBlank, Classify);
    CollectedRecords(wb, names, includeBlank);
    var rows := SortByKey(all, CellKey);
    forall i | 0 <= i < |rows| ensures rows[i] in all {
      assert rows[i] in multiset(rows);
    }
  }

  /** Reading one sheet never yields a record that reading a list of sheets
      containing it does not, so never more records. */
  lemma OneSheetIsSubset(wb: Workbook, names: seq<string>, s: string, includeBlank: bool, classify: Cell -> Classification)
    requires AllPresent(wb, names) && s in names
    ensures AllPresent(wb, [s])
    ensures multiset(Collected(wb, [s], includeBlank, classify)) <= multiset(Collected(wb, names, includeBlank, classify))
    ensures |Collected(wb, [s], includeBlank, classify)| <= |Collected(wb, names, includeBlank, classify)|
  {
    OneSheetContained(wb, names, s, includeBlank, classify);
    SubMultisetNoLonger(Collected(wb, [s], includeBlank, classify), Collected(wb, names, includeBlank, classify));
  }

  lemma {:induction false} OneSheetContained(wb: Workbook, names: seq<string>, s: string, includeBlank: bool, classify: Cell -> Classification)
    requires AllPresent(wb, names) && s in names
    ensures AllPresent(wb, [s])
    ensures multiset(Collected(wb, [s], includeBlank, classify)) <= multiset(Collected(wb, names, includeBlank, classify))
  {
    var init, name := names[..|names| - 1], names[|names| - 1];
    assert [s][..0] == [];
    var one := Collected(wb, [s], includeBlank, classify);
    var prefix := Collected(wb, init, includeBlank, classify);
    var last := Records(Sheet(wb, name), name, Flatten(Sheet(wb, name).rows), includeBlank, classify);
    assert Collected(wb, names, includeBlank, classify) == prefix + last;
    if name == s {
      assert one == Collected(wb, [s][..0], includeBlank, classify) + last;
      assert Collected(wb, [s][..0], includeBlank, classify) == [];
      SuffixSubMultiset(prefix, last);
    } else {
      assert s in init by { assert names == init + [name]; }
      OneSheetContained(wb, init, s, includeBlank, classify);
      SubMultisetAppend(one, prefix, last);
    }
  }

  /** The sort key: sheet name, then row, then column. */
  function CellKey(r: CellRecord): SortKey {
    [KStr(r.sheet), KInt(r.row), KInt(r.col)]
  }

  lemma CellKeyOrder(a: CellRecord, b: CellRecord)
    ensures KeyLe(CellKey(a), CellKey(b)) <==>
              (StrLe(a.sheet, b.sheet) && a.sheet != b.sheet)
              || (a.sheet == b.sheet && (a.row < b.row || (a.row == b.row && a.col <= b.col)))
  {
    var ka, kb := CellKey(a), CellKey(b);
    assert ka[1..] == [KInt(a.row), KInt(a.col)] && kb[1..] == [KInt(b.row), KInt(b.col)];
    assert ka[1..][1..] == [KInt(a.col)] && kb[1..][1..] == [KInt(b.col)];
    assert KeyLe(ka[1..][1..], kb[1..][1..]) <==> a.col <= b.col by {
      assert ka[1..][1..][1..] == [];
    }
    assert KeyLe(ka[1..], kb[1..]) <==> a.row < b.row || (a.row == b.row && a.col <= b.col);
    assert KeyLe(ka, kb) <==> (PartLe(ka[0], kb[0]) && ka[0] != kb[0]) || (ka[0] == kb[0] && KeyLe(ka[1..], kb[1..]));
  }

  /** `xlsx_cells`: checks the arguments, walks the selected sheets, and
      returns the records sorted by (sheet, row, col) under the fixed
      columns, which an empty result carries too. */
  method XlsxCells(path: string, wb: Workbook, sheets: SheetSelection, checkFiletype: bool, includeBlankCells: bool)
    returns (r: Result<Table<CellRecord>, Failure>)
    ensures r.Err? <==> CheckArguments(path, checkFiletype, wb, sheets).Some?
    ensures r.Err? ==> r.error == CheckArguments(path, checkFiletype, wb, sheets).value
    ensures r.Ok? ==> r.value.columns == CellColumns
    ensures r.Ok? ==> r.value.rows == SortByKey(Collected(wb, Resolve(sheets, wb), includeBlankCells, Classify), CellKey)
    ensures r.Ok? ==> SortedBy(r.value.rows, CellKey)
    ensures r.Ok? ==> multiset(r.value.rows) == multiset(Collected(wb, Resolve(sheets, wb), includeBlankCells, Classify))
    ensures r.Ok? ==> forall i :: 0 <= i < |r.value.rows| ==>
                        r.value.rows[i].sheet in Resolve(sheets, wb) && RecordInvariant(r.value.rows[i])
    ensures r.Ok? && !includeBlankCells ==> forall i :: 0 <= i < |r.value.rows| ==> !r.value.rows[i].isBlank
  {
    var bad := CheckFiletype(path, checkFiletype);
    if bad.Some? {
      return Err(bad.value);
    }
    var names := Resolve(sheets, wb);
    var missing := FindMissingSheet(names, SheetNames(wb));
    if missing.Some? {
      return Err(SheetNotFound(missing.value, SheetNames(wb)));
    }
    var all := CollectCells(wb, names, includeBlankCells, Classify);
    SortedRecords(wb, names, includeBlankCells);
    if all == [] {
      return Ok(Table(CellColumns, []));
    }
    return Ok(Table(CellColumns, SortByKey(all, CellKey)));
  }
}
