/** The already-parsed workbook the extractor walks, as the reader library
    hands it over: sheets in workbook order, each with the cells its row
    iterator yields, its row and column dimensions and its data-validation
    rules, plus the workbook's defined names. Values produced by the reader
    that the extractor only copies or converts are kept abstract. */
module Reader {

  import opened Wrappers

  /** The reader's low-level cell type tag (ST_CellType of ECMA-376 Part 1,
      section 18.18.11, plus the reader's own tags for formulas and dates). */
  datatype CellType =
    | N          // 'n'  number
    | S          // 's'  shared string
    | B          // 'b'  boolean
    | E          // 'e'  error
    | Str        // 'str' formula string result
    | InlineStr  // 'inlineStr'
    | F          // 'f'  formula
    | D          // 'd'  ISO 8601 date

  /** A calendar date and time, as the serial-number conversion returns it. */
  datatype DateTime = DateTime(year: int, month: int, day: int, hour: int, minute: int, second: int, microsecond: int)

  /** A non-None cell value, seen through the conversions the extractor
      applies to it: `text` is `str(value)`, `truthy` is `bool(value)` (which
      is also its truth value in an `if`), `number` is `float(value)`, and
      `serialDate` is the reader's serial-to-date conversion of it, or None
      where that conversion raises. */
  datatype RawValue = RawValue(text: string, truthy: bool, number: real, serialDate: Option<DateTime>)

  /** One cell. `arrayFormula` says the cell exposes a truthy array-formula
      marker; `sharedFormula` is the identity of its shared-formula object
      when it exposes one; `formatIdentity` is the identity of its number
      format object and `style` its named style, both opaque. */
  datatype Cell = Cell(
    row: int,
    column: int,
    coordinate: string,
    value: Option<RawValue>,
    dataType: Option<CellType>,
    numberFormat: Option<string>,
    formatIdentity: nat,
    style: Option<string>,
    comment: Option<string>,
    arrayFormula: bool,
    sharedFormula: Option<nat>)

  /** A row or column dimension entry: its height or width and outline level. */
  datatype Dimension = Dimension(size: Option<real>, outlineLevel: Option<int>)

  /** The entry the reader creates for a row that has none: no height,
      outline level 0. */
  const DefaultRowDimension := Dimension(None, Some(0))

  /** The reader's default column width, in characters. */
  const DefaultColumnWidth: real := 13.0

  /** The entry the reader creates for a column that has none: the default
      width, outline level 0. */
  const DefaultColumnDimension := Dimension(Some(DefaultColumnWidth), Some(0))

  /** One data-validation rule, with its fields as the reader exposes them. */
  datatype Rule = Rule(
    sqref: Option<string>,
    ruleType: Option<string>,
    operator: Option<string>,
    formula1: Option<string>,
    formula2: Option<string>,
    allowBlank: Option<bool>,
    showInputMessage: Option<bool>,
    showErrorMessage: Option<bool>,
    promptTitle: Option<string>,
    prompt: Option<string>,
    errorTitle: Option<string>,
    error: Option<string>,
    errorStyle: Option<string>)

  /** Column dimensions are keyed by column number: the reader keys them by
      column letter, which is a one-to-one renaming of the number. A chart
      sheet has no validation list, hence `validations` is optional. */
  datatype Worksheet = Worksheet(
    title: string,
    rows: seq<seq<Cell>>,
    rowDimensions: map<int, Dimension>,
    columnDimensions: map<int, Dimension>,
    validations: Option<seq<Rule>>)

  /** An attribute that an object may or may not carry. */
  datatype Attr<+T> = Missing | Has(value: T)

  /** A defined name. `localSheetId` is an unsigned index into the sheet
      list; `hidden` may be absent from the object altogether. */
  datatype DefinedName = DefinedName(
    name: string,
    localSheetId: Option<nat>,
    attrText: Option<string>,
    comment: Option<string>,
    hidden: Attr<Option<bool>>)

  datatype Workbook = Workbook(sheets: seq<Worksheet>, definedNames: seq<DefinedName>)

  /** `wb.sheetnames`: the sheet titles in workbook order. */
  function SheetNames(wb: Workbook): (names: seq<string>)
    ensures |names| == |wb.sheets|
    ensures forall i :: 0 <= i < |names| ==> names[i] == wb.sheets[i].title
  {
    seq(|wb.sheets|, i requires 0 <= i < |wb.sheets| => wb.sheets[i].title)
  }

  /** `wb[name]`: the first sheet with that title. */
  function Lookup(sheets: seq<Worksheet>, name: string): (ws: Worksheet)
    requires exists i :: 0 <= i < |sheets| && sheets[i].title == name
    ensures ws.title == name && ws in sheets
  {
    if sheets[0].title == name then sheets[0]
    else
      assert exists i :: 1 <= i < |sheets| && sheets[i].title == name;
      assert forall i :: 1 <= i < |sheets| ==> sheets[i] == sheets[1..][i - 1];
      Lookup(sheets[1..], name)
  }

  predicate HasSheet(wb: Workbook, name: string) {
    name in SheetNames(wb)
  }

  function Sheet(wb: Workbook, name: string): (ws: Worksheet)
    requires HasSheet(wb, name)
    ensures ws.title == name && ws in wb.sheets
  {
    TitleIndex(wb, name);
    Lookup(wb.sheets, name)
  }

  /** A sheet name is the title of a sheet at some index. */
  lemma TitleIndex(wb: Workbook, name: string)
    requires HasSheet(wb, name)
    ensures exists i :: 0 <= i < |wb.sheets| && wb.sheets[i].title == name
  {
    var names := SheetNames(wb);
    var i :| 0 <= i < |names| && names[i] == name;
    assert wb.sheets[i].title == name;
  }

  /** `ws.row_dimensions[row]`. */
  function RowDimension(ws: Worksheet, row: int): Dimension {
    if row in ws.rowDimensions then ws.rowDimensions[row] else DefaultRowDimension
  }

  /** `ws.column_dimensions[get_column_letter(column)]`. */
  function ColumnDimension(ws: Worksheet, column: int): Dimension {
    if column in ws.columnDimensions then ws.columnDimensions[column] else DefaultColumnDimension
  }
}
