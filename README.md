# tidyxl extraction core in Dafny

This project models the core of the tidyxl Python package, which turns an
Excel workbook (`.xlsx`/`.xlsm`) into tidy tables. Its main output is one
record per cell, carrying:

- the cell's semantic data type, and exactly the one typed-value column
  that type calls for;
- its formula metadata and comment;
- its row and column layout.

Beside the cells it extracts:

- the sheet-name list;
- the defined-name table, with a recogniser for plain A1 cell and range
  references;
- the data-validation table.

It also models an older duplicate implementation (`core.py`), to state
where it diverges from the exported one.

The parsed workbook is an input value (`Reader`): sheets in workbook order,
each with its rows of cells, its row and column dimensions and its
validation rules, plus the workbook's defined names. The entry points
that extract cells, names and validation rules are methods:

1. each runs the argument checks (`Selection`);
2. it walks the selected sheets, or the defined names, with loops that
   append to a record list;
3. it returns a `Table` (column names and rows), or a `Failure` standing
   for the `ValueError` the source raises.

The sheet-name list has no loop of its own and is a function.

Each walk is proved equal to a prefix-recursive specification function.
Lemmas about those functions prove what the source promises:

- blank filtering;
- slot exclusivity;
- membership in the selection;
- sorting and permutation;
- the round trip between rendering and parsing a reference;
- global-first ordering of names;
- the empty-table schemas.

Modules, one per file:

- `text.dfy`: `Wrappers` (Option, Result) and `Text`, the Python string
  operations the source uses (`lower`, `strip`, `endswith`, `in`, `<=`),
  ASCII only.
- `tables.dfy`: `Tables`. A DataFrame is columns plus rows. `sort_values`
  over several columns is a stable sort on a lexicographic key in which a
  missing value sorts last.
- `reader.dfy`: `Reader`, the parsed workbook.
- `selection.dfy`: `Selection`, the extension check, sheet resolution and
  fail-fast sheet validation, shared by every entry point.
- `cells.dfy`: `Cells`, from `cells.py`.
- `workbook.dfy`: `WorkbookInfo`, from `workbook.py`.
- `validation.dfy`: `Validation`, from `validation.py`.
- `core.dfy`: `Legacy`, from `core.py`. It reuses the walks and record
  builders above, with its own classifier and its own empty-result rule.

## Model

| member | source | states |
|---|---|---|
| Text.Lower | tidyxl/cells.py:67 | lower-casing keeps the length and maps each character to its lower-case form |
| Text.StripMeaning | tidyxl/workbook.py:154 | stripping yields an infix of the input, drops only white space at either end, and leaves text that neither starts nor ends with white space |
| Tables.SortByKey | tidyxl/cells.py:165 | the sorted rows are ordered by the key and are a permutation of the input rows |
| Tables.KeyLeTotal | tidyxl/cells.py:165 | any two sort keys are comparable |
| Tables.KeyLeTransitive | tidyxl/cells.py:165 | the multi-column order is transitive |
| Reader.SheetNames | tidyxl/cells.py:75 | the sheet names are the sheet titles in workbook order |
| Reader.Sheet | tidyxl/cells.py:90 | looking a sheet up by name yields a sheet of the workbook with that title |
| Selection.CheckFiletype | tidyxl/cells.py:66-68 | fails exactly when the check is on and the lower-cased path ends in neither `.xlsx` nor `.xlsm`; never fails when the check is off |
| Selection.ExtensionIgnoresCase | tidyxl/cells.py:67 | the extension test gives the same answer for a path and its lower-cased form |
| Selection.AcceptsUpperCaseExtension | tidyxl/cells.py:67 | `BOOK.XLSM` passes the extension test |
| Selection.RejectsOtherExtensions | tidyxl/validation.py:51-53 | `test.txt` and `book.xls` fail the extension test |
| Selection.Resolve | tidyxl/cells.py:74-79 | no selection means all sheets in workbook order, one name means that name alone, and a list is used as given |
| Selection.FirstMissing | tidyxl/cells.py:82-85 | None exactly when every requested sheet exists, otherwise the first requested sheet that does not |
| Selection.FindMissingSheet | tidyxl/cells.py:82-85 | the validation loop stops at exactly the first unknown sheet |
| Selection.CheckArguments | tidyxl/cells.py:65-85 | the extension failure takes precedence; success means every resolved sheet exists; otherwise the failure names the first missing sheet and lists the available titles |
| Cells.IsBlank | tidyxl/cells.py:96 | a cell counted as blank is classified as blank with every typed slot empty |
| Cells.LabelsDistinct | tidyxl/cells.py:196-230 | the `data_type` strings name the seven data types one-to-one |
| Cells.AtMostOneSlot | tidyxl/cells.py:187-230 | under the slot invariant at most one typed slot is filled, and none exactly for blank and formula |
| Cells.IsDateFormat | tidyxl/cells.py:233-256 | true exactly when a format is present and its lower-cased text contains one of `d m y h s : / -` |
| Cells.NoFormatIsNotDate | tidyxl/cells.py:248-249 | an absent or empty format is not a date format |
| Cells.FixedPointIsNotDate | tidyxl/cells.py:252-256 | `0.00` is not a date format |
| Cells.GeneralIsNotDate | tidyxl/cells.py:252-256 | `General` is not a date format |
| Cells.IsoDateIsDate | tidyxl/cells.py:252-256 | `yyyy-mm-dd` is a date format |
| Cells.ClockTimeIsDate | tidyxl/cells.py:252-256 | `HH:MM` is a date format |
| Cells.Classify | tidyxl/cells.py:170-230 | the slot invariant holds; blank iff no value; formula iff a value under tag `f`; a value under tag `e` is an error holding its text, one under `b` is logical holding its truth value, and one under any other tag or none is character data holding its text; a numeric-tagged value is a date exactly when the heuristic holds and the conversion succeeds, and numeric otherwise |
| Cells.BlankImpliesBlankType | tidyxl/cells.py:96 | the blank flag implies the blank data type, and the blank data type without the flag happens exactly for a missing value under a non-numeric tag |
| Cells.GetFormulaInfo | tidyxl/cells.py:259-292 | a formula is reported only for tag `f` with a truthy value, and it is the value's text; the array flag needs a formula and an array marker; the group is reported only with a formula; the reference is always missing |
| Cells.MakeRecord | tidyxl/cells.py:102-147 | the record names the cell's sheet, address, row and column, carries its classification and has content exactly when the cell has a value; any classifier that keeps the slot invariant and the blank and formula tests yields a record satisfying the record invariant |
| Cells.RecordWellFormed | tidyxl/cells.py:102-147 | every record built with the classifier satisfies the record invariant and names its sheet |
| Cells.LayoutDefaults | tidyxl/cells.py:114-120 | a row without a dimension entry has no height, a column without one has the reader's default width of 13, and a missing entry or unset outline level gives outline level 0 |
| Cells.FormulaTextKept | tidyxl/cells.py:281-282 | a formula starting with `=` is reported as is, with the formula data type and no typed value |
| Cells.AppendRow | tidyxl/cells.py:94-149 | the cell loop appends exactly the records of the row's cells that the blank filter lets through, in order |
| Cells.AppendSheet | tidyxl/cells.py:93-149 | the row loop appends exactly the records of the sheet's cells, row after row |
| Cells.CollectCells | tidyxl/cells.py:89-149 | the sheet loop builds exactly the specified record list, sheet after sheet |
| Cells.CollectedBlankFilter | tidyxl/cells.py:98-100 | leaving blanks out gives the full result minus exactly its blank records, so it is never longer |
| Cells.CollectedFrom | tidyxl/cells.py:89-149 | every record was built from a cell of a requested sheet that passed the blank filter |
| Cells.CollectedRecords | tidyxl/cells.py:89-149 | every record belongs to a requested sheet and satisfies the record invariant, and with blanks excluded none is blank |
| Cells.SortedRecords | tidyxl/cells.py:162-165 | the sorted rows keep every per-record property |
| Cells.OneSheetIsSubset | tidyxl/cells.py:74-79 | reading one sheet yields a sub-multiset of reading any list containing it, so never more rows |
| Cells.CellKeyOrder | tidyxl/cells.py:165 | rows are ordered by sheet name, then row, then column |
| Cells.XlsxCells | tidyxl/cells.py:12-167 | fails exactly as the argument checks say; otherwise the fixed 23 columns (also when empty), rows sorted by (sheet, row, col) that are a permutation of the collected records, each of a requested sheet, satisfying the record invariant, and none blank when blanks are excluded |
| WorkbookInfo.ParseRef | tidyxl/workbook.py:150 | whatever the anchored cell pattern accepts is a well-formed reference: non-empty upper-case letters and non-empty digits |
| WorkbookInfo.ParseRange | tidyxl/workbook.py:147-152 | whatever the anchored patterns accept is a well-formed cell or range reference, and a single cell exactly when the text has no `:` |
| WorkbookInfo.ParseRender | tidyxl/workbook.py:150 | every well-formed cell reference parses back to itself |
| WorkbookInfo.RenderParse | tidyxl/workbook.py:150 | whatever parses as a cell reference is well-formed and renders back to the same text |
| WorkbookInfo.ParseRenderRange | tidyxl/workbook.py:147-152 | every well-formed cell or range reference parses back to itself |
| WorkbookInfo.RenderParseRange | tidyxl/workbook.py:147-152 | whatever parses as a cell or range reference is well-formed and renders back to the same text |
| WorkbookInfo.AfterSheetPrefix | tidyxl/workbook.py:144 | without a `!` the text is unchanged; otherwise exactly the part after the first `!` remains |
| WorkbookInfo.IsCellRange | tidyxl/workbook.py:125-154 | for text with no `!` and no white space at either end, true exactly when the text is non-empty and the anchored patterns accept it as written |
| WorkbookInfo.IsCellRangeMeaning | tidyxl/workbook.py:125-154 | false for empty text; otherwise true exactly when the text, with its sheet prefix dropped and stripped, renders some well-formed cell or range reference |
| WorkbookInfo.SheetQualifiedRangeExample | tidyxl/workbook.py:144-154 | `Sheet1!A1:B10` is a range |
| WorkbookInfo.AbsoluteCellExample | tidyxl/workbook.py:150 | `$A$1` is a range |
| WorkbookInfo.FunctionCallExample | tidyxl/workbook.py:147-154 | `SUM(A1:A10)` is not a range |
| WorkbookInfo.DottedNameExample | tidyxl/workbook.py:147-154 | `Data.A1:B4` is not a range |
| WorkbookInfo.LowerCaseExample | tidyxl/workbook.py:140-154 | `a1` and the empty text are not ranges |
| WorkbookInfo.XlsxSheetNames | tidyxl/workbook.py:12-43 | fails exactly when the check is on and the extension is wrong; otherwise the sheet titles in workbook order |
| WorkbookInfo.ScopeOf | tidyxl/workbook.py:86-91 | a sheet scope exactly when an index is set and below the sheet count, and then the sheet at that index |
| WorkbookInfo.NameRecordOf | tidyxl/workbook.py:93-104 | scope and name as defined; formula text empty when absent or empty; hidden false when the attribute is absent; comment carried over; the range flag is the recogniser's verdict on the formula |
| WorkbookInfo.NameRecordsOneEach | tidyxl/workbook.py:84-106 | exactly one record per defined name, in order |
| WorkbookInfo.CollectNames | tidyxl/workbook.py:80-106 | the names loop builds exactly that record list |
| WorkbookInfo.GlobalNamesFirst | tidyxl/workbook.py:118-120 | in rows sorted by (scope or empty, name), every global name precedes every scoped one when no scope is empty |
| WorkbookInfo.SortedNameRanges | tidyxl/workbook.py:93-120 | every sorted row's range flag is the recogniser's verdict on its formula |
| WorkbookInfo.GlobalNamesLead | tidyxl/workbook.py:86-120 | with non-empty sheet titles every global name precedes every scoped one in the names table |
| WorkbookInfo.XlsxNames | tidyxl/workbook.py:46-122 | fails exactly on a wrong extension with the check on; otherwise the fixed 6 columns (also when empty), one row per defined name, sorted and a permutation of the records, global names first |
| Validation.RuleRecordOf | tidyxl/validation.py:81-96 | the record names its sheet; `ref` is present exactly when the covered cells are non-empty; the record describes its rule exactly, up to an empty cell list |
| Validation.RuleRecordInjective | tidyxl/validation.py:81-96 | two rules of a sheet whose covered-cell lists are not empty strings give distinct records unless they are the same rule |
| Validation.RuleRecords | tidyxl/validation.py:80-98 | one record per rule, in order |
| Validation.AppendRules | tidyxl/validation.py:79-98 | the rule loop appends exactly one record per rule, and none for a sheet without a rule list |
| Validation.CollectRules | tidyxl/validation.py:72-98 | the sheet loop builds exactly the specified record list |
| Validation.CollectedFrom | tidyxl/validation.py:75-98 | every record describes a rule of a requested sheet |
| Validation.CollectedCount | tidyxl/validation.py:75-98 | there are as many records as the requested sheets have rules |
| Validation.MissingRefLast | tidyxl/validation.py:116 | within one sheet, a rule without covered cells sorts after every rule with them |
| Validation.OneSheetIsSubset | tidyxl/validation.py:59-64 | reading one sheet yields a sub-multiset of reading any list containing it |
| Validation.SortedRules | tidyxl/validation.py:113-116 | every sorted row describes a rule of a requested sheet |
| Validation.XlsxValidation | tidyxl/validation.py:10-118 | fails exactly as the argument checks say; otherwise the fixed 14 columns (also when empty), rows sorted by (sheet, ref) that are a permutation of one record per (sheet, rule), each of a requested sheet |
| Legacy.Classify | tidyxl/core.py:238-299 | a formula-tagged value is character data where the newer classifier says formula, holding the value's text when that value is truthy and nothing otherwise; every other cell is classified identically; the slot invariant fails exactly for a formula whose value is falsy |
| Legacy.FalsyFormulaHasNoCharacter | tidyxl/core.py:291-295 | every formula cell whose value is falsy is character data with all five slots empty, which breaks the slot invariant |
| Legacy.RecordAgainstNewer | tidyxl/core.py:101-150 | a cell's older record equals its newer one except that a formula record becomes a character record |
| Legacy.CollectedAgainstNewer | tidyxl/core.py:89-150 | the older walk yields the newer walk's records in the same order, differing only on formula cells |
| Legacy.NoFormulaRecords | tidyxl/core.py:291-295 | the older table never has the formula data type |
| Legacy.ColumnsFor | tidyxl/core.py:152-159 | a table built from no records has no columns |
| Legacy.XlsxCells | tidyxl/core.py:13-159 | the same checks and sorted rows as the newer version under the older classifier, no formula rows, and no columns when empty |
| Legacy.XlsxNames | tidyxl/core.py:398-471 | the same rows as the newer version, sorted only when there are any, and no columns when there are no names |
| Legacy.XlsxValidation | tidyxl/core.py:474-574 | the same checks and rows as the newer version, and no columns when there are no rules |

## Left out

- `xlsx_formats` (`formats.py`, and its copy in `core.py`) is not part of
  this model. It only copies fields of the reader's private style tables
  and makes no decisions.
- Loading and closing the workbook (`load_workbook`, `try`/`finally`) is
  I/O. The parsed workbook is an input value.
- The reader's own conversions are kept abstract:
  - each value's `str`, `bool` and `float` conversions are fields of
    `RawValue`, so there is no floating-point reasoning;
  - the serial-to-date conversion is an optional `DateTime`, None where it
    raises;
  - a cell comment is its text.
- Column dimensions are keyed by column number, because the column-letter
  conversion is a one-to-one renaming.
- A dimension entry's size is optional for rows and columns alike. The
  reader always gives a column entry a width, so the model admits column
  entries without one that the reader never produces.
- Cell styles, the number-format identity and the shared-formula identity
  are opaque values. The source takes them from object identities.
- Chart sheets are not modelled. A sheet with no validation list stands for
  a sheet without the `data_validations` attribute.
- Sorting is specified as a stable insertion sort, so rows with equal keys
  keep their order. That tie order is not a property the source promises.
  A missing `ref` sorts last.
- A non-empty table's columns are the record fields, in the same order as
  the fixed schema.
- Letter case, white space and `\d` are ASCII only. Python's Unicode case
  mapping, white space and digits are not modelled.
- A defined name's `localSheetId` is unsigned, so Python's negative
  indexing of the sheet list is not modelled.
- The `_is_cell_range`, `_is_date_format` and `_get_formula_info` copies in
  `core.py` are the same code as the newer ones. The older entry points use
  `WorkbookInfo.IsCellRange`, `Cells.IsDateFormat` and
  `Cells.GetFormulaInfo` directly.
- Legacy.XlsxCells: does not promise the record invariant. The older
  classifier breaks it for a formula whose value is falsy
  (`Legacy.FalsyFormulaHasNoCharacter`).
- The first two range patterns (without `$`) are not modelled separately.
  They are the last two with every `$` absent, so one recogniser covers
  all four.
