/** Workbook-level extraction: the sheet-name list and the defined-name
    table, with the classifier that tells a plain A1 cell or range reference
    from any other formula. */
module WorkbookInfo {

  import opened Wrappers
  import opened Text
  import opened Tables
  import opened Reader
  import opened Selection

  // ---------------------------------------------------------------------
  // A1 references: what `$?[A-Z]+$?\d+` and its `:`-joined pair accept

  /** A cell reference: optional `$`, column letters, optional `$`, row digits. */
  datatype CellRef = CellRef(absoluteColumn: bool, letters: string, absoluteRow: bool, digits: string)

  predicate AllUpper(s: string) { forall i :: 0 <= i < |s| ==> IsUpper(s[i]) }

  predicate AllDigits(s: string) { forall i :: 0 <= i < |s| ==> IsDigit(s[i]) }

  predicate WellFormedRef(r: CellRef) {
    |r.letters| > 0 && AllUpper(r.letters) && |r.digits| > 0 && AllDigits(r.digits)
  }

  function Dollar(absolute: bool): string { if absolute then "$" else "" }

  function RenderRef(r: CellRef): string {
    Dollar(r.absoluteColumn) + r.letters + Dollar(r.absoluteRow) + r.digits
  }

  /** The number of upper-case letters `s` starts with. */
  function LeadingUpper(s: string): (n: nat)
    ensures n <= |s|
    ensures AllUpper(s[..n])
    ensures n < |s| ==> !IsUpper(s[n])
  {
    if s == [] || !IsUpper(s[0]) then 0
    else
      var n := 1 + LeadingUpper(s[1..]);
      assert forall i :: 1 <= i < n ==> s[..n][i] == s[1..][..n - 1][i - 1];
      n
  }

  /** An optional leading `$`: whether it is there, and what follows it. */
  function SplitDollar(t: string): (r: (bool, string))
    ensures Dollar(r.0) + r.1 == t
  {
    if |t| > 0 && t[0] == '$' then (true, t[1..]) else (false, t)
  }

  lemma SplitDollarOf(absolute: bool, s: string)
    requires s != [] && s[0] != '$'
    ensures SplitDollar(Dollar(absolute) + s) == (absolute, s)
  {
    if !absolute { assert Dollar(absolute) + s == s; }
  }

  /** Reads a whole string as one cell reference, the way the anchored
      pattern does: the classes `$`, `[A-Z]` and `\d` are disjoint, so each
      part has exactly one way to match. */
  function ParseRef(t: string): (r: Option<CellRef>)
    ensures r.Some? ==> WellFormedRef(r.value)
  {
    var column := SplitDollar(t);
    var k := LeadingUpper(column.1);
    if k == 0 then None
    else
      var row := SplitDollar(column.1[k..]);
      if row.1 != [] && AllDigits(row.1) then Some(CellRef(column.0, column.1[..k], row.0, row.1)) else None
  }

  lemma {:induction false} LeadingUpperOf(p: string, q: string)
    requires AllUpper(p)
    requires q != [] && !IsUpper(q[0])
    ensures LeadingUpper(p + q) == |p|
  {
    if p == [] {
      assert p + q == q;
    } else {
      assert (p + q)[0] == p[0];
      assert (p + q)[1..] == p[1..] + q;
      LeadingUpperOf(p[1..], q);
    }
  }

  /** Every well-formed reference reads back as itself. */
  lemma {:induction false} ParseRender(r: CellRef)
    requires WellFormedRef(r)
    ensures ParseRef(RenderRef(r)) == Some(r)
  {
    var q := Dollar(r.absoluteRow) + r.digits;
    var a := r.letters + q;
    assert RenderRef(r) == Dollar(r.absoluteColumn) + a;
    SplitDollarOf(r.absoluteColumn, a);
    assert q[0] == '$' || q[0] == r.digits[0];
    LeadingUpperOf(r.letters, q);
    assert a[..|r.letters|] == r.letters;
    assert a[|r.letters|..] == q;
    SplitDollarOf(r.absoluteRow, r.digits);
  }

  /** Whatever reads as a reference is the rendering of a well-formed one. */
  lemma {:induction false} RenderParse(t: string)
    requires ParseRef(t).Some?
    ensures WellFormedRef(ParseRef(t).value) && RenderRef(ParseRef(t).value) == t
  {
    var column := SplitDollar(t);
    var k := LeadingUpper(column.1);
    var row := SplitDollar(column.1[k..]);
    assert ParseRef(t).value == CellRef(column.0, column.1[..k], row.0, row.1);
    JoinParts(t, Dollar(column.0), column.1, k, Dollar(row.0), row.1);
  }

  /** Putting back the pieces the parser took apart gives the text again. */
  lemma JoinParts(t: string, d1: string, a: string, k: nat, d2: string, rest: string)
    requires d1 + a == t && k <= |a| && d2 + rest == a[k..]
    ensures d1 + a[..k] + d2 + rest == t
  {
    assert a[..k] + a[k..] == a;
    Assoc4(d1, a[..k], d2, rest);
  }

  lemma Assoc4(w: string, x: string, y: string, z: string)
    ensures w + x + y + z == w + (x + (y + z))
  {
  }

  /** Text whose leading letters are followed by something that is neither
      `$` nor a digit is not a reference. */
  lemma {:induction false} NotARef(p: string, q: string)
    requires AllUpper(p)
    requires q != [] && !IsUpper(q[0]) && q[0] != '$' && !IsDigit(q[0])
    ensures ParseRef(p + q).None?
  {
    if p == [] {
      assert p + q == q;
      NoLettersNoRef(q);
    } else {
      LettersThenNoRow(p, q);
    }
  }

  /** Text that starts with neither `$` nor a letter is not a reference. */
  lemma NoLettersNoRef(q: string)
    requires q != [] && !IsUpper(q[0]) && q[0] != '$'
    ensures ParseRef(q).None?
  {
    assert SplitDollar(q) == (false, q);
  }

  /** Letters followed by neither `$` nor a digit are not a reference. */
  lemma {:induction false} LettersThenNoRow(p: string, q: string)
    requires p != [] && AllUpper(p)
    requires q != [] && !IsUpper(q[0]) && q[0] != '$' && !IsDigit(q[0])
    ensures ParseRef(p + q).None?
  {
    var t := p + q;
    assert t[0] == p[0];
    assert SplitDollar(t) == (false, t);
    LeadingUpperOf(p, q);
    assert t[|p|..] == q;
    assert SplitDollar(q) == (false, q);
  }

  lemma NoColonInRef(r: CellRef)
    requires WellFormedRef(r)
    ensures ':' !in RenderRef(r)
  {
  }

  /** A single cell (`A1`, `$A$1`) or a rectangular range (`A1:B10`). */
  datatype RangeRef = Single(cell: CellRef) | Span(first: CellRef, last: CellRef)

  predicate WellFormedRange(g: RangeRef) {
    match g
    case Single(c) => WellFormedRef(c)
    case Span(a, b) => WellFormedRef(a) && WellFormedRef(b)
  }

  function RenderRange(g: RangeRef): string {
    match g
    case Single(c) => RenderRef(c)
    case Span(a, b) => RenderRef(a) + ":" + RenderRef(b)
  }

  /** The four anchored patterns at once: the unmarked ones are the marked
      ones with every `$` absent. */
  function ParseRange(t: string): (r: Option<RangeRef>)
    ensures r.Some? ==> WellFormedRange(r.value)
    ensures r.Some? ==> (r.value.Single? <==> ':' !in t)
  {
    match FirstIndex(t, ':')
    case None =>
      var cell := ParseRef(t);
      if cell.Some? then Some(Single(cell.value)) else None
    case Some(i) =>
      var first, last := ParseRef(t[..i]), ParseRef(t[i + 1..]);
      if first.Some? && last.Some? then Some(Span(first.value, last.value)) else None
  }

  lemma {:induction false} ParseRenderRange(g: RangeRef)
    requires WellFormedRange(g)
    ensures ParseRange(RenderRange(g)) == Some(g)
  {
    match g
    case Single(c) =>
      NoColonInRef(c);
      ParseRender(c);
    case Span(a, b) =>
      var ta, tb := RenderRef(a), RenderRef(b);
      var t := ta + ":" + tb;
      NoColonInRef(a);
      assert t[|ta|] == ':' && t[..|ta|] == ta;
      assert FirstIndex(t, ':') == Some(|ta|);
      assert t[|ta| + 1..] == tb;
      ParseRender(a);
      ParseRender(b);
  }

  lemma {:induction false} RenderParseRange(t: string)
    requires ParseRange(t).Some?
    ensures WellFormedRange(ParseRange(t).value) && RenderRange(ParseRange(t).value) == t
  {
    var colon := FirstIndex(t, ':');
    if colon.None? {
      RenderParse(t);
    } else {
      RenderParseSpan(t, colon.value);
    }
  }

  lemma {:induction false} RenderParseSpan(t: string, i: nat)
    requires i < |t| && t[i] == ':'
    requires ParseRef(t[..i]).Some? && ParseRef(t[i + 1..]).Some?
    ensures WellFormedRef(ParseRef(t[..i]).value) && WellFormedRef(ParseRef(t[i + 1..]).value)
    ensures RenderRef(ParseRef(t[..i]).value) + ":" + RenderRef(ParseRef(t[i + 1..]).value) == t
  {
    RenderParse(t[..i]);
    RenderParse(t[i + 1..]);
    SplitAtColon(t, i, RenderRef(ParseRef(t[..i]).value), RenderRef(ParseRef(t[i + 1..]).value));
  }

  lemma SplitAtColon(t: string, i: nat, x: string, y: string)
    requires i < |t| && t[i] == ':' && x == t[..i] && y == t[i + 1..]
    ensures x + ":" + y == t
  {
    assert t == t[..i] + [t[i]] + t[i + 1..];
  }

  /** `re.sub(r'^[^!]*!', '', f)`: drops everything up to and including the
      first `!`, and nothing when there is none. */
  function AfterSheetPrefix(f: string): (r: string)
    ensures '!' !in f ==> r == f
    ensures '!' in f ==> |r| < |f| && r == f[|f| - |r|..] && f[|f| - |r| - 1] == '!'
                         && '!' !in f[..|f| - |r| - 1]
  {
    match FirstIndex(f, '!')
    case None => f
    case Some(i) => f[i + 1..]
  }

  /** `_is_cell_range`: the sheet prefix dropped, the white space stripped,
      and what is left read by the cell and range patterns. */
  predicate IsCellRange(formula: string)
    ensures Unmarked(formula) ==> (IsCellRange(formula) <==> formula != "" && ParseRange(formula).Some?)
  {
    StripUnpadded(formula);
    formula != "" && ParseRange(Strip(AfterSheetPrefix(formula))).Some?
  }

  /** What the recogniser accepts: non-empty text that, once the sheet
      prefix and the surrounding white space are gone, is the rendering of a
      well-formed cell or range reference. */
  lemma IsCellRangeMeaning(formula: string)
    ensures formula == "" ==> !IsCellRange(formula)
    ensures IsCellRange(formula) <==>
              (formula != "" && exists g :: WellFormedRange(g) && RenderRange(g) == Strip(AfterSheetPrefix(formula)))
  {
    var t := Strip(AfterSheetPrefix(formula));
    if ParseRange(t).Some? {
      RenderParseRange(t);
    }
    if g :| WellFormedRange(g) && RenderRange(g) == t {
      ParseRenderRange(g);
    }
  }

  lemma IsCellRangeOf(f: string, g: RangeRef)
    requires f != "" && WellFormedRange(g) && RenderRange(g) == Strip(AfterSheetPrefix(f))
    ensures IsCellRange(f)
  {
    ParseRenderRange(g);
  }

  /** Text with no sheet prefix and no white space at either end, which the
      recogniser therefore sees as it is. */
  predicate Unmarked(f: string) {
    '!' !in f && (f != [] ==> !IsSpace(f[0]) && !IsSpace(f[|f| - 1]))
  }

  lemma SheetPrefixDropped()
    ensures AfterSheetPrefix("Sheet1!A1:B10") == "A1:B10"
  {
    var f := "Sheet1!A1:B10";
    assert f[..6] == "Sheet1";
    FirstIndexAt(f, '!', 6);
    assert f[7..] == "A1:B10";
  }

  /** A range written after a sheet prefix, with no padding around it. */
  lemma {:induction false} RangeAfterPrefix(f: string, t: string, g: RangeRef)
    requires f != "" && AfterSheetPrefix(f) == t && Unmarked(t)
    requires WellFormedRange(g) && RenderRange(g) == t
    ensures IsCellRange(f)
  {
    StripUnpadded(t);
    IsCellRangeOf(f, g);
  }

  lemma QualifiedRangeParts()
    ensures WellFormedRange(Span(CellRef(false, "A", false, "1"), CellRef(false, "B", false, "10")))
    ensures RenderRange(Span(CellRef(false, "A", false, "1"), CellRef(false, "B", false, "10"))) == "A1:B10"
    ensures Unmarked("A1:B10")
  {
  }

  lemma SheetQualifiedRangeExample()
    ensures IsCellRange("Sheet1!A1:B10")
  {
    SheetPrefixDropped();
    QualifiedRangeParts();
    RangeAfterPrefix("Sheet1!A1:B10", "A1:B10", Span(CellRef(false, "A", false, "1"), CellRef(false, "B", false, "10")));
  }

  lemma AbsoluteCellParts()
    ensures WellFormedRange(Single(CellRef(true, "A", true, "1")))
    ensures RenderRange(Single(CellRef(true, "A", true, "1"))) == "$A$1"
    ensures Unmarked("$A$1") && AfterSheetPrefix("$A$1") == "$A$1"
  {
  }

  lemma AbsoluteCellExample()
    ensures IsCellRange("$A$1")
  {
    AbsoluteCellParts();
    RangeAfterPrefix("$A$1", "$A$1", Single(CellRef(true, "A", true, "1")));
  }

  /** Leading letters followed by anything but `$` or a digit: no range. */
  lemma {:induction false} LettersThenOther(f: string, p: string, q: string)
    requires f == p + q && AllUpper(p)
    requires q != [] && !IsUpper(q[0]) && q[0] != '$' && !IsDigit(q[0]) && !IsSpace(q[0]) && !IsSpace(q[|q| - 1])
    requires ':' !in q && '!' !in q
    ensures !IsCellRange(f)
  {
    NotARef(p, q);
    assert f[0] == (if p == [] then q[0] else p[0]);
    assert f[|f| - 1] == q[|q| - 1];
    assert ':' !in f && '!' !in f by {
      forall k | 0 <= k < |f| ensures f[k] != ':' && f[k] != '!' {
        if k >= |p| { assert f[k] == q[k - |p|]; }
      }
    }
    assert Unmarked(f);
  }

  lemma FunctionCallParts()
    ensures Unmarked("SUM(A1:A10)") && ':' !in "SUM(A1"
    ensures "SUM(A1:A10)" == "SUM(A1" + ":" + "A10)"
  {
  }

  lemma FunctionCallDoesNotParse()
    ensures ParseRange("SUM(A1:A10)").None?
  {
    FunctionCallParts();
    BadFirstHalf("SUM(A1:A10)", "SUM(A1", "A10)", "SUM", "(A1");
  }

  /** The function call the recogniser's own documentation names. */
  lemma FunctionCallExample()
    ensures !IsCellRange("SUM(A1:A10)")
  {
    FunctionCallParts();
    FunctionCallDoesNotParse();
  }

  /** A span whose first half is not a reference is not a range. */
  lemma {:induction false} BadFirstHalf(f: string, x: string, y: string, p: string, q: string)
    requires f == x + ":" + y && x == p + q && AllUpper(p)
    requires q != [] && !IsUpper(q[0]) && q[0] != '$' && !IsDigit(q[0])
    requires ':' !in x
    ensures ParseRange(f).None?
  {
    NotARef(p, q);
    assert f[..|x|] == x && f[|x|] == ':';
    FirstIndexAt(f, ':', |x|);
  }

  lemma NoMarksInDottedName()
    ensures Unmarked("Data.A1:B4") && ':' !in "Data.A1"
  {
  }

  lemma DottedNameDoesNotParse()
    ensures ParseRange("Data.A1:B4").None?
  {
    NoMarksInDottedName();
    BadFirstHalf("Data.A1:B4", "Data.A1", "B4", "D", "ata.A1");
  }

  lemma DottedNameExample()
    ensures !IsCellRange("Data.A1:B4")
  {
    NoMarksInDottedName();
    DottedNameDoesNotParse();
  }

  lemma LowerCaseExample()
    ensures !IsCellRange("a1")
    ensures !IsCellRange("")
  {
    var f := "a1";
    NotARef("", f);
    assert ':' !in f && '!' !in f;
    assert ParseRange(f).None?;
    assert Unmarked(f);
  }

  // ---------------------------------------------------------------------
  // Sheet names

  /** `xlsx_sheet_names`: the extension check, then the titles in workbook order. */
  function XlsxSheetNames(path: string, wb: Workbook, checkFiletype: bool): (r: Result<seq<string>, Failure>)
    ensures r.Err? <==> checkFiletype && !HasSpreadsheetExtension(path)
    ensures r.Err? ==> r.error == WrongFileType
    ensures r.Ok? ==> |r.value| == |wb.sheets| && forall i :: 0 <= i < |r.value| ==> r.value[i] == wb.sheets[i].title
  {
    match CheckFiletype(path, checkFiletype)
    case Some(failure) => Err(failure)
    case None => Ok(SheetNames(wb))
  }

  // ---------------------------------------------------------------------
  // Defined names

  /** One row of the defined-name table; `sheet` is None for a global name. */
  datatype NameRecord = NameRecord(
    sheet: Option<string>,
    name: string,
    formula: string,
    comment: Option<string>,
    hidden: Option<bool>,
    isRange: bool)

  const NameColumns: seq<string> := ["sheet", "name", "formula", "comment", "hidden", "is_range"]

  /** The scope of a defined name: the sheet its index points at, or global
      when there is no index or it is past the last sheet. */
  function ScopeOf(sheetNames: seq<string>, localSheetId: Option<nat>): (r: Option<string>)
    ensures r.Some? <==> localSheetId.Some? && localSheetId.value < |sheetNames|
    ensures r.Some? ==> r.value == sheetNames[localSheetId.value] && r.value in sheetNames
  {
    if localSheetId.Some? && localSheetId.value < |sheetNames| then Some(sheetNames[localSheetId.value]) else None
  }

  /** One defined name's record, with the defaults for missing fields. */
  function NameRecordOf(sheetNames: seq<string>, d: DefinedName): (r: NameRecord)
    ensures r.sheet == ScopeOf(sheetNames, d.localSheetId) && r.name == d.name
    ensures d.attrText.None? || d.attrText == Some("") ==> r.formula == "" && !r.isRange
    ensures d.attrText.Some? ==> r.formula == d.attrText.value
    ensures r.isRange == IsCellRange(r.formula)
    ensures r.hidden == (if d.hidden.Missing? then Some(false) else d.hidden.value)
    ensures r.comment == d.comment
  {
    var formula := if d.attrText.Some? && d.attrText.value != "" then d.attrText.value else "";
    NameRecord(
      sheet := ScopeOf(sheetNames, d.localSheetId),
      name := d.name,
      formula := formula,
      comment := d.comment,
      hidden := match d.hidden { case Missing => Some(false) case Has(h) => h },
      isRange := IsCellRange(formula))
  }

  /** The records for the workbook's defined names, in their order. */
  function NameRecords(wb: Workbook, names: seq<DefinedName>): seq<NameRecord> {
    if names == [] then []
    else NameRecords(wb, names[..|names| - 1]) + [NameRecordOf(SheetNames(wb), names[|names| - 1])]
  }

  lemma {:induction false} NameRecordsOneEach(wb: Workbook, names: seq<DefinedName>)
    ensures |NameRecords(wb, names)| == |names|
    ensures forall i :: 0 <= i < |names| ==> NameRecords(wb, names)[i] == NameRecordOf(SheetNames(wb), names[i])
  {
    if names != [] {
      NameRecordsOneEach(wb, names[..|names| - 1]);
    }
  }

  /** The loop over the defined names. */
  method CollectNames(wb: Workbook) returns (records: seq<NameRecord>)
    ensures records == NameRecords(wb, wb.definedNames)
  {
    records := [];
    var sheetNames := SheetNames(wb);
    var i := 0;
    while i < |wb.definedNames|
      invariant 0 <= i <= |wb.definedNames|
      invariant records == NameRecords(wb, wb.definedNames[..i])
    {
      records := records + [NameRecordOf(sheetNames, wb.definedNames[i])];
      assert wb.definedNames[..i + 1][..i] == wb.definedNames[..i];
      i := i + 1;
    }
    assert wb.definedNames[..i] == wb.definedNames;
  }

  /** Scope, with global as the empty string, then name. */
  function NameKey(r: NameRecord): SortKey {
    [KStr(r.sheet.GetOr("")), KStr(r.name)]
  }

  /** In the sorted table every global name comes before every sheet-scoped
      one, as long as no sheet has the empty name. */
  lemma GlobalNamesFirst(rows: seq<NameRecord>)
    requires SortedBy(rows, NameKey)
    requires forall i :: 0 <= i < |rows| && rows[i].sheet.Some? ==> rows[i].sheet.value != ""
    ensures forall i, j :: 0 <= i < |rows| && 0 <= j < |rows| && rows[i].sheet.None? && rows[j].sheet.Some? ==> i < j
  {
    forall i, j | 0 <= i < |rows| && 0 <= j < |rows| && rows[i].sheet.None? && rows[j].sheet.Some?
      ensures i < j
    {
      if j < i {
        var s := rows[j].sheet.value;
        assert KeyLe(NameKey(rows[j]), NameKey(rows[i]));
        assert NameKey(rows[i])[0] == KStr("");
        assert NameKey(rows[j])[0] == KStr(s);
        assert StrLe(s, "") || s == "";
        EmptyIsLeast(s);
      }
    }
  }

  /** `xlsx_names`: the extension check, one record per defined name, the
      fixed columns, and the rows sorted global-first by (scope, name). */
  method XlsxNames(path: string, wb: Workbook, checkFiletype: bool) returns (r: Result<Table<NameRecord>, Failure>)
    ensures r.Err? <==> checkFiletype && !HasSpreadsheetExtension(path)
    ensures r.Err? ==> r.error == WrongFileType
    ensures r.Ok? ==> r.value.columns == NameColumns
    ensures r.Ok? ==> r.value.rows == SortByKey(NameRecords(wb, wb.definedNames), NameKey)
    ensures r.Ok? ==> SortedBy(r.value.rows, NameKey)
    ensures r.Ok? ==> |r.value.rows| == |wb.definedNames|
    ensures r.Ok? ==> multiset(r.value.rows) == multiset(NameRecords(wb, wb.definedNames))
    ensures r.Ok? ==> forall i :: 0 <= i < |r.value.rows| ==> r.value.rows[i].isRange == IsCellRange(r.value.rows[i].formula)
    ensures r.Ok? && (forall k :: 0 <= k < |wb.sheets| ==> wb.sheets[k].title != "") ==>
              forall i, j :: (0 <= i < |r.value.rows| && 0 <= j < |r.value.rows|
                              && r.value.rows[i].sheet.None? && r.value.rows[j].sheet.Some?) ==> i < j
  {
    var bad := CheckFiletype(path, checkFiletype);
    if bad.Some? {
      return Err(bad.value);
    }
    var records := CollectNames(wb);
    NameRecordsOneEach(wb, wb.definedNames);
    SortedNameRanges(wb);
    if forall k :: 0 <= k < |wb.sheets| ==> wb.sheets[k].title != "" {
      GlobalNamesLead(wb);
    }
    if records == [] {
      return Ok(Table(NameColumns, []));
    }
    return Ok(Table(NameColumns, SortByKey(records, NameKey)));
  }

  /** Each row of the names table is the record of a defined name, so its
      range flag is the recogniser's verdict on its formula. */
  lemma SortedNameRanges(wb: Workbook)
    ensures var rows := SortByKey(NameRecords(wb, wb.definedNames), NameKey);
            forall i :: 0 <= i < |rows| ==> rows[i].isRange == IsCellRange(rows[i].formula)
  {
    var all := NameRecords(wb, wb.definedNames);
    NameRecordsOneEach(wb, wb.definedNames);
    var rows := SortByKey(all, NameKey);
    forall i | 0 <= i < |rows| ensures rows[i].isRange == IsCellRange(rows[i].formula) {
      assert rows[i] in multiset(all);
      var k :| 0 <= k < |all| && all[k] == rows[i];
    }
  }

  /** With non-empty sheet titles, the global names lead the names table:
      every scoped row is scoped to a sheet title, so its sort key is not the
      empty string global rows sort by. */
  lemma GlobalNamesLead(wb: Workbook)
    requires forall k :: 0 <= k < |wb.sheets| ==> wb.sheets[k].title != ""
    ensures var rows := SortByKey(NameRecords(wb, wb.definedNames), NameKey);
            forall i, j :: 0 <= i < |rows| && 0 <= j < |rows| && rows[i].sheet.None? && rows[j].sheet.Some? ==> i < j
  {
    var all := NameRecords(wb, wb.definedNames);
    NameRecordsOneEach(wb, wb.definedNames);
    var rows := SortByKey(all, NameKey);
    var names := SheetNames(wb);
    forall i | 0 <= i < |rows| && rows[i].sheet.Some? ensures rows[i].sheet.value != "" {
      assert rows[i] in multiset(all);
      var k :| 0 <= k < |all| && all[k] == rows[i];
      var index := wb.definedNames[k].localSheetId.value;
      assert rows[i].sheet.value == names[index];
    }
    GlobalNamesFirst(rows);
  }

}
