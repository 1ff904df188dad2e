/** The argument checks every extraction entry point performs before any
    work: the file-extension test and the resolution and fail-fast
    validation of the requested sheets. */
module Selection {

  import opened Wrappers
  import opened Text
  import opened Reader

  /** The `ValueError`s the entry points raise on bad arguments. */
  datatype Failure =
    | WrongFileType
    | SheetNotFound(sheet: string, available: seq<string>)

  /** The `sheets` argument: None, one name, or a list of names. */
  datatype SheetSelection = AllSheets | OneSheet(name: string) | SheetList(names: seq<string>)

  /** `path.lower().endswith(('.xlsx', '.xlsm'))`. */
  predicate HasSpreadsheetExtension(path: string) {
    EndsWith(Lower(path), ".xlsx") || EndsWith(Lower(path), ".xlsm")
  }

  /** The file-type check: raises only when it is enabled and the
      extension, in any letter case, is neither `.xlsx` nor `.xlsm`. */
  function CheckFiletype(path: string, checkFiletype: bool): (r: Option<Failure>)
    ensures r.Some? <==> checkFiletype && !HasSpreadsheetExtension(path)
    ensures r.Some? ==> r.value == WrongFileType
    ensures !checkFiletype ==> r.None?
  {
    if checkFiletype && !HasSpreadsheetExtension(path) then Some(WrongFileType) else None
  }

  lemma {:induction false} ExtensionIgnoresCase(path: string)
    ensures HasSpreadsheetExtension(path) <==> HasSpreadsheetExtension(Lower(path))
  {
    LowerIdempotent(path);
  }

  /** A path whose last five characters lower-case to `.xlsx` or `.xlsm`
      passes the extension test. */
  lemma AcceptedIf(path: string, suffix: string)
    requires suffix == ".xlsx" || suffix == ".xlsm"
    requires |suffix| <= |path|
    requires forall k :: 0 <= k < |suffix| ==> LowerChar(path[|path| - |suffix| + k]) == suffix[k]
    ensures HasSpreadsheetExtension(path)
  {
    var l := Lower(path);
    assert l[|l| - |suffix|..] == suffix;
  }

  /** A path whose last character lower-cases to neither `x` nor `m` fails
      the extension test. */
  lemma RejectedIf(path: string)
    requires path != [] && LowerChar(path[|path| - 1]) != 'x' && LowerChar(path[|path| - 1]) != 'm'
    ensures !HasSpreadsheetExtension(path)
  {
    var l := Lower(path);
    if |l| >= 5 {
      assert l[|l| - 5..][4] == l[|l| - 1];
    }
  }

  lemma AcceptsUpperCaseExtension()
    ensures HasSpreadsheetExtension("BOOK.XLSM")
  {
    AcceptedIf("BOOK.XLSM", ".xlsm");
  }

  lemma RejectsOtherExtensions()
    ensures !HasSpreadsheetExtension("test.txt")
    ensures !HasSpreadsheetExtension("book.xls")
  {
    RejectedIf("test.txt");
    RejectedIf("book.xls");
  }

  /** The list of sheets to process, in the order they will be processed. */
  function Resolve(sheets: SheetSelection, wb: Workbook): (names: seq<string>)
    ensures sheets.AllSheets? ==> names == SheetNames(wb)
    ensures sheets.OneSheet? ==> names == [sheets.name]
    ensures sheets.SheetList? ==> names == sheets.names
  {
    match sheets
    case AllSheets => SheetNames(wb)
    case OneSheet(name) => [name]
    case SheetList(names) => names
  }

  /** The first requested sheet that is not available, if any. */
  function FirstMissing(requested: seq<string>, available: seq<string>): (r: Option<string>)
    ensures r.None? <==> forall i :: 0 <= i < |requested| ==> requested[i] in available
    ensures r.Some? ==> exists i :: (0 <= i < |requested| && requested[i] == r.value
                                     && requested[i] !in available
                                     && forall j :: 0 <= j < i ==> requested[j] in available)
  {
    if requested == [] then None
    else if requested[0] !in available then Some(requested[0])
    else
      var rest := FirstMissing(requested[1..], available);
      assert forall i :: 1 <= i < |requested| ==> requested[i] == requested[1..][i - 1];
      rest
  }

  /** The validation loop: stops at the first requested sheet that the
      workbook does not have. */
  method FindMissingSheet(requested: seq<string>, available: seq<string>) returns (missing: Option<string>)
    ensures missing == FirstMissing(requested, available)
  {
    var i := 0;
    while i < |requested|
      invariant 0 <= i <= |requested|
      invariant forall j :: 0 <= j < i ==> requested[j] in available
      invariant FirstMissing(requested, available) == FirstMissing(requested[i..], available)
    {
      if requested[i] !in available {
        return Some(requested[i]);
      }
      assert requested[i..][1..] == requested[i + 1..];
      i := i + 1;
    }
    return None;
  }

  /** Every sheet in `names` exists in the workbook. */
  predicate AllPresent(wb: Workbook, names: seq<string>) {
    forall i :: 0 <= i < |names| ==> HasSheet(wb, names[i])
  }

  /** Every check before the workbook is walked: the extension first, then
      the requested sheets. On success, the resolved sheets all exist. */
  function CheckArguments(path: string, checkFiletype: bool, wb: Workbook, sheets: SheetSelection): (r: Option<Failure>)
    ensures r.None? ==> AllPresent(wb, Resolve(sheets, wb))
    ensures r.None? <==> (!checkFiletype || HasSpreadsheetExtension(path))
                          && FirstMissing(Resolve(sheets, wb), SheetNames(wb)).None?
    ensures r == Some(WrongFileType) <==> checkFiletype && !HasSpreadsheetExtension(path)
    ensures (!checkFiletype || HasSpreadsheetExtension(path))
            && FirstMissing(Resolve(sheets, wb), SheetNames(wb)).Some? ==>
              r == Some(SheetNotFound(FirstMissing(Resolve(sheets, wb), SheetNames(wb)).value, SheetNames(wb)))
  {
    if CheckFiletype(path, checkFiletype).Some? then Some(WrongFileType)
    else
      match FirstMissing(Resolve(sheets, wb), SheetNames(wb))
      case Some(s) => Some(SheetNotFound(s, SheetNames(wb)))
      case None => None
  }
}
