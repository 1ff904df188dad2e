/** Data-validation extraction: one record per validation rule of each
    requested sheet, sorted by sheet and then by the cells the rule covers. */
module Validation {

  import opened Wrappers
  import opened Text
  import opened Tables
  import opened Reader
  import opened Selection

  /** One row of the validation table. */
  datatype RuleRecord = RuleRecord(
    sheet: string,
    ref: Option<string>,
    ruleType: Option<string>,
    operator: Option<string>,
    formula1: Option<string>,
    formula2: Option<string>,
    allowBlank: Option<bool>,
    showInputMessage: Option<bool>,
    showErrorMessage: Option<bool>,
    promptTitle: Option<string>,
    prompt: Option<string>,
    errorTitle: Option<string>,
    error: Option<string>,
    errorStyle: Option<string>)

  const ValidationColumns: seq<string> := [
    "sheet", "ref", "type", "operator", "formula1", "formula2",
    "allow_blank", "show_input_message", "show_error_message",
    "prompt_title", "prompt", "error_title", "error", "error_style"]

  /** The rule a record describes, with its covered cells as `ref` says. */
  function RuleOf(r: RuleRecord): Rule {
    Rule(r.ref, r.ruleType, r.operator, r.formula1, r.formula2, r.allowBlank, r.showInputMessage,
         r.showErrorMessage, r.promptTitle, r.prompt, r.errorTitle, r.error, r.errorStyle)
  }

  /** One rule's record: the covered cells become None when empty, and
      every other field is carried over unchanged, so the record describes
      the rule exactly, up to an empty cell list. */
  function RuleRecordOf(sheetName: string, v: Rule): (r: RuleRecord)
    ensures r.sheet == sheetName
    ensures r.ref.Some? <==> v.sqref.Some? && v.sqref.value != ""
    ensures RuleOf(r) == if v.sqref == Some("") then v.(sqref := None) else v
  {
    RuleRecord(
      sheet := sheetName,
      ref := if v.sqref.Some? && v.sqref.value != "" then v.sqref else None,
      ruleType := v.ruleType,
      operator := v.operator,
      formula1 := v.formula1,
      formula2 := v.formula2,
      allowBlank := v.allowBlank,
      showInputMessage := v.showInputMessage,
      showErrorMessage := v.showErrorMessage,
      promptTitle := v.promptTitle,
      prompt := v.prompt,
      errorTitle := v.errorTitle,
      error := v.error,
      errorStyle := v.errorStyle)
  }

  /** Two rules of one sheet get the same record only if they are the same
      rule, up to an empty cell list. */
  lemma {:induction false} RuleRecordInjective(sheetName: string, v: Rule, w: Rule)
    requires v.sqref != Some("") && w.sqref != Some("")
    requires RuleRecordOf(sheetName, v) == RuleRecordOf(sheetName, w)
    ensures v == w
  {
    assert RuleOf(RuleRecordOf(sheetName, v)) == v;
    assert RuleOf(RuleRecordOf(sheetName, w)) == w;
  }

  /** The rules of a sheet; a sheet without a validation list has none. */
  function RulesOf(ws: Worksheet): seq<Rule> {
    if ws.validations.Some? then ws.validations.value else []
  }

  /** The records the rule loop appends for a run of rules of one sheet. */
  function RuleRecords(sheetName: string, rules: seq<Rule>): (r: seq<RuleRecord>)
    ensures |r| == |rules|
    ensures forall i :: 0 <= i < |r| ==> r[i] == RuleRecordOf(sheetName, rules[i])
  {
    if rules == [] then []
    else RuleRecords(sheetName, rules[..|rules| - 1]) + [RuleRecordOf(sheetName, rules[|rules| - 1])]
  }

  /** The records for the sheets `names`, processed in that order. */
  function Collected(wb: Workbook, names: seq<string>): seq<RuleRecord>
    requires AllPresent(wb, names)
  {
    if names == [] then []
    else
      var name := names[|names| - 1];
      Collected(wb, names[..|names| - 1]) + RuleRecords(name, RulesOf(Sheet(wb, name)))
  }

  /** The rule loop over one sheet. */
  method AppendRules(all: seq<RuleRecord>, name: string, ws: Worksheet) returns (all': seq<RuleRecord>)
    ensures all' == all + RuleRecords(name, RulesOf(ws))
  {
    all' := all;
    if ws.validations.None? {
      return;
    }
    var rules := ws.validations.value;
    var k := 0;
    while k < |rules|
      invariant 0 <= k <= |rules|
      invariant all' == all + RuleRecords(name, rules[..k])
    {
      assert rules[..k + 1][..k] == rules[..k];
      all' := all' + [RuleRecordOf(name, rules[k])];
      k := k + 1;
    }
    assert rules[..|rules|] == rules;
  }

  /** The sheet loop that builds the record list. */
  method CollectRules(wb: Workbook, names: seq<string>) returns (all: seq<RuleRecord>)
    requires AllPresent(wb, names)
    ensures all == Collected(wb, names)
  {
    all := [];
    var i := 0;
    while i < |names|
      invariant 0 <= i <= |names|
      invariant all == Collected(wb, names[..i])
    {
      all := AppendRules(all, names[i], Sheet(wb, names[i]));
      assert names[..i + 1][..i] == names[..i];
      i := i + 1;
    }
    assert names[..|names|] == names;
  }

  /** Every collected record describes a rule of one of the requested sheets. */
  lemma {:induction false} CollectedFrom(wb: Workbook, names: seq<string>)
    requires AllPresent(wb, names)
    ensures forall r :: r in Collected(wb, names) ==>
              exists n, v :: n in names && v in RulesOf(Sheet(wb, n)) && r == RuleRecordOf(n, v)
  {
    if names != [] {
      var init, name := names[..|names| - 1], names[|names| - 1];
      CollectedFrom(wb, init);
      assert forall n :: n in init ==> n in names;
      var rules := RulesOf(Sheet(wb, name));
      forall r | r in RuleRecords(name, rules)
        ensures exists v :: v in rules && r == RuleRecordOf(name, v)
      {
        var i :| 0 <= i < |rules| && RuleRecords(name, rules)[i] == r;
        assert rules[i] in rules;
      }
    }
  }

  /** One record per rule: the table has as many rows as the requested
      sheets have rules, counting a sheet as often as it is requested. */
  function RuleCount(wb: Workbook, names: seq<string>): nat
    requires AllPresent(wb, names)
  {
    if names == [] then 0 else RuleCount(wb, names[..|names| - 1]) + |RulesOf(Sheet(wb, names[|names| - 1]))|
  }

  lemma {:induction false} CollectedCount(wb: Workbook, names: seq<string>)
    requires AllPresent(wb, names)
    ensures |Collected(wb, names)| == RuleCount(wb, names)
  {
    if names != [] {
      CollectedCount(wb, names[..|names| - 1]);
    }
  }

  /** Sheet name, then covered cells, with a missing `ref` last. */
  function RuleKey(r: RuleRecord): SortKey {
    [KStr(r.sheet), if r.ref.Some? then KStr(r.ref.value) else KNone]
  }

  /** Within one sheet, a rule without covered cells sorts after every rule with them. */
  lemma MissingRefLast(rows: seq<RuleRecord>, i: nat, j: nat)
    requires SortedBy(rows, RuleKey)
    requires i < j < |rows| && rows[i].sheet == rows[j].sheet && rows[i].ref.None?
    ensures rows[j].ref.None?
  {
    var ki, kj := RuleKey(rows[i]), RuleKey(rows[j]);
    assert KeyLe(ki, kj);
    assert ki[0] == kj[0];
    assert KeyLe(ki[1..], kj[1..]);
    assert ki[1..][0] == KNone;
  }

  /** Reading one sheet never yields a record that reading a list of sheets
      containing it does not, so never more records. */
  lemma {:induction false} OneSheetIsSubset(wb: Workbook, names: seq<string>, s: string)
    requires AllPresent(wb, names) && s in names
    ensures AllPresent(wb, [s])
    ensures multiset(Collected(wb, [s])) <= multiset(Collected(wb, names))
  {
    var init, name := names[..|names| - 1], names[|names| - 1];
    assert [s][..0] == [];
    var one := Collected(wb, [s]);
    var prefix := Collected(wb, init);
    var last := RuleRecords(name, RulesOf(Sheet(wb, name)));
    assert Collected(wb, names) == prefix + last;
    if name == s {
      assert one == Collected(wb, [s][..0]) + last;
      assert Collected(wb, [s][..0]) == [];
      SuffixSubMultiset(prefix, last);
    } else {
      assert s in init by { assert names == init + [name]; }
      OneSheetIsSubset(wb, init, s);
      SubMultisetAppend(one, prefix, last);
    }
  }

  /** The sorted table rows each describe a rule of a requested sheet. */
  lemma SortedRules(wb: Workbook, names: seq<string>)
    requires AllPresent(wb, names)
    ensures var rows := SortByKey(Collected(wb, names), RuleKey);
            forall i :: 0 <= i < |rows| ==>
              (rows[i].sheet in names
               && exists v :: v in RulesOf(Sheet(wb, rows[i].sheet)) && rows[i] == RuleRecordOf(rows[i].sheet, v))
  {
    var all := Collected(wb, names);
    CollectedFrom(wb, names);
    var rows := SortByKey(all, RuleKey);
    forall i | 0 <= i < |rows|
      ensures rows[i].sheet in names
      ensures exists v :: v in RulesOf(Sheet(wb, rows[i].sheet)) && rows[i] == RuleRecordOf(rows[i].sheet, v)
    {
      assert rows[i] in multiset(rows);
      assert rows[i] in all;
    }
  }

  /** `xlsx_validation`: checks the arguments, walks the selected sheets,
      and returns the rule records sorted by (sheet, ref) under the fixed
      columns, which an empty result carries too. */
  method XlsxValidation(path: string, wb: Workbook, sheets: SheetSelection, checkFiletype: bool)
    returns (r: Result<Table<RuleRecord>, Failure>)
    ensures r.Err? <==> CheckArguments(path, checkFiletype, wb, sheets).Some?
    ensures r.Err? ==> r.error == CheckArguments(path, checkFiletype, wb, sheets).value
    ensures r.Ok? ==> r.value.columns == ValidationColumns
    ensures r.Ok? ==> r.value.rows == SortByKey(Collected(wb, Resolve(sheets, wb)), RuleKey)
    ensures r.Ok? ==> SortedBy(r.value.rows, RuleKey)
    ensures r.Ok? ==> multiset(r.value.rows) == multiset(Collected(wb, Resolve(sheets, wb)))
    ensures r.Ok? ==> |r.value.rows| == RuleCount(wb, Resolve(sheets, wb))
    ensures r.Ok? ==> forall i :: 0 <= i < |r.value.rows| ==> r.value.rows[i].sheet in Resolve(sheets, wb)
  {
    var bad := CheckFiletype(path, checkFiletype);
    if bad.Some? {
      return Err(bad.value);
    }
    var names := Resolve(sheets, wb);
    var missing := FindMissingSheet(names, SheetNames(wb));
    if missing.Some? {
      return Err(SheetNotFound(missing.value, SheetNames(wb)));
    }
    var all := CollectRules(wb, names);
    SortedRules(wb, names);
    CollectedCount(wb, names);
    if all == [] {
      return Ok(Table(ValidationColumns, []));
    }
    return Ok(Table(ValidationColumns, SortByKey(all, RuleKey)));
  }
}
