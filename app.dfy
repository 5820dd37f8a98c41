/**
 * The CSV export of the web API (app.py `generate_csv`): one line per check of every
 * category, then the issue section, joined with newlines. Fields are written as Python's
 * f-strings render them, without quoting. The results arrive as JSON; a value of the
 * wrong shape raises the exception Python would.
 */
module App {
  import opened Outcomes
  import opened Text
  import opened Json

  const Header := "Category,Check,Value,Pass,Score"
  const IssuesMarker := "\nIssues:"
  const IssueHeader := "Severity,Title,Impact,Description,Fix"

  /** `v.items()`: only a dict has it. */
  function ItemsOf(v: Json): (r: Outcome<seq<(string, Json)>>)
    ensures r.Ok? <==> v.JObj?
    ensures v.JObj? ==> r.value == Items(v.fields)
  {
    match v
    case JObj(fs) => Ok(Items(fs))
    case _ => Raised("'" + TypeName(v) + "' object has no attribute 'items'")
  }

  /** One line per item, in order; the first line that raises ends the export. */
  function Lines<T>(items: seq<T>, line: T -> Outcome<string>): (r: Outcome<seq<string>>)
    ensures r.Ok? <==> forall i :: 0 <= i < |items| ==> line(items[i]).Ok?
    ensures r.Ok? ==> |r.value| == |items|
                      && forall i :: 0 <= i < |items| ==> r.value[i] == line(items[i]).value
  {
    if |items| == 0 then Ok([])
    else
      var init := items[..|items| - 1];
      assert forall i :: 0 <= i < |init| ==> init[i] == items[i];
      var first :- Lines(init, line);
      var last :- line(items[|items| - 1]);
      Ok(first + [last])
  }

  /** A run of lines per item, concatenated in order. */
  function Collect<T>(items: seq<T>, lines: T -> Outcome<seq<string>>): (r: Outcome<seq<string>>)
    ensures r.Ok? <==> forall i :: 0 <= i < |items| ==> lines(items[i]).Ok?
  {
    if |items| == 0 then Ok([])
    else
      var init := items[..|items| - 1];
      assert forall i :: 0 <= i < |init| ==> init[i] == items[i];
      var first :- Collect(init, lines);
      var last :- lines(items[|items| - 1]);
      Ok(first + last)
  }

  lemma {:induction false} LinesStop<T>(items: seq<T>, line: T -> Outcome<string>, i: nat)
    requires i < |items| && Lines(items[..i], line).Ok? && line(items[i]).Raised?
    ensures Lines(items, line) == Raised(line(items[i]).msg)
  {
    if i < |items| - 1 {
      assert items[..|items| - 1][..i] == items[..i];
      LinesStop(items[..|items| - 1], line, i);
    } else {
      assert items[..|items| - 1] == items[..i];
    }
  }

  lemma LinesStep<T>(items: seq<T>, line: T -> Outcome<string>, j: nat, rows: seq<string>)
    requires j < |items| && Lines(items[..j], line) == Ok(rows) && line(items[j]).Ok?
    ensures Lines(items[..j + 1], line) == Ok(rows + [line(items[j]).value])
  {
    assert items[..j + 1][..j] == items[..j];
  }

  lemma {:induction false} CollectStops<T>(items: seq<T>, lines: T -> Outcome<seq<string>>, i: nat)
    requires i < |items| && Collect(items[..i], lines).Ok? && lines(items[i]).Raised?
    ensures Collect(items, lines) == Raised(lines(items[i]).msg)
  {
    if i < |items| - 1 {
      assert items[..|items| - 1][..i] == items[..i];
      CollectStops(items[..|items| - 1], lines, i);
    } else {
      assert items[..|items| - 1] == items[..i];
    }
  }

  /** The five fields of a row, comma separated. */
  function Row(a: string, b: string, c: string, d: string, e: string): string {
    a + "," + b + "," + c + "," + d + "," + e
  }

  /** Each check item paired with its category's name. */
  function Tagged(category: string, items: seq<(string, Json)>): (r: seq<(string, (string, Json))>)
    ensures |r| == |items| && forall k :: 0 <= k < |r| ==> r[k] == (category, items[k])
  {
    seq(|items|, k requires 0 <= k < |items| => (category, items[k]))
  }

  /**
   * The line of one check of a category: its value, pass and score, defaulting to N/A,
   * False and 0.
   */
  function CheckRow(check: (string, (string, Json))): (r: Outcome<string>)
    ensures r.Ok? <==> check.1.1.JObj?
  {
    var (category, (name, data)) := check;
    match data
    case JObj(fs) =>
      Ok(Row(category, name, StrOf(Lookup(fs, "value").GetOr(JStr("N/A"))),
             StrOf(Lookup(fs, "pass").GetOr(JBool(false))), StrOf(Lookup(fs, "score").GetOr(JInt(0)))))
    case _ => Raised("'" + TypeName(data) + "' object has no attribute 'get'")
  }

  /** The lines of one category: one per item of its `checks` dict ({} when absent). */
  function CategoryLines(category: (string, Json)): (r: Outcome<seq<string>>) {
    var checks :- Get(category.1, "checks", JObj([]));
    var items :- ItemsOf(checks);
    Lines(Tagged(category.0, items), CheckRow)
  }

  /** The line of one issue, with '' and 0 for what it lacks. */
  function IssueRow(issue: Json): (r: Outcome<string>)
    ensures r.Ok? <==> issue.JObj?
  {
    match issue
    case JObj(fs) =>
      Ok(Row(StrOf(Lookup(fs, "severity").GetOr(JStr(""))), StrOf(Lookup(fs, "title").GetOr(JStr(""))),
             StrOf(Lookup(fs, "impact").GetOr(JInt(0))), StrOf(Lookup(fs, "description").GetOr(JStr(""))),
             StrOf(Lookup(fs, "fix").GetOr(JStr("")))))
    case _ => Raised("'" + TypeName(issue) + "' object has no attribute 'get'")
  }

  /** The issue lines: one per item the loop over `all_issues` ([] when absent) visits. */
  function IssueLines(results: Json): Outcome<seq<string>>
    requires results.JObj?
  {
    var issues := Lookup(results.fields, "all_issues").GetOr(JArr([]));
    var items :- Iterate(issues);
    Lines(items, IssueRow)
  }

  /** The check lines of every category ({} when absent), in order. */
  function CheckLines(results: Json): Outcome<seq<string>> {
    var categories :- Get(results, "categories", JObj([]));
    var items :- ItemsOf(categories);
    Collect(items, CategoryLines)
  }

  /** The lines `csv_lines` holds at the end. */
  function CsvLines(results: Json): Outcome<seq<string>> {
    var checkLines :- CheckLines(results);
    var issueLines :- IssueLines(results);
    Ok([Header] + checkLines + [IssuesMarker, IssueHeader] + issueLines)
  }

  /** `generate_csv(results)`. */
  function Csv(results: Json): Outcome<string> {
    var lines :- CsvLines(results);
    Ok(Join(lines, "\n"))
  }

  /** `generate_csv`: the header, the check lines, the issue section, joined by newlines. */
  method GenerateCsv(results: Json) returns (r: Outcome<string>)
    ensures r == Csv(results)
  {
    var lines := [Header];
    var checkLines := CheckSection(results);
    if checkLines.Raised? {
      return Raised(checkLines.msg);
    }
    lines := lines + checkLines.value;
    lines := lines + [IssuesMarker, IssueHeader];
    var issueLines := IssueSection(results);
    if issueLines.Raised? {
      return Raised(issueLines.msg);
    }
    lines := lines + issueLines.value;
    return Ok(Join(lines, "\n"));
  }

  /** The outer loop of `generate_csv`: the check lines of every category. */
  method CheckSection(results: Json) returns (r: Outcome<seq<string>>)
    ensures r == CheckLines(results)
  {
    if !results.JObj? {
      return Raised("'" + TypeName(results) + "' object has no attribute 'get'");
    }
    var categories := Lookup(results.fields, "categories").GetOr(JObj([]));
    if !categories.JObj? {
      return Raised("'" + TypeName(categories) + "' object has no attribute 'items'");
    }
    var catItems := Items(categories.fields);
    var lines: seq<string> := [];
    for i := 0 to |catItems|
      invariant Collect(catItems[..i], CategoryLines) == Ok(lines)
    {
      var step := CategoryStep(catItems[i]);
      if step.Raised? {
        CollectStops(catItems, CategoryLines, i);
        return Raised(step.msg);
      }
      lines := lines + step.value;
      assert catItems[..i + 1][..i] == catItems[..i];
    }
    assert catItems[..|catItems|] == catItems;
    return Ok(lines);
  }

  /** The issue loop of `generate_csv`. */
  method IssueSection(results: Json) returns (r: Outcome<seq<string>>)
    requires results.JObj?
    ensures r == IssueLines(results)
  {
    var issues := Lookup(results.fields, "all_issues").GetOr(JArr([]));
    var items := Iterate(issues);
    if items.Raised? {
      return Raised(items.msg);
    }
    var lines: seq<string> := [];
    for j := 0 to |items.value|
      invariant Lines(items.value[..j], IssueRow) == Ok(lines)
    {
      var line := IssueRow(items.value[j]);
      if line.Raised? {
        LinesStop(items.value, IssueRow, j);
        return Raised(line.msg);
      }
      LinesStep(items.value, IssueRow, j, lines);
      lines := lines + [line.value];
    }
    assert items.value[..|items.value|] == items.value;
    return Ok(lines);
  }

  /** The inner loop of `generate_csv`: the lines of one category's checks. */
  method CategoryStep(cat: (string, Json)) returns (r: Outcome<seq<string>>)
    ensures r == CategoryLines(cat)
  {
    if !cat.1.JObj? {
      return Raised("'" + TypeName(cat.1) + "' object has no attribute 'get'");
    }
    var checks := Lookup(cat.1.fields, "checks").GetOr(JObj([]));
    if !checks.JObj? {
      return Raised("'" + TypeName(checks) + "' object has no attribute 'items'");
    }
    var items := Tagged(cat.0, Items(checks.fields));
    assert CategoryLines(cat) == Lines(items, CheckRow);
    var rows: seq<string> := [];
    for j := 0 to |items|
      invariant Lines(items[..j], CheckRow) == Ok(rows)
    {
      var line := CheckRow(items[j]);
      if line.Raised? {
        LinesStop(items, CheckRow, j);
        return Raised(line.msg);
      }
      LinesStep(items, CheckRow, j, rows);
      rows := rows + [line.value];
    }
    assert items[..|items|] == items;
    return Ok(rows);
  }

  // ---------------------------------------------------------------------------------------
  // What the export promises
  // ---------------------------------------------------------------------------------------

  /** Every export starts with the header line. */
  lemma HeaderFirst(results: Json)
    requires Csv(results).Ok?
    ensures StartsWith(Csv(results).value, Header + "\n")
  {
    var lines := CsvLines(results).value;
    assert |lines| >= 3 && lines[0] == Header;
    assert Join(lines, "\n") == lines[0] + "\n" + Join(lines[1..], "\n");
  }

  /** With no categories and no issues, the export is exactly its three fixed lines. */
  lemma EmptyExport(results: Json)
    requires results.JObj?
    requires Lookup(results.fields, "categories").GetOr(JObj([])) == JObj([])
    requires Lookup(results.fields, "all_issues").GetOr(JArr([])) == JArr([])
    ensures Csv(results) == Ok(Header + "\n" + IssuesMarker + "\n" + IssueHeader)
  {
    assert CheckLines(results) == Ok([]);
    assert IssueLines(results) == Ok([]);
    var lines := [Header] + [] + [IssuesMarker, IssueHeader] + [];
    assert CsvLines(results) == Ok(lines);
    assert lines == [Header, IssuesMarker, IssueHeader];
    assert Csv(results) == Ok(Join(lines, "\n"));
    JoinThree(Header, IssuesMarker, IssueHeader, "\n");
  }

  lemma JoinThree(a: string, b: string, c: string, sep: string)
    ensures Join([a, b, c], sep) == a + sep + b + sep + c
  {
    assert [a, b, c][1..] == [b, c];
    assert [b, c][1..] == [c];
    assert Join([b, c], sep) == b + sep + c;
    assert Join([a, b, c], sep) == a + sep + (b + sep + c);
  }

  /**
   * A category yields one line per check, in the order of its `checks` dict, each
   * starting with the category and the check's name.
   */
  lemma OneLinePerCheck(category: (string, Json))
    requires CategoryLines(category).Ok?
    ensures category.1.JObj?
    ensures var checks := Lookup(category.1.fields, "checks").GetOr(JObj([]));
            checks.JObj?
            && var items := Items(checks.fields);
            var lines := CategoryLines(category).value;
            |lines| == |items|
            && forall k :: 0 <= k < |items| ==>
                 StartsWith(lines[k], category.0 + "," + items[k].0 + ",")
  {
    var checks := Lookup(category.1.fields, "checks").GetOr(JObj([]));
    var items := Items(checks.fields);
    var lines := CategoryLines(category).value;
    assert CategoryLines(category) == Lines(Tagged(category.0, items), CheckRow);
    forall k | 0 <= k < |items| ensures StartsWith(lines[k], category.0 + "," + items[k].0 + ",") {
      var fs := items[k].1.fields;
      RowStarts(category.0, items[k].0, StrOf(Lookup(fs, "value").GetOr(JStr("N/A"))),
                StrOf(Lookup(fs, "pass").GetOr(JBool(false))), StrOf(Lookup(fs, "score").GetOr(JInt(0))));
    }
  }

  lemma RowStarts(a: string, b: string, c: string, d: string, e: string)
    ensures StartsWith(Row(a, b, c, d, e), a + "," + b + ",")
  {
    var prefix := a + "," + b + ",";
    assert Row(a, b, c, d, e) == prefix + (c + "," + d + "," + e);
    assert (prefix + (c + "," + d + "," + e))[..|prefix|] == prefix;
  }

  /** A list of issue dicts yields one line per issue, in order. */
  lemma OneLinePerIssue(results: Json)
    requires results.JObj? && Lookup(results.fields, "all_issues").GetOr(JArr([])).JArr?
    requires var issues := Lookup(results.fields, "all_issues").GetOr(JArr([])).items;
             forall k :: 0 <= k < |issues| ==> issues[k].JObj?
    ensures IssueLines(results).Ok?
    ensures var issues := Lookup(results.fields, "all_issues").GetOr(JArr([])).items;
            |IssueLines(results).value| == |issues|
            && forall k :: 0 <= k < |issues| ==> IssueLines(results).value[k] == IssueRow(issues[k]).value
  {
  }

  /** Missing fields print as N/A, False and 0 for a check, and as '', 0 for an issue. */
  lemma RowDefaults(category: string, check: string)
    ensures CheckRow((category, (check, JObj([])))) == Ok(Row(category, check, "N/A", "False", "0"))
    ensures IssueRow(JObj([])) == Ok(Row("", "", "0", "", ""))
  {
    assert StrOf(JInt(0)) == "0";
    assert StrOf(JBool(false)) == "False";
  }

  /** The number of commas in a text. */
  function Commas(s: string): nat {
    if |s| == 0 then 0 else Commas(s[..|s| - 1]) + (if s[|s| - 1] == ',' then 1 else 0)
  }

  lemma {:induction false} CommasConcat(a: string, b: string)
    ensures Commas(a + b) == Commas(a) + Commas(b)
    decreases |b|
  {
    if |b| == 0 {
      assert a + b == a;
    } else {
      assert (a + b)[..|a + b| - 1] == a + b[..|b| - 1];
      CommasConcat(a, b[..|b| - 1]);
    }
  }

  /**
   * Fields are not quoted: a row has four separating commas plus every comma of its
   * fields, so a title holding a comma splits into extra columns.
   */
  lemma UnquotedFields(a: string, b: string, c: string, d: string, e: string)
    ensures Commas(Row(a, b, c, d, e)) == 4 + Commas(a) + Commas(b) + Commas(c) + Commas(d) + Commas(e)
  {
    assert Commas(",") == 1;
    CommasConcat(a, ",");
    CommasConcat(a + ",", b);
    CommasConcat(a + "," + b, ",");
    CommasConcat(a + "," + b + ",", c);
    CommasConcat(a + "," + b + "," + c, ",");
    CommasConcat(a + "," + b + "," + c + ",", d);
    CommasConcat(a + "," + b + "," + c + "," + d, ",");
    CommasConcat(a + "," + b + "," + c + "," + d + ",", e);
  }

  /** Only a dict of results, of categories and of checks can be exported. */
  lemma ShapeErrors(results: Json)
    ensures !results.JObj? ==>
              Csv(results) == Raised("'" + TypeName(results) + "' object has no attribute 'get'")
    ensures results.JObj? && !Lookup(results.fields, "categories").GetOr(JObj([])).JObj? ==>
              var categories := Lookup(results.fields, "categories").GetOr(JObj([]));
              Csv(results) == Raised("'" + TypeName(categories) + "' object has no attribute 'items'")
  {
  }
}
