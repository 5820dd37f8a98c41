/**
 * The personalised action plan (analyzers/ai_action_plan.py): the summary of an audit that
 * is sent to the model, the language of the instruction, the results dict built from the
 * reply, and the text display of a plan.
 */
module AiActionPlan {
  import opened Outcomes
  import opened Text
  import opened Json
  import opened Messages
  import opened AiEngine
  import AiContent

  // ---------------------------------------------------------------------------------------
  // The audit summary
  // ---------------------------------------------------------------------------------------

  /** The `audit_summary` dict: what the model is told about the audit. */
  datatype AuditSummary = AuditSummary(url: string, finalScore: Json, grade: Json,
                                       categoryScores: seq<(string, Json)>, totalIssues: nat,
                                       criticalIssues: nat, topIssues: Json)

  /** The summary as the dict `json.dumps` serialises, keys in their written order. */
  function SummaryJson(s: AuditSummary): Json {
    JObj([("url", JStr(s.url)), ("final_score", s.finalScore), ("grade", s.grade),
          ("category_scores", JObj(s.categoryScores)), ("total_issues", JInt(s.totalIssues)),
          ("critical_issues", JInt(s.criticalIssues)), ("top_issues", s.topIssues)])
  }

  /** The dict comprehension over `categories.items()`: each category with its `score`, 0 when it has none. */
  function ScoresOf(items: seq<(string, Json)>): (r: Outcome<seq<(string, Json)>>)
    ensures r.Ok? <==> forall i :: 0 <= i < |items| ==> items[i].1.JObj?
    ensures r.Ok? ==> |r.value| == |items|
    ensures r.Ok? ==> forall i :: 0 <= i < |items| ==>
              r.value[i] == (items[i].0, Lookup(items[i].1.fields, "score").GetOr(JInt(0)))
    decreases |items|
  {
    if |items| == 0 then Ok([])
    else
      var score :- Get(items[0].1, "score", JInt(0));
      var rest :- ScoresOf(items[1..]);
      assert forall i :: 1 <= i < |items| ==> items[i] == items[1..][i - 1];
      Ok([(items[0].0, score)] + rest)
  }

  /** `categories.items()` raises unless the categories are a dict. */
  function CategoryScores(categories: Json): (r: Outcome<seq<(string, Json)>>)
    ensures r.Ok? ==> categories.JObj?
  {
    match categories
    case JObj(fs) => ScoresOf(Items(fs))
    case _ => Raised("'" + TypeName(categories) + "' object has no attribute 'items'")
  }

  /** Each category of the audit appears in the summary once, with its own score. */
  lemma CategoryScoreOf(categories: Json, category: string)
    requires CategoryScores(categories).Ok? && HasKey(categories.fields, category)
    ensures Lookup(categories.fields, category).value.JObj?
    ensures Lookup(CategoryScores(categories).value, category) ==
              Some(Lookup(Lookup(categories.fields, category).value.fields, "score").GetOr(JInt(0)))
  {
    var fs := categories.fields;
    var items := Items(fs);
    var scores := CategoryScores(categories).value;
    ItemsCoverKeys(fs);
    ItemsHoldLookups(fs);
    ItemsKeysDistinct(fs);
    var j :| 0 <= j < |items| && items[j].0 == category;
    assert Lookup(fs, category) == Some(items[j].1);
    forall i | 0 <= i < |scores| && i != j ensures scores[i].0 != category {
      assert scores[i].0 == items[i].0;
    }
    LookupUnique(scores, j);
  }

  /** A key listed once is found where it is listed. */
  lemma {:induction false} LookupUnique(fields: seq<(string, Json)>, j: nat)
    requires j < |fields|
    requires forall i :: 0 <= i < |fields| && i != j ==> fields[i].0 != fields[j].0
    ensures Lookup(fields, fields[j].0) == Some(fields[j].1)
    decreases |fields|
  {
    if j < |fields| - 1 {
      var prefix := fields[..|fields| - 1];
      assert forall i :: 0 <= i < |prefix| && i != j ==> prefix[i].0 != prefix[j].0;
      LookupUnique(prefix, j);
    }
  }

  /** An issue whose `severity` is "critical". */
  predicate IsCritical(issue: Json) {
    issue.JObj? && Lookup(issue.fields, "severity") == Some(JStr("critical"))
  }

  /** The positions of the critical issues in a list. */
  ghost function CriticalAt(issues: seq<Json>): set<nat> {
    set i: nat | i < |issues| && IsCritical(issues[i])
  }

  /**
   * The length of the list comprehension keeping the critical issues: every issue must be
   * a dict (`i.get` raises otherwise), and the count is the number of critical positions.
   */
  function CountCritical(issues: seq<Json>): (r: Outcome<nat>)
    ensures r.Ok? <==> forall i :: 0 <= i < |issues| ==> issues[i].JObj?
    ensures r.Ok? ==> r.value == |CriticalAt(issues)|
    ensures r.Ok? ==> r.value <= |issues|
    ensures r.Ok? ==> (r.value == 0 <==> forall i :: 0 <= i < |issues| ==> !IsCritical(issues[i]))
    ensures r.Ok? ==> (r.value == |issues| <==> forall i :: 0 <= i < |issues| ==> IsCritical(issues[i]))
    decreases |issues|
  {
    if |issues| == 0 then
      assert CriticalAt(issues) == {};
      Ok(0)
    else
      var severity :- Get(issues[0], "severity", JNull);
      var rest :- CountCritical(issues[1..]);
      assert forall i :: 1 <= i < |issues| ==> issues[i] == issues[1..][i - 1];
      assert IsCritical(issues[0]) <==> severity == JStr("critical");
      CriticalAtCons(issues);
      Ok((if severity == JStr("critical") then 1 else 0) + rest)
  }

  /** Counting the critical positions from the head of the list. */
  lemma CriticalAtCons(issues: seq<Json>)
    requires |issues| > 0
    ensures |CriticalAt(issues)| == (if IsCritical(issues[0]) then 1 else 0) + |CriticalAt(issues[1..])|
  {
    var tail := CriticalAt(issues[1..]);
    var head: set<nat> := if IsCritical(issues[0]) then {0} else {};
    forall i: nat | i in CriticalAt(issues) ensures i in head + Shift(tail) {
      if i > 0 {
        assert issues[1..][i - 1] == issues[i];
      }
    }
    forall i: nat | i in head + Shift(tail) ensures i in CriticalAt(issues) {
      if i > 0 {
        assert i - 1 in tail;
        assert issues[1..][i - 1] == issues[i];
      }
    }
    assert CriticalAt(issues) == head + Shift(tail);
    ShiftCard(tail);
  }

  /** Each position one further on. */
  ghost function Shift(s: set<nat>): (r: set<nat>)
    ensures forall i: nat :: i in r <==> i > 0 && i - 1 in s
  {
    set i: nat | i in s :: i + 1
  }

  /** Moving every position one further on keeps their number. */
  lemma {:induction false} ShiftCard(s: set<nat>)
    ensures |Shift(s)| == |s|
    decreases |s|
  {
    if s != {} {
      var x :| x in s;
      ShiftCard(s - {x});
      assert Shift(s) == Shift(s - {x}) + {x + 1};
    }
  }

  /**
   * `audit_summary`. It runs outside any `try`, so whatever it raises leaves
   * `generate_ai_action_plan` as an exception.
   */
  function Summary(url: string, audit: Json): (r: Outcome<AuditSummary>)
    ensures r.Ok? ==> audit.JObj? && r.value.url == url
    ensures r.Ok? ==> r.value.criticalIssues <= r.value.totalIssues
    ensures r.Ok? ==> r.value.finalScore == Lookup(audit.fields, "final_score").GetOr(JInt(0))
    ensures r.Ok? ==> var grade := Lookup(audit.fields, "grade").GetOr(JObj([]));
              grade.JObj? && r.value.grade == Lookup(grade.fields, "label").GetOr(JStr("UNKNOWN"))
    ensures r.Ok? ==> CategoryScores(Lookup(audit.fields, "categories").GetOr(JObj([]))) == Ok(r.value.categoryScores)
    ensures r.Ok? && !HasKey(audit.fields, "all_issues") ==>
              r.value.totalIssues == 0 && r.value.criticalIssues == 0 && r.value.topIssues == JArr([])
    ensures r.Ok? && HasKey(audit.fields, "all_issues") && Lookup(audit.fields, "all_issues").value.JArr? ==>
              var issues := Lookup(audit.fields, "all_issues").value.items;
              r.value.totalIssues == |issues| && r.value.criticalIssues == |CriticalAt(issues)| &&
              r.value.topIssues == JArr(Take(issues, 10))
    ensures audit.JObj? && Lookup(audit.fields, "grade").GetOr(JObj([])).JObj? &&
            CategoryScores(Lookup(audit.fields, "categories").GetOr(JObj([]))).Ok? &&
            Lookup(audit.fields, "all_issues").GetOr(JArr([])).JArr? &&
            (forall i :: 0 <= i < |Lookup(audit.fields, "all_issues").GetOr(JArr([])).items| ==>
                           Lookup(audit.fields, "all_issues").GetOr(JArr([])).items[i].JObj?)
            ==> r.Ok?
  {
    var finalScore :- Get(audit, "final_score", JInt(0));
    var grade :- Get(Lookup(audit.fields, "grade").GetOr(JObj([])), "label", JStr("UNKNOWN"));
    var scores :- CategoryScores(Lookup(audit.fields, "categories").GetOr(JObj([])));
    var issues := Lookup(audit.fields, "all_issues").GetOr(JArr([]));
    var total :- Len(issues);
    var listed :- Iterate(issues);
    var critical :- CountCritical(listed);
    var top :- Slice(issues, 10);
    Ok(AuditSummary(url, finalScore, grade, scores, total, critical, top))
  }

  // ---------------------------------------------------------------------------------------
  // The language of the instruction
  // ---------------------------------------------------------------------------------------

  /** `lang_instructions`. */
  const PlanInstructions: seq<(string, string)> := [
    ("pl", "Odpowiedz PO POLSKU. Stwórz plan działania w języku polskim."),
    ("en", "Respond in ENGLISH. Create action plan in English."),
    ("de", "Antworten Sie auf DEUTSCH. Erstellen Sie einen Aktionsplan auf Deutsch."),
    ("es", "Responda en ESPAÑOL. Cree un plan de acción en español."),
    ("fr", "Répondez en FRANÇAIS. Créez un plan d'action en français.")
  ]

  /** `generate_ai_action_plan`'s language: the `language` the AI content analysis reported, "en" without one. */
  function PlanLanguage(audit: Json): (r: Outcome<Json>)
    ensures r.Ok? ==> audit.JObj?
    ensures audit.JObj? && !HasKey(audit.fields, "categories") ==> r == Ok(JStr("en"))
    ensures audit.JObj? ==> var categories := Lookup(audit.fields, "categories").GetOr(JObj([]));
              && (categories.JObj? && !HasKey(categories.fields, "ai_content") ==> r == Ok(JStr("en")))
              && (categories.JObj? && HasKey(categories.fields, "ai_content") ==>
                    var content := Lookup(categories.fields, "ai_content").value;
                    && (content.JObj? ==> r == Ok(Lookup(content.fields, "language").GetOr(JStr("en"))))
                    && (!content.JObj? ==> r.Raised?))
              && (!(categories.JObj? || categories.JArr? || categories.JStr?) ==> r.Raised?)
  {
    var categories :- Get(audit, "categories", JObj([]));
    var present :- In("ai_content", categories);
    if !present then Ok(JStr("en"))
    else
      var content :- Index(categories, "ai_content");
      Get(content, "language", JStr("en"))
  }

  /** The `lang_instructions` lookup: the entry for that language, the English one for any other hashable value. */
  function PlanInstruction(audit: Json): (r: Outcome<string>)
  {
    var language :- PlanLanguage(audit);
    TableGet(PlanInstructions, language, PlanInstructions[1].1)
  }

  /**
   * Once the summary could be made, finding the language cannot raise, and only a
   * language that is a list or a dict (unhashable) makes the instruction lookup raise.
   */
  lemma InstructionAfterSummary(url: string, audit: Json) returns (language: Json)
    requires Summary(url, audit).Ok?
    ensures PlanLanguage(audit) == Ok(language)
    ensures PlanInstruction(audit).Raised? <==> language.JArr? || language.JObj?
    ensures language.JStr? ==>
              PlanInstruction(audit) == Ok(TableLookup(PlanInstructions, language.s, PlanInstructions[1].1))
    ensures !(language.JStr? || language.JArr? || language.JObj?) ==>
              PlanInstruction(audit) == Ok(PlanInstructions[1].1)
  {
    SummaryNeedsScores(url, audit);
    language := InstructionOfScored(audit);
  }

  lemma SummaryNeedsScores(url: string, audit: Json)
    requires Summary(url, audit).Ok?
    ensures audit.JObj? && CategoryScores(Lookup(audit.fields, "categories").GetOr(JObj([]))).Ok?
  {
  }

  lemma InstructionOfScored(audit: Json) returns (language: Json)
    requires audit.JObj? && CategoryScores(Lookup(audit.fields, "categories").GetOr(JObj([]))).Ok?
    ensures PlanLanguage(audit) == Ok(language)
    ensures PlanInstruction(audit).Raised? <==> language.JArr? || language.JObj?
    ensures language.JStr? ==>
              PlanInstruction(audit) == Ok(TableLookup(PlanInstructions, language.s, PlanInstructions[1].1))
    ensures !(language.JStr? || language.JArr? || language.JObj?) ==>
              PlanInstruction(audit) == Ok(PlanInstructions[1].1)
  {
    var categories := Lookup(audit.fields, "categories").GetOr(JObj([]));
    if HasKey(categories.fields, "ai_content") {
      CategoryScoreOf(categories, "ai_content");
    }
    language := PlanLanguage(audit).value;
  }

  // ---------------------------------------------------------------------------------------
  // The results dict
  // ---------------------------------------------------------------------------------------

  /** The results dict as `generate_ai_action_plan` first builds it. */
  function EmptyPlan(): seq<(string, Json)> {
    [("action_plan", JObj([])), ("roadmap", JObj([])), ("quick_wins", JArr([])), ("estimated_impact", JObj([]))]
  }

  /** The roadmap: the three `roadmap_N_days` lists of the reply under `N_days`, empty when absent. */
  function Roadmap(analysis: seq<(string, Json)>): Json {
    JObj([("30_days", Lookup(analysis, "roadmap_30_days").GetOr(JArr([]))),
          ("60_days", Lookup(analysis, "roadmap_60_days").GetOr(JArr([]))),
          ("90_days", Lookup(analysis, "roadmap_90_days").GetOr(JArr([])))])
  }

  /** The `action_plan` entry: the reply's two strategies, empty dicts when absent. */
  function ActionPlan(analysis: seq<(string, Json)>): Json {
    JObj([("overall_strategy", Lookup(analysis, "overall_strategy").GetOr(JObj([]))),
          ("content_strategy", Lookup(analysis, "content_strategy").GetOr(JObj([])))])
  }

  /** The number of quick wins kept: the length of a list or a string. */
  function WinCount(wins: Json): nat {
    match wins
    case JArr(items) => |items|
    case JStr(s) => |s|
    case _ => 0
  }

  function SuccessMessage(wins: Json): string {
    "Generated personalized action plan with " + NatToString(WinCount(wins)) + " quick wins"
  }

  /**
   * The `try` block of `generate_ai_action_plan` once `parse_json_response` has run: an exception
   * (from parsing, from `'error' in analysis` or from a later step) is caught and stored as
   * the error, and a reply carrying "error" passes that value on.
   */
  function PlanFrom(results: seq<(string, Json)>, parsed: Outcome<Json>): (r: seq<(string, Json)>)
  {
    match parsed
    case Raised(m) => Put(results, "error", JStr(m))
    case Ok(analysis) =>
      match In("error", analysis)
      case Raised(m) => Put(results, "error", JStr(m))
      case Ok(hasError) =>
        if hasError then
          match Index(analysis, "error")
          case Raised(m) => Put(results, "error", JStr(m))
          case Ok(e) => Put(results, "error", e)
        else FromAnalysis(results, analysis)
  }

  /**
   * The same block for a reply without "error": the strategy, the roadmap, at most five
   * quick wins, the impact, the tools, the success flag and the message. A reply that is
   * not a dict makes the first `.get` raise.
   */
  function FromAnalysis(results: seq<(string, Json)>, analysis: Json): (r: seq<(string, Json)>)
  {
    match analysis
    case JObj(fs) => AfterRoadmap(Put(Put(results, "action_plan", ActionPlan(fs)), "roadmap", Roadmap(fs)), fs)
    case _ => Put(results, "error", JStr("'" + TypeName(analysis) + "' object has no attribute 'get'"))
  }

  /** The steps after the roadmap: quick wins that cannot be sliced raise, with the strategy and the roadmap already in. */
  function AfterRoadmap(results: seq<(string, Json)>, analysis: seq<(string, Json)>): (r: seq<(string, Json)>)
  {
    match Slice(Lookup(analysis, "quick_wins").GetOr(JArr([])), 5)
    case Raised(m) => Put(results, "error", JStr(m))
    case Ok(wins) => Concluded(results, analysis, wins)
  }

  /** The steps after the roadmap once the quick wins are sliced. */
  function Concluded(results: seq<(string, Json)>, analysis: seq<(string, Json)>, wins: Json): (r: seq<(string, Json)>)
  {
    var won := Put(results, "quick_wins", wins);
    var estimated := Put(won, "estimated_impact", Lookup(analysis, "estimated_score_progression").GetOr(JObj([])));
    var tooled := Put(estimated, "recommended_tools", Lookup(analysis, "recommended_tools").GetOr(JArr([])));
    Put(Put(tooled, "success", JBool(true)), "message", JStr(SuccessMessage(wins)))
  }

  /** The `try` block of `generate_ai_action_plan`, one assignment to `results` at a time. */
  method FillPlan(results: seq<(string, Json)>, parsed: Outcome<Json>) returns (out: seq<(string, Json)>)
    ensures out == PlanFrom(results, parsed)
  {
    out := results;
    if parsed.Raised? {
      return Put(out, "error", JStr(parsed.msg));
    }
    var analysis := parsed.value;
    var hasError := In("error", analysis);
    if hasError.Raised? {
      return Put(out, "error", JStr(hasError.msg));
    }
    if hasError.value {
      var e := Index(analysis, "error");
      if e.Raised? {
        return Put(out, "error", JStr(e.msg));
      }
      return Put(out, "error", e.value);
    }
    if !analysis.JObj? {
      return Put(out, "error", JStr("'" + TypeName(analysis) + "' object has no attribute 'get'"));
    }
    var fs := analysis.fields;
    out := Put(out, "action_plan", ActionPlan(fs));
    out := Put(out, "roadmap", Roadmap(fs));
    var wins := Slice(Lookup(fs, "quick_wins").GetOr(JArr([])), 5);
    if wins.Raised? {
      return Put(out, "error", JStr(wins.msg));
    }
    out := Put(out, "quick_wins", wins.value);
    out := Put(out, "estimated_impact", Lookup(fs, "estimated_score_progression").GetOr(JObj([])));
    out := Put(out, "recommended_tools", Lookup(fs, "recommended_tools").GetOr(JArr([])));
    out := Put(out, "success", JBool(true));
    out := Put(out, "message", JStr(SuccessMessage(wins.value)));
  }

  /** At most five quick wins, as a list or a string. */
  predicate WinsBounded(wins: Option<Json>) {
    wins.Some? && (wins.value.JArr? || wins.value.JStr?) && WinCount(wins.value) <= 5
  }

  /** A results dict with neither an error nor a success flag yet, and a bounded quick-wins entry. */
  predicate Unfinished(results: seq<(string, Json)>) {
    !HasKey(results, "error") && !HasKey(results, "success") && WinsBounded(Lookup(results, "quick_wins"))
  }

  /** The first dict is unfinished. */
  lemma EmptyPlanUnfinished()
    ensures Unfinished(EmptyPlan())
  {
    var base := EmptyPlan();
    assert base[2].0 == "quick_wins";
    assert Lookup(base, "quick_wins") == Some(JArr([]));
  }

  /** Storing any other entry leaves a dict unfinished. */
  lemma PutKeepsUnfinished(results: seq<(string, Json)>, key: string, value: Json)
    requires Unfinished(results) && key != "error" && key != "success" && key != "quick_wins"
    ensures Unfinished(Put(results, key, value))
  {
    PutKeepsOthers(results, key, value, "error");
    PutKeepsOthers(results, key, value, "success");
    PutKeepsOthers(results, key, value, "quick_wins");
  }

  /** Storing an error in an unfinished dict: it has the error and no success flag. */
  lemma PutErrorFails(results: seq<(string, Json)>, e: Json)
    requires Unfinished(results)
    ensures HasKey(Put(results, "error", e), "error") && !HasKey(Put(results, "error", e), "success")
    ensures WinsBounded(Lookup(Put(results, "error", e), "quick_wins"))
  {
    PutKeepsOthers(results, "error", e, "success");
    PutKeepsOthers(results, "error", e, "quick_wins");
  }

  /** The end of the block: success is set, no error, and the sliced quick wins are stored. */
  lemma ConcludedSucceeds(results: seq<(string, Json)>, analysis: seq<(string, Json)>, wins: Json)
    requires !HasKey(results, "error")
    ensures var r := Concluded(results, analysis, wins);
              Lookup(r, "success") == Some(JBool(true)) && !HasKey(r, "error") && Lookup(r, "quick_wins") == Some(wins)
              && Lookup(r, "message") == Some(JStr(SuccessMessage(wins)))
  {
    var won := Put(results, "quick_wins", wins);
    PutKeepsOthers(results, "quick_wins", wins, "error");
    var impact := Lookup(analysis, "estimated_score_progression").GetOr(JObj([]));
    var estimated := Put(won, "estimated_impact", impact);
    PutKeepsOthers(won, "estimated_impact", impact, "error");
    PutKeepsOthers(won, "estimated_impact", impact, "quick_wins");
    var tools := Lookup(analysis, "recommended_tools").GetOr(JArr([]));
    var tooled := Put(estimated, "recommended_tools", tools);
    PutKeepsOthers(estimated, "recommended_tools", tools, "error");
    PutKeepsOthers(estimated, "recommended_tools", tools, "quick_wins");
    var succeeded := Put(tooled, "success", JBool(true));
    PutKeepsOthers(tooled, "success", JBool(true), "error");
    PutKeepsOthers(tooled, "success", JBool(true), "quick_wins");
    var message := JStr(SuccessMessage(wins));
    PutKeepsOthers(succeeded, "message", message, "error");
    PutKeepsOthers(succeeded, "message", message, "quick_wins");
    PutKeepsOthers(succeeded, "message", message, "success");
  }

  /**
   * A finished dict: a success flag exactly when there is no error, the flag always True,
   * and at most five quick wins.
   */
  predicate Settled(r: seq<(string, Json)>) {
    (HasKey(r, "success") <==> !HasKey(r, "error"))
    && (HasKey(r, "success") ==> Lookup(r, "success") == Some(JBool(true)))
    && WinsBounded(Lookup(r, "quick_wins"))
  }

  /** Whatever the reply, the plan comes out settled. */
  lemma PlanSucceedsUnlessError(parsed: Outcome<Json>)
    ensures Settled(PlanFrom(EmptyPlan(), parsed))
  {
    EmptyPlanUnfinished();
    var base := EmptyPlan();
    match parsed
    case Raised(m) => PutErrorFails(base, JStr(m));
    case Ok(analysis) =>
      match In("error", analysis)
      case Raised(m) => PutErrorFails(base, JStr(m));
      case Ok(hasError) =>
        if hasError {
          match Index(analysis, "error")
          case Raised(m) => PutErrorFails(base, JStr(m));
          case Ok(e) => PutErrorFails(base, e);
        } else {
          FromAnalysisFacts(base, analysis);
        }
  }

  lemma FromAnalysisFacts(results: seq<(string, Json)>, analysis: Json)
    requires Unfinished(results)
    ensures Settled(FromAnalysis(results, analysis))
  {
    if analysis.JObj? {
      var fs := analysis.fields;
      PutKeepsUnfinished(results, "action_plan", ActionPlan(fs));
      var planned := Put(results, "action_plan", ActionPlan(fs));
      PutKeepsUnfinished(planned, "roadmap", Roadmap(fs));
      AfterRoadmapFacts(Put(planned, "roadmap", Roadmap(fs)), fs);
    } else {
      PutErrorFails(results, JStr("'" + TypeName(analysis) + "' object has no attribute 'get'"));
    }
  }

  lemma AfterRoadmapFacts(results: seq<(string, Json)>, analysis: seq<(string, Json)>)
    requires Unfinished(results)
    ensures Settled(AfterRoadmap(results, analysis))
  {
    match Slice(Lookup(analysis, "quick_wins").GetOr(JArr([])), 5)
    case Raised(m) => PutErrorFails(results, JStr(m));
    case Ok(wins) => ConcludedSucceeds(results, analysis, wins);
  }

  /**
   * A dict reply without "error" whose quick wins are a list (or absent) gives a
   * successful plan: its first five wins, the roadmap under the three period keys, and a
   * message counting the wins kept.
   */
  lemma SuccessfulPlan(analysis: seq<(string, Json)>, wins: seq<Json>)
    requires !HasKey(analysis, "error")
    requires Lookup(analysis, "quick_wins").GetOr(JArr([])) == JArr(wins)
    ensures var r := PlanFrom(EmptyPlan(), Ok(JObj(analysis)));
              Lookup(r, "success") == Some(JBool(true)) && !HasKey(r, "error")
              && Lookup(r, "quick_wins") == Some(JArr(Take(wins, 5)))
              && Lookup(r, "roadmap") == Some(Roadmap(analysis))
              && Lookup(r, "message") == Some(JStr(SuccessMessage(JArr(Take(wins, 5)))))
  {
    EmptyPlanUnfinished();
    var planned := Put(EmptyPlan(), "action_plan", ActionPlan(analysis));
    PutKeepsUnfinished(EmptyPlan(), "action_plan", ActionPlan(analysis));
    var mapped := Put(planned, "roadmap", Roadmap(analysis));
    PutKeepsUnfinished(planned, "roadmap", Roadmap(analysis));
    var kept := JArr(Take(wins, 5));
    PlanIsConcluded(analysis, wins);
    ConcludedSucceeds(mapped, analysis, kept);
    RoadmapSurvives(mapped, analysis, kept);
  }

  lemma PlanIsConcluded(analysis: seq<(string, Json)>, wins: seq<Json>)
    requires !HasKey(analysis, "error")
    requires Lookup(analysis, "quick_wins").GetOr(JArr([])) == JArr(wins)
    ensures PlanFrom(EmptyPlan(), Ok(JObj(analysis)))
            == Concluded(Put(Put(EmptyPlan(), "action_plan", ActionPlan(analysis)), "roadmap", Roadmap(analysis)),
                         analysis, JArr(Take(wins, 5)))
  {
    var mapped := Put(Put(EmptyPlan(), "action_plan", ActionPlan(analysis)), "roadmap", Roadmap(analysis));
    assert In("error", JObj(analysis)) == Ok(false);
    assert PlanFrom(EmptyPlan(), Ok(JObj(analysis))) == FromAnalysis(EmptyPlan(), JObj(analysis));
    assert FromAnalysis(EmptyPlan(), JObj(analysis)) == AfterRoadmap(mapped, analysis);
    assert Slice(JArr(wins), 5) == Ok(JArr(Take(wins, 5)));
  }

  lemma RoadmapSurvives(results: seq<(string, Json)>, analysis: seq<(string, Json)>, wins: Json)
    ensures Lookup(Concluded(results, analysis, wins), "roadmap") == Lookup(results, "roadmap")
  {
    var won := Put(results, "quick_wins", wins);
    PutKeepsOthers(results, "quick_wins", wins, "roadmap");
    var impact := Lookup(analysis, "estimated_score_progression").GetOr(JObj([]));
    var estimated := Put(won, "estimated_impact", impact);
    PutKeepsOthers(won, "estimated_impact", impact, "roadmap");
    var tools := Lookup(analysis, "recommended_tools").GetOr(JArr([]));
    var tooled := Put(estimated, "recommended_tools", tools);
    PutKeepsOthers(estimated, "recommended_tools", tools, "roadmap");
    PutKeepsOthers(tooled, "success", JBool(true), "roadmap");
    PutKeepsOthers(Put(tooled, "success", JBool(true)), "message", JStr(SuccessMessage(wins)), "roadmap");
  }

  /**
   * A reply carrying "error" passes its value on as the plan's error, with no success flag
   * and the first dict's empty entries.
   */
  lemma ErrorReplyPassedOn(analysis: seq<(string, Json)>)
    requires HasKey(analysis, "error")
    ensures var r := PlanFrom(EmptyPlan(), Ok(JObj(analysis)));
              Lookup(r, "error") == Lookup(analysis, "error") && !HasKey(r, "success")
              && Lookup(r, "quick_wins") == Some(JArr([])) && Lookup(r, "roadmap") == Some(JObj([]))
  {
    EmptyPlanUnfinished();
    var e := Lookup(analysis, "error").value;
    PutErrorFails(EmptyPlan(), e);
    PutKeepsOthers(EmptyPlan(), "error", e, "quick_wins");
    PutKeepsOthers(EmptyPlan(), "error", e, "roadmap");
    assert EmptyPlan()[1].0 == "roadmap";
  }

  /** The four entries made first are never lost. */
  lemma PlanKeepsItsEntries(parsed: Outcome<Json>)
    ensures HasKey(PlanFrom(EmptyPlan(), parsed), "action_plan") && HasKey(PlanFrom(EmptyPlan(), parsed), "roadmap")
    ensures HasKey(PlanFrom(EmptyPlan(), parsed), "quick_wins") && HasKey(PlanFrom(EmptyPlan(), parsed), "estimated_impact")
  {
    var base := EmptyPlan();
    assert base[0].0 == "action_plan" && base[1].0 == "roadmap";
    assert base[2].0 == "quick_wins" && base[3].0 == "estimated_impact";
    PlanFromKeeps(base, parsed, "action_plan");
    PlanFromKeeps(base, parsed, "roadmap");
    PlanFromKeeps(base, parsed, "quick_wins");
    PlanFromKeeps(base, parsed, "estimated_impact");
  }

  /** A key of the dict keeps a value through the whole block. */
  lemma PlanFromKeeps(results: seq<(string, Json)>, parsed: Outcome<Json>, key: string)
    requires HasKey(results, key)
    ensures HasKey(PlanFrom(results, parsed), key)
  {
    if parsed.Ok? && In("error", parsed.value) == Ok(false) {
      FromAnalysisKeeps(results, parsed.value, key);
    } else if parsed.Ok? && In("error", parsed.value) == Ok(true) && Index(parsed.value, "error").Ok? {
      PutKeepsKey(results, "error", Index(parsed.value, "error").value, key);
    } else {
      var m := if parsed.Raised? then parsed.msg
               else if In("error", parsed.value).Raised? then In("error", parsed.value).msg
               else Index(parsed.value, "error").msg;
      PutKeepsKey(results, "error", JStr(m), key);
    }
  }

  lemma FromAnalysisKeeps(results: seq<(string, Json)>, analysis: Json, key: string)
    requires HasKey(results, key)
    ensures HasKey(FromAnalysis(results, analysis), key)
  {
    if analysis.JObj? {
      var fs := analysis.fields;
      var planned := Put(results, "action_plan", ActionPlan(fs));
      PutKeepsKey(results, "action_plan", ActionPlan(fs), key);
      PutKeepsKey(planned, "roadmap", Roadmap(fs), key);
      AfterRoadmapKeeps(Put(planned, "roadmap", Roadmap(fs)), fs, key);
    } else {
      PutKeepsKey(results, "error", JStr("'" + TypeName(analysis) + "' object has no attribute 'get'"), key);
    }
  }

  lemma AfterRoadmapKeeps(results: seq<(string, Json)>, analysis: seq<(string, Json)>, key: string)
    requires HasKey(results, key)
    ensures HasKey(AfterRoadmap(results, analysis), key)
  {
    match Slice(Lookup(analysis, "quick_wins").GetOr(JArr([])), 5)
    case Raised(m) => PutKeepsKey(results, "error", JStr(m), key);
    case Ok(wins) =>
      var won := Put(results, "quick_wins", wins);
      PutKeepsKey(results, "quick_wins", wins, key);
      var impact := Lookup(analysis, "estimated_score_progression").GetOr(JObj([]));
      var estimated := Put(won, "estimated_impact", impact);
      PutKeepsKey(won, "estimated_impact", impact, key);
      var tools := Lookup(analysis, "recommended_tools").GetOr(JArr([]));
      var tooled := Put(estimated, "recommended_tools", tools);
      PutKeepsKey(estimated, "recommended_tools", tools, key);
      PutKeepsKey(tooled, "success", JBool(true), key);
      PutKeepsKey(Put(tooled, "success", JBool(true)), "message", JStr(SuccessMessage(wins)), key);
  }

  /** A key present before `d[k] = v` is present after it. */
  lemma PutKeepsKey(fields: seq<(string, Json)>, k: string, value: Json, key: string)
    requires HasKey(fields, key)
    ensures HasKey(Put(fields, k, value), key)
  {
    if k != key {
      PutKeepsOthers(fields, k, value, key);
    }
  }

  // ---------------------------------------------------------------------------------------
  // generate_ai_action_plan
  // ---------------------------------------------------------------------------------------

  /**
   * What a usable analyzer does: the summary and then the instruction are computed, either
   * of which may raise out of the function; otherwise the JSON text `encode` makes of the
   * summary is sent with the instruction as a JSON-output text request, and the reply fills
   * the plan.
   */
  ghost predicate PlanIn(url: string, audit: Json, reply: ClientReply, encode: Json -> string,
                         decode: Decoder, r: Outcome<seq<(string, Json)>>, sent: Option<Request>)
  {
    match Summary(url, audit)
    case Raised(m) => r == Raised(m) && sent.None?
    case Ok(summary) =>
      match PlanInstruction(audit)
      case Raised(m) => r == Raised(m) && sent.None?
      case Ok(instruction) =>
        sent == Some(Request(instruction + "\n\nText to analyze:\n" + Take(encode(SummaryJson(summary)), TextLimit),
                             None, Some("application/json")))
        && r == Ok(PlanFrom(EmptyPlan(), ParseJsonResponse(ResponseOf(reply), decode)))
  }

  /**
   * `generate_ai_action_plan`. With AI disabled, or without a usable client, the first dict
   * comes back with the reason. `encode` is `json.dumps`, `reply` the client's answer and
   * `sent` the request made, if any.
   */
  method GenerateActionPlan(url: string, audit: Json, aiEnabled: bool, apiKey: string, clientCreated: bool,
                            reply: ClientReply, encode: Json -> string, decode: Decoder)
    returns (r: Outcome<seq<(string, Json)>>, sent: Option<Request>)
    ensures !aiEnabled ==> r == Ok(Put(EmptyPlan(), "error", JStr(AiContent.DisabledMessage))) && sent.None?
    ensures aiEnabled && !(clientCreated && apiKey != PlaceholderKey) ==>
              r == Ok(Put(EmptyPlan(), "error", JStr(UnavailableError))) && sent.None?
    ensures aiEnabled && clientCreated && apiKey != PlaceholderKey ==>
              PlanIn(url, audit, reply, encode, decode, r, sent)
  {
    var results := EmptyPlan();
    if !aiEnabled {
      results := Put(results, "error", JStr(AiContent.DisabledMessage));
      return Ok(results), None;
    }
    var ai := new AIAnalyzer(apiKey, DefaultModel, clientCreated);
    if !ai.IsAvailable() {
      results := Put(results, "error", JStr(UnavailableError));
      return Ok(results), None;
    }
    var summary := Summary(url, audit);
    if summary.Raised? {
      return Raised(summary.msg), None;
    }
    var instruction := PlanInstruction(audit);
    if instruction.Raised? {
      return Raised(instruction.msg), None;
    }
    var response;
    sent, response := ai.AnalyzeText(encode(SummaryJson(summary.value)), instruction.value, true, reply);
    var parsed := ParseJsonResponse(response, decode);
    results := FillPlan(results, parsed);
    r := Ok(results);
  }

  // ---------------------------------------------------------------------------------------
  // format_action_plan_for_display
  // ---------------------------------------------------------------------------------------

  /** `output + more`, or the exception computing `more` raised. */
  function Then(output: seq<Msg>, more: Outcome<seq<Msg>>): (r: Outcome<seq<Msg>>)
    ensures r.Ok? <==> more.Ok?
    ensures r.Ok? ==> |r.value| == |output| + |more.value| && r.value[..|output|] == output
  {
    match more
    case Ok(lines) => Ok(output + lines)
    case Raised(m) => Raised(m)
  }

  /** Appending `a + b` and then `more` is appending `a` and then `b + more`. */
  lemma ThenThen(a: seq<Msg>, b: seq<Msg>, more: Outcome<seq<Msg>>)
    ensures Then(a + b, more) == Then(a, Then(b, more))
  {
    if more.Ok? {
      assert (a + b) + more.value == a + (b + more.value);
    }
  }

  /**
   * The lines a `for` loop over `items` appends: item `n` (counted from 1) gives its own
   * lines, and the first item that raises ends the loop with that exception.
   */
  function LinesOf<T>(items: seq<T>, entry: (nat, T) -> Outcome<seq<Msg>>): (r: Outcome<seq<Msg>>)
    ensures r.Ok? <==> forall i :: 0 <= i < |items| ==> entry(i + 1, items[i]).Ok?
    decreases |items|
  {
    if |items| == 0 then Ok([])
    else
      var n := |items|;
      var before :- LinesOf(items[..n - 1], entry);
      var last :- entry(n, items[n - 1]);
      Ok(before + last)
  }

  /** Once an item has raised, the items after it change nothing. */
  lemma {:induction false} LinesOfStops<T>(items: seq<T>, i: nat, entry: (nat, T) -> Outcome<seq<Msg>>)
    requires i <= |items| && LinesOf(items[..i], entry).Raised?
    ensures LinesOf(items, entry) == LinesOf(items[..i], entry)
    decreases |items|
  {
    if i < |items| {
      var n := |items|;
      assert items[..n - 1][..i] == items[..i];
      LinesOfStops(items[..n - 1], i, entry);
    } else {
      assert items[..i] == items;
    }
  }

  /** Entries that each give `w` lines. */
  ghost predicate Width<T(!new)>(entry: (nat, T) -> Outcome<seq<Msg>>, w: nat) {
    forall n, x :: entry(n, x).Ok? ==> |entry(n, x).value| == w
  }

  /** `w` lines per item. */
  lemma {:induction false} LinesOfLength<T(!new)>(items: seq<T>, entry: (nat, T) -> Outcome<seq<Msg>>, w: nat)
    requires Width(entry, w) && LinesOf(items, entry).Ok?
    ensures |LinesOf(items, entry).value| == w * |items|
    decreases |items|
  {
    if |items| > 0 {
      var n := |items|;
      LinesOfLength(items[..n - 1], entry, w);
      assert w * (n - 1) + w == w * n;
    }
  }

  /** Item `k` gives lines `w * k` up to `w * (k + 1)`. */
  lemma {:induction false} LinesOfBlock<T(!new)>(items: seq<T>, entry: (nat, T) -> Outcome<seq<Msg>>, w: nat, k: nat)
    requires Width(entry, w) && LinesOf(items, entry).Ok? && k < |items|
    ensures w * k + w <= |LinesOf(items, entry).value|
    ensures LinesOf(items, entry).value[w * k .. w * k + w] == entry(k + 1, items[k]).value
    decreases |items|, 1
  {
    LinesOfSplit(items, entry);
    if k < |items| - 1 {
      LinesOfBlockBefore(items, entry, w, k);
    } else {
      LinesOfLength(items[..|items| - 1], entry, w);
      SliceOfBack(LinesOf(items[..|items| - 1], entry).value, entry(|items|, items[|items| - 1]).value);
    }
  }

  lemma {:induction false} LinesOfBlockBefore<T(!new)>(items: seq<T>, entry: (nat, T) -> Outcome<seq<Msg>>, w: nat, k: nat)
    requires Width(entry, w) && LinesOf(items, entry).Ok? && k < |items| - 1
    requires LinesOf(items[..|items| - 1], entry).Ok?
    requires LinesOf(items, entry).value
             == LinesOf(items[..|items| - 1], entry).value + entry(|items|, items[|items| - 1]).value
    ensures w * k + w <= |LinesOf(items[..|items| - 1], entry).value|
    ensures LinesOf(items, entry).value[w * k .. w * k + w] == entry(k + 1, items[k]).value
    decreases |items|, 0
  {
    var n := |items|;
    LinesOfBlock(items[..n - 1], entry, w, k);
    SliceOfFront(LinesOf(items[..n - 1], entry).value, entry(n, items[n - 1]).value, w * k, w * k + w);
  }

  lemma LinesOfSplit<T>(items: seq<T>, entry: (nat, T) -> Outcome<seq<Msg>>)
    requires |items| > 0 && LinesOf(items, entry).Ok?
    ensures LinesOf(items[..|items| - 1], entry).Ok? && entry(|items|, items[|items| - 1]).Ok?
    ensures LinesOf(items, entry).value
            == LinesOf(items[..|items| - 1], entry).value + entry(|items|, items[|items| - 1]).value
  {
  }

  lemma SliceOfFront<T>(a: seq<T>, c: seq<T>, i: nat, j: nat)
    requires i <= j <= |a|
    ensures (a + c)[i..j] == a[i..j]
  {
  }

  lemma SliceOfBack<T>(a: seq<T>, c: seq<T>)
    ensures (a + c)[|a|..|a| + |c|] == c
  {
  }

  /**
   * The appending loop over `items`: each item's lines in turn, stopping at the first
   * item that raises.
   */
  method AppendLines<T>(output: seq<Msg>, items: seq<T>, entry: (nat, T) -> Outcome<seq<Msg>>)
    returns (r: Outcome<seq<Msg>>)
    ensures r == Then(output, LinesOf(items, entry))
  {
    var lines := output;
    var i := 0;
    while i < |items|
      invariant 0 <= i <= |items|
      invariant LinesOf(items[..i], entry).Ok?
      invariant lines == output + LinesOf(items[..i], entry).value
    {
      assert items[..i + 1][..i] == items[..i];
      var e := entry(i + 1, items[i]);
      if e.Raised? {
        LinesOfStops(items, i + 1, entry);
        return Raised(e.msg);
      }
      lines := lines + e.value;
      i := i + 1;
    }
    assert items[..i] == items;
    return Ok(lines);
  }

  /** The first three lines: a ruler after a blank line, the title, a ruler. */
  function Header(): seq<Msg> {
    [Fixed(RulerBreak), Fixed(PlanTitle), Fixed(Ruler)]
  }

  /** The overall strategy, when it is truthy: a heading and three lines, 'N/A' for what is missing. */
  function StrategyLines(strategy: Json): (r: Outcome<seq<Msg>>)
    ensures r.Ok? ==> (r.value == [] <==> !Truthy(strategy))
    ensures r.Ok? ==> |r.value| == 0 || |r.value| == 4
  {
    if !Truthy(strategy) then Ok([])
    else
      var focus :- Get(strategy, "primary_focus", JStr("N/A"));
      var fs := strategy.fields;
      Ok([Fixed(StrategyHeading), Cat([Fixed(FocusPrefix), Val(focus)]),
          Cat([Fixed(TimelinePrefix), Val(Lookup(fs, "estimated_time_to_improvement").GetOr(JStr("N/A")))]),
          Cat([Fixed(DifficultyPrefix), Val(Lookup(fs, "difficulty_level").GetOr(JStr("N/A")))])])
  }

  /** Quick win number `n`: its title, its time and its impact. */
  function WinEntry(n: nat, win: Json): (r: Outcome<seq<Msg>>)
    ensures r.Ok? <==> win.JObj?
    ensures r.Ok? ==> |r.value| == 3
  {
    var title :- Get(win, "title", JStr("N/A"));
    var fs := win.fields;
    Ok([Cat([Fixed(WinIndent), Int(n), Fixed(DotSpace), Val(title)]),
        Cat([Fixed(WinTimePrefix), Val(Lookup(fs, "estimated_time").GetOr(JStr("N/A")))]),
        Cat([Fixed(WinImpactPrefix), Val(Lookup(fs, "expected_impact").GetOr(JStr("N/A")))])])
  }

  /** The quick wins, when truthy: a heading, then every win, numbered from 1. */
  function QuickWinLines(wins: Json): (r: Outcome<seq<Msg>>)
    ensures r.Ok? ==> (r.value == [] <==> !Truthy(wins))
  {
    if !Truthy(wins) then Ok([])
    else
      var items :- Iterate(wins);
      Then([Fixed(QuickWinsHeading)], LinesOf(items, WinEntry))
  }

  /** Quick win `k` (from 0) is shown as number `k + 1`, with its title, time and impact. */
  lemma WinsNumbered(wins: seq<Json>, k: nat)
    requires LinesOf(wins, WinEntry).Ok? && k < |wins|
    ensures wins[k].JObj?
    ensures |LinesOf(wins, WinEntry).value| == 3 * |wins|
    ensures LinesOf(wins, WinEntry).value[3 * k] ==
              Cat([Fixed(WinIndent), Int(k + 1), Fixed(DotSpace), Val(Lookup(wins[k].fields, "title").GetOr(JStr("N/A")))])
  {
    assert Width(WinEntry, 3);
    LinesOfLength(wins, WinEntry, 3);
    LinesOfBlock(wins, WinEntry, 3, k);
    assert WinEntry(k + 1, wins[k]).Ok?;
    assert LinesOf(wins, WinEntry).value[3 * k] == LinesOf(wins, WinEntry).value[3 * k .. 3 * k + 3][0];
  }

  /** One roadmap task: its action and priority out of 10, then its impact. */
  function TaskEntry(n: nat, task: Json): (r: Outcome<seq<Msg>>)
    ensures r.Ok? <==> task.JObj?
    ensures r.Ok? ==> |r.value| == 2
  {
    var action :- Get(task, "action", JStr("N/A"));
    var fs := task.fields;
    Ok([Cat([Fixed(TaskBullet), Val(action), Fixed(PriorityInfix),
             Val(Lookup(fs, "priority").GetOr(JInt(0))), Fixed(OutOf10Paren)]),
        Cat([Fixed(TaskImpactPrefix), Val(Lookup(fs, "estimated_impact").GetOr(JStr("N/A")))])])
  }

  /** One period of the roadmap, when its tasks are truthy: a heading and its first three tasks. */
  function PeriodLines(roadmap: Json, period: string, days: Key): (r: Outcome<seq<Msg>>)
    ensures r.Ok? ==> roadmap.JObj?
    ensures r.Ok? ==> (r.value == [] <==> !Truthy(Lookup(roadmap.fields, period).GetOr(JArr([]))))
  {
    var tasks :- Get(roadmap, period, JArr([]));
    if !Truthy(tasks) then Ok([])
    else
      var shown :- SliceItems(tasks, 3);
      Then([Cat([Fixed(RoadmapOpen), Fixed(days), Fixed(RoadmapClose)])], LinesOf(shown, TaskEntry))
  }

  /** A period shows at most three tasks, two lines each, after its heading. */
  lemma PeriodShowsAtMostThree(roadmap: Json, period: string, days: Key)
    requires PeriodLines(roadmap, period, days).Ok?
    ensures |PeriodLines(roadmap, period, days).value| <= 7
  {
    var tasks := Lookup(roadmap.fields, period).GetOr(JArr([]));
    if Truthy(tasks) {
      var shown := SliceItems(tasks, 3).value;
      assert Width(TaskEntry, 2);
      LinesOfLength(shown, TaskEntry, 2);
    }
  }

  /** The periods in the order they are shown, with the heading each gets. */
  function Periods(): seq<(string, Key)> {
    [("30_days", Days30), ("60_days", Days60), ("90_days", Days90)]
  }

  /** The roadmap: the loop over `periods`, the first period that raises ending it. */
  function RoadmapLines(roadmap: Json, periods: seq<(string, Key)>): (r: Outcome<seq<Msg>>)
    decreases |periods|
  {
    if |periods| == 0 then Ok([])
    else
      var n := |periods|;
      var before :- RoadmapLines(roadmap, periods[..n - 1]);
      Then(before, PeriodLines(roadmap, periods[n - 1].0, periods[n - 1].1))
  }

  /** Once a period has raised, the periods after it change nothing. */
  lemma {:induction false} RoadmapLinesStops(roadmap: Json, periods: seq<(string, Key)>, i: nat)
    requires i <= |periods| && RoadmapLines(roadmap, periods[..i]).Raised?
    ensures RoadmapLines(roadmap, periods) == RoadmapLines(roadmap, periods[..i])
    decreases |periods|
  {
    if i < |periods| {
      var n := |periods|;
      assert periods[..n - 1][..i] == periods[..i];
      RoadmapLinesStops(roadmap, periods[..n - 1], i);
      RoadmapLinesRaised(roadmap, periods);
    } else {
      assert periods[..i] == periods;
    }
  }

  lemma RoadmapLinesRaised(roadmap: Json, periods: seq<(string, Key)>)
    requires |periods| > 0 && RoadmapLines(roadmap, periods[..|periods| - 1]).Raised?
    ensures RoadmapLines(roadmap, periods) == RoadmapLines(roadmap, periods[..|periods| - 1])
  {
  }

  /** Each period shows at most seven lines. */
  lemma {:induction false} RoadmapAtMostSevenEach(roadmap: Json, periods: seq<(string, Key)>)
    requires RoadmapLines(roadmap, periods).Ok?
    ensures |RoadmapLines(roadmap, periods).value| <= 7 * |periods|
    decreases |periods|
  {
    if |periods| > 0 {
      var n := |periods|;
      RoadmapAtMostSevenEach(roadmap, periods[..n - 1]);
      PeriodShowsAtMostThree(roadmap, periods[n - 1].0, periods[n - 1].1);
    }
  }

  /** The estimated progression, when truthy: a heading and four scores out of 100, 0 for what is missing. */
  function ImpactLines(impact: Json): (r: Outcome<seq<Msg>>)
    ensures r.Ok? ==> (r.value == [] <==> !Truthy(impact))
    ensures r.Ok? ==> |r.value| == 0 || |r.value| == 5
  {
    if !Truthy(impact) then Ok([])
    else
      var current :- Get(impact, "current", JInt(0));
      var fs := impact.fields;
      Ok([Fixed(ProgressHeading), Cat([Fixed(CurrentPrefix), Val(current), Fixed(OutOf100)]),
          Cat([Fixed(After30Prefix), Val(Lookup(fs, "after_30_days").GetOr(JInt(0))), Fixed(OutOf100)]),
          Cat([Fixed(After60Prefix), Val(Lookup(fs, "after_60_days").GetOr(JInt(0))), Fixed(OutOf100)]),
          Cat([Fixed(After90Prefix), Val(Lookup(fs, "after_90_days").GetOr(JInt(0))), Fixed(OutOf100)])])
  }

  /** `format_action_plan_for_display` for a plan without "error": the output list section by section. */
  function BodyLines(plan: Json): (r: Outcome<seq<Msg>>)
    ensures r.Ok? ==> plan.JObj? && |r.value| >= 4
    ensures r.Ok? ==> r.value[..3] == Header() && r.value[|r.value| - 1] == Fixed(RulerBreak)
  {
    var section :- Get(plan, "action_plan", JObj([]));
    var strategy :- Get(section, "overall_strategy", JObj([]));
    var fs := plan.fields;
    var head :- Then(Header(), StrategyLines(strategy));
    var withWins :- Then(head, QuickWinLines(Lookup(fs, "quick_wins").GetOr(JArr([]))));
    var withRoadmap :- Then(withWins, RoadmapLines(Lookup(fs, "roadmap").GetOr(JObj([])), Periods()));
    var withImpact :- Then(withRoadmap, ImpactLines(Lookup(fs, "estimated_impact").GetOr(JObj([]))));
    PrefixOfPrefix(head, withWins, 3);
    PrefixOfPrefix(withWins, withRoadmap, 3);
    PrefixOfPrefix(withRoadmap, withImpact, 3);
    PrefixOfPrefix(withImpact, withImpact + [Fixed(RulerBreak)], 3);
    Ok(withImpact + [Fixed(RulerBreak)])
  }

  /** A prefix of a prefix. */
  lemma PrefixOfPrefix<T>(a: seq<T>, b: seq<T>, n: nat)
    requires n <= |a| <= |b| && b[..|a|] == a
    ensures b[..n] == a[..n]
  {
  }

  /** The rendered lines. */
  function RenderLines(lines: seq<Msg>): (r: seq<string>)
    ensures |r| == |lines|
  {
    seq(|lines|, i requires 0 <= i < |lines| => Render(lines[i]))
  }

  /**
   * `format_action_plan_for_display`: the error line for a plan carrying "error",
   * otherwise its lines joined by newlines.
   */
  function FormatPlan(plan: Json): (r: Outcome<string>)
  {
    var hasError :- In("error", plan);
    if hasError then ErrorText(plan) else BodyText(plan)
  }

  /** `format_action_plan_for_display` for a plan with "error": the error line. */
  function ErrorText(plan: Json): (r: Outcome<string>)
  {
    var e :- Index(plan, "error");
    Ok(KeyText(PlanErrorPrefix) + StrOf(e))
  }

  /** The output lines of `format_action_plan_for_display` joined by newlines. */
  function BodyText(plan: Json): (r: Outcome<string>)
  {
    var lines :- BodyLines(plan);
    Ok(Join(RenderLines(lines), "\n"))
  }

  /** A plan carrying "error" is shown as that one error line. */
  lemma ErrorPlanShown(plan: seq<(string, Json)>)
    requires HasKey(plan, "error")
    ensures FormatPlan(JObj(plan)) == Ok(KeyText(PlanErrorPrefix) + StrOf(Lookup(plan, "error").value))
  {
    var e := Lookup(plan, "error").value;
    assert In("error", JObj(plan)) == Ok(true);
    assert Index(JObj(plan), "error") == Ok(e);
  }

  /** `format_action_plan_for_display`: one append at a time, joined at the end. */
  method FormatActionPlanForDisplay(plan: Json) returns (r: Outcome<string>)
    ensures r == FormatPlan(plan)
  {
    var hasError := In("error", plan);
    if hasError.Raised? {
      return Raised(hasError.msg);
    }
    if hasError.value {
      var e := Index(plan, "error");
      if e.Raised? {
        return Raised(e.msg);
      }
      return Ok(KeyText(PlanErrorPrefix) + StrOf(e.value));
    }
    var lines := DisplayBody(plan);
    if lines.Raised? {
      return Raised(lines.msg);
    }
    r := Ok(Join(RenderLines(lines.value), "\n"));
  }

  method DisplayBody(plan: Json) returns (r: Outcome<seq<Msg>>)
    ensures r == BodyLines(plan)
  {
    var output := Header();
    var section := Get(plan, "action_plan", JObj([]));
    if section.Raised? {
      return Raised(section.msg);
    }
    var strategy := Get(section.value, "overall_strategy", JObj([]));
    if strategy.Raised? {
      return Raised(strategy.msg);
    }
    var fs := plan.fields;
    var head := Then(output, StrategyLines(strategy.value));
    if head.Raised? {
      return Raised(head.msg);
    }
    output := head.value;
    var withWins := AppendWins(output, Lookup(fs, "quick_wins").GetOr(JArr([])));
    if withWins.Raised? {
      return Raised(withWins.msg);
    }
    output := withWins.value;
    var withRoadmap := AppendRoadmap(output, Lookup(fs, "roadmap").GetOr(JObj([])), Periods());
    if withRoadmap.Raised? {
      return Raised(withRoadmap.msg);
    }
    output := withRoadmap.value;
    var withImpact := Then(output, ImpactLines(Lookup(fs, "estimated_impact").GetOr(JObj([]))));
    if withImpact.Raised? {
      return Raised(withImpact.msg);
    }
    output := withImpact.value + [Fixed(RulerBreak)];
    return Ok(output);
  }

  /** The quick-wins section of the display: the heading, then the loop over the wins. */
  method AppendWins(output: seq<Msg>, wins: Json) returns (r: Outcome<seq<Msg>>)
    ensures r == Then(output, QuickWinLines(wins))
  {
    if !Truthy(wins) {
      assert output + [] == output;
      return Ok(output);
    }
    var items := Iterate(wins);
    if items.Raised? {
      return Raised(items.msg);
    }
    var heading := output + [Fixed(QuickWinsHeading)];
    r := AppendLines(heading, items.value, WinEntry);
    ThenThen(output, [Fixed(QuickWinsHeading)], LinesOf(items.value, WinEntry));
  }

  /** The roadmap section of the display: the loop over the periods. */
  method AppendRoadmap(output: seq<Msg>, roadmap: Json, periods: seq<(string, Key)>) returns (r: Outcome<seq<Msg>>)
    ensures r == Then(output, RoadmapLines(roadmap, periods))
  {
    var lines := output;
    var i := 0;
    while i < |periods|
      invariant 0 <= i <= |periods|
      invariant RoadmapLines(roadmap, periods[..i]).Ok?
      invariant lines == output + RoadmapLines(roadmap, periods[..i]).value
    {
      assert periods[..i + 1][..i] == periods[..i];
      var (period, days) := periods[i];
      var shown := AppendPeriod(lines, roadmap, period, days);
      ThenThen(output, RoadmapLines(roadmap, periods[..i]).value, PeriodLines(roadmap, period, days));
      if shown.Raised? {
        RoadmapLinesStops(roadmap, periods, i + 1);
        return Raised(shown.msg);
      }
      lines := shown.value;
      i := i + 1;
    }
    assert periods[..i] == periods;
    return Ok(lines);
  }

  /** The roadmap section for one period: the heading, then the loop over its first three tasks. */
  method AppendPeriod(output: seq<Msg>, roadmap: Json, period: string, days: Key) returns (r: Outcome<seq<Msg>>)
    ensures r == Then(output, PeriodLines(roadmap, period, days))
  {
    var tasks := Get(roadmap, period, JArr([]));
    if tasks.Raised? {
      return Raised(tasks.msg);
    }
    if !Truthy(tasks.value) {
      assert output + [] == output;
      return Ok(output);
    }
    var shown := SliceItems(tasks.value, 3);
    if shown.Raised? {
      return Raised(shown.msg);
    }
    var heading := Cat([Fixed(RoadmapOpen), Fixed(days), Fixed(RoadmapClose)]);
    r := AppendLines(output + [heading], shown.value, TaskEntry);
    ThenThen(output, [heading], LinesOf(shown.value, TaskEntry));
  }
}
