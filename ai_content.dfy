/**
 * The AI content analyzer (analyzers/ai_content.py): the page-language heuristic, and how
 * the decoded reply of the model becomes a score, insights and issues.
 */
module AiContent {
  import opened Outcomes
  import opened Text
  import opened Json
  import opened Messages
  import opened Results
  import opened AiEngine
  import opened AiIssues

  const DisabledMessage: string := "AI analysis is disabled in config"

  /**
   * What the HTML parser exposes for language detection: the `lang` attribute of the
   * `<html>` tag, the `content` of the content-language meta tag (each None when the tag or
   * the attribute is absent), and the page text.
   */
  datatype PageLanguage = PageLanguage(htmlLang: Option<string>, metaLang: Option<string>, text: string)

  const PolishIndicators: seq<string> := ["jest", "się", "nie", "czy", "jak", "który", "dla"]
  const EnglishIndicators: seq<string> := ["the", "is", "are", "and", "for", "with", "that"]

  /** How many of `words` occur somewhere in `sample`. */
  function IndicatorCount(words: seq<string>, sample: string): (n: nat)
    ensures n <= |words|
  {
    if |words| == 0 then 0
    else (if Contains(sample, words[0]) then 1 else 0) + IndicatorCount(words[1..], sample)
  }

  /** A non-empty attribute value, as Python's truthiness test lets through. */
  predicate Given(v: Option<string>) {
    v.Some? && v.value != ""
  }

  /** The language code the text heuristic picks: Polish only on strictly more Polish hits. */
  function TextLanguage(text: string): string {
    var sample := Lower(Take(text, 500));
    if IndicatorCount(PolishIndicators, sample) > IndicatorCount(EnglishIndicators, sample) then "pl" else "en"
  }

  /**
   * `detect_page_language`: the first two characters, lowercased, of the `<html lang>`
   * value, else of the content-language meta tag, else the text heuristic; "en" when the
   * page cannot be parsed.
   */
  function DetectPageLanguage(page: Outcome<PageLanguage>): (r: string)
  {
    match page
    case Raised(_) => "en"
    case Ok(p) =>
      if Given(p.htmlLang) then Lower(Take(p.htmlLang.value, 2))
      else if Given(p.metaLang) then Lower(Take(p.metaLang.value, 2))
      else TextLanguage(p.text)
  }

  /** A detected code has at most two characters and no upper-case ASCII letter. */
  lemma DetectedCodeIsShort(page: Outcome<PageLanguage>)
    ensures |DetectPageLanguage(page)| <= 2
    ensures forall i :: 0 <= i < |DetectPageLanguage(page)| ==> !('A' <= DetectPageLanguage(page)[i] <= 'Z')
  {
  }

  /**
   * Sources are tried in order: a given `<html lang>` wins over the meta tag, the meta tag
   * over the text, and without either the text decides "pl" exactly when it holds more of
   * the seven Polish indicator words than of the seven English ones (a tie gives "en").
   */
  lemma {:induction false} LanguageSourcesInOrder(p: PageLanguage)
    ensures Given(p.htmlLang) ==> DetectPageLanguage(Ok(p)) == Lower(Take(p.htmlLang.value, 2))
    ensures !Given(p.htmlLang) && Given(p.metaLang) ==>
              DetectPageLanguage(Ok(p)) == Lower(Take(p.metaLang.value, 2))
    ensures !Given(p.htmlLang) && !Given(p.metaLang) ==>
              (DetectPageLanguage(Ok(p)) == "pl" <==>
               IndicatorCount(PolishIndicators, Lower(Take(p.text, 500)))
               > IndicatorCount(EnglishIndicators, Lower(Take(p.text, 500))))
    ensures !Given(p.htmlLang) && !Given(p.metaLang) ==> DetectPageLanguage(Ok(p)) in {"pl", "en"}
  {
    if !Given(p.htmlLang) && !Given(p.metaLang) {
      var sample := Lower(Take(p.text, 500));
      assert DetectPageLanguage(Ok(p)) == TextLanguage(p.text);
      assert "pl" != "en";
    }
  }

  /** Each indicator count lies in 0..7, so the heuristic compares two small counts. */
  lemma IndicatorCountsBounded(sample: string)
    ensures IndicatorCount(PolishIndicators, sample) <= 7
    ensures IndicatorCount(EnglishIndicators, sample) <= 7
  {
    assert |PolishIndicators| == 7 && |EnglishIndicators| == 7;
  }

  /** The instruction line the prompt starts with, by language; unknown codes get English. */
  const LangInstructions: seq<(string, string)> := [
    ("pl", "Odpowiedz PO POLSKU. Analizuj treść w języku polskim."),
    ("en", "Respond in ENGLISH. Analyze content in English."),
    ("de", "Antworten Sie auf DEUTSCH. Analysieren Sie Inhalte auf Deutsch."),
    ("es", "Responda en ESPAÑOL. Analice el contenido en español."),
    ("fr", "Répondez en FRANÇAIS. Analysez le contenu en français.")
  ]

  function LangInstruction(lang: string): string {
    TableLookup(LangInstructions, lang, LangInstructions[1].1)
  }

  /** The analyzer's result: score, insights (in insertion order), issues and language code. */
  datatype AiContentResult = AiContentResult(score: Json, insights: seq<(string, Json)>,
                                             issues: seq<Issue>, language: string)

  /** The `severity_map` of the reply's critical issues; unknown labels count as important/6. */
  const CriticalTable: seq<(string, (Severity, int))> := [
    ("critical", (Critical, 10)),
    ("high", (Critical, 9)),
    ("medium", (Important, 6)),
    ("low", (Recommendation, 3))
  ]

  /** `severity_map.get(level, ('important', 6))`: a list or a dict level cannot be hashed. */
  function CriticalSeverity(level: Json): (r: Outcome<(Severity, int)>)
    ensures r.Raised? <==> level.JArr? || level.JObj?
    ensures r.Ok? ==> r.value in TableLevels
  {
    TableGet(CriticalTable, level, (Important, 6))
  }

  /** The table in full: the four labels, and the default for any other hashable value. */
  lemma CriticalSeverityTable(level: Json)
    requires !level.JArr? && !level.JObj?
    ensures level == JStr("critical") ==> CriticalSeverity(level) == Ok((Critical, 10))
    ensures level == JStr("high") ==> CriticalSeverity(level) == Ok((Critical, 9))
    ensures level == JStr("medium") ==> CriticalSeverity(level) == Ok((Important, 6))
    ensures level == JStr("low") ==> CriticalSeverity(level) == Ok((Recommendation, 3))
    ensures level !in {JStr("critical"), JStr("high"), JStr("medium"), JStr("low")} ==>
              CriticalSeverity(level) == Ok((Important, 6))
  {
  }

  /** `issue.get('severity', 'medium')` of a dict issue. */
  function Level(issue: Json): Json
    requires issue.JObj?
  {
    Lookup(issue.fields, "severity").GetOr(JStr("medium"))
  }

  /**
   * One critical issue of the reply as an audit issue: severity and impact from the table
   * (a missing level counts as "medium"), title "AI: " and the issue text, description the
   * evidence and impact, fix the fix and the time it takes. Anything but a dict raises.
   */
  function ConvertCritical(issue: Json): (r: Outcome<Issue>)
    ensures r.Ok? ==> issue.JObj?
    ensures r.Ok? ==> (r.value.severity, r.value.impact) in TableLevels
    ensures issue.JObj? ==> (r.Ok? <==> !Level(issue).JArr? && !Level(issue).JObj?)
    ensures r.Ok? ==> CriticalSeverity(Level(issue)) == Ok((r.value.severity, r.value.impact))
  {
    var level :- Get(issue, "severity", JStr("medium"));
    var pair :- CriticalSeverity(level);
    var fields := issue.fields;
    Ok(Issue(pair.0,
             Cat([Fixed(AiPrefix), Val(Lookup(fields, "issue").GetOr(JStr("Content issue")))]),
             pair.1,
             Cat([Val(Lookup(fields, "evidence").GetOr(JStr(""))), Fixed(ImpactInfix),
                  Val(Lookup(fields, "impact").GetOr(JStr("")))]),
             Some(Cat([Val(Lookup(fields, "fix").GetOr(JStr(""))), Fixed(TimeInfix),
                       Val(Lookup(fields, "time_to_fix").GetOr(JStr("unknown"))), Fixed(CloseParen)]))))
  }

  /** One quick win of the reply as a recommendation of impact 8; anything but a dict raises. */
  function ConvertWin(win: Json): (r: Outcome<Issue>)
    ensures r.Ok? <==> win.JObj?
    ensures r.Ok? ==> r.value.severity == Recommendation && r.value.impact == 8
  {
    var action :- Get(win, "action", JStr("Optimization"));
    var fields := win.fields;
    Ok(Issue(Recommendation,
             Cat([Fixed(QuickWinPrefix), Val(action)]),
             8,
             Cat([Fixed(WhyPrefix), Val(Lookup(fields, "why").GetOr(JStr("")))]),
             Some(Cat([Val(Lookup(fields, "how").GetOr(JStr(""))), Fixed(ExpectedInfix),
                       Val(Lookup(fields, "expected_impact").GetOr(JStr("")))]))))
  }

  /** The insights dict built from a reply object, in the order the code writes it. */
  function InsightsOf(fields: seq<(string, Json)>): seq<(string, Json)> {
    [("page_type", Lookup(fields, "page_type").GetOr(JStr("unknown"))),
     ("search_intent", Lookup(fields, "search_intent").GetOr(JObj([]))),
     ("eeat", Lookup(fields, "eeat_analysis").GetOr(JObj([]))),
     ("content_depth", Lookup(fields, "content_depth").GetOr(JObj([]))),
     ("keywords", Lookup(fields, "keyword_optimization").GetOr(JObj([]))),
     ("conversion", Lookup(fields, "conversion_optimization").GetOr(JObj([]))),
     ("business_value", Lookup(fields, "business_value_assessment").GetOr(JObj([]))),
     ("competitive", Lookup(fields, "competitive_insights").GetOr(JObj([]))),
     ("summary", Lookup(fields, "overall_summary").GetOr(JStr(""))),
     ("primary_recommendation", Lookup(fields, "primary_recommendation").GetOr(JStr("")))]
  }

  /** An exception inside the analysis block is recorded in the insights under "analysis_error". */
  function Failed(score: Json, insights: seq<(string, Json)>, issues: seq<Issue>, msg: string,
                  language: string): AiContentResult {
    AiContentResult(score, insights + [("analysis_error", JStr(msg))], issues, language)
  }

  /**
   * The end of `analyze_ai_content`: what the decoded reply becomes. An "error" entry leaves
   * score 0 and no issues; otherwise the score and insights are read and the issues are
   * built by `Shape` from the first 5 critical issues and the first 3 quick wins; an
   * exception on the way is recorded in the insights.
   */
  function FromReply(response: Json, language: string): (r: AiContentResult)
    ensures r.language == language
    ensures |r.issues| <= 8
    ensures ImpactsInRange(r.issues)
  {
    match In("error", response)
    case Raised(m) => Failed(JInt(0), [], [], m, language)
    case Ok(hasError) =>
      if hasError then
        match Index(response, "error")
        case Raised(m) => Failed(JInt(0), [], [], m, language)
        case Ok(e) => AiContentResult(JInt(0), [("ai_error", e)], [], language)
      else
        match Get(response, "content_quality_score", JInt(0))
        case Raised(m) => Failed(JInt(0), [], [], m, language)
        case Ok(score) =>
          var critical := SliceItems(Lookup(response.fields, "critical_issues").GetOr(JArr([])), 5);
          var wins := SliceItems(Lookup(response.fields, "quick_wins").GetOr(JArr([])), 3);
          CriticalImpactsInRange();
          WinImpactsInRange();
          ShapeBounds(score, InsightsOf(response.fields), critical, wins, ConvertCritical, ConvertWin, language);
          Shape(score, InsightsOf(response.fields), critical, wins, ConvertCritical, ConvertWin, language)
  }

  /**
   * The two loops: the critical issues converted in order, then the quick wins; the quick
   * wins are only looked at once every critical issue converted, and the first exception
   * ends the analysis with the issues appended before it.
   */
  function Shape(score: Json, insights: seq<(string, Json)>, critical: Outcome<seq<Json>>,
                 wins: Outcome<seq<Json>>, convertCritical: Json -> Outcome<Issue>,
                 convertWin: Json -> Outcome<Issue>, language: string): (r: AiContentResult)
    ensures r.score == score && r.language == language
  {
    match critical
    case Raised(m) => Failed(score, insights, [], m, language)
    case Ok(critical) =>
      var first := ConvertEach(critical, convertCritical);
      if first.error.Some? then Failed(score, insights, first.issues, first.error.value, language)
      else
        match wins
        case Raised(m) => Failed(score, insights, first.issues, m, language)
        case Ok(wins) =>
          var second := ConvertEach(wins, convertWin);
          if second.error.Some? then
            Failed(score, insights, first.issues + second.issues, second.error.value, language)
          else AiContentResult(score, insights, first.issues + second.issues, language)
  }

  /** With bounded converters and lists of at most 5 and 3 items, at most 8 bounded issues. */
  lemma ShapeBounds(score: Json, insights: seq<(string, Json)>, critical: Outcome<seq<Json>>,
                    wins: Outcome<seq<Json>>, convertCritical: Json -> Outcome<Issue>,
                    convertWin: Json -> Outcome<Issue>, language: string)
    requires critical.Ok? ==> |critical.value| <= 5
    requires wins.Ok? ==> |wins.value| <= 3
    requires ImpactsBounded(convertCritical) && ImpactsBounded(convertWin)
    ensures |Shape(score, insights, critical, wins, convertCritical, convertWin, language).issues| <= 8
    ensures ImpactsInRange(Shape(score, insights, critical, wins, convertCritical, convertWin, language).issues)
  {
    if critical.Ok? {
      var first := ConvertEach(critical.value, convertCritical);
      ConvertEachInRange(critical.value, convertCritical);
      if first.error.None? && wins.Ok? {
        ConvertEachInRange(wins.value, convertWin);
        ImpactsInRangeConcat(first.issues, ConvertEach(wins.value, convertWin).issues);
      }
    }
  }

  lemma CriticalImpactsInRange()
    ensures ImpactsBounded(ConvertCritical)
  {
  }

  lemma WinImpactsInRange()
    ensures ImpactsBounded(ConvertWin)
  {
  }

  /** A reply carrying an "error" entry scores 0 and raises no issue. */
  lemma ErrorReplyRaisesNothing(response: Json, language: string)
    requires In("error", response) == Ok(true)
    ensures FromReply(response, language).score == JInt(0)
    ensures FromReply(response, language).issues == []
  {
  }

  /** The severities and impacts the critical-issue table can give. */
  const TableLevels: set<(Severity, int)> :=
    {(Critical, 10), (Critical, 9), (Important, 6), (Recommendation, 3)}

  /** Converters whose issues have a severity and impact from the table. */
  ghost predicate FromTable(convert: Json -> Outcome<Issue>) {
    forall x :: convert(x).Ok? ==> (convert(x).value.severity, convert(x).value.impact) in TableLevels
  }

  /** Converters whose issues are recommendations of impact 8. */
  ghost predicate QuickWinLevel(convert: Json -> Outcome<Issue>) {
    forall x :: convert(x).Ok? ==> convert(x).value.severity == Recommendation && convert(x).value.impact == 8
  }

  lemma CriticalFromTable()
    ensures FromTable(ConvertCritical)
    ensures forall x :: ConvertCritical(x).Ok? ==>
              x.JObj? && CriticalSeverity(Level(x)) == Ok((ConvertCritical(x).value.severity, ConvertCritical(x).value.impact))
  {
  }

  lemma WinsAtQuickWinLevel()
    ensures QuickWinLevel(ConvertWin)
  {
  }

  /**
   * The issues are at most 5 converted critical issues, each with a severity and impact
   * from the table, followed by at most 3 quick wins.
   */
  lemma {:induction false} IssuesThenQuickWins(score: Json, insights: seq<(string, Json)>,
                                               critical: Outcome<seq<Json>>, wins: Outcome<seq<Json>>,
                                               convertCritical: Json -> Outcome<Issue>,
                                               convertWin: Json -> Outcome<Issue>, language: string)
    returns (k: nat)
    requires critical.Ok? ==> |critical.value| <= 5
    requires wins.Ok? ==> |wins.value| <= 3
    requires FromTable(convertCritical) && QuickWinLevel(convertWin)
    ensures var issues := Shape(score, insights, critical, wins, convertCritical, convertWin, language).issues;
            k <= 5 && k <= |issues| <= k + 3
              && (forall i :: 0 <= i < k ==> (issues[i].severity, issues[i].impact) in TableLevels)
              && (forall i :: k <= i < |issues| ==> issues[i].severity == Recommendation && issues[i].impact == 8)
  {
    var issues := Shape(score, insights, critical, wins, convertCritical, convertWin, language).issues;
    if critical.Raised? {
      assert issues == [];
      return 0;
    }
    var first := ConvertEach(critical.value, convertCritical);
    k := |first.issues|;
    forall i | 0 <= i < k
      ensures (first.issues[i].severity, first.issues[i].impact) in TableLevels
    {
      assert convertCritical(critical.value[i]) == Ok(first.issues[i]);
    }
    if first.error.Some? || wins.Raised? {
      assert issues == first.issues;
    } else {
      var second := ConvertEach(wins.value, convertWin);
      assert issues == first.issues + second.issues;
      forall i | k <= i < |issues|
        ensures issues[i].severity == Recommendation && issues[i].impact == 8
      {
        assert issues[i] == second.issues[i - k];
        assert convertWin(wins.value[i - k]) == Ok(second.issues[i - k]);
      }
    }
  }

  /** The same order and levels for the issues of any reply. */
  lemma ReplyIssuesInOrder(response: Json, language: string) returns (k: nat)
    ensures var issues := FromReply(response, language).issues;
            k <= 5 && k <= |issues| <= k + 3
              && (forall i :: 0 <= i < k ==> (issues[i].severity, issues[i].impact) in TableLevels)
              && (forall i :: k <= i < |issues| ==> issues[i].severity == Recommendation && issues[i].impact == 8)
  {
    var issues := FromReply(response, language).issues;
    if response.JObj? && !HasKey(response.fields, "error") {
      var critical := SliceItems(Lookup(response.fields, "critical_issues").GetOr(JArr([])), 5);
      var wins := SliceItems(Lookup(response.fields, "quick_wins").GetOr(JArr([])), 3);
      var score := Lookup(response.fields, "content_quality_score").GetOr(JInt(0));
      CriticalFromTable();
      WinsAtQuickWinLevel();
      FromReplyIsShape(response, language);
      k := IssuesThenQuickWins(score, InsightsOf(response.fields), critical, wins, ConvertCritical, ConvertWin, language);
    } else {
      NoIssuesWithoutAnalysis(response, language);
      k := 0;
    }
  }

  /** A reply that is not a dict, or carries "error", yields no issues. */
  lemma NoIssuesWithoutAnalysis(response: Json, language: string)
    requires !response.JObj? || HasKey(response.fields, "error")
    ensures FromReply(response, language).issues == []
  {
  }

  /** A dict reply without "error" is shaped from its score, insights, critical issues and quick wins. */
  lemma FromReplyIsShape(response: Json, language: string)
    requires response.JObj? && !HasKey(response.fields, "error")
    ensures FromReply(response, language)
            == Shape(Lookup(response.fields, "content_quality_score").GetOr(JInt(0)), InsightsOf(response.fields),
                     SliceItems(Lookup(response.fields, "critical_issues").GetOr(JArr([])), 5),
                     SliceItems(Lookup(response.fields, "quick_wins").GetOr(JArr([])), 3),
                     ConvertCritical, ConvertWin, language)
  {
  }

  /**
   * The same steps as `FromReply`, written as the analyzer runs them: early returns for an
   * error, then the two append loops.
   */
  method ShapeReply(response: Json, language: string) returns (r: AiContentResult)
    ensures r == FromReply(response, language)
  {
    var hasError := In("error", response);
    if hasError.Raised? {
      return Failed(JInt(0), [], [], hasError.msg, language);
    }
    if hasError.value {
      var e := Index(response, "error");
      if e.Raised? {
        return Failed(JInt(0), [], [], e.msg, language);
      }
      return AiContentResult(JInt(0), [("ai_error", e.value)], [], language);
    }
    var score := Get(response, "content_quality_score", JInt(0));
    if score.Raised? {
      return Failed(JInt(0), [], [], score.msg, language);
    }
    var insights := InsightsOf(response.fields);
    var critical := SliceItems(Lookup(response.fields, "critical_issues").GetOr(JArr([])), 5);
    var wins := SliceItems(Lookup(response.fields, "quick_wins").GetOr(JArr([])), 3);
    r := AppendIssues(score.value, insights, critical, wins, ConvertCritical, ConvertWin, language);
  }

  /** The two append loops of the analyzer, over the (already sliced) lists of the reply. */
  method AppendIssues(score: Json, insights: seq<(string, Json)>, critical: Outcome<seq<Json>>,
                      wins: Outcome<seq<Json>>, convertCritical: Json -> Outcome<Issue>,
                      convertWin: Json -> Outcome<Issue>, language: string) returns (r: AiContentResult)
    ensures r == Shape(score, insights, critical, wins, convertCritical, convertWin, language)
  {
    if critical.Raised? {
      return Failed(score, insights, [], critical.msg, language);
    }
    ghost var first := ConvertEach(critical.value, convertCritical);
    var issues, error := AppendConverted([], critical.value, convertCritical);
    assert issues == first.issues && error == first.error;
    if error.Some? {
      return Failed(score, insights, issues, error.value, language);
    }
    if wins.Raised? {
      return Failed(score, insights, issues, wins.msg, language);
    }
    ghost var second := ConvertEach(wins.value, convertWin);
    issues, error := AppendConverted(issues, wins.value, convertWin);
    assert issues == first.issues + second.issues && error == second.error;
    if error.Some? {
      return Failed(score, insights, issues, error.value, language);
    }
    return AiContentResult(score, insights, issues, language);
  }

  /** The result when the analyzer cannot be used. */
  function Unavailable(language: string): AiContentResult {
    AiContentResult(JInt(0), [("ai_unavailable", JStr(UnavailableError))], [], language)
  }

  /**
   * What the analysis gives once the language is known: an unusable analyzer gives the
   * "ai_unavailable" insight; a usable one made 1 to 3 calls, every call but the last was
   * rejected, the last was accepted unless it was the third, `kept` is the value of that
   * last attempt, and the result is that value shaped by `FromReply`.
   */
  ghost predicate AnalysisIn(language: string, usable: bool, replies: nat -> ClientReply, decode: Decoder,
                             r: AiContentResult, calls: nat, kept: Json) {
    && (!usable ==> r == Unavailable(language))
    && (usable ==> && 1 <= calls <= 3
                   && (forall i :: 0 <= i < calls - 1 ==> AttemptOf(ResponseOf(replies(i)), decode).Rejected?)
                   && (calls < 3 ==> AttemptOf(ResponseOf(replies(calls - 1)), decode).Accepted?)
                   && kept == AttemptOf(ResponseOf(replies(calls - 1)), decode).value
                   && r == FromReply(kept, language))
  }

  /**
   * `analyze_ai_content`: with AI switched off, score 0, the "ai_disabled" insight and
   * language "unknown"; otherwise the detected language and what `AnalyzeInLanguage` makes
   * of the page. The page as parsed, the key and whether the client could be created are
   * inputs, and `replies(i)` is the client's answer to call `i`.
   */
  method AnalyzeAiContent(url: string, page: Outcome<PageLanguage>, aiEnabled: bool, apiKey: string,
                          clientCreated: bool, replies: nat -> ClientReply, decode: Decoder)
    returns (r: AiContentResult, calls: nat, kept: Json)
    ensures !aiEnabled ==> r == AiContentResult(JInt(0), [("ai_disabled", JStr(DisabledMessage))], [], "unknown")
    ensures aiEnabled ==> AnalysisIn(DetectPageLanguage(page), clientCreated && apiKey != PlaceholderKey,
                                     replies, decode, r, calls, kept)
    ensures aiEnabled ==> r.language == DetectPageLanguage(page)
    ensures |r.issues| <= 8 && ImpactsInRange(r.issues)
  {
    if !aiEnabled {
      return AiContentResult(JInt(0), [("ai_disabled", JStr(DisabledMessage))], [], "unknown"), 0, JNull;
    }
    var language := DetectPageLanguage(page);
    r, calls, kept := AnalyzeInLanguage(url, language, apiKey, clientCreated, replies, decode);
  }

  /**
   * `analyze_ai_content` once the language is known: the analyzer is created with the key, and if
   * it is usable the retry loop asks the model up to three times with the instruction for
   * the language.
   */
  method AnalyzeInLanguage(url: string, language: string, apiKey: string, clientCreated: bool,
                           replies: nat -> ClientReply, decode: Decoder)
    returns (r: AiContentResult, calls: nat, kept: Json)
    ensures AnalysisIn(language, clientCreated && apiKey != PlaceholderKey, replies, decode, r, calls, kept)
    ensures r.language == language && |r.issues| <= 8 && ImpactsInRange(r.issues)
  {
    var ai := new AIAnalyzer(apiKey, DefaultModel, clientCreated);
    if !ai.IsAvailable() {
      return Unavailable(language), 0, JNull;
    }
    kept, calls := ai.AnalyzeWithRetry(url, LangInstruction(language), 2, replies, decode);
    assert forall i :: 0 <= i < calls ==> ai.UrlResponse(replies(i)) == ResponseOf(replies(i));
    r := ShapeReply(kept, language);
  }
}
