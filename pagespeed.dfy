/**
 * The PageSpeed analyzer (analyzers/pagespeed.py): `parse_psi_data` over the decoded
 * PageSpeed Insights reply, and `analyze_pagespeed`, which scores the mobile run and
 * raises issues for slow Core Web Vitals. Fetching the reply is not modelled: its outcome
 * is an input.
 */
module PageSpeed {
  import opened Outcomes
  import opened Text
  import opened Json
  import opened Messages
  import opened Results

  /** A Core Web Vital as `parse_psi_data` reports it: `numericValue` and `displayValue`. */
  datatype Vital = Vital(value: Json, display: Json)

  /** An audit of type `opportunity`: its title, description and `numericValue`. */
  datatype Opportunity = Opportunity(title: Json, description: Json, savings: Json)

  /** What `parse_psi_data` returns. */
  datatype PsiSummary = PsiSummary(performanceScore: int, lcp: Vital, fid: Vital, cls: Vital,
                                   opportunities: seq<Opportunity>)

  /**
   * What `analyze_pagespeed` returns: the score, the `mobile_performance` check and the
   * issues, plus the parsed mobile data when parsing succeeded. The desktop entry is always
   * empty and is not represented.
   */
  datatype PagespeedResult = PagespeedResult(result: CategoryResult, mobile: Option<PsiSummary>)

  /** Python `int(x)` on a float: the integer part, rounding toward zero. */
  function Truncate(x: real): (n: int)
    ensures x >= 0.0 ==> 0 <= n && n as real <= x < n as real + 1.0
    ensures x < 0.0 ==> n <= 0 && n as real - 1.0 < x <= n as real
  {
    if x >= 0.0 then x.Floor else -((-x).Floor)
  }

  /**
   * `int(score * 100)`: integers and booleans scale exactly and floats are truncated
   * toward zero. A string is repeated a hundred times and then read by `int()`, so a
   * string of digits succeeds and the empty string raises. Every other value raises.
   */
  function PerformanceScore(score: Json): (r: Outcome<int>)
    ensures r.Ok? <==> score.JInt? || score.JFloat? || score.JBool? ||
                       (score.JStr? && IntOfText(Repeat(score.s, 100)).Ok?)
    ensures score.JInt? ==> r == Ok(score.i * 100)
    ensures score.JFloat? ==> r == Ok(Truncate(score.f * 100.0))
    ensures score.JBool? ==> r == Ok(if score.b then 100 else 0)
    ensures score == JStr("") ==> r.Raised?
  {
    match score
    case JInt(i) => Ok(i * 100)
    case JFloat(f) => Ok(Truncate(f * 100.0))
    case JBool(b) => Ok(if b then 100 else 0)
    case JStr(s) => IntOfText(Repeat(s, 100))
    case JArr(_) => Raised("int() argument must be a string, a bytes-like object or a real number, not 'list'")
    case _ => Raised("unsupported operand type(s) for *: '" + TypeName(score) + "' and 'int'")
  }

  /** A score given as a string of digits is the number its hundred copies spell. */
  lemma DigitStringScore(s: string)
    requires |s| > 0 && AllDigits(s)
    ensures AllDigits(Repeat(s, 100))
    ensures PerformanceScore(JStr(s)) == Ok(DigitsValue(Repeat(s, 100)))
  {
    var t := Repeat(s, 100);
    forall j | 0 <= j < |t| ensures IsDigit(t[j]) {
      var i := RepeatChar(s, 100, j);
    }
    RepeatLast(s, 100);
    DigitIsNoSpace(t[0]);
    DigitIsNoSpace(t[|t| - 1]);
    StripUnchanged(t);
    assert t == "" + t;
    IntOfSignedDigits(t, t, false);
  }

  /** A score string holding anything but whitespace, signs, digits and underscores raises. */
  lemma OtherStringRaises(s: string, i: nat)
    requires i < |s| && !IsSpace(s[i]) && !IsDigit(s[i]) && s[i] != '_' && s[i] != '+' && s[i] != '-'
    ensures PerformanceScore(JStr(s)).Raised?
  {
    var t := Repeat(s, 100);
    assert t[i] == s[i];
    if IntOfText(t).Ok? {
      IntOfTextChars(t, i);
    }
  }

  /** `audits.get(name, {})`, then its `numericValue` (default 0) and `displayValue` (default 'N/A'). */
  function ReadVital(audits: Json, name: string): (r: Outcome<Vital>)
    ensures audits.JObj? && !HasKey(audits.fields, name) ==> r == Ok(Vital(JInt(0), JStr("N/A")))
    ensures !audits.JObj? ==> r.Raised?
    ensures r.Ok? && audits.JObj? && HasKey(audits.fields, name) ==>
              var audit := Lookup(audits.fields, name).value;
              audit.JObj? && r.value.value == Lookup(audit.fields, "numericValue").GetOr(JInt(0)) &&
              r.value.display == Lookup(audit.fields, "displayValue").GetOr(JStr("N/A"))
  {
    var audit :- Get(audits, name, JObj([]));
    var value :- Get(audit, "numericValue", JInt(0));
    Ok(Vital(value, Lookup(audit.fields, "displayValue").GetOr(JStr("N/A"))))
  }

  /**
   * One entry of the opportunities comprehension: the audit is kept when its
   * `details.type` is 'opportunity'; an audit or details that is no dict raises.
   */
  function OpportunityOf(audit: Json): (r: Outcome<Option<Opportunity>>)
    ensures r.Ok? ==> audit.JObj?
    ensures r.Ok? && r.value.Some? ==>
              r.value.value.savings == Lookup(audit.fields, "numericValue").GetOr(JInt(0))
  {
    var details :- Get(audit, "details", JObj([]));
    var kind :- Get(details, "type", JNull);
    if kind == JStr("opportunity") then
      Ok(Some(Opportunity(Lookup(audit.fields, "title").GetOr(JStr("")),
                          Lookup(audit.fields, "description").GetOr(JStr("")),
                          Lookup(audit.fields, "numericValue").GetOr(JInt(0)))))
    else Ok(None)
  }

  /** The comprehension over `audits.items()`, in item order; the first failing audit raises. */
  function Opportunities(items: seq<(string, Json)>): (r: Outcome<seq<Opportunity>>)
    ensures r.Ok? ==> |r.value| <= |items|
    ensures r.Ok? ==> forall i :: 0 <= i < |items| ==> items[i].1.JObj?
  {
    if |items| == 0 then Ok([])
    else
      var first :- OpportunityOf(items[0].1);
      var rest :- Opportunities(items[1..]);
      assert forall i :: 1 <= i < |items| ==> items[i] == items[1..][i - 1];
      Ok(if first.Some? then [first.value] + rest else rest)
  }

  /**
   * `parse_psi_data`: the performance score from `lighthouseResult.categories.performance.score`
   * (0 when absent), the three vitals, and the first five opportunities.
   */
  function ParsePsiData(data: Json): (r: Outcome<PsiSummary>)
    ensures r.Ok? ==> |r.value.opportunities| <= 5
    ensures !data.JObj? ==> r.Raised?
  {
    var lighthouse :- Get(data, "lighthouseResult", JObj([]));
    var audits :- Get(lighthouse, "audits", JObj([]));
    var categories := Lookup(lighthouse.fields, "categories").GetOr(JObj([]));
    var performance :- Get(categories, "performance", JObj([]));
    var score :- Get(performance, "score", JInt(0));
    var perf :- PerformanceScore(score);
    var lcp :- ReadVital(audits, "largest-contentful-paint");
    var fid :- ReadVital(audits, "max-potential-fid");
    var cls :- ReadVital(audits, "cumulative-layout-shift");
    var all :- Opportunities(Items(audits.fields));
    Ok(PsiSummary(perf, lcp, fid, cls, Take(all, 5)))
  }

  /**
   * A parsed reply reports exactly what the reply holds: the performance score read from
   * `lighthouseResult.categories.performance.score`, each vital read from its audit, and
   * the first five opportunities.
   */
  lemma ParsedFromReply(data: Json)
    requires ParsePsiData(data).Ok?
    ensures var r := ParsePsiData(data);
              data.JObj? &&
              var lighthouse := Lookup(data.fields, "lighthouseResult").GetOr(JObj([]));
              lighthouse.JObj? &&
              var audits := Lookup(lighthouse.fields, "audits").GetOr(JObj([]));
              var categories := Lookup(lighthouse.fields, "categories").GetOr(JObj([]));
              audits.JObj? && categories.JObj? &&
              var performance := Lookup(categories.fields, "performance").GetOr(JObj([]));
              performance.JObj? &&
              PerformanceScore(Lookup(performance.fields, "score").GetOr(JInt(0))) == Ok(r.value.performanceScore) &&
              ReadVital(audits, "largest-contentful-paint") == Ok(r.value.lcp) &&
              ReadVital(audits, "max-potential-fid") == Ok(r.value.fid) &&
              ReadVital(audits, "cumulative-layout-shift") == Ok(r.value.cls) &&
              Opportunities(Items(audits.fields)).Ok? &&
              r.value.opportunities == Take(Opportunities(Items(audits.fields)).value, 5)
  {
  }

  /** An empty reply parses to the defaults: score 0, vitals 0 shown as "N/A", no opportunities. */
  lemma EmptyReplyDefaults()
    ensures ParsePsiData(JObj([])) ==
              Ok(PsiSummary(0, Vital(JInt(0), JStr("N/A")), Vital(JInt(0), JStr("N/A")),
                            Vital(JInt(0), JStr("N/A")), []))
  {
    assert Items([]) == [];
  }

  /** Python `v > bound` for a JSON value and a number: only numbers compare. */
  function Exceeds(v: Json, bound: real, boundType: string): (r: Outcome<bool>)
    ensures Number(v).Some? ==> r == Ok(Number(v).value > bound)
    ensures Number(v).None? ==> r.Raised?
  {
    match Number(v)
    case Some(x) => Ok(x > bound)
    case None => Raised("'>' not supported between instances of '" + TypeName(v) + "' and '" + boundType + "'")
  }

  /** A slow LCP (in ms): critical with impact 9 above 4000, else important with impact 7. */
  function LcpIssue(ms: real): (i: Issue)
    ensures ms > 4000.0 ==> i.severity == Critical && i.impact == 9
    ensures ms <= 4000.0 ==> i.severity == Important && i.impact == 7
    ensures i.title == Cat([Fixed(SlowLcpPrefix), Dec(ms / 1000.0, 1), Fixed(SecondsMobile)])
  {
    Issue(if ms > 4000.0 then Critical else Important,
          Cat([Fixed(SlowLcpPrefix), Dec(ms / 1000.0, 1), Fixed(SecondsMobile)]),
          if ms > 4000.0 then 9 else 7, Fixed(LcpDesc), Some(Fixed(LcpFix)))
  }

  /** A layout-shift problem: important with impact 7 above 0.25, else a recommendation with impact 5. */
  function ClsIssue(shift: real): (i: Issue)
    ensures shift > 0.25 ==> i.severity == Important && i.impact == 7
    ensures shift <= 0.25 ==> i.severity == Recommendation && i.impact == 5
    ensures i.title == Cat([Fixed(ClsPrefix), Dec(shift, 3), Fixed(MobileSuffix)])
  {
    Issue(if shift > 0.25 then Important else Recommendation,
          Cat([Fixed(ClsPrefix), Dec(shift, 3), Fixed(MobileSuffix)]),
          if shift > 0.25 then 7 else 5, Fixed(ClsDesc), Some(Fixed(ClsFix)))
  }

  /** Slow interactivity: important with impact 6; the title shows the value as `str()` does. */
  function FidIssue(value: Json): (i: Issue)
    ensures i.severity == Important && i.impact == 6
    ensures i.title == Cat([Fixed(SlowFidPrefix), Val(value), Fixed(MsMobile)])
  {
    Issue(Important, Cat([Fixed(SlowFidPrefix), Val(value), Fixed(MsMobile)]), 6,
          Fixed(FidDesc), Some(Fixed(FidFix)))
  }

  /**
   * The issue for a PageSpeed failure: important with impact 5, its description the first
   * 100 characters of the error after 'Error: '.
   */
  function FailureIssue(error: string): (i: Issue)
    ensures i.severity == Important && i.impact == 5 && i.title == Fixed(PsiFailed)
    ensures i.description.Cat? && |i.description.parts| == 2 && i.description.parts[0] == Fixed(ErrorPrefix)
    ensures var shown := i.description.parts[1];
            shown.Str? && |shown.s| <= 100 && |shown.s| <= |error| && shown.s == error[..|shown.s|]
            && (|error| <= 100 ==> shown.s == error)
  {
    Issue(Important, Fixed(PsiFailed), 5, Cat([Fixed(ErrorPrefix), Str(Take(error, 100))]), Some(Fixed(PsiFix)))
  }

  /** The issues the three vital checks append, and the exception that cut them short, if any. */
  datatype VitalsOutcome = VitalsOutcome(issues: seq<Issue>, error: Option<string>)

  /** Whether a vital compares as a number. */
  predicate Numeric(v: Vital) {
    Number(v.value).Some?
  }

  /** How many of the three thresholds the vitals exceed. */
  function Exceeded(m: PsiSummary): nat
    requires Numeric(m.lcp) && Numeric(m.cls) && Numeric(m.fid)
  {
    (if Number(m.lcp.value).value > 2500.0 then 1 else 0)
    + (if Number(m.cls.value).value > 0.1 then 1 else 0)
    + (if Number(m.fid.value).value > 100.0 then 1 else 0)
  }

  /**
   * The LCP (> 2500 ms), CLS (> 0.1) and FID (> 100 ms) checks, in that order: one issue
   * per exceeded threshold; a vital that is not a number raises and stops the rest.
   */
  function VitalIssues(m: PsiSummary): (r: VitalsOutcome)
    ensures |r.issues| <= 3 && ImpactsInRange(r.issues)
    ensures r.error.None? <==> Numeric(m.lcp) && Numeric(m.cls) && Numeric(m.fid)
    ensures r.error.None? ==> |r.issues| == Exceeded(m)
    ensures !Numeric(m.lcp) ==> r.issues == []
  {
    match Exceeds(m.lcp.value, 2500.0, "int")
    case Raised(e) => VitalsOutcome([], Some(e))
    case Ok(slowLcp) =>
      var afterLcp := if slowLcp then [LcpIssue(Number(m.lcp.value).value)] else [];
      match Exceeds(m.cls.value, 0.1, "float")
      case Raised(e) => VitalsOutcome(afterLcp, Some(e))
      case Ok(badCls) =>
        var afterCls := afterLcp + if badCls then [ClsIssue(Number(m.cls.value).value)] else [];
        match Exceeds(m.fid.value, 100.0, "int")
        case Raised(e) => VitalsOutcome(afterCls, Some(e))
        case Ok(slowFid) =>
          VitalsOutcome(afterCls + if slowFid then [FidIssue(m.fid.value)] else [], None)
  }

  /** Vitals at their defaults (missing audits read as 0) raise no issue. */
  lemma DefaultVitalsRaiseNoIssue(m: PsiSummary)
    requires m.lcp.value == JInt(0) && m.cls.value == JInt(0) && m.fid.value == JInt(0)
    ensures VitalIssues(m) == VitalsOutcome([], None)
  {
  }

  /**
   * `analyze_pagespeed`: on a fetch or parse failure the score is 0, `mobile_performance`
   * fails with 0 and one failure issue is added. Otherwise the score is the mobile
   * performance score and the check passes from 50; an exception while checking the vitals
   * keeps the issues appended so far, marks the check failed with 0 and adds the failure
   * issue, but the score stays the performance score because the mobile data is set.
   */
  function PagespeedResultOf(psi: Outcome<Json>): (r: PagespeedResult)
  {
    var parsed := if psi.Ok? then ParsePsiData(psi.value) else Raised(psi.msg);
    match parsed
    case Raised(e) =>
      PagespeedResult(CategoryResult(0.0, [(MobilePerformance, Check(false, 0.0))], [FailureIssue(e)]), None)
    case Ok(m) =>
      var vitals := VitalIssues(m);
      var perf := m.performanceScore as real;
      var check := if vitals.error.Some? then Check(false, 0.0) else Check(m.performanceScore >= 50, perf);
      var issues := vitals.issues + if vitals.error.Some? then [FailureIssue(vitals.error.value)] else [];
      PagespeedResult(CategoryResult(perf, [(MobilePerformance, check)], issues), Some(m))
  }

  /** A failed fetch or parse scores 0 with exactly one important impact-5 issue and no mobile data. */
  lemma FailureScoresZero(psi: Outcome<Json>)
    requires psi.Raised? || ParsePsiData(psi.value).Raised?
    ensures var r := PagespeedResultOf(psi);
            && r.result.score == 0.0 && r.mobile.None?
            && r.result.checks == [(MobilePerformance, Check(false, 0.0))]
            && |r.result.issues| == 1 && r.result.issues[0].severity == Important
            && r.result.issues[0].impact == 5
  {
  }

  /**
   * When parsing succeeds and every vital is a number, the score is the performance score,
   * the check passes iff it is at least 50, and there is one issue per exceeded threshold,
   * so at most three.
   */
  lemma SuccessScoresPerformance(psi: Outcome<Json>, m: PsiSummary)
    requires psi.Ok? && ParsePsiData(psi.value) == Ok(m)
    requires Numeric(m.lcp) && Numeric(m.cls) && Numeric(m.fid)
    ensures var r := PagespeedResultOf(psi);
            && r.result.score == m.performanceScore as real && r.mobile == Some(m)
            && r.result.checks == [(MobilePerformance, Check(m.performanceScore >= 50, m.performanceScore as real))]
            && |r.result.issues| == Exceeded(m) <= 3
  {
  }

  /**
   * Whatever happens, exactly the one `mobile_performance` check is recorded, every
   * issue's impact lies in 1..10, and at most four issues are raised; the score is 0 exactly
   * when parsing failed or the performance score is 0.
   */
  lemma PagespeedShape(psi: Outcome<Json>)
    ensures var r := PagespeedResultOf(psi);
            && Names(r.result.checks) == [MobilePerformance]
            && ImpactsInRange(r.result.issues) && |r.result.issues| <= 4
            && (r.mobile.Some? ==> r.result.score == r.mobile.value.performanceScore as real)
            && (r.mobile.None? ==> r.result.score == 0.0)
  {
    var r := PagespeedResultOf(psi);
    if r.mobile.Some? {
      var vitals := VitalIssues(r.mobile.value);
      assert ImpactsInRange(vitals.issues);
      if vitals.error.Some? {
        ImpactsInRangeConcat(vitals.issues, [FailureIssue(vitals.error.value)]);
      }
    }
  }

  /** The three vital checks of `analyze_pagespeed`, appending issues until one raises. */
  method CheckVitals(m: PsiSummary) returns (issues: seq<Issue>, error: Option<string>)
    ensures VitalsOutcome(issues, error) == VitalIssues(m)
  {
    issues := [];
    error := None;
    var slowLcp := Exceeds(m.lcp.value, 2500.0, "int");
    if slowLcp.Raised? {
      error := Some(slowLcp.msg);
      return;
    }
    if slowLcp.value {
      issues := issues + [LcpIssue(Number(m.lcp.value).value)];
    }
    var badCls := Exceeds(m.cls.value, 0.1, "float");
    if badCls.Raised? {
      error := Some(badCls.msg);
      return;
    }
    if badCls.value {
      issues := issues + [ClsIssue(Number(m.cls.value).value)];
    }
    var slowFid := Exceeds(m.fid.value, 100.0, "int");
    if slowFid.Raised? {
      error := Some(slowFid.msg);
      return;
    }
    if slowFid.value {
      issues := issues + [FidIssue(m.fid.value)];
    }
  }

  /** `analyze_pagespeed`, filling the result step by step as the source does. */
  method AnalyzePagespeed(psi: Outcome<Json>) returns (r: PagespeedResult)
    ensures r == PagespeedResultOf(psi)
  {
    var checks: seq<(CheckId, Check)> := [];
    var issues: seq<Issue> := [];
    var mobile: Option<PsiSummary> := None;
    var error: Option<string> := None;
    var parsed := if psi.Ok? then ParsePsiData(psi.value) else Raised(psi.msg);
    if parsed.Raised? {
      error := Some(parsed.msg);
    } else {
      mobile := Some(parsed.value);
      checks := [(MobilePerformance, Check(parsed.value.performanceScore >= 50, parsed.value.performanceScore as real))];
      issues, error := CheckVitals(parsed.value);
    }
    if error.Some? {
      checks := [(MobilePerformance, Check(false, 0.0))];
      issues := issues + [FailureIssue(error.value)];
    }
    var score := if mobile.Some? then mobile.value.performanceScore as real else 0.0;
    r := PagespeedResult(CategoryResult(score, checks, issues), mobile);
  }
}
