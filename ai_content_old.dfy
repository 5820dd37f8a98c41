/**
 * The earlier AI content analyzer (analyzers/ai_content_old.py): one call of the model with
 * the URL context tool, the reply's recommendations as issues, and three fixed checks on
 * the reply (search intent, E-E-A-T scores, keyword stuffing).
 */
module AiContentOld {
  import opened Outcomes
  import opened Text
  import opened Json
  import opened Messages
  import opened Results
  import opened AiEngine
  import opened AiIssues
  import AiContent

  /** The analyzer's result: score, insights (in insertion order) and issues. */
  datatype OldResult = OldResult(score: Json, insights: seq<(string, Json)>, issues: seq<Issue>)

  /** An exception inside the analysis block is recorded in the insights under "analysis_error". */
  function Fail(score: Json, insights: seq<(string, Json)>, issues: seq<Issue>, msg: string): OldResult {
    OldResult(score, insights + [("analysis_error", JStr(msg))], issues)
  }

  /** The `priority_map` of the reply's recommendations; unknown priorities count as important/6. */
  const PriorityTable: seq<(string, (Severity, int))> := [
    ("high", (Critical, 9)),
    ("medium", (Important, 6)),
    ("low", (Recommendation, 3))
  ]

  const PriorityLevels: set<(Severity, int)> := {(Critical, 9), (Important, 6), (Recommendation, 3)}

  /** `rec.get('priority', 'medium')` of a dict recommendation. */
  function Priority(rec: Json): Json
    requires rec.JObj?
  {
    Lookup(rec.fields, "priority").GetOr(JStr("medium"))
  }

  /**
   * One recommendation of the reply as an audit issue: severity and impact from the table
   * (a missing priority counts as "medium"), title "AI: " and the recommendation's title,
   * and its description and expected impact taken over as they are. Anything but a dict
   * raises, and so does a list or dict priority, which cannot be hashed.
   */
  function ConvertRecommendation(rec: Json): (r: Outcome<Issue>)
    ensures r.Ok? ==> rec.JObj?
    ensures r.Ok? ==> (r.value.severity, r.value.impact) in PriorityLevels
    ensures rec.JObj? ==> (r.Ok? <==> !Priority(rec).JArr? && !Priority(rec).JObj?)
    ensures r.Ok? ==> TableGet(PriorityTable, Priority(rec), (Important, 6)) == Ok((r.value.severity, r.value.impact))
  {
    var priority :- Get(rec, "priority", JStr("medium"));
    var pair :- TableGet(PriorityTable, priority, (Important, 6));
    var fields := rec.fields;
    Ok(Issue(pair.0,
             Cat([Fixed(AiPrefix), Val(Lookup(fields, "title").GetOr(JStr("Content improvement")))]),
             pair.1,
             Val(Lookup(fields, "description").GetOr(JStr(""))),
             Some(Val(Lookup(fields, "expected_impact").GetOr(JStr("Implement this recommendation"))))))
  }

  /** The full table: the three priorities, and the default for any other hashable value. */
  lemma PriorityTableLevels(priority: Json)
    requires !priority.JArr? && !priority.JObj?
    ensures priority == JStr("high") ==> TableGet(PriorityTable, priority, (Important, 6)) == Ok((Critical, 9))
    ensures priority == JStr("medium") ==> TableGet(PriorityTable, priority, (Important, 6)) == Ok((Important, 6))
    ensures priority == JStr("low") ==> TableGet(PriorityTable, priority, (Important, 6)) == Ok((Recommendation, 3))
    ensures priority !in {JStr("high"), JStr("medium"), JStr("low")} ==>
              TableGet(PriorityTable, priority, (Important, 6)) == Ok((Important, 6))
  {
    if priority.JStr? && priority !in {JStr("high"), JStr("medium"), JStr("low")} {
      assert forall i :: 0 <= i < |PriorityTable| ==> PriorityTable[i].0 != priority.s;
    }
  }

  /** Python `v < bound` for a JSON value and an integer bound: only numbers compare. */
  function Below(v: Json, bound: int): (r: Outcome<bool>)
    ensures Number(v).Some? <==> r.Ok?
    ensures r.Ok? ==> (r.value <==> Number(v).value < bound as real)
  {
    match Number(v)
    case Some(x) => Ok(x < bound as real)
    case None => Raised("'<' not supported between instances of '" + TypeName(v) + "' and 'int'")
  }

  /**
   * The search-intent check: an intent match score below 70 (100 when absent) raises an
   * important issue of impact 8 naming the detected intent.
   */
  function IntentIssue(fields: seq<(string, Json)>): (r: Outcome<Option<Issue>>)
    ensures r.Ok? && r.value.Some? ==> r.value.value.severity == Important && r.value.value.impact == 8
  {
    var intent := Lookup(fields, "search_intent").GetOr(JObj([]));
    var score :- Get(intent, "intent_match_score", JInt(100));
    var low :- Below(score, 70);
    if low then
      Ok(Some(Issue(Important,
                    Cat([Fixed(IntentMismatchPrefix), Val(Lookup(intent.fields, "detected_intent").GetOr(JStr("unknown"))),
                         Fixed(CloseParen)]),
                    8,
                    Val(Lookup(intent.fields, "explanation").GetOr(JStr("Content may not match user search intent"))),
                    Some(Fixed(IntentFix)))))
    else Ok(None)
  }

  /** With a numeric intent score, the issue is raised exactly when that score is below 70. */
  lemma IntentIssueExactly(fields: seq<(string, Json)>, intent: seq<(string, Json)>)
    requires Lookup(fields, "search_intent") == Some(JObj(intent))
    requires Number(Lookup(intent, "intent_match_score").GetOr(JInt(100))).Some?
    ensures IntentIssue(fields).Ok?
    ensures IntentIssue(fields).value.Some? <==>
              Number(Lookup(intent, "intent_match_score").GetOr(JInt(100))).value < 70.0
  {
  }

  /**
   * Python `sum(vs)`: the values added to `total` from the left; adding anything but a
   * number raises, naming the type accumulated so far and the type of the value.
   */
  function SumScores(vs: seq<Json>, total: real, totalType: string): (r: Outcome<real>)
    ensures r.Ok? <==> forall i :: 0 <= i < |vs| ==> Number(vs[i]).Some?
    decreases |vs|
  {
    if |vs| == 0 then Ok(total)
    else
      match Number(vs[0])
      case None => Raised("unsupported operand type(s) for +: '" + totalType + "' and '" + TypeName(vs[0]) + "'")
      case Some(x) =>
        var rest := SumScores(vs[1..], total + x, if vs[0].JFloat? then "float" else totalType);
        assert forall i :: 1 <= i < |vs| ==> vs[i] == vs[1..][i - 1];
        rest
  }

  /** Four numbers sum to their total. */
  lemma {:induction false} SumOfFour(a: Json, b: Json, c: Json, d: Json)
    requires Number(a).Some? && Number(b).Some? && Number(c).Some? && Number(d).Some?
    ensures SumScores([a, b, c, d], 0.0, "int")
            == Ok(Number(a).value + Number(b).value + Number(c).value + Number(d).value)
  {
    var x, y, z, w := Number(a).value, Number(b).value, Number(c).value, Number(d).value;
    var t1 := if a.JFloat? then "float" else "int";
    var t2 := if b.JFloat? then "float" else t1;
    var t3 := if c.JFloat? then "float" else t2;
    var t4 := if d.JFloat? then "float" else t3;
    assert [d][1..] == [];
    assert SumScores([d], 0.0 + x + y + z, t3) == SumScores([], 0.0 + x + y + z + w, t4);
    assert [c, d][1..] == [d];
    assert SumScores([c, d], 0.0 + x + y, t2) == SumScores([d], 0.0 + x + y + z, t3);
    assert [b, c, d][1..] == [c, d];
    assert SumScores([b, c, d], 0.0 + x, t1) == SumScores([c, d], 0.0 + x + y, t2);
    assert [a, b, c, d][1..] == [b, c, d];
    assert SumScores([a, b, c, d], 0.0, "int") == SumScores([b, c, d], 0.0 + x, t1);
  }

  /** `sep.join(v)` for a list of strings, or the characters of a string. */
  function JoinText(v: Json, sep: string): (r: Outcome<string>)
  {
    match v
    case JStr(s) => Ok(Join(seq(|s|, i requires 0 <= i < |s| => [s[i]]), sep))
    case JArr(items) =>
      var parts :- StringItems(items, 0);
      Ok(Join(parts, sep))
    case _ => Raised("can only join an iterable")
  }

  /**
   * The E-E-A-T check: the mean of the experience, expertise, authoritativeness and
   * trustworthiness scores (0 when absent) below 60 raises an important issue of impact 7,
   * with the mean in the title and the first three findings joined in the description.
   */
  function EeatIssue(fields: seq<(string, Json)>): (r: Outcome<Option<Issue>>)
    ensures r.Ok? && r.value.Some? ==> r.value.value.severity == Important && r.value.value.impact == 7
  {
    var eeat := Lookup(fields, "eeat_signals").GetOr(JObj([]));
    var experience :- Get(eeat, "experience_score", JInt(0));
    var expertise := Lookup(eeat.fields, "expertise_score").GetOr(JInt(0));
    var authority := Lookup(eeat.fields, "authoritativeness_score").GetOr(JInt(0));
    var trust := Lookup(eeat.fields, "trustworthiness_score").GetOr(JInt(0));
    var total :- SumScores([experience, expertise, authority, trust], 0.0, "int");
    var mean := total / 4.0;
    if mean < 60.0 then LowEeatIssue(eeat.fields, mean) else Ok(None)
  }

  /**
   * The issue for a mean below 60, the mean in its title. The description cites at most
   * the first three findings, joined with ", ": none when there are no findings. Joining
   * raises for a dict, a list whose first three hold a non-string, or a scalar.
   */
  function LowEeatIssue(eeat: seq<(string, Json)>, mean: real): (r: Outcome<Option<Issue>>)
    ensures r.Ok? ==> r.value.Some? && r.value.value.severity == Important && r.value.value.impact == 7
    ensures r.Ok? ==> r.value.value.title == Cat([Fixed(LowEeatPrefix), Dec(mean, 0), Fixed(ScoreOutOf100Paren)])
    ensures Lookup(eeat, "findings").GetOr(JArr([])).JStr? ==> r.Ok?
    ensures var findings := Lookup(eeat, "findings").GetOr(JArr([]));
            findings.JArr? && (forall i :: 0 <= i < |findings.items| && i < 3 ==> findings.items[i].JStr?) ==>
              r.Ok? && r.value.value.description ==
                         Cat([Fixed(FoundSignals), Str(Join(Texts(Take(findings.items, 3)), ", "))])
    ensures !HasKey(eeat, "findings") ==> r.Ok? && r.value.value.description == Cat([Fixed(FoundSignals), Str("")])
    ensures r.Ok? ==> Lookup(eeat, "findings").GetOr(JArr([])).JStr? || Lookup(eeat, "findings").GetOr(JArr([])).JArr?
    ensures var findings := Lookup(eeat, "findings").GetOr(JArr([]));
            findings.JArr? && (exists i :: 0 <= i < |findings.items| && i < 3 && !findings.items[i].JStr?) ==>
              r.Raised?
  {
    var findings :- Slice(Lookup(eeat, "findings").GetOr(JArr([])), 3);
    var joined :- JoinText(findings, ", ");
    Ok(Some(Issue(Important,
                  Cat([Fixed(LowEeatPrefix), Dec(mean, 0), Fixed(ScoreOutOf100Paren)]),
                  7,
                  Cat([Fixed(FoundSignals), Str(joined)]),
                  Some(Fixed(EeatFix)))))
  }

  /**
   * With four numeric scores, no issue when their mean is at least 60; below 60 the issue
   * is the one `LowEeatIssue` builds for that mean, raised unless the findings cannot be
   * joined (a dict, or a list holding a non-string among its first three).
   */
  lemma EeatIssueExactly(fields: seq<(string, Json)>, eeat: seq<(string, Json)>)
    requires Lookup(fields, "eeat_signals") == Some(JObj(eeat))
    requires Number(Lookup(eeat, "experience_score").GetOr(JInt(0))).Some?
    requires Number(Lookup(eeat, "expertise_score").GetOr(JInt(0))).Some?
    requires Number(Lookup(eeat, "authoritativeness_score").GetOr(JInt(0))).Some?
    requires Number(Lookup(eeat, "trustworthiness_score").GetOr(JInt(0))).Some?
    ensures var mean := (Number(Lookup(eeat, "experience_score").GetOr(JInt(0))).value
                         + Number(Lookup(eeat, "expertise_score").GetOr(JInt(0))).value
                         + Number(Lookup(eeat, "authoritativeness_score").GetOr(JInt(0))).value
                         + Number(Lookup(eeat, "trustworthiness_score").GetOr(JInt(0))).value) / 4.0;
            && (mean >= 60.0 ==> EeatIssue(fields) == Ok(None))
            && (mean < 60.0 && EeatIssue(fields).Ok? ==> EeatIssue(fields).value.Some?)
            && (mean < 60.0 && Lookup(eeat, "findings").GetOr(JArr([])).JStr? ==> EeatIssue(fields).Ok?)
            && (mean < 60.0 ==> EeatIssue(fields) == LowEeatIssue(eeat, mean))
  {
    SumOfFour(Lookup(eeat, "experience_score").GetOr(JInt(0)), Lookup(eeat, "expertise_score").GetOr(JInt(0)),
              Lookup(eeat, "authoritativeness_score").GetOr(JInt(0)),
              Lookup(eeat, "trustworthiness_score").GetOr(JInt(0)));
  }

  /** The keyword-stuffing check: a truthy flag raises a critical issue of impact 9. */
  function StuffingIssue(fields: seq<(string, Json)>): (r: Outcome<Option<Issue>>)
    ensures r.Ok? && r.value.Some? ==> r.value.value.severity == Critical && r.value.value.impact == 9
    ensures Lookup(fields, "keyword_usage").GetOr(JObj([])).JObj? ==>
              r.Ok? && (r.value.Some? <==> Truthy(Lookup(Lookup(fields, "keyword_usage").GetOr(JObj([])).fields,
                                                         "keyword_stuffing_detected").GetOr(JBool(false))))
  {
    var usage := Lookup(fields, "keyword_usage").GetOr(JObj([]));
    var flagged :- Get(usage, "keyword_stuffing_detected", JBool(false));
    if Truthy(flagged) then
      Ok(Some(Issue(Critical,
                    Fixed(StuffingDetected),
                    9,
                    Cat([Fixed(NaturalnessPrefix), Val(Lookup(usage.fields, "naturalness_score").GetOr(JInt(0))),
                         Fixed(OutOf100)]),
                    Some(Fixed(StuffingRewrite)))))
    else Ok(None)
  }

  /** Running the checks in order: each adds its issue if it has one, the first exception stops. */
  function RunChecks(checks: seq<Outcome<Option<Issue>>>): (c: Converted)
    ensures |c.issues| <= |checks|
    decreases |checks|
  {
    if |checks| == 0 then Converted([], None)
    else
      match checks[0]
      case Raised(m) => Converted([], Some(m))
      case Ok(found) =>
        var rest := RunChecks(checks[1..]);
        Converted((if found.Some? then [found.value] else []) + rest.issues, rest.error)
  }

  /** The insights dict built from a reply object. */
  function OldInsights(fields: seq<(string, Json)>): seq<(string, Json)> {
    [("search_intent", Lookup(fields, "search_intent").GetOr(JObj([]))),
     ("eeat", Lookup(fields, "eeat_signals").GetOr(JObj([]))),
     ("content_depth", Lookup(fields, "content_depth").GetOr(JObj([]))),
     ("keyword_usage", Lookup(fields, "keyword_usage").GetOr(JObj([])))]
  }

  /**
   * The recommendations loop and then the checks, the first exception ending the analysis
   * with the issues appended before it.
   */
  function Shape(score: Json, insights: seq<(string, Json)>, recs: Outcome<seq<Json>>,
                 convert: Json -> Outcome<Issue>, checks: seq<Outcome<Option<Issue>>>): (r: OldResult)
    ensures r.score == score
  {
    match recs
    case Raised(m) => Fail(score, insights, [], m)
    case Ok(recs) =>
      var first := ConvertEach(recs, convert);
      if first.error.Some? then Fail(score, insights, first.issues, first.error.value)
      else Finish(score, insights, first.issues, RunChecks(checks))
  }

  /** The issues so far followed by those of the checks, and the checks' exception if any. */
  function Finish(score: Json, insights: seq<(string, Json)>, issues: seq<Issue>, rest: Converted): OldResult {
    if rest.error.Some? then Fail(score, insights, issues + rest.issues, rest.error.value)
    else OldResult(score, insights, issues + rest.issues)
  }

  /**
   * `analyze_ai_content` on the parsed reply: an "error" entry leaves score 0 and
   * no issues; otherwise score and insights are read, the first 5 recommendations are
   * converted, and the intent, E-E-A-T and stuffing checks follow in that order.
   */
  function FromAnalysis(analysis: Json): (r: OldResult)
    ensures |r.issues| <= 8
    ensures ImpactsInRange(r.issues)
  {
    match In("error", analysis)
    case Raised(m) => Fail(JInt(0), [], [], m)
    case Ok(hasError) =>
      if hasError then
        match Index(analysis, "error")
        case Raised(m) => Fail(JInt(0), [], [], m)
        case Ok(e) => OldResult(JInt(0), [("ai_error", e)], [])
      else
        match Get(analysis, "content_quality_score", JInt(0))
        case Raised(m) => Fail(JInt(0), [], [], m)
        case Ok(score) =>
          var recs := SliceItems(Lookup(analysis.fields, "recommendations").GetOr(JArr([])), 5);
          var checks := [IntentIssue(analysis.fields), EeatIssue(analysis.fields), StuffingIssue(analysis.fields)];
          RecommendationImpactsInRange();
          ChecksOfReplyInRange(analysis.fields);
          OldShapeBounds(score, OldInsights(analysis.fields), recs, ConvertRecommendation, checks);
          Shape(score, OldInsights(analysis.fields), recs, ConvertRecommendation, checks)
  }

  /** Checks whose issues, when they have one, carry an impact on the 1-10 scale. */
  predicate ChecksInRange(checks: seq<Outcome<Option<Issue>>>) {
    forall i :: 0 <= i < |checks| && checks[i].Ok? && checks[i].value.Some? ==>
      1 <= checks[i].value.value.impact <= 10
  }

  lemma {:induction false} RunChecksInRange(checks: seq<Outcome<Option<Issue>>>)
    requires ChecksInRange(checks)
    ensures ImpactsInRange(RunChecks(checks).issues)
    decreases |checks|
  {
    if |checks| > 0 && checks[0].Ok? {
      assert ChecksInRange(checks[1..]) by {
        forall i | 0 <= i < |checks[1..]| && checks[1..][i].Ok? && checks[1..][i].value.Some?
          ensures 1 <= checks[1..][i].value.value.impact <= 10
        {
          assert checks[1..][i] == checks[i + 1];
        }
      }
      RunChecksInRange(checks[1..]);
      var found := checks[0].value;
      ImpactsInRangeConcat(if found.Some? then [found.value] else [], RunChecks(checks[1..]).issues);
    }
  }

  lemma ChecksOfReplyInRange(fields: seq<(string, Json)>)
    ensures ChecksInRange([IntentIssue(fields), EeatIssue(fields), StuffingIssue(fields)])
  {
    ThreeInRange(IntentIssue(fields), EeatIssue(fields), StuffingIssue(fields));
  }

  lemma ThreeInRange(a: Outcome<Option<Issue>>, b: Outcome<Option<Issue>>, c: Outcome<Option<Issue>>)
    requires a.Ok? && a.value.Some? ==> 1 <= a.value.value.impact <= 10
    requires b.Ok? && b.value.Some? ==> 1 <= b.value.value.impact <= 10
    requires c.Ok? && c.value.Some? ==> 1 <= c.value.value.impact <= 10
    ensures ChecksInRange([a, b, c])
  {
  }

  lemma RecommendationImpactsInRange()
    ensures ImpactsBounded(ConvertRecommendation)
  {
  }

  /** At most 5 recommendations and one issue per check, all with impacts on the 1-10 scale. */
  lemma OldShapeBounds(score: Json, insights: seq<(string, Json)>, recs: Outcome<seq<Json>>,
                       convert: Json -> Outcome<Issue>, checks: seq<Outcome<Option<Issue>>>)
    requires recs.Ok? ==> |recs.value| <= 5
    requires |checks| == 3
    requires ImpactsBounded(convert) && ChecksInRange(checks)
    ensures |Shape(score, insights, recs, convert, checks).issues| <= 8
    ensures ImpactsInRange(Shape(score, insights, recs, convert, checks).issues)
  {
    if recs.Ok? {
      var first := ConvertEach(recs.value, convert);
      ConvertEachInRange(recs.value, convert);
      RunChecksInRange(checks);
      ImpactsInRangeConcat(first.issues, RunChecks(checks).issues);
    }
  }

  /** A reply carrying an "error" entry scores 0 and raises no issue. */
  lemma ErrorAnalysisRaisesNothing(analysis: Json)
    requires In("error", analysis) == Ok(true)
    ensures FromAnalysis(analysis).score == JInt(0)
    ensures FromAnalysis(analysis).issues == []
  {
  }

  /** Three checks run in order: the issues found before the first exception, and that exception. */
  lemma {:induction false} RunThreeChecks(a: Outcome<Option<Issue>>, b: Outcome<Option<Issue>>,
                                          c: Outcome<Option<Issue>>)
    ensures RunChecks([a, b, c]) ==
              if a.Raised? then Converted([], Some(a.msg))
              else if b.Raised? then Converted(Found(a), Some(b.msg))
              else if c.Raised? then Converted(Found(a) + Found(b), Some(c.msg))
              else Converted(Found(a) + Found(b) + Found(c), None)
  {
    RunChecksCons(c, []);
    RunChecksCons(b, [c]);
    RunChecksCons(a, [b, c]);
    assert [c] == [c] + [] && [b, c] == [b] + [c] && [a, b, c] == [a] + [b, c];
    if a.Ok? && b.Ok? && c.Ok? {
      assert Found(c) + [] == Found(c);
      assert Found(a) + (Found(b) + Found(c)) == Found(a) + Found(b) + Found(c);
    }
  }

  /** One check ahead of others: its exception ends the run, otherwise its issue comes first. */
  lemma RunChecksCons(x: Outcome<Option<Issue>>, rest: seq<Outcome<Option<Issue>>>)
    ensures RunChecks([x] + rest) ==
              if x.Raised? then Converted([], Some(x.msg))
              else Converted(Found(x) + RunChecks(rest).issues, RunChecks(rest).error)
  {
    assert ([x] + rest)[0] == x && ([x] + rest)[1..] == rest;
  }

  /** The issue a successful check contributes: none, or its one issue. */
  function Found(check: Outcome<Option<Issue>>): seq<Issue>
    requires check.Ok?
  {
    if check.value.Some? then [check.value.value] else []
  }

  /**
   * The analysis block as the analyzer runs it: the recommendations loop, then the three
   * checks, each appending its issue if it has one; the first exception ends the block.
   */
  method ShapeAnalysis(score: Json, insights: seq<(string, Json)>, recs: Outcome<seq<Json>>,
                       convert: Json -> Outcome<Issue>, intent: Outcome<Option<Issue>>,
                       eeat: Outcome<Option<Issue>>, stuffing: Outcome<Option<Issue>>)
    returns (r: OldResult)
    ensures r == Shape(score, insights, recs, convert, [intent, eeat, stuffing])
  {
    if recs.Raised? {
      return Fail(score, insights, [], recs.msg);
    }
    ghost var first := ConvertEach(recs.value, convert);
    var issues, error := AppendConverted([], recs.value, convert);
    assert issues == first.issues && error == first.error;
    if error.Some? {
      return Fail(score, insights, issues, error.value);
    }
    r := AppendChecks(score, insights, issues, intent, eeat, stuffing);
  }

  /** The three checks in order, each appending its issue if it has one. */
  method AppendChecks(score: Json, insights: seq<(string, Json)>, issues: seq<Issue>,
                      intent: Outcome<Option<Issue>>, eeat: Outcome<Option<Issue>>,
                      stuffing: Outcome<Option<Issue>>)
    returns (r: OldResult)
    ensures r == Finish(score, insights, issues, RunChecks([intent, eeat, stuffing]))
  {
    RunThreeChecks(intent, eeat, stuffing);
    var out := issues;
    if intent.Raised? {
      return Fail(score, insights, out, intent.msg);
    }
    if intent.value.Some? {
      out := out + [intent.value.value];
    }
    assert out == issues + Found(intent);
    if eeat.Raised? {
      return Fail(score, insights, out, eeat.msg);
    }
    if eeat.value.Some? {
      out := out + [eeat.value.value];
    }
    assert out == issues + (Found(intent) + Found(eeat));
    if stuffing.Raised? {
      return Fail(score, insights, out, stuffing.msg);
    }
    if stuffing.value.Some? {
      out := out + [stuffing.value.value];
    }
    assert out == issues + (Found(intent) + Found(eeat) + Found(stuffing));
    return OldResult(score, insights, out);
  }

  /** What the analysis block makes of the parsed reply, or of the exception parsing raised. */
  function FromParsed(parsed: Outcome<Json>): (r: OldResult)
    ensures |r.issues| <= 8 && ImpactsInRange(r.issues)
  {
    match parsed
    case Raised(m) => Fail(JInt(0), [], [], m)
    case Ok(analysis) => FromAnalysis(analysis)
  }

  /**
   * The old `analyze_ai_content`: with AI switched off, the "ai_disabled" insight; with an
   * unusable analyzer the "ai_unavailable" insight; otherwise one call of the model with
   * the URL context tool, whose reply is parsed and then analysed. The prompt text, the key,
   * whether the client could be created and the client's reply are inputs.
   */
  method AnalyzeOldContent(url: string, prompt: string, aiEnabled: bool, apiKey: string,
                           clientCreated: bool, reply: ClientReply, decode: Decoder)
    returns (r: OldResult)
    ensures !aiEnabled ==> r == OldResult(JInt(0), [("ai_disabled", JStr(AiContent.DisabledMessage))], [])
    ensures aiEnabled && !(clientCreated && apiKey != PlaceholderKey) ==>
              r == OldResult(JInt(0), [("ai_unavailable", JStr(UnavailableError))], [])
    ensures aiEnabled && clientCreated && apiKey != PlaceholderKey ==>
              r == FromParsed(ParseJsonResponse(ResponseOf(reply), decode))
    ensures |r.issues| <= 8 && ImpactsInRange(r.issues)
  {
    if !aiEnabled {
      return OldResult(JInt(0), [("ai_disabled", JStr(AiContent.DisabledMessage))], []);
    }
    var ai := new AIAnalyzer(apiKey, DefaultModel, clientCreated);
    if !ai.IsAvailable() {
      return OldResult(JInt(0), [("ai_unavailable", JStr(UnavailableError))], []);
    }
    var _, response := ai.AnalyzeUrl(url, prompt, true, reply);
    var parsed := ParseJsonResponse(response, decode);
    match parsed
    case Raised(m) =>
      r := Fail(JInt(0), [], [], m);
    case Ok(analysis) =>
      r := AnalyzeParsed(analysis);
  }

  /** The analysis block on a parsed reply, as the analyzer runs it. */
  method AnalyzeParsed(analysis: Json) returns (r: OldResult)
    ensures r == FromAnalysis(analysis)
  {
    var hasError := In("error", analysis);
    if hasError.Raised? {
      return Fail(JInt(0), [], [], hasError.msg);
    }
    if hasError.value {
      var e := Index(analysis, "error");
      if e.Raised? {
        return Fail(JInt(0), [], [], e.msg);
      }
      return OldResult(JInt(0), [("ai_error", e.value)], []);
    }
    var score := Get(analysis, "content_quality_score", JInt(0));
    if score.Raised? {
      return Fail(JInt(0), [], [], score.msg);
    }
    var fields := analysis.fields;
    var recs := SliceItems(Lookup(fields, "recommendations").GetOr(JArr([])), 5);
    r := ShapeAnalysis(score.value, OldInsights(fields), recs, ConvertRecommendation,
                       IntentIssue(fields), EeatIssue(fields), StuffingIssue(fields));
  }
}
