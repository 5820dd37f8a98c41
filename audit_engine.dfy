/**
 * The audit orchestrator (audit_engine.py): URL validation and fetch, the four rule
 * analyzers, the guarded page-speed, AI-content and action-plan steps, the weighted final
 * score, the grade, and the merged, sorted issue list with its quick wins.
 *
 * The analyzers are parameters, each standing for the model of its own module
 * (`Technical.TechnicalResult`, `OnPage.OnPageResult`, `Indexing.IndexingResult`,
 * `Content.ContentResult`, `PageSpeed.PagespeedResultOf`, `AiContent.AnalyzeAiContent`,
 * `AiActionPlan.GenerateActionPlan`); a `Raised` outcome is an exception escaping it.
 */
module AuditEngine {
  import opened Outcomes
  import opened Json
  import opened Results
  import opened Config
  import opened Utils
  import Text
  import PageSpeed
  import AiContent

  // ---------------------------------------------------------------------------------------
  // Grades
  // ---------------------------------------------------------------------------------------

  /** The five grade bands of `get_grade`, best first. */
  datatype Grade = Excellent | Good | NeedsImprovement | Poor | Failing {
    function Label(): string {
      match this
      case Excellent => "EXCELLENT"
      case Good => "GOOD"
      case NeedsImprovement => "NEEDS IMPROVEMENT"
      case Poor => "POOR"
      case Failing => "CRITICAL"
    }

    function Color(): string {
      match this
      case Excellent => "green"
      case Good => "lightgreen"
      case NeedsImprovement => "yellow"
      case Poor => "orange"
      case Failing => "red"
    }

    function Emoji(): string {
      match this
      case Excellent => "\U{1F7E2}"
      case Good => "\U{1F7E1}"
      case NeedsImprovement => "\U{1F7E0}"
      case Poor => "\U{1F534}"
      case Failing => "\U{26D4}"
    }

    /** The band's position, 0 for the lowest. */
    function Rank(): nat {
      match this
      case Excellent => 4
      case Good => 3
      case NeedsImprovement => 2
      case Poor => 1
      case Failing => 0
    }

    /** A score reaches a band when it is at least the band's lower bound. */
    predicate ReachedBy(score: real) {
      match this
      case Excellent => score >= 90.0
      case Good => score >= 75.0
      case NeedsImprovement => score >= 60.0
      case Poor => score >= 40.0
      case Failing => true
    }
  }

  /**
   * `get_grade`: the highest band the score reaches, so a score on a boundary belongs to
   * the band above it.
   */
  function GetGrade(score: real): (g: Grade)
    ensures g.ReachedBy(score)
    ensures forall h: Grade :: h.Rank() > g.Rank() ==> !h.ReachedBy(score)
  {
    if score >= 90.0 then Excellent
    else if score >= 75.0 then Good
    else if score >= 60.0 then NeedsImprovement
    else if score >= 40.0 then Poor
    else Failing
  }

  /** A higher score never gets a lower grade. */
  lemma GradeMonotone(low: real, high: real)
    requires low <= high
    ensures GetGrade(low).Rank() <= GetGrade(high).Rank()
  {
    assert GetGrade(low).ReachedBy(high);
  }

  /** `{'label': ..., 'color': ..., 'emoji': ...}`. */
  function GradeDict(g: Grade): seq<(string, Json)> {
    [("label", JStr(g.Label())), ("color", JStr(g.Color())), ("emoji", JStr(g.Emoji()))]
  }

  // ---------------------------------------------------------------------------------------
  // The final score
  // ---------------------------------------------------------------------------------------

  /** `round(x, 1)`, rounding a half up on the exact value. */
  function Round1(x: real): (r: real)
    ensures r - 0.05 <= x < r + 0.05
    ensures (r * 10.0).Floor as real == r * 10.0
  {
    ((x * 10.0 + 0.5).Floor as real) / 10.0
  }

  /** The weighted sum of `calculate_final_score`, over exactly the four rule categories. */
  function WeightedSum(technical: real, onpage: real, indexing: real, content: real): real {
    technical * TechnicalWeight + onpage * OnpageWeight + indexing * IndexingWeight
    + content * ContentWeight
  }

  /** The four weights add up to 0.85, not 1: the advanced weight scores no category. */
  lemma WeightsTotal()
    ensures TechnicalWeight + OnpageWeight + IndexingWeight + ContentWeight == 0.85
    ensures TechnicalWeight + OnpageWeight + IndexingWeight + ContentWeight + AdvancedWeight == 1.0
  {
  }

  /**
   * With every category score a percentage, the final score lies in [0, 85], so no audit
   * is graded EXCELLENT.
   */
  lemma FinalScoreRange(technical: real, onpage: real, indexing: real, content: real)
    requires Percent(technical) && Percent(onpage) && Percent(indexing) && Percent(content)
    ensures var s := Round1(WeightedSum(technical, onpage, indexing, content));
            0.0 <= s <= 85.0 && GetGrade(s) != Excellent
  {
    var w := WeightedSum(technical, onpage, indexing, content);
    assert 0.0 <= w <= 85.0;
    var f := (w * 10.0 + 0.5).Floor;
    assert 0 <= f <= 850;
  }

  // ---------------------------------------------------------------------------------------
  // Merging and sorting the issues
  // ---------------------------------------------------------------------------------------

  /** Sorted by impact, highest first. */
  predicate NonIncreasing(xs: seq<Issue>) {
    forall i, j :: 0 <= i < j < |xs| ==> xs[i].impact >= xs[j].impact
  }

  /** The issues of one impact value, in their order. */
  function WithImpact(xs: seq<Issue>, v: int): (r: seq<Issue>)
    ensures forall k :: 0 <= k < |r| ==> r[k].impact == v
  {
    if |xs| == 0 then []
    else (if xs[0].impact == v then [xs[0]] else []) + WithImpact(xs[1..], v)
  }

  /** `x` placed after every leading issue whose impact is at least its own. */
  function Insert(x: Issue, s: seq<Issue>): (r: seq<Issue>)
    ensures |r| == |s| + 1
  {
    if |s| == 0 then [x]
    else if s[0].impact >= x.impact then [s[0]] + Insert(x, s[1..])
    else [x] + s
  }

  /** Inserting one issue adds exactly that issue. */
  lemma {:induction false} InsertPermutes(x: Issue, s: seq<Issue>)
    ensures multiset(Insert(x, s)) == multiset(s) + multiset{x}
  {
    if |s| > 0 && s[0].impact >= x.impact {
      InsertPermutes(x, s[1..]);
      assert s == [s[0]] + s[1..];
    }
  }

  /**
   * `list.sort(key=impact, reverse=True)`: a stable sort, highest impact first, built by
   * inserting the issues in their order.
   */
  function SortByImpact(xs: seq<Issue>): (r: seq<Issue>)
    ensures |r| == |xs|
  {
    if |xs| == 0 then [] else Insert(xs[|xs| - 1], SortByImpact(xs[..|xs| - 1]))
  }

  lemma {:induction false} InsertSorted(x: Issue, s: seq<Issue>)
    requires NonIncreasing(s)
    ensures NonIncreasing(Insert(x, s))
  {
    if |s| > 0 && s[0].impact >= x.impact {
      var tail := Insert(x, s[1..]);
      NonIncreasingTail(s);
      InsertSorted(x, s[1..]);
      InsertPermutes(x, s[1..]);
      forall k | 0 <= k < |tail| ensures s[0].impact >= tail[k].impact {
        assert tail[k] in multiset(s[1..]) + multiset{x};
        if tail[k] != x {
          assert tail[k] in s[1..];
        }
      }
    }
  }

  /** The issues of an impact value none of `s` has. */
  lemma {:induction false} NoneWithImpact(s: seq<Issue>, v: int)
    requires forall j :: 0 <= j < |s| ==> s[j].impact < v
    ensures WithImpact(s, v) == []
  {
    if |s| > 0 {
      NoneWithImpact(s[1..], v);
    }
  }

  lemma {:induction false} WithImpactConcat(a: seq<Issue>, b: seq<Issue>, v: int)
    ensures WithImpact(a + b, v) == WithImpact(a, v) + WithImpact(b, v)
  {
    if |a| > 0 {
      assert (a + b)[1..] == a[1..] + b;
      WithImpactConcat(a[1..], b, v);
    } else {
      assert a + b == b;
    }
  }

  /** Inserting into a sorted list puts `x` after every issue of the same impact. */
  lemma {:induction false} InsertWithImpact(x: Issue, s: seq<Issue>, v: int)
    requires NonIncreasing(s)
    ensures WithImpact(Insert(x, s), v) == WithImpact(s, v) + (if x.impact == v then [x] else [])
  {
    if |s| == 0 {
      WithImpactCons(x, [], v);
    } else if s[0].impact >= x.impact {
      NonIncreasingTail(s);
      InsertWithImpact(x, s[1..], v);
      WithImpactCons(s[0], Insert(x, s[1..]), v);
    } else {
      WithImpactCons(x, s, v);
      if x.impact == v {
        BelowHead(s, v);
        NoneWithImpact(s, v);
      }
    }
  }

  lemma NonIncreasingTail(s: seq<Issue>)
    requires |s| > 0 && NonIncreasing(s)
    ensures NonIncreasing(s[1..])
  {
    forall i, j | 0 <= i < j < |s| - 1 ensures s[1..][i].impact >= s[1..][j].impact {
      assert s[1..][i] == s[i + 1] && s[1..][j] == s[j + 1];
    }
  }

  lemma BelowHead(s: seq<Issue>, v: int)
    requires |s| > 0 && NonIncreasing(s) && s[0].impact < v
    ensures forall j :: 0 <= j < |s| ==> s[j].impact < v
  {
    forall j | 0 < j < |s| ensures s[j].impact < v {
      assert s[0].impact >= s[j].impact;
    }
  }

  lemma WithImpactCons(y: Issue, t: seq<Issue>, v: int)
    ensures WithImpact([y] + t, v) == (if y.impact == v then [y] else []) + WithImpact(t, v)
  {
    assert ([y] + t)[1..] == t;
  }

  lemma {:induction false} SortByImpactSorted(xs: seq<Issue>)
    ensures NonIncreasing(SortByImpact(xs))
    ensures multiset(SortByImpact(xs)) == multiset(xs)
  {
    if |xs| > 0 {
      var init := xs[..|xs| - 1];
      var last := xs[|xs| - 1];
      SortByImpactSorted(init);
      InsertSorted(last, SortByImpact(init));
      InsertPermutes(last, SortByImpact(init));
      SplitLast(xs);
      assert multiset(xs) == multiset(init) + multiset{last};
    }
  }

  lemma {:induction false} SortByImpactStable(xs: seq<Issue>, v: int)
    ensures WithImpact(SortByImpact(xs), v) == WithImpact(xs, v)
  {
    if |xs| > 0 {
      var init := xs[..|xs| - 1];
      var last := xs[|xs| - 1];
      var sortedInit := SortByImpact(init);
      SortByImpactStable(init, v);
      SortByImpactSorted(init);
      InsertWithImpact(last, sortedInit, v);
      SplitLast(xs);
      WithImpactConcat(init, [last], v);
      WithImpactSingle(last, v);
    }
  }

  lemma SplitLast<T>(xs: seq<T>)
    requires |xs| > 0
    ensures xs == xs[..|xs| - 1] + [xs[|xs| - 1]]
  {
  }

  lemma WithImpactSingle(x: Issue, v: int)
    ensures WithImpact([x], v) == if x.impact == v then [x] else []
  {
    assert [x][1..] == [];
  }

  /**
   * The sorted list is a permutation of its input, ordered by impact from highest to
   * lowest, and the issues of each impact keep the order they had: the sort is stable
   * although it is reversed.
   */
  lemma SortByImpactSpec(xs: seq<Issue>)
    ensures NonIncreasing(SortByImpact(xs))
    ensures multiset(SortByImpact(xs)) == multiset(xs)
    ensures forall v :: WithImpact(SortByImpact(xs), v) == WithImpact(xs, v)
  {
    SortByImpactSorted(xs);
    forall v ensures WithImpact(SortByImpact(xs), v) == WithImpact(xs, v) {
      SortByImpactStable(xs, v);
    }
  }

  /** The concatenation of the issue lists, in order. */
  function Flatten(lists: seq<seq<Issue>>): (r: seq<Issue>) {
    if |lists| == 0 then [] else Flatten(lists[..|lists| - 1]) + lists[|lists| - 1]
  }

  // ---------------------------------------------------------------------------------------
  // Quick wins
  // ---------------------------------------------------------------------------------------

  /** An issue of impact at least 6 that is important or a recommendation. */
  predicate QuickWin(issue: Issue) {
    issue.impact >= 6 && (issue.severity == Important || issue.severity == Recommendation)
  }

  /**
   * The comprehension's filter: every qualifying issue as often as the list holds it, and
   * nothing else (with `CandidatesSubSeq`, in the list's order).
   */
  function Candidates(xs: seq<Issue>): (r: seq<Issue>)
    ensures |r| <= |xs|
    ensures forall k :: 0 <= k < |r| ==> QuickWin(r[k])
    ensures forall k :: 0 <= k < |xs| && QuickWin(xs[k]) ==> xs[k] in r
    ensures forall x :: multiset(r)[x] == if QuickWin(x) then multiset(xs)[x] else 0
  {
    if |xs| == 0 then []
    else
      var rest := Candidates(xs[1..]);
      assert forall k :: 1 <= k < |xs| ==> xs[k] == xs[1..][k - 1];
      assert xs == [xs[0]] + xs[1..];
      if QuickWin(xs[0]) then [xs[0]] + rest else rest
  }

  /** The quick wins: the first five qualifying issues, filtered before being cut. */
  function QuickWins(xs: seq<Issue>): seq<Issue> {
    Text.Take(Candidates(xs), 5)
  }

  /** `a` is `b` with some issues left out, the rest in their order. */
  predicate SubSeq(a: seq<Issue>, b: seq<Issue>)
    decreases |b|
  {
    if |a| == 0 then true
    else if |b| == 0 then false
    else if a[0] == b[0] then SubSeq(a[1..], b[1..])
    else SubSeq(a, b[1..])
  }

  lemma {:induction false} CandidatesSubSeq(xs: seq<Issue>)
    ensures SubSeq(Candidates(xs), xs)
  {
    if |xs| > 0 {
      CandidatesSubSeq(xs[1..]);
    }
  }

  lemma {:induction false} PrefixSubSeq(a: seq<Issue>, b: seq<Issue>, n: nat)
    requires SubSeq(a, b) && n <= |a|
    ensures SubSeq(a[..n], b)
    decreases |b|
  {
    if n > 0 {
      if a[0] == b[0] {
        PrefixSubSeq(a[1..], b[1..], n - 1);
        assert a[..n][1..] == a[1..][..n - 1];
      } else {
        PrefixSubSeq(a, b[1..], n);
      }
    }
  }

  /**
   * At most five quick wins, none critical, each of impact at least 6, taken in order from
   * the issue list; they are the first qualifying issues, five of them whenever at least
   * five qualify, and when fewer than five qualify all of them are kept, wherever they sit
   * in the list.
   */
  lemma QuickWinsSpec(xs: seq<Issue>)
    ensures |QuickWins(xs)| <= 5
    ensures |QuickWins(xs)| == if |Candidates(xs)| < 5 then |Candidates(xs)| else 5
    ensures QuickWins(xs) == Candidates(xs)[..|QuickWins(xs)|]
    ensures forall k :: 0 <= k < |QuickWins(xs)| ==>
              QuickWin(QuickWins(xs)[k]) && QuickWins(xs)[k].severity != Critical
    ensures SubSeq(QuickWins(xs), xs)
    ensures |Candidates(xs)| <= 5 ==>
              forall k :: 0 <= k < |xs| && QuickWin(xs[k]) ==> xs[k] in QuickWins(xs)
  {
    CandidatesSubSeq(xs);
    PrefixSubSeq(Candidates(xs), xs, |QuickWins(xs)|);
  }

  // ---------------------------------------------------------------------------------------
  // The audit
  // ---------------------------------------------------------------------------------------

  /** The page-speed category: the analyzer's result, or the dict its exception leaves. */
  datatype SpeedEntry = Speed(result: PageSpeed.PagespeedResult) | SpeedDict(fields: seq<(string, Json)>)

  /** The AI-content category: the analyzer's result, or a fixed dict. */
  datatype AiEntry = AiRated(result: AiContent.AiContentResult) | AiDict(fields: seq<(string, Json)>)

  /** The mobile core web vitals copied into the technical category. */
  datatype CoreWebVitals = CoreWebVitals(lcp: PageSpeed.Vital, fid: PageSpeed.Vital, cls: PageSpeed.Vital)

  /** `results['categories']`, in insertion order. */
  datatype Categories = Categories(technical: CategoryResult, coreWebVitals: Option<CoreWebVitals>,
                                   onpage: CategoryResult, indexing: CategoryResult,
                                   content: CategoryResult, pagespeed: SpeedEntry, aiContent: AiEntry)

  /** The results dict as it stands when the action plan is asked for (the timestamp aside). */
  datatype Report = Report(url: string, categories: Categories, finalScore: real, grade: Grade,
                           allIssues: seq<Issue>, quickWins: seq<Issue>)

  /** What `run_audit` returns: an error dict, or the report with its action plan. */
  datatype AuditResult = Errored(fields: seq<(string, Json)>)
                       | Audited(report: Report, actionPlan: seq<(string, Json)>)

  /** The analyzers, each applied to the validated URL or the fetched page. */
  datatype Analyzers = Analyzers(
    technical: (string, PageData) -> Outcome<CategoryResult>,
    onpage: (string, string) -> Outcome<CategoryResult>,
    indexing: (string, string) -> Outcome<CategoryResult>,
    content: string -> Outcome<CategoryResult>,
    pagespeed: string -> Outcome<PageSpeed.PagespeedResult>,
    aiContent: (string, string) -> Outcome<AiContent.AiContentResult>,
    actionPlan: (string, Report) -> Outcome<seq<(string, Json)>>)

  const InvalidUrl: seq<(string, Json)> := [("error", JStr("Invalid URL"))]

  function CannotFetch(details: Option<string>): seq<(string, Json)> {
    [("error", JStr("Cannot fetch page")),
     ("details", if details.Some? then JStr(details.value) else JNull)]
  }

  /** `{'score': 0, 'error': str(e)}`. */
  function SpeedFailed(msg: string): seq<(string, Json)> {
    [("score", JInt(0)), ("error", JStr(msg))]
  }

  /** `{'score': 0, 'error': str(e), 'insights': {}}`. */
  function AiFailed(msg: string): seq<(string, Json)> {
    [("score", JInt(0)), ("error", JStr(msg)), ("insights", JObj([]))]
  }

  const AiDisabled: seq<(string, Json)> :=
    [("score", JInt(0)), ("insights", JObj([("disabled", JBool(true))]))]

  const PlanDisabled: seq<(string, Json)> := [("disabled", JBool(true))]

  /** The page-speed step: an exception becomes the score-0 dict. */
  function SpeedOf(outcome: Outcome<PageSpeed.PagespeedResult>): SpeedEntry {
    match outcome
    case Ok(p) => Speed(p)
    case Raised(m) => SpeedDict(SpeedFailed(m))
  }

  /** The vitals merged into the technical category: those of a parsed mobile result. */
  function VitalsOf(speed: SpeedEntry): Option<CoreWebVitals> {
    if speed.Speed? && speed.result.mobile.Some? then
      var m := speed.result.mobile.value;
      Some(CoreWebVitals(m.lcp, m.fid, m.cls))
    else None
  }

  /** The AI-content step: skipped when AI is off, an exception becomes the score-0 dict. */
  function AiOf(aiEnabled: bool, outcome: Outcome<AiContent.AiContentResult>): AiEntry {
    if !aiEnabled then AiDict(AiDisabled)
    else match outcome
      case Ok(a) => AiRated(a)
      case Raised(m) => AiDict(AiFailed(m))
  }

  /** The action-plan step, guarded the same way. */
  function PlanOf(aiEnabled: bool, outcome: Outcome<seq<(string, Json)>>): seq<(string, Json)> {
    if !aiEnabled then PlanDisabled
    else match outcome
      case Ok(p) => p
      case Raised(m) => [("error", JStr(m))]
  }

  /** `category.get('issues', [])` for each category, in order. */
  function IssueLists(c: Categories): (r: seq<seq<Issue>>)
    ensures |r| == 6
  {
    [c.technical.issues, c.onpage.issues, c.indexing.issues, c.content.issues,
     if c.pagespeed.Speed? then c.pagespeed.result.result.issues else [],
     if c.aiContent.AiRated? then c.aiContent.result.issues else []]
  }

  /** `calculate_final_score`. */
  function FinalScore(c: Categories): real {
    Round1(WeightedSum(c.technical.score, c.onpage.score, c.indexing.score, c.content.score))
  }

  /** Steps 4 to 6: score, grade, merged issues and quick wins. */
  function ReportOf(url: string, c: Categories): Report {
    var all := SortByImpact(Flatten(IssueLists(c)));
    Report(url, c, FinalScore(c), GetGrade(FinalScore(c)), all, QuickWins(all))
  }

  /** The categories once the four rule analyzers have returned. */
  function CategoriesOf(technical: CategoryResult, onpage: CategoryResult, indexing: CategoryResult,
                        content: CategoryResult, speed: SpeedEntry, ai: AiEntry): Categories {
    Categories(technical, VitalsOf(speed), onpage, indexing, content, speed, ai)
  }

  /** `run_audit` once the page is fetched: only the four rule analyzers may raise. */
  function AuditPage(url: string, page: PageData, a: Analyzers, aiEnabled: bool): Outcome<AuditResult>
    requires page.Fetched?
  {
    var technical :- a.technical(url, page);
    var onpage :- a.onpage(url, page.content);
    var indexing :- a.indexing(url, page.content);
    var content :- a.content(page.content);
    var speed := SpeedOf(a.pagespeed(url));
    var ai := AiOf(aiEnabled, a.aiContent(url, page.content));
    var report := ReportOf(url, CategoriesOf(technical, onpage, indexing, content, speed, ai));
    Ok(Audited(report, PlanOf(aiEnabled, a.actionPlan(url, report))))
  }

  /** `run_audit`: validate, fetch, then audit the page. */
  function Audit(url: string, accepts: string -> bool, fetch: string -> PageData, a: Analyzers,
                 aiEnabled: bool): Outcome<AuditResult>
  {
    match ValidateUrl(url, accepts)
    case None => Ok(Errored(InvalidUrl))
    case Some(target) =>
      var page := fetch(target);
      if page.NotFetched? then Ok(Errored(CannotFetch(page.error)))
      else AuditPage(target, page, a, aiEnabled)
  }

  /** `run_audit`, step by step; the issue lists are merged by the `extend` loop. */
  method RunAudit(url: string, accepts: string -> bool, fetch: string -> PageData, a: Analyzers,
                  aiEnabled: bool) returns (r: Outcome<AuditResult>)
    ensures r == Audit(url, accepts, fetch, a, aiEnabled)
  {
    var valid := ValidateUrl(url, accepts);
    if valid.None? {
      return Ok(Errored(InvalidUrl));
    }
    var target := valid.value;
    var page := fetch(target);
    if page.NotFetched? {
      return Ok(Errored(CannotFetch(page.error)));
    }
    var html := page.content;
    var technical :- a.technical(target, page);
    var onpage :- a.onpage(target, html);
    var indexing :- a.indexing(target, html);
    var content :- a.content(html);
    var speed := SpeedOf(a.pagespeed(target));
    var ai := if aiEnabled then AiOf(true, a.aiContent(target, html)) else AiDict(AiDisabled);
    var categories := CategoriesOf(technical, onpage, indexing, content, speed, ai);
    var score := FinalScore(categories);
    var lists := IssueLists(categories);
    var all: seq<Issue> := [];
    for k := 0 to |lists|
      invariant all == Flatten(lists[..k])
    {
      assert lists[..k + 1][..k] == lists[..k];
      all := all + lists[k];
    }
    assert lists[..|lists|] == lists;
    var sorted := SortByImpact(all);
    var report := Report(target, categories, score, GetGrade(score), sorted, QuickWins(sorted));
    var plan := if aiEnabled then PlanOf(true, a.actionPlan(target, report)) else PlanDisabled;
    return Ok(Audited(report, plan));
  }

  // ---------------------------------------------------------------------------------------
  // What the audit promises
  // ---------------------------------------------------------------------------------------

  /**
   * An invalid URL and a failed fetch end the audit with their error dicts, whatever the
   * analyzers would have returned: none of them is consulted.
   */
  lemma EarlyExits(url: string, accepts: string -> bool, fetch: string -> PageData, a: Analyzers,
                   b: Analyzers, aiEnabled: bool)
    ensures ValidateUrl(url, accepts).None? ==>
              Audit(url, accepts, fetch, a, aiEnabled) == Ok(Errored([("error", JStr("Invalid URL"))]))
    ensures ValidateUrl(url, accepts).Some? && fetch(ValidateUrl(url, accepts).value).NotFetched? ==>
              var error := fetch(ValidateUrl(url, accepts).value).error;
              Audit(url, accepts, fetch, a, aiEnabled) ==
              Ok(Errored([("error", JStr("Cannot fetch page")),
                          ("details", if error.Some? then JStr(error.value) else JNull)]))
    ensures ValidateUrl(url, accepts).None? || fetch(ValidateUrl(url, accepts).value).NotFetched? ==>
              Audit(url, accepts, fetch, a, aiEnabled) == Audit(url, accepts, fetch, b, aiEnabled)
  {
  }

  /**
   * The four rule analyzers are not guarded: the first of them to raise ends the audit
   * with its exception, and the audit raises only then.
   */
  lemma RuleExceptionsPropagate(url: string, page: PageData, a: Analyzers, aiEnabled: bool)
    requires page.Fetched?
    ensures a.technical(url, page).Raised? ==>
              AuditPage(url, page, a, aiEnabled) == Raised(a.technical(url, page).msg)
    ensures a.technical(url, page).Ok? && a.onpage(url, page.content).Raised? ==>
              AuditPage(url, page, a, aiEnabled) == Raised(a.onpage(url, page.content).msg)
    ensures a.technical(url, page).Ok? && a.onpage(url, page.content).Ok?
            && a.indexing(url, page.content).Raised? ==>
              AuditPage(url, page, a, aiEnabled) == Raised(a.indexing(url, page.content).msg)
    ensures a.technical(url, page).Ok? && a.onpage(url, page.content).Ok?
            && a.indexing(url, page.content).Ok? && a.content(page.content).Raised? ==>
              AuditPage(url, page, a, aiEnabled) == Raised(a.content(page.content).msg)
    ensures AuditPage(url, page, a, aiEnabled).Raised? <==>
              a.technical(url, page).Raised? || a.onpage(url, page.content).Raised?
              || a.indexing(url, page.content).Raised? || a.content(page.content).Raised?
  {
  }

  /**
   * Once the four rule analyzers have returned, the audit completes: their results are
   * stored as they are, the page-speed, AI-content and action-plan exceptions become their
   * score-0 or error dicts, AI off gives the fixed disabled dicts, the mobile vitals are
   * merged into the technical category only when page speed parsed them, and the final
   * score and grade come from the four rule categories alone.
   */
  lemma AuditCompletes(url: string, page: PageData, a: Analyzers, aiEnabled: bool)
    requires page.Fetched?
    requires a.technical(url, page).Ok? && a.onpage(url, page.content).Ok?
             && a.indexing(url, page.content).Ok? && a.content(page.content).Ok?
    ensures AuditPage(url, page, a, aiEnabled).Ok? && AuditPage(url, page, a, aiEnabled).value.Audited?
    ensures var audited := AuditPage(url, page, a, aiEnabled).value;
            var c := audited.report.categories;
            var technical := a.technical(url, page).value;
            var onpage := a.onpage(url, page.content).value;
            var indexing := a.indexing(url, page.content).value;
            var content := a.content(page.content).value;
            && audited.report.url == url
            && c.technical == technical && c.onpage == onpage
            && c.indexing == indexing && c.content == content
            && (a.pagespeed(url).Ok? ==> c.pagespeed == Speed(a.pagespeed(url).value))
            && (a.pagespeed(url).Raised? ==>
                  c.pagespeed == SpeedDict([("score", JInt(0)), ("error", JStr(a.pagespeed(url).msg))]))
            && (c.coreWebVitals.Some? <==> a.pagespeed(url).Ok? && a.pagespeed(url).value.mobile.Some?)
            && (!aiEnabled ==> c.aiContent == AiDict(AiDisabled) && audited.actionPlan == PlanDisabled)
            && (aiEnabled && a.aiContent(url, page.content).Ok? ==>
                  c.aiContent == AiRated(a.aiContent(url, page.content).value))
            && (aiEnabled && a.aiContent(url, page.content).Raised? ==>
                  c.aiContent == AiDict([("score", JInt(0)), ("error", JStr(a.aiContent(url, page.content).msg)),
                                         ("insights", JObj([]))]))
            && (aiEnabled && a.actionPlan(url, audited.report).Ok? ==>
                  audited.actionPlan == a.actionPlan(url, audited.report).value)
            && (aiEnabled && a.actionPlan(url, audited.report).Raised? ==>
                  audited.actionPlan == [("error", JStr(a.actionPlan(url, audited.report).msg))])
            && audited.report.finalScore ==
                 Round1(WeightedSum(technical.score, onpage.score, indexing.score, content.score))
            && audited.report.grade == GetGrade(audited.report.finalScore)
  {
  }

  /** The six lists `extend` adds, in category order. */
  lemma FlattenIssueLists(c: Categories)
    ensures var lists := IssueLists(c);
            Flatten(lists) == lists[0] + lists[1] + lists[2] + lists[3] + lists[4] + lists[5]
  {
    FlattenSix(IssueLists(c));
  }

  lemma FlattenSix(lists: seq<seq<Issue>>)
    requires |lists| == 6
    ensures Flatten(lists) == lists[0] + lists[1] + lists[2] + lists[3] + lists[4] + lists[5]
  {
    FlattenStep(lists, 0);
    assert Flatten(lists[..1]) == lists[0];
    FlattenStep(lists, 1);
    FlattenStep(lists, 2);
    FlattenStep(lists, 3);
    FlattenStep(lists, 4);
    FlattenStep(lists, 5);
    assert lists[..6] == lists;
  }

  lemma FlattenStep(lists: seq<seq<Issue>>, k: nat)
    requires k < |lists|
    ensures Flatten(lists[..k + 1]) == Flatten(lists[..k]) + lists[k]
  {
    assert lists[..k + 1][..k] == lists[..k];
  }

  /**
   * The report's issue list holds exactly the issues of all categories, technical first and
   * AI content last; it is ordered from the highest impact down, issues of equal impact in
   * that category order; its quick wins are at most five qualifying issues taken from it
   * in order.
   */
  lemma IssuesMerged(url: string, c: Categories)
    ensures var all := ReportOf(url, c).allIssues;
            var merged := c.technical.issues + c.onpage.issues + c.indexing.issues + c.content.issues
                          + IssueLists(c)[4] + IssueLists(c)[5];
            && multiset(all) == multiset(merged)
            && NonIncreasing(all)
            && (forall v :: WithImpact(all, v) == WithImpact(merged, v))
    ensures var r := ReportOf(url, c);
            r.quickWins == Text.Take(Candidates(r.allIssues), 5) && |r.quickWins| <= 5
            && SubSeq(r.quickWins, r.allIssues)
            && forall k :: 0 <= k < |r.quickWins| ==> QuickWin(r.quickWins[k])
  {
    FlattenIssueLists(c);
    SortByImpactSpec(Flatten(IssueLists(c)));
    QuickWinsSpec(ReportOf(url, c).allIssues);
  }

  /** With every rule category scored as a percentage, no audit is graded EXCELLENT. */
  lemma NeverExcellent(url: string, c: Categories)
    requires Percent(c.technical.score) && Percent(c.onpage.score)
    requires Percent(c.indexing.score) && Percent(c.content.score)
    ensures 0.0 <= ReportOf(url, c).finalScore <= 85.0
    ensures ReportOf(url, c).grade != Excellent
  {
    FinalScoreRange(c.technical.score, c.onpage.score, c.indexing.score, c.content.score);
  }
}
