/**
 * What every rule-based analyzer returns: a category score, the named checks it ran
 * (in insertion order, as the Python dict keeps them) and the issues it raised.
 */
module Results {
  import opened Outcomes
  import opened Messages

  datatype Severity = Critical | Important | Recommendation {
    /** The label the reports and the CSV export show. */
    function Name(): string {
      match this
      case Critical => "critical"
      case Important => "important"
      case Recommendation => "recommendation"
    }
  }

  /** One finding: severity, headline, impact on a 1-10 scale, explanation, optional fix. */
  datatype Issue = Issue(severity: Severity, title: Msg, impact: int, description: Msg,
                         fix: Option<Msg>)

  /** The checks the rule-based analyzers record, each under its key in the `checks` dict. */
  datatype CheckId =
    | HttpStatus | Ssl | Ttfb | SecurityHeadersCheck
    | Title | MetaDescription | H1 | HeadingStructure | ImagesAlt | OpenGraph | Links
    | Robots | Sitemap | Canonical | MetaRobots | Schema
    | WordCount | TextHtmlRatio | Readability | KeywordDensity | Paragraphs
    | MobilePerformance
  {
    function Key(): string {
      match this
      case HttpStatus => "http_status"
      case Ssl => "ssl"
      case Ttfb => "ttfb"
      case SecurityHeadersCheck => "security_headers"
      case Title => "title"
      case MetaDescription => "meta_description"
      case H1 => "h1"
      case HeadingStructure => "heading_structure"
      case ImagesAlt => "images_alt"
      case OpenGraph => "open_graph"
      case Links => "links"
      case Robots => "robots_txt"
      case Sitemap => "sitemap"
      case Canonical => "canonical"
      case MetaRobots => "meta_robots"
      case Schema => "schema_markup"
      case WordCount => "word_count"
      case TextHtmlRatio => "text_html_ratio"
      case Readability => "readability"
      case KeywordDensity => "keyword_density"
      case Paragraphs => "paragraphs"
      case MobilePerformance => "mobile_performance"
    }
  }

  /** The part of a check dict the scoring uses: whether it passed and its 0-100 score. */
  datatype Check = Check(pass: bool, score: real)

  /** One check of an analyzer together with the issues that check raised. */
  datatype Rule = Rule(check: Check, issues: seq<Issue>)

  datatype CategoryResult = CategoryResult(score: real, checks: seq<(CheckId, Check)>,
                                           issues: seq<Issue>)

  function Names(checks: seq<(CheckId, Check)>): (r: seq<CheckId>)
    ensures |r| == |checks| && forall i :: 0 <= i < |checks| ==> r[i] == checks[i].0
  {
    if |checks| == 0 then [] else [checks[0].0] + Names(checks[1..])
  }

  function Scores(checks: seq<(CheckId, Check)>): (r: seq<real>)
    ensures |r| == |checks| && forall i :: 0 <= i < |checks| ==> r[i] == checks[i].1.score
  {
    if |checks| == 0 then [] else [checks[0].1.score] + Scores(checks[1..])
  }

  predicate Percent(x: real) {
    0.0 <= x <= 100.0
  }

  predicate AllPercent(xs: seq<real>) {
    forall i :: 0 <= i < |xs| ==> Percent(xs[i])
  }

  function Sum(xs: seq<real>): real {
    if |xs| == 0 then 0.0 else Sum(xs[..|xs| - 1]) + xs[|xs| - 1]
  }

  lemma {:induction false} SumBounds(xs: seq<real>)
    requires AllPercent(xs)
    ensures 0.0 <= Sum(xs) <= 100.0 * |xs| as real
  {
    if |xs| > 0 {
      SumBounds(xs[..|xs| - 1]);
    }
  }

  /** `sum(scores) / len(scores)`: the arithmetic mean of the check scores. */
  function Mean(xs: seq<real>): (m: real)
    requires |xs| > 0
    ensures AllPercent(xs) ==> Percent(m)
    ensures m * |xs| as real == Sum(xs)
  {
    var n := |xs| as real;
    var m := Sum(xs) / n;
    if AllPercent(xs) then
      SumBounds(xs);
      assert m * n == Sum(xs);
      assert m * n <= 100.0 * n;
      m
    else m
  }

  /** A category whose score is the mean of its checks, every check score a percentage. */
  predicate WellScored(r: CategoryResult) {
    |r.checks| > 0 && AllPercent(Scores(r.checks)) && r.score == Mean(Scores(r.checks))
  }

  /** Every issue carries an impact on the 1-10 scale. */
  predicate ImpactsInRange(issues: seq<Issue>) {
    forall i :: 0 <= i < |issues| ==> 1 <= issues[i].impact <= 10
  }

  lemma ImpactsInRangeConcat(a: seq<Issue>, b: seq<Issue>)
    requires ImpactsInRange(a) && ImpactsInRange(b)
    ensures ImpactsInRange(a + b)
  {
    forall i | 0 <= i < |a + b|
      ensures 1 <= (a + b)[i].impact <= 10
    {
      if i >= |a| {
        assert (a + b)[i] == b[i - |a|];
      }
    }
  }

  /** A rule whose score is a percentage and whose issues have impacts between 1 and 10. */
  predicate RuleOk(r: Rule) {
    Percent(r.check.score) && ImpactsInRange(r.issues)
  }

  predicate AllRulesOk(rules: seq<(CheckId, Rule)>) {
    forall i :: 0 <= i < |rules| ==> RuleOk(rules[i].1)
  }

  /** The checks dict an analyzer fills by recording each rule's check under its key, in turn. */
  function ChecksOf(rules: seq<(CheckId, Rule)>): (r: seq<(CheckId, Check)>)
    ensures |r| == |rules|
    ensures forall i :: 0 <= i < |rules| ==> r[i] == (rules[i].0, rules[i].1.check)
  {
    if |rules| == 0 then [] else ChecksOf(rules[..|rules| - 1]) + [(rules[|rules| - 1].0, rules[|rules| - 1].1.check)]
  }

  /** The issues list an analyzer fills by appending each rule's issues, in turn. */
  function IssuesOf(rules: seq<(CheckId, Rule)>): seq<Issue> {
    if |rules| == 0 then [] else IssuesOf(rules[..|rules| - 1]) + rules[|rules| - 1].1.issues
  }

  /** An analyzer's result: its checks, their issues in order, and the mean check score. */
  function Assemble(rules: seq<(CheckId, Rule)>): CategoryResult
    requires |rules| > 0
  {
    var checks := ChecksOf(rules);
    CategoryResult(Mean(Scores(checks)), checks, IssuesOf(rules))
  }

  lemma {:induction false} IssuesOfInRange(rules: seq<(CheckId, Rule)>)
    requires AllRulesOk(rules)
    ensures ImpactsInRange(IssuesOf(rules))
  {
    if |rules| > 0 {
      var init := rules[..|rules| - 1];
      assert AllRulesOk(init) by {
        forall i | 0 <= i < |init| ensures RuleOk(init[i].1) {
          assert init[i] == rules[i];
        }
      }
      IssuesOfInRange(init);
      assert RuleOk(rules[|rules| - 1].1);
      ImpactsInRangeConcat(IssuesOf(init), rules[|rules| - 1].1.issues);
    }
  }

  /**
   * Assembling well-formed rules gives a well-scored result: one check per rule under the
   * rule's key, a score that is the mean of the check scores and a percentage, and issues
   * whose impacts are all between 1 and 10.
   */
  lemma AssembleWellScored(rules: seq<(CheckId, Rule)>)
    requires |rules| > 0 && AllRulesOk(rules)
    ensures WellScored(Assemble(rules)) && Percent(Assemble(rules).score)
    ensures ImpactsInRange(Assemble(rules).issues)
    ensures forall i :: 0 <= i < |rules| ==> Names(Assemble(rules).checks)[i] == rules[i].0
  {
    var scores := Scores(ChecksOf(rules));
    assert AllPercent(scores) by {
      forall i | 0 <= i < |scores| ensures Percent(scores[i]) {
        assert RuleOk(rules[i].1);
      }
    }
    IssuesOfInRange(rules);
  }

  /** A sequence of five elements is the display of its elements. */
  lemma ListOfFive<T>(s: seq<T>)
    requires |s| == 5
    ensures s == [s[0], s[1], s[2], s[3], s[4]]
  {
  }

  lemma FiveRulesOk(rules: seq<(CheckId, Rule)>)
    requires |rules| == 5
    requires RuleOk(rules[0].1) && RuleOk(rules[1].1) && RuleOk(rules[2].1)
    requires RuleOk(rules[3].1) && RuleOk(rules[4].1)
    ensures AllRulesOk(rules)
  {
  }

  /** One more rule extends the checks and the issues by its own, at the end. */
  lemma AssembleStep(rules: seq<(CheckId, Rule)>, id: CheckId, rule: Rule)
    ensures ChecksOf(rules + [(id, rule)]) == ChecksOf(rules) + [(id, rule.check)]
    ensures IssuesOf(rules + [(id, rule)]) == IssuesOf(rules) + rule.issues
  {
    assert (rules + [(id, rule)])[..|rules|] == rules;
  }

  /** Records each rule's check under its key and appends its issues, in turn, then averages the scores. */
  method AssembleInTurn(rules: seq<(CheckId, Rule)>) returns (r: CategoryResult)
    requires |rules| > 0
    ensures r == Assemble(rules)
  {
    var checks: seq<(CheckId, Check)> := [];
    var issues: seq<Issue> := [];
    var k := 0;
    while k < |rules|
      invariant 0 <= k <= |rules|
      invariant checks == ChecksOf(rules[..k]) && issues == IssuesOf(rules[..k])
    {
      AssembleStep(rules[..k], rules[k].0, rules[k].1);
      assert rules[..k + 1] == rules[..k] + [rules[k]];
      checks := checks + [(rules[k].0, rules[k].1.check)];
      issues := issues + rules[k].1.issues;
      k := k + 1;
    }
    assert rules[..k] == rules;
    r := CategoryResult(Mean(Scores(checks)), checks, issues);
  }

  /** `part / whole * 100` for counts, the share of `whole` that `part` makes up. */
  function PercentOf(part: nat, whole: nat): (p: real)
    requires part <= whole && whole > 0
    ensures p * whole as real == part as real * 100.0
    ensures Percent(p)
    ensures p == 100.0 <==> part == whole
  {
    var q := part as real / whole as real;
    assert q * whole as real == part as real;
    var d := 1.0 - q;
    assert d * whole as real == (whole - part) as real;
    q * 100.0
  }
}
