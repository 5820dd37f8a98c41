/** The technical-foundations analyzer (analyzers/technical.py). */
module Technical {
  import opened Outcomes
  import opened Text
  import opened Messages
  import opened Results
  import opened Utils

  /** The issue recorded when the page could not be fetched at all. */
  function UnreachableIssue(error: Option<string>): Issue {
    Issue(Critical, Fixed(PageUnreachable), 10,
          if error.Some? then Str(error.value) else Fixed(CannotFetchPage), None)
  }

  /** HTTP status: only 200 passes; anything else is a critical issue of impact 10 without a fix. */
  function HttpStatusRule(code: int): (r: Rule)
    ensures r.check.pass <==> code == 200
    ensures r.check.score == if code == 200 then 100.0 else 0.0
    ensures r.issues == [] <==> code == 200
    ensures |r.issues| <= 1 && RuleOk(r)
    ensures r.issues != [] ==>
              r.issues[0].severity == Critical && r.issues[0].impact == 10 && r.issues[0].fix.None?
              && r.issues[0].title == Cat([Fixed(HttpStatusPrefix), Int(code)])
  {
    if code == 200 then Rule(Check(true, 100.0), [])
    else Rule(Check(false, 0.0),
              [Issue(Critical, Cat([Fixed(HttpStatusPrefix), Int(code)]), 10, Fixed(HttpStatusDesc), None)])
  }

  /** SSL: judged on the audited URL as given, not on the URL reached after redirects. */
  function SslRule(url: string): (r: Rule)
    ensures r.check.pass <==> StartsWith(url, "https://")
    ensures r.check.score == if r.check.pass then 100.0 else 0.0
    ensures r.issues == [] <==> r.check.pass
    ensures |r.issues| <= 1 && RuleOk(r)
    ensures r.issues != [] ==>
              r.issues[0].severity == Critical && r.issues[0].impact == 10 && r.issues[0].fix.Some?
  {
    if StartsWith(url, "https://") then Rule(Check(true, 100.0), [])
    else Rule(Check(false, 0.0),
              [Issue(Critical, Fixed(SslMissing), 10, Fixed(SslDesc), Some(Fixed(SslFix)))])
  }

  /** Time to first byte in milliseconds, from the response time in seconds. */
  function TtfbMs(elapsed: real): real {
    elapsed * 1000.0
  }

  /**
   * TTFB: under 600 ms scores 100 and passes, under 1200 ms scores 50, slower scores 0;
   * an issue is raised only strictly above 1200 ms.
   */
  function TtfbRule(elapsed: real): (r: Rule)
    ensures r.check.pass <==> TtfbMs(elapsed) < 600.0
    ensures r.check.score == 100.0 <==> TtfbMs(elapsed) < 600.0
    ensures r.check.score == 50.0 <==> 600.0 <= TtfbMs(elapsed) < 1200.0
    ensures r.check.score == 0.0 <==> TtfbMs(elapsed) >= 1200.0
    ensures r.issues != [] <==> TtfbMs(elapsed) > 1200.0
    ensures |r.issues| <= 1 && RuleOk(r)
    ensures r.issues != [] ==>
              r.issues[0].severity == Important && r.issues[0].impact == 7
              && r.issues[0].title == Cat([Fixed(SlowServerPrefix), Dec(TtfbMs(elapsed), 0), Fixed(Ms)])
  {
    var ttfb := TtfbMs(elapsed);
    var score := if ttfb < 600.0 then 100.0 else if ttfb < 1200.0 then 50.0 else 0.0;
    var issues := if ttfb > 1200.0 then
                    [Issue(Important, Cat([Fixed(SlowServerPrefix), Dec(ttfb, 0), Fixed(Ms)]), 7,
                           Fixed(TtfbDesc), Some(Fixed(TtfbFix)))]
                  else [];
    Rule(Check(ttfb < 600.0, score), issues)
  }

  /** A response of exactly 1.2 s already scores 0 but raises no issue. */
  lemma TtfbGapAt1200()
    ensures TtfbRule(1.2).check.score == 0.0 && TtfbRule(1.2).issues == []
  {
  }

  /** The security headers checked, in the order the report lists them. */
  datatype SecurityHeader = Hsts | ContentTypeOptions | FrameOptions | Csp {
    /** The response header looked up. */
    function HeaderName(): string {
      match this
      case Hsts => "Strict-Transport-Security"
      case ContentTypeOptions => "X-Content-Type-Options"
      case FrameOptions => "X-Frame-Options"
      case Csp => "Content-Security-Policy"
    }

    /** The short name the report uses. */
    function ShortName(): string {
      match this
      case Hsts => "HSTS"
      case ContentTypeOptions => "X-Content-Type"
      case FrameOptions => "X-Frame"
      case Csp => "CSP"
    }
  }

  const SecurityHeaders: seq<SecurityHeader> := [Hsts, ContentTypeOptions, FrameOptions, Csp]

  /**
   * The headers of `wanted` absent from `headers`, in the order of `wanted`. Header names
   * are compared exactly as the response spelled them.
   */
  function MissingAmong(wanted: seq<SecurityHeader>, headers: map<string, string>): (m: seq<SecurityHeader>)
    ensures |m| <= |wanted|
    ensures forall h :: h in m <==> h in wanted && h.HeaderName() !in headers
  {
    if |wanted| == 0 then []
    else
      var init := MissingAmong(wanted[..|wanted| - 1], headers);
      var last := wanted[|wanted| - 1];
      assert wanted == wanted[..|wanted| - 1] + [last];
      init + (if last.HeaderName() in headers then [] else [last])
  }

  function MissingHeaders(headers: map<string, string>): (m: seq<SecurityHeader>)
    ensures |m| <= 4
    ensures forall h :: h in m <==> h.HeaderName() !in headers
  {
    MissingAmong(SecurityHeaders, headers)
  }

  function ShortNames(hs: seq<SecurityHeader>): (r: seq<string>)
    ensures |r| == |hs| && forall i :: 0 <= i < |hs| ==> r[i] == hs[i].ShortName()
  {
    if |hs| == 0 then [] else [hs[0].ShortName()] + ShortNames(hs[1..])
  }

  /** Missing headers keep the report's order: each comes before every header listed after it. */
  lemma {:induction false} MissingAmongOrdered(wanted: seq<SecurityHeader>, headers: map<string, string>,
                                               i: nat, j: nat)
    requires i < j < |MissingAmong(wanted, headers)|
    ensures exists p, q :: 0 <= p < q < |wanted| && wanted[p] == MissingAmong(wanted, headers)[i]
                                                && wanted[q] == MissingAmong(wanted, headers)[j]
    decreases |wanted|
  {
    var m := MissingAmong(wanted, headers);
    var init := MissingAmong(wanted[..|wanted| - 1], headers);
    var last := wanted[|wanted| - 1];
    assert m == init + (if last.HeaderName() in headers then [] else [last]);
    if j < |init| {
      MissingAmongOrdered(wanted[..|wanted| - 1], headers, i, j);
      var p, q :| 0 <= p < q < |wanted| - 1 && wanted[..|wanted| - 1][p] == init[i]
                                           && wanted[..|wanted| - 1][q] == init[j];
      assert wanted[p] == m[i] && wanted[q] == m[j];
    } else {
      assert m[j] == last && m[i] == init[i] && init[i] in init;
      assert init[i] in wanted[..|wanted| - 1];
      var p :| 0 <= p < |wanted| - 1 && wanted[..|wanted| - 1][p] == init[i];
      assert wanted[p] == m[i] && wanted[|wanted| - 1] == m[j];
    }
  }

  /**
   * Security headers: 25 points per header present; passes only with all four; a
   * recommendation (impact 4) names the missing ones.
   */
  function SecurityHeadersRule(missing: seq<SecurityHeader>): (r: Rule)
    requires |missing| <= 4
    ensures r.check.score == 25.0 * (4 - |missing|) as real
    ensures Percent(r.check.score)
    ensures r.check.pass <==> missing == []
    ensures r.issues == [] <==> missing == []
    ensures |r.issues| <= 1 && RuleOk(r)
    ensures r.issues != [] ==>
              r.issues[0].severity == Recommendation && r.issues[0].impact == 4
              && r.issues[0].title == Cat([Fixed(HeadersMissingPrefix), Int(|missing|), Fixed(HeadersMissingSuffix)])
              && r.issues[0].description == Cat([Fixed(MissingPrefix), Str(Join(ShortNames(missing), ", "))])
  {
    var present := 4 - |missing|;
    var score := ((present as real / 4.0) * 100.0).Floor;
    assert score == 25 * present;
    var issues := if missing != [] then
                    [Issue(Recommendation, Cat([Fixed(HeadersMissingPrefix), Int(|missing|), Fixed(HeadersMissingSuffix)]), 4,
                           Cat([Fixed(MissingPrefix), Str(Join(ShortNames(missing), ", "))]),
                           Some(Fixed(HeadersFix)))]
                  else [];
    Rule(Check(missing == [], score as real), issues)
  }

  /** Looking at one more header appends it when it is absent. */
  lemma MissingAmongStep(wanted: seq<SecurityHeader>, k: nat, headers: map<string, string>)
    requires k < |wanted|
    ensures MissingAmong(wanted[..k + 1], headers)
            == MissingAmong(wanted[..k], headers) + (if wanted[k].HeaderName() in headers then [] else [wanted[k]])
  {
    assert wanted[..k + 1][..k] == wanted[..k];
  }

  /** The loop over the four security headers, collecting the absent ones. */
  method CollectMissingHeaders(headers: map<string, string>) returns (missing: seq<SecurityHeader>)
    ensures missing == MissingHeaders(headers)
  {
    missing := [];
    var k := 0;
    while k < |SecurityHeaders|
      invariant 0 <= k <= |SecurityHeaders|
      invariant missing == MissingAmong(SecurityHeaders[..k], headers)
    {
      MissingAmongStep(SecurityHeaders, k, headers);
      if SecurityHeaders[k].HeaderName() !in headers {
        missing := missing + [SecurityHeaders[k]];
      }
      k := k + 1;
    }
    assert SecurityHeaders[..k] == SecurityHeaders;
  }

  /** The rules applied to a fetched page, each under the key its check is recorded with, in order. */
  function TechnicalRules(url: string, code: int, elapsed: real, headers: map<string, string>)
    : (rs: seq<(CheckId, Rule)>)
    ensures |rs| == 4 && AllRulesOk(rs)
  {
    [(HttpStatus, HttpStatusRule(code)),
     (Ssl, SslRule(url)),
     (Ttfb, TtfbRule(elapsed)),
     (SecurityHeadersCheck, SecurityHeadersRule(MissingHeaders(headers)))]
  }

  /**
   * What `analyze_technical` returns. An unfetched page gets a single failing HTTP check,
   * a critical issue and score 0, without averaging; a fetched page gets the four checks
   * in order, their issues in the same order, and the mean of the four scores.
   */
  function TechnicalResult(url: string, page: PageData): CategoryResult {
    match page
    case NotFetched(error) =>
      CategoryResult(0.0, [(HttpStatus, Check(false, 0.0))], [UnreachableIssue(error)])
    case Fetched(code, _, headers, _, elapsed) =>
      Assemble(TechnicalRules(url, code, elapsed, headers))
  }

  /**
   * Every technical result is well scored: its score is the mean of its check scores,
   * each a percentage, and every issue has an impact between 1 and 10. A fetched page
   * records exactly the four checks, in order.
   */
  lemma TechnicalResultWellScored(url: string, page: PageData)
    ensures WellScored(TechnicalResult(url, page)) && Percent(TechnicalResult(url, page).score)
    ensures ImpactsInRange(TechnicalResult(url, page).issues)
    ensures page.Fetched? ==>
              Names(TechnicalResult(url, page).checks) == [HttpStatus, Ssl, Ttfb, SecurityHeadersCheck]
  {
    match page
    case NotFetched(error) =>
      assert Sum([0.0]) == Sum([]) + 0.0;
    case Fetched(code, _, headers, _, elapsed) =>
      FetchedWellScored(TechnicalRules(url, code, elapsed, headers));
  }

  /** Four rules, each well formed, assemble into a well-scored result naming their keys in order. */
  lemma FetchedWellScored(rules: seq<(CheckId, Rule)>)
    requires |rules| == 4 && AllRulesOk(rules)
    ensures WellScored(Assemble(rules)) && Percent(Assemble(rules).score)
    ensures ImpactsInRange(Assemble(rules).issues)
    ensures Names(Assemble(rules).checks) == [rules[0].0, rules[1].0, rules[2].0, rules[3].0]
  {
    AssembleWellScored(rules);
    var ns := Names(Assemble(rules).checks);
    assert ns[0] == rules[0].0 && ns[1] == rules[1].0 && ns[2] == rules[2].0 && ns[3] == rules[3].0;
  }

  /** An unreachable page scores 0 and yields exactly one, critical, impact-10 issue. */
  lemma UnreachableScoresZero(url: string, error: Option<string>)
    ensures TechnicalResult(url, NotFetched(error)).score == 0.0
    ensures |TechnicalResult(url, NotFetched(error)).issues| == 1
    ensures TechnicalResult(url, NotFetched(error)).issues[0].severity == Critical
    ensures TechnicalResult(url, NotFetched(error)).issues[0].impact == 10
    ensures Names(TechnicalResult(url, NotFetched(error)).checks) == [HttpStatus]
  {
  }

  /** `analyze_technical`, recording each check and appending its issues in turn. */
  method AnalyzeTechnical(url: string, page: PageData) returns (r: CategoryResult)
    ensures r == TechnicalResult(url, page)
  {
    if page.NotFetched? {
      var checks: seq<(CheckId, Check)> := [(HttpStatus, Check(false, 0.0))];
      var issues: seq<Issue> := [UnreachableIssue(page.error)];
      r := CategoryResult(0.0, checks, issues);
      return;
    }
    r := AnalyzeFetched(url, page.statusCode, page.elapsed, page.headers);
  }

  /** The fetched-page part of `analyze_technical`: the four checks in turn, then their mean. */
  method AnalyzeFetched(url: string, code: int, elapsed: real, headers: map<string, string>)
    returns (r: CategoryResult)
    ensures r == Assemble(TechnicalRules(url, code, elapsed, headers))
  {
    var checks: seq<(CheckId, Check)> := [];
    var issues: seq<Issue> := [];
    ghost var rules: seq<(CheckId, Rule)> := [];

    var http := HttpStatusRule(code);
    AssembleStep(rules, HttpStatus, http);
    checks, issues, rules := checks + [(HttpStatus, http.check)], issues + http.issues, rules + [(HttpStatus, http)];
    assert checks == ChecksOf(rules) && issues == IssuesOf(rules);

    var ssl := SslRule(url);
    AssembleStep(rules, Ssl, ssl);
    checks, issues, rules := checks + [(Ssl, ssl.check)], issues + ssl.issues, rules + [(Ssl, ssl)];
    assert checks == ChecksOf(rules) && issues == IssuesOf(rules);

    var ttfb := TtfbRule(elapsed);
    AssembleStep(rules, Ttfb, ttfb);
    checks, issues, rules := checks + [(Ttfb, ttfb.check)], issues + ttfb.issues, rules + [(Ttfb, ttfb)];
    assert checks == ChecksOf(rules) && issues == IssuesOf(rules);

    var missing := CollectMissingHeaders(headers);
    var security := SecurityHeadersRule(missing);
    AssembleStep(rules, SecurityHeadersCheck, security);
    checks, issues, rules := checks + [(SecurityHeadersCheck, security.check)], issues + security.issues,
                             rules + [(SecurityHeadersCheck, security)];
    assert checks == ChecksOf(rules) && issues == IssuesOf(rules);

    assert rules == TechnicalRules(url, code, elapsed, headers);
    r := CategoryResult(Mean(Scores(checks)), checks, issues);
  }
}
