/** The crawlability and indexing analyzer (analyzers/indexing.py). */
module Indexing {
  import opened Outcomes
  import opened Text
  import opened Messages
  import opened Results

  /** A response to a GET request: its status code and body. */
  datatype Response = Response(status: int, body: string)

  /**
   * Parsing a sitemap body with `xml.etree.ElementTree` and counting its `<url>` elements in
   * the sitemaps.org 0.9 namespace (`None` when the XML does not parse). A sitemap index
   * holds `<sitemap>` elements instead, so it counts 0.
   */
  type SitemapCounter = string -> Option<nat>

  /**
   * What `analyze_indexing` reads: the outcome of fetching /robots.txt and /sitemap.xml
   * (`Raised` when the request raised), the `href` of the canonical link (`None` without
   * the tag or the attribute), the `content` of the robots meta tag (`""` when the tag has
   * none, `None` without the tag) and the number of JSON-LD scripts.
   */
  datatype IndexingDoc = IndexingDoc(robots: Outcome<Response>, sitemap: Outcome<Response>,
                                     canonicalHref: Option<string>, metaRobots: Option<string>,
                                     schemaCount: nat)

  /**
   * The robots.txt test: any "Disallow: /" text together with any "User-agent: *" text,
   * anywhere in the file, counts as blocking the whole site.
   */
  predicate BlocksAll(body: string) {
    Contains(body, "Disallow: /") && Contains(body, "User-agent: *")
  }

  predicate DeclaresSitemap(body: string) {
    Contains(body, "Sitemap:")
  }

  /**
   * robots.txt: a 200 response passes unless it blocks everything, and scores 100 only when
   * it also declares a sitemap, else 70; blocking raises a critical issue (impact 10) and a
   * missing sitemap line a recommendation (impact 3), in that order. Any other status
   * passes with 80 and a recommendation (impact 2); a failed request scores 50, no issue.
   */
  function RobotsRule(fetch: Outcome<Response>): (r: Rule)
    ensures fetch.Raised? ==> r == Rule(Check(false, 50.0), [])
    ensures fetch.Ok? && fetch.value.status != 200 ==>
              r.check == Check(true, 80.0) && |r.issues| == 1
              && r.issues[0].severity == Recommendation && r.issues[0].impact == 2
    ensures fetch.Ok? && fetch.value.status == 200 ==>
              var body := fetch.value.body;
              && (r.check.pass <==> !BlocksAll(body))
              && (r.check.score == 100.0 <==> !BlocksAll(body) && DeclaresSitemap(body))
              && (r.check.score != 100.0 ==> r.check.score == 70.0)
              && |r.issues| == (if BlocksAll(body) then 1 else 0) + (if DeclaresSitemap(body) then 0 else 1)
              && (BlocksAll(body) ==> r.issues[0].severity == Critical && r.issues[0].impact == 10)
              && (!DeclaresSitemap(body) ==>
                    r.issues[|r.issues| - 1].severity == Recommendation && r.issues[|r.issues| - 1].impact == 3)
    ensures RuleOk(r)
  {
    match fetch
    case Raised(_) => Rule(Check(false, 50.0), [])
    case Ok(response) =>
      if response.status == 200 then
        var blocks := BlocksAll(response.body);
        var hasSitemap := DeclaresSitemap(response.body);
        var blockIssues := if blocks then
                             [Issue(Critical, Fixed(RobotsBlocks), 10, Fixed(RobotsBlocksDesc), Some(Fixed(RobotsBlocksFix)))]
                           else [];
        var sitemapIssues := if hasSitemap then []
                             else [Issue(Recommendation, Fixed(RobotsNoSitemap), 3, Fixed(RobotsNoSitemapDesc),
                                         Some(Fixed(RobotsNoSitemapFix)))];
        ImpactsInRangeConcat(blockIssues, sitemapIssues);
        Rule(Check(!blocks, if !blocks && hasSitemap then 100.0 else 70.0), blockIssues + sitemapIssues)
      else
        Rule(Check(true, 80.0), [Issue(Recommendation, Fixed(NoRobots), 2, Fixed(NoRobotsDesc), Some(Fixed(NoRobotsFix)))])
  }

  /**
   * The substring test is not the robots.txt grouping of RFC 9309: a file whose only rule
   * disallows some path, such as "/admin", is reported as blocking the whole site.
   */
  lemma DisallowAnyPathCountsAsBlockingAll(path: string)
    ensures var body := "User-agent: *" + "\n" + "Disallow: /" + path;
            !RobotsRule(Ok(Response(200, body))).check.pass
            && RobotsRule(Ok(Response(200, body))).issues[0].severity == Critical
  {
    var head, rule := "User-agent: *", "Disallow: /";
    var body := head + "\n" + rule + path;
    assert body == [] + head + ("\n" + rule + path);
    ContainsInfix([], head, "\n" + rule + path);
    assert body == (head + "\n") + rule + path;
    ContainsInfix(head + "\n", rule, path);
  }

  /** The sitemaps.org limit on the number of URLs in one sitemap file. */
  const MaxSitemapUrls: nat := 50000

  /**
   * sitemap.xml: a 200 response that parses scores 100 and passes, with an important issue
   * (impact 6) above 50,000 URLs; one that does not parse scores 50 with an important issue
   * (impact 7); any other status scores 0 with a critical issue (impact 8); a failed request
   * scores 0 with no issue.
   */
  function SitemapRule(fetch: Outcome<Response>, countUrls: SitemapCounter): (r: Rule)
    ensures fetch.Raised? ==> r == Rule(Check(false, 0.0), [])
    ensures fetch.Ok? && fetch.value.status != 200 ==>
              r.check == Check(false, 0.0) && |r.issues| == 1
              && r.issues[0].severity == Critical && r.issues[0].impact == 8
    ensures fetch.Ok? && fetch.value.status == 200 && countUrls(fetch.value.body).None? ==>
              r.check == Check(false, 50.0) && |r.issues| == 1
              && r.issues[0].severity == Important && r.issues[0].impact == 7
    ensures fetch.Ok? && fetch.value.status == 200 && countUrls(fetch.value.body).Some? ==>
              r.check == Check(true, 100.0)
              && (r.issues != [] <==> countUrls(fetch.value.body).value > MaxSitemapUrls)
              && (r.issues != [] ==> |r.issues| == 1 && r.issues[0].severity == Important && r.issues[0].impact == 6
                                     && r.issues[0].description
                                        == Cat([Int(countUrls(fetch.value.body).value), Fixed(SitemapTooBigSuffix)]))
    ensures RuleOk(r)
  {
    match fetch
    case Raised(_) => Rule(Check(false, 0.0), [])
    case Ok(response) =>
      if response.status == 200 then
        match countUrls(response.body)
        case Some(n) =>
          Rule(Check(true, 100.0),
               if n > MaxSitemapUrls then
                 [Issue(Important, Fixed(SitemapTooBig), 6, Cat([Int(n), Fixed(SitemapTooBigSuffix)]),
                        Some(Fixed(SitemapTooBigFix)))]
               else [])
        case None =>
          Rule(Check(false, 50.0),
               [Issue(Important, Fixed(SitemapInvalid), 7, Fixed(SitemapInvalidDesc), Some(Fixed(SitemapInvalidFix)))])
      else
        Rule(Check(false, 0.0), [Issue(Critical, Fixed(NoSitemap), 8, Fixed(NoSitemapDesc), Some(Fixed(NoSitemapFix)))])
  }

  /**
   * Canonical: a non-empty `href` scores 100 and passes; otherwise 60 with a
   * recommendation (impact 5).
   */
  function CanonicalRule(href: Option<string>): (r: Rule)
    ensures r.check.pass <==> href.Some? && href.value != ""
    ensures r.check.score == if r.check.pass then 100.0 else 60.0
    ensures r.issues != [] <==> !r.check.pass
    ensures |r.issues| <= 1 && RuleOk(r)
    ensures r.issues != [] ==> r.issues[0].severity == Recommendation && r.issues[0].impact == 5
  {
    if href.Some? && href.value != "" then Rule(Check(true, 100.0), [])
    else Rule(Check(false, 60.0),
              [Issue(Recommendation, Fixed(NoCanonical), 5, Fixed(NoCanonicalDesc), Some(Fixed(NoCanonicalFix)))])
  }

  /** Whether a robots meta `content` asks not to index: "noindex" anywhere, in any case. */
  predicate IsNoindex(content: string) {
    Contains(Lower(content), "noindex")
  }

  /**
   * Meta robots: content containing "noindex" in any letter case scores 0 with a critical
   * issue (impact 10); other content, or no tag at all, scores 100 and passes.
   */
  function MetaRobotsRule(content: Option<string>): (r: Rule)
    ensures r.check.pass <==> !(content.Some? && IsNoindex(content.value))
    ensures r.check.score == if r.check.pass then 100.0 else 0.0
    ensures r.issues != [] <==> !r.check.pass
    ensures |r.issues| <= 1 && RuleOk(r)
    ensures r.issues != [] ==> r.issues[0].severity == Critical && r.issues[0].impact == 10
  {
    if content.Some? && IsNoindex(content.value) then
      Rule(Check(false, 0.0), [Issue(Critical, Fixed(Noindex), 10, Fixed(NoindexDesc), Some(Fixed(NoindexFix)))])
    else Rule(Check(true, 100.0), [])
  }

  /** The noindex test ignores letter case: "NOINDEX" blocks as "noindex" does. */
  lemma UpperCaseNoindexBlocks()
    ensures !MetaRobotsRule(Some("NOINDEX")).check.pass
  {
    assert Lower("NOINDEX") == "noindex";
    ContainsAt("noindex", "noindex", 0);
  }

  /**
   * Schema markup: at least one JSON-LD script scores 100 and passes; none scores 40 with a
   * recommendation (impact 6).
   */
  function SchemaRule(count: nat): (r: Rule)
    ensures r.check.pass <==> count > 0
    ensures r.check.score == if count > 0 then 100.0 else 40.0
    ensures r.issues != [] <==> count == 0
    ensures |r.issues| <= 1 && RuleOk(r)
    ensures r.issues != [] ==> r.issues[0].severity == Recommendation && r.issues[0].impact == 6
  {
    if count > 0 then Rule(Check(true, 100.0), [])
    else Rule(Check(false, 40.0),
              [Issue(Recommendation, Fixed(NoSchema), 6, Fixed(NoSchemaDesc), Some(Fixed(NoSchemaFix)))])
  }

  /** The rules `analyze_indexing` applies, each under the key its check is recorded with, in order. */
  function IndexingRules(doc: IndexingDoc, countUrls: SitemapCounter): (rs: seq<(CheckId, Rule)>)
    ensures |rs| == 5 && AllRulesOk(rs)
  {
    [(Robots, RobotsRule(doc.robots)),
     (Sitemap, SitemapRule(doc.sitemap, countUrls)),
     (Canonical, CanonicalRule(doc.canonicalHref)),
     (MetaRobots, MetaRobotsRule(doc.metaRobots)),
     (Schema, SchemaRule(doc.schemaCount))]
  }

  /** What `analyze_indexing` returns: the five checks in order, their issues, and their mean. */
  function IndexingResult(doc: IndexingDoc, countUrls: SitemapCounter): CategoryResult {
    Assemble(IndexingRules(doc, countUrls))
  }

  /**
   * Exactly five checks are always recorded, even when both requests fail; the score is
   * their mean and a percentage, and every issue has an impact between 1 and 10.
   */
  lemma IndexingResultWellScored(doc: IndexingDoc, countUrls: SitemapCounter)
    ensures Names(IndexingResult(doc, countUrls).checks) == [Robots, Sitemap, Canonical, MetaRobots, Schema]
    ensures WellScored(IndexingResult(doc, countUrls)) && Percent(IndexingResult(doc, countUrls).score)
    ensures ImpactsInRange(IndexingResult(doc, countUrls).issues)
  {
    AssembleWellScored(IndexingRules(doc, countUrls));
  }

  /** `analyze_indexing`, recording each check and appending its issues in turn. */
  method AnalyzeIndexing(doc: IndexingDoc, countUrls: SitemapCounter) returns (r: CategoryResult)
    ensures r == IndexingResult(doc, countUrls)
  {
    var checks: seq<(CheckId, Check)> := [];
    var issues: seq<Issue> := [];
    ghost var rules: seq<(CheckId, Rule)> := [];

    var robots := RobotsRule(doc.robots);
    AssembleStep(rules, Robots, robots);
    checks, issues, rules := checks + [(Robots, robots.check)], issues + robots.issues, rules + [(Robots, robots)];

    var sitemap := SitemapRule(doc.sitemap, countUrls);
    AssembleStep(rules, Sitemap, sitemap);
    checks, issues, rules := checks + [(Sitemap, sitemap.check)], issues + sitemap.issues, rules + [(Sitemap, sitemap)];

    var canonical := CanonicalRule(doc.canonicalHref);
    AssembleStep(rules, Canonical, canonical);
    checks, issues, rules := checks + [(Canonical, canonical.check)], issues + canonical.issues,
                             rules + [(Canonical, canonical)];

    var metaRobots := MetaRobotsRule(doc.metaRobots);
    AssembleStep(rules, MetaRobots, metaRobots);
    checks, issues, rules := checks + [(MetaRobots, metaRobots.check)], issues + metaRobots.issues,
                             rules + [(MetaRobots, metaRobots)];

    var schema := SchemaRule(doc.schemaCount);
    AssembleStep(rules, Schema, schema);
    checks, issues, rules := checks + [(Schema, schema.check)], issues + schema.issues, rules + [(Schema, schema)];

    assert rules == IndexingRules(doc, countUrls);
    r := CategoryResult(Mean(Scores(checks)), checks, issues);
  }
}
