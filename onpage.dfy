/** The on-page analyzer (analyzers/onpage.py), over the features it reads from the HTML. */
module OnPage {
  import opened Outcomes
  import opened Text
  import opened Messages
  import opened Results
  import opened Config
  import opened Utils

  /** Which of og:title, og:description, og:image and og:type the page declares. */
  datatype OgTags = OgTags(title: bool, description: bool, image: bool, kind: bool) {
    function Present(): (n: nat)
      ensures n <= 4
    {
      (if title then 1 else 0) + (if description then 1 else 0)
      + (if image then 1 else 0) + (if kind then 1 else 0)
    }
  }

  /**
   * What `analyze_onpage` reads from the parsed page: the text of the first `<title>`
   * (a tag that is present is always truthy, even when empty), the `content` attribute of
   * the description meta tag, the numbers of `<h1>` and `<h2>` tags, the `alt` attribute
   * of every `<img>`, the Open Graph tags found, and the `href` of every `<a href>`.
   */
  datatype OnPageDoc = OnPageDoc(title: Option<string>, metaDescription: Option<string>,
                                 h1Count: nat, h2Count: nat, imageAlts: seq<Option<string>>,
                                 og: OgTags, hrefs: seq<string>)

  /** Length of a title or description once surrounding whitespace is stripped. */
  function StrippedLength(s: string): nat {
    |Strip(s)|
  }

  predicate InTitleRange(n: int) {
    TitleOptimalMin <= n <= TitleOptimalMax
  }

  /** Near the optimal range: 30 to 49, or 61 to 70 characters. */
  predicate NearTitleRange(n: int) {
    (30 <= n < TitleOptimalMin) || (TitleOptimalMax < n <= 70)
  }

  /**
   * Title by its stripped length: 50-60 characters scores 100 and passes; 30-49 or 61-70
   * scores 70 with an important issue (impact 7) telling to shorten or lengthen it; any
   * other length scores 30 with a critical issue (impact 9).
   */
  function TitleLengthRule(n: nat): (r: Rule)
    ensures r.check.pass <==> InTitleRange(n)
    ensures |r.issues| == if r.check.pass then 0 else 1
    ensures InTitleRange(n) ==> r.check.score == 100.0 && r.issues == []
    ensures NearTitleRange(n) ==>
              r.check.score == 70.0 && r.issues[0].severity == Important && r.issues[0].impact == 7
              && r.issues[0].fix == Some(Cat([Fixed(if n > TitleOptimalMax then Shorten else Lengthen), Fixed(TitleTo),
                                              Int(TitleOptimalMin), Fixed(Dash), Int(TitleOptimalMax), Fixed(CharsSuffix)]))
    ensures !InTitleRange(n) && !NearTitleRange(n) ==>
              r.check.score == 30.0 && r.issues[0].severity == Critical && r.issues[0].impact == 9
    ensures RuleOk(r)
  {
    if InTitleRange(n) then Rule(Check(true, 100.0), [])
    else if NearTitleRange(n) then
      Rule(Check(false, 70.0),
           [Issue(Important, Fixed(TitleOutOfRange), 7,
                  Cat([Fixed(LengthPrefix), Int(n), Fixed(CharsOptimal),
                       Int(TitleOptimalMin), Fixed(Dash), Int(TitleOptimalMax)]),
                  Some(Cat([Fixed(if n > TitleOptimalMax then Shorten else Lengthen), Fixed(TitleTo),
                            Int(TitleOptimalMin), Fixed(Dash), Int(TitleOptimalMax), Fixed(CharsSuffix)])))])
    else
      Rule(Check(false, 30.0),
           [Issue(Critical, Fixed(TitleDrastic), 9,
                  Cat([Fixed(LengthPrefix), Int(n), Fixed(CharsDrastic)]),
                  Some(Cat([Fixed(TitleRewrite), Int(TitleOptimalMin), Fixed(Dash),
                            Int(TitleOptimalMax), Fixed(CharsSuffix)])))])
  }

  /** Title: a present title is judged by its stripped length; no title scores 0 with a critical issue (impact 10). */
  function TitleRule(title: Option<string>): (r: Rule)
    ensures title.Some? ==> r == TitleLengthRule(StrippedLength(title.value))
    ensures title.None? ==> !r.check.pass && r.check.score == 0.0 && |r.issues| == 1
                            && r.issues[0].severity == Critical && r.issues[0].impact == 10
    ensures RuleOk(r)
  {
    match title
    case None =>
      Rule(Check(false, 0.0),
           [Issue(Critical, Fixed(NoTitle), 10, Fixed(NoTitleDesc), Some(Fixed(NoTitleFix)))])
    case Some(text) => TitleLengthRule(StrippedLength(text))
  }

  /** Moving a title's length towards the optimal range never lowers its score. */
  lemma TitleScoreTowardsOptimal(a: nat, b: nat)
    requires a <= b <= TitleOptimalMin || TitleOptimalMax <= b <= a
    ensures TitleLengthRule(a).check.score <= TitleLengthRule(b).check.score
  {
  }

  predicate InMetaRange(n: int) {
    MetaDescOptimalMin <= n <= MetaDescOptimalMax
  }

  /**
   * Meta description: a non-empty `content` scores 100 and passes when its stripped length
   * is 150-160, else 50 with an important issue (impact 6); a missing tag or an empty
   * `content` scores 0 with an important issue (impact 7).
   */
  function MetaDescriptionRule(content: Option<string>): (r: Rule)
    ensures r.check.pass <==> content.Some? && content.value != "" && InMetaRange(StrippedLength(content.value))
    ensures r.check.score == (if content.None? || content.value == "" then 0.0
                              else if r.check.pass then 100.0 else 50.0)
    ensures r.issues == [] <==> r.check.pass
    ensures |r.issues| <= 1 && RuleOk(r)
    ensures r.issues != [] ==>
              r.issues[0].severity == Important
              && r.issues[0].impact == (if content.None? || content.value == "" then 7 else 6)
  {
    if content.Some? && content.value != "" then
      var n := StrippedLength(content.value);
      if InMetaRange(n) then Rule(Check(true, 100.0), [])
      else
        Rule(Check(false, 50.0),
             [Issue(Important, Fixed(MetaOutOfRange), 6,
                    Cat([Fixed(LengthPrefix), Int(n), Fixed(OptimalInfix),
                         Int(MetaDescOptimalMin), Fixed(Dash), Int(MetaDescOptimalMax)]),
                    Some(Fixed(MetaFix)))])
    else
      Rule(Check(false, 0.0),
           [Issue(Important, Fixed(NoMeta), 7, Fixed(NoMetaDesc), Some(Fixed(NoMetaFix)))])
  }

  /** A description of only whitespace is present but scores 50, as if it were badly sized. */
  lemma BlankMetaDescriptionIsPresent()
    ensures MetaDescriptionRule(Some(" ")).check.score == 50.0
  {
    assert Strip(" ") == [];
  }

  /**
   * H1: exactly one scores 100; none scores 0 with a critical issue (impact 9); more than
   * one scores 50 with an important issue (impact 6) giving the count.
   */
  function H1Rule(count: nat): (r: Rule)
    ensures r.check.pass <==> count == 1
    ensures r.check.score == (if count == 1 then 100.0 else if count == 0 then 0.0 else 50.0)
    ensures r.issues == [] <==> count == 1
    ensures |r.issues| <= 1 && RuleOk(r)
    ensures count == 0 ==> r.issues[0].severity == Critical && r.issues[0].impact == 9
    ensures count > 1 ==> r.issues[0].severity == Important && r.issues[0].impact == 6
                          && r.issues[0].title == Cat([Fixed(ManyH1Prefix), Int(count), Fixed(CloseParen)])
  {
    if count == 1 then Rule(Check(true, 100.0), [])
    else if count == 0 then
      Rule(Check(false, 0.0), [Issue(Critical, Fixed(NoH1), 9, Fixed(NoH1Desc), Some(Fixed(NoH1Fix)))])
    else
      Rule(Check(false, 50.0),
           [Issue(Important, Cat([Fixed(ManyH1Prefix), Int(count), Fixed(CloseParen)]), 6,
                  Fixed(ManyH1Desc), Some(Fixed(ManyH1Fix)))])
  }

  /** Heading structure: 100 with at least one `<h2>`, else 70; it never raises an issue. */
  function HeadingStructureRule(h2Count: nat): (r: Rule)
    ensures r.check.pass <==> h2Count > 0
    ensures r.check.score == if h2Count > 0 then 100.0 else 70.0
    ensures r.issues == [] && RuleOk(r)
  {
    Rule(Check(h2Count > 0, if h2Count > 0 then 100.0 else 70.0), [])
  }

  /** An `alt` counts only when it is present and non-empty. */
  predicate HasAlt(alt: Option<string>) {
    alt.Some? && alt.value != ""
  }

  function AltCount(alts: seq<Option<string>>): (n: nat)
    ensures n <= |alts|
    ensures n == |alts| <==> forall i :: 0 <= i < |alts| ==> HasAlt(alts[i])
  {
    if |alts| == 0 then 0
    else
      var rest := AltCount(alts[1..]);
      assert forall i :: 1 <= i < |alts| ==> alts[i] == alts[1..][i - 1];
      (if HasAlt(alts[0]) then 1 else 0) + rest
  }

  /** Share of images with an alt text; 100 when the page has no image. */
  function AltPercentage(alts: seq<Option<string>>): (p: real)
    ensures Percent(p)
    ensures alts == [] ==> p == 100.0
  {
    if |alts| > 0 then PercentOf(AltCount(alts), |alts|) else 100.0
  }

  /**
   * Image alt texts: scores the truncated percentage of images with an alt and passes at
   * 90% or more; an issue is raised only when images exist and coverage is under 90% —
   * important (impact 8) under 50%, else a recommendation (impact 5).
   */
  function ImagesAltRule(alts: seq<Option<string>>): (r: Rule)
    ensures r.check.pass <==> AltPercentage(alts) >= 90.0
    ensures r.check.score == AltPercentage(alts).Floor as real && Percent(r.check.score)
    ensures alts == [] ==> r.check.score == 100.0 && r.check.pass
    ensures r.issues != [] <==> alts != [] && AltPercentage(alts) < 90.0
    ensures |r.issues| <= 1 && RuleOk(r)
    ensures r.issues != [] ==>
              if AltPercentage(alts) < 50.0 then r.issues[0].severity == Important && r.issues[0].impact == 8
              else r.issues[0].severity == Recommendation && r.issues[0].impact == 5
    ensures r.issues != [] ==> r.issues[0].title == Cat([Int(|alts| - AltCount(alts)), Fixed(ImagesNoAlt)])
  {
    var pct := AltPercentage(alts);
    var issues := if pct < 90.0 && |alts| > 0 then
                    var missing := |alts| - AltCount(alts);
                    [Issue(if pct < 50.0 then Important else Recommendation,
                           Cat([Int(missing), Fixed(ImagesNoAlt)]),
                           if pct < 50.0 then 8 else 5,
                           Cat([Int(missing), Fixed(Of), Int(|alts|), Fixed(ImagesNoAltDesc)]),
                           Some(Fixed(AltFix)))]
                  else [];
    Rule(Check(pct >= 90.0, pct.Floor as real), issues)
  }

  /** A page whose images all carry an alt text raises no alt issue and scores 100. */
  lemma AllAltsScoreFull(alts: seq<Option<string>>)
    requires forall i :: 0 <= i < |alts| ==> HasAlt(alts[i])
    ensures ImagesAltRule(alts).check.score == 100.0 && ImagesAltRule(alts).issues == []
  {
  }

  /**
   * Open Graph: 25 points per tag present; passes with at least three; fewer than three
   * raise a recommendation (impact 4) giving how many are missing.
   */
  function OpenGraphRule(og: OgTags): (r: Rule)
    ensures r.check.score == 25.0 * og.Present() as real && Percent(r.check.score)
    ensures r.check.pass <==> og.Present() >= 3
    ensures r.issues != [] <==> og.Present() < 3
    ensures |r.issues| <= 1 && RuleOk(r)
    ensures r.issues != [] ==>
              r.issues[0].severity == Recommendation && r.issues[0].impact == 4
              && r.issues[0].description == Cat([Fixed(OgMissingPrefix), Int(4 - og.Present()), Fixed(OgMissingSuffix)])
  {
    var present := og.Present();
    var score := ((present as real / 4.0) * 100.0).Floor;
    assert score == 25 * present;
    var issues := if present < 3 then
                    [Issue(Recommendation, Fixed(OgIncomplete), 4,
                           Cat([Fixed(OgMissingPrefix), Int(4 - present), Fixed(OgMissingSuffix)]),
                           Some(Fixed(OgFix)))]
                  else [];
    Rule(Check(present >= 3, score as real), issues)
  }

  /** The hrefs `is_internal_link` accepts against the page's domain, in page order. */
  function InternalLinks(hrefs: seq<string>, base: string, parse: UrlParser): (r: seq<string>)
    ensures |r| <= |hrefs|
    ensures forall h :: h in r <==> h in hrefs && IsInternalLink(h, base, parse)
  {
    if |hrefs| == 0 then []
    else
      var rest := InternalLinks(hrefs[1..], base, parse);
      assert hrefs == [hrefs[0]] + hrefs[1..];
      if IsInternalLink(hrefs[0], base, parse) then [hrefs[0]] + rest else rest
  }

  /** The other hrefs, in page order. */
  function ExternalLinks(hrefs: seq<string>, base: string, parse: UrlParser): (r: seq<string>)
    ensures |r| <= |hrefs|
    ensures forall h :: h in r <==> h in hrefs && !IsInternalLink(h, base, parse)
  {
    if |hrefs| == 0 then []
    else
      var rest := ExternalLinks(hrefs[1..], base, parse);
      assert hrefs == [hrefs[0]] + hrefs[1..];
      if IsInternalLink(hrefs[0], base, parse) then rest else [hrefs[0]] + rest
  }

  /** Internal and external links split the page's links: each link lands in exactly one. */
  lemma {:induction false} LinksPartition(hrefs: seq<string>, base: string, parse: UrlParser)
    ensures multiset(InternalLinks(hrefs, base, parse)) + multiset(ExternalLinks(hrefs, base, parse))
            == multiset(hrefs)
    ensures |InternalLinks(hrefs, base, parse)| + |ExternalLinks(hrefs, base, parse)| == |hrefs|
  {
    if |hrefs| > 0 {
      LinksPartition(hrefs[1..], base, parse);
      assert hrefs == [hrefs[0]] + hrefs[1..];
    }
  }

  /**
   * Links: passes with 5 to 100 internal links, scores 100 with 10 to 50 and 70 otherwise;
   * fewer than 5 raise a recommendation (impact 5).
   */
  function LinksRule(internal: nat): (r: Rule)
    ensures r.check.pass <==> 5 <= internal <= 100
    ensures r.check.score == if 10 <= internal <= 50 then 100.0 else 70.0
    ensures r.issues != [] <==> internal < 5
    ensures |r.issues| <= 1 && RuleOk(r)
    ensures r.issues != [] ==> r.issues[0].severity == Recommendation && r.issues[0].impact == 5
  {
    Rule(Check(5 <= internal <= 100, if 10 <= internal <= 50 then 100.0 else 70.0),
         if internal < 5 then
           [Issue(Recommendation, Fixed(FewLinks), 5,
                  Cat([Fixed(FewLinksPrefix), Int(internal), Fixed(FewLinksSuffix)]),
                  Some(Fixed(FewLinksFix)))]
         else [])
  }

  /** Between 51 and 100 internal links the check passes yet scores only 70. */
  lemma ManyLinksPassBelowFull()
    ensures LinksRule(80).check.pass && LinksRule(80).check.score == 70.0
  {
  }

  function InternalCount(url: string, doc: OnPageDoc, parse: UrlParser): nat {
    |InternalLinks(doc.hrefs, GetDomain(url, parse), parse)|
  }

  /** The rules `analyze_onpage` applies, each under the key its check is recorded with, in order. */
  function OnPageRules(url: string, doc: OnPageDoc, parse: UrlParser): (rs: seq<(CheckId, Rule)>)
    ensures |rs| == 7 && AllRulesOk(rs)
  {
    [(Title, TitleRule(doc.title)),
     (MetaDescription, MetaDescriptionRule(doc.metaDescription)),
     (H1, H1Rule(doc.h1Count)),
     (HeadingStructure, HeadingStructureRule(doc.h2Count)),
     (ImagesAlt, ImagesAltRule(doc.imageAlts)),
     (OpenGraph, OpenGraphRule(doc.og)),
     (Links, LinksRule(InternalCount(url, doc, parse)))]
  }

  /** What `analyze_onpage` returns: the seven checks in order, their issues, and their mean. */
  function OnPageResult(url: string, doc: OnPageDoc, parse: UrlParser): CategoryResult {
    Assemble(OnPageRules(url, doc, parse))
  }

  /**
   * Exactly seven checks are always recorded, the score is their mean and a percentage,
   * and every issue has an impact between 1 and 10.
   */
  lemma OnPageResultWellScored(url: string, doc: OnPageDoc, parse: UrlParser)
    ensures Names(OnPageResult(url, doc, parse).checks)
            == [Title, MetaDescription, H1, HeadingStructure, ImagesAlt, OpenGraph, Links]
    ensures WellScored(OnPageResult(url, doc, parse)) && Percent(OnPageResult(url, doc, parse).score)
    ensures ImpactsInRange(OnPageResult(url, doc, parse).issues)
  {
    SevenWellScored(OnPageRules(url, doc, parse));
  }

  /** Seven rules, each well formed, assemble into a well-scored result naming their keys in order. */
  lemma SevenWellScored(rules: seq<(CheckId, Rule)>)
    requires |rules| == 7 && AllRulesOk(rules)
    ensures Names(Assemble(rules).checks)
            == [rules[0].0, rules[1].0, rules[2].0, rules[3].0, rules[4].0, rules[5].0, rules[6].0]
    ensures WellScored(Assemble(rules)) && Percent(Assemble(rules).score)
    ensures ImpactsInRange(Assemble(rules).issues)
  {
    AssembleWellScored(rules);
    var ns := Names(Assemble(rules).checks);
    assert ns[0] == rules[0].0 && ns[1] == rules[1].0 && ns[2] == rules[2].0 && ns[3] == rules[3].0;
    assert ns[4] == rules[4].0 && ns[5] == rules[5].0 && ns[6] == rules[6].0;
  }

  /** `analyze_onpage`, recording each check and appending its issues in turn. */
  method AnalyzeOnPage(url: string, doc: OnPageDoc, parse: UrlParser) returns (r: CategoryResult)
    ensures r == OnPageResult(url, doc, parse)
  {
    var checks: seq<(CheckId, Check)> := [];
    var issues: seq<Issue> := [];
    ghost var rules: seq<(CheckId, Rule)> := [];

    var title := TitleRule(doc.title);
    AssembleStep(rules, Title, title);
    checks, issues, rules := checks + [(Title, title.check)], issues + title.issues, rules + [(Title, title)];

    var meta := MetaDescriptionRule(doc.metaDescription);
    AssembleStep(rules, MetaDescription, meta);
    checks, issues, rules := checks + [(MetaDescription, meta.check)], issues + meta.issues, rules + [(MetaDescription, meta)];

    var h1 := H1Rule(doc.h1Count);
    AssembleStep(rules, H1, h1);
    checks, issues, rules := checks + [(H1, h1.check)], issues + h1.issues, rules + [(H1, h1)];

    var headings := HeadingStructureRule(doc.h2Count);
    AssembleStep(rules, HeadingStructure, headings);
    checks, issues, rules := checks + [(HeadingStructure, headings.check)], issues + headings.issues,
                             rules + [(HeadingStructure, headings)];

    var alt := ImagesAltRule(doc.imageAlts);
    AssembleStep(rules, ImagesAlt, alt);
    checks, issues, rules := checks + [(ImagesAlt, alt.check)], issues + alt.issues, rules + [(ImagesAlt, alt)];

    var og := OpenGraphRule(doc.og);
    AssembleStep(rules, OpenGraph, og);
    checks, issues, rules := checks + [(OpenGraph, og.check)], issues + og.issues, rules + [(OpenGraph, og)];

    var baseDomain := GetDomain(url, parse);
    var internal := InternalLinks(doc.hrefs, baseDomain, parse);
    var links := LinksRule(|internal|);
    AssembleStep(rules, Links, links);
    checks, issues, rules := checks + [(Links, links.check)], issues + links.issues, rules + [(Links, links)];

    assert rules == OnPageRules(url, doc, parse);
    r := CategoryResult(Mean(Scores(checks)), checks, issues);
  }
}
