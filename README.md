# seo-aiditor core, modelled in Dafny

seo-aiditor audits one web page for search-engine optimisation. `run_audit` validates and
fetches the URL, runs four rule-based analyzers (technical, on-page, indexing, content),
the PageSpeed Insights analyzer and an AI content-quality analyzer, and combines the four
rule categories into a weighted final score and a grade. It then merges and sorts every
issue by impact, picks up to five quick wins, and asks an AI model for an action plan. A
web API exports the report as CSV. Two further AI modules (site-structure page selection
and holistic multi-page analysis) and a homepage crawler support a multi-page audit that
`run_audit` does not call.

The project models each of these Python files as one Dafny module:

| file | module |
|---|---|
| `audit_engine.py` | `AuditEngine` (audit_engine.dfy) |
| `utils.py` | `Utils` (utils.dfy) |
| `analyzers/technical.py` | `Technical` (technical.dfy) |
| `analyzers/onpage.py` | `OnPage` (onpage.dfy) |
| `analyzers/indexing.py` | `Indexing` (indexing.dfy) |
| `analyzers/content.py` | `Content` (content.dfy) |
| `analyzers/pagespeed.py` | `PageSpeed` (pagespeed.dfy) |
| `ai_engine.py` | `AiEngine` (ai_engine.dfy) |
| `analyzers/ai_content.py` | `AiContent` (ai_content.dfy), with the issue conversion in `AiIssues` (ai_issues.dfy) |
| `analyzers/ai_content_old.py` | `AiContentOld` (ai_content_old.dfy) |
| `analyzers/ai_action_plan.py` | `AiActionPlan` (ai_action_plan.dfy) |
| `analyzers/ai_site_structure.py` | `AiSiteStructure` (ai_site_structure.dfy) |
| `analyzers/ai_multi_page.py` | `AiMultiPage` (ai_multi_page.dfy) |
| `site_crawler.py` | `SiteCrawler` (site_crawler.dfy) |
| `app.py` (`generate_csv`) | `App` (app.dfy) |
| `config.py` (weights and thresholds) | `Config` (config.dfy) |

Shared modules:
- `Outcomes` holds `Option` and `Outcome`. An `Outcome` is `Ok(value)` or `Raised(msg)`, a Python exception with its message.
- `Text` models the Python string operations the code uses (strip, split into words, join, formatting of numbers).
- `Json` models decoded JSON values with Python's dynamic access (`in`, `.get`, `[]`, `len`, iteration), including the exceptions each raises on a value of the wrong type.
- `Messages` holds the fixed issue texts, which are written in Polish.
- `Results` holds the issue, check and category-result records every analyzer returns.

How the code's outside world is modelled:
- Network, HTML parsing and the model's replies are inputs. An HTTP response, a parsed page's features and a model reply are values passed in.
- Library calls become function parameters: `validators.url`, `urlparse`, `urljoin`, `json.loads`, `json.dumps` and `textstat`.
- Code that updates state step by step is a method proved equal to a specification function. This covers the analyzers appending checks and issues, `run_audit` extending the issue list, and the loops of the AI modules, the crawler and the CSV export. The properties are then proved about that function.

## Model

| member | source | states |
|---|---|---|
| AuditEngine.RunAudit | audit_engine.py:13-116 | The audit, step by step (validate, fetch, four unguarded analyzers, guarded page speed and AI content, score, grade, `extend` loop over the six categories, sort, quick wins, guarded action plan), equals the specification `Audit` |
| AuditEngine.EarlyExits | audit_engine.py:16-29 | An invalid URL gives exactly `{'error': 'Invalid URL'}`; a failed fetch gives `{'error': 'Cannot fetch page', 'details': error or None}`; in both cases the result is the same whatever the analyzers would return |
| AuditEngine.RuleExceptionsPropagate | audit_engine.py:42-56 | The first of technical, on-page, indexing and content to raise ends the audit with its exception, and the audit raises only when one of them does |
| AuditEngine.AuditCompletes | audit_engine.py:58-113 | Once the four rule analyzers return, the audit completes and stores their results unchanged. A page-speed exception becomes `{score: 0, error}`; an AI-content exception becomes `{score: 0, error, insights: {}}`; an action-plan exception becomes `{error}`. AI off gives `{score: 0, insights: {disabled: True}}` and `{disabled: True}`. The core web vitals are merged only from parsed mobile data. The final score and grade depend on the four rule scores alone |
| AuditEngine.IssuesMerged | audit_engine.py:87-100 | `all_issues` is a permutation of technical, on-page, indexing, content, page-speed and AI issues concatenated in that order. It is non-increasing in impact, and for each impact value its issues keep their concatenation order. The quick wins are the first five qualifying issues, a subsequence of `all_issues` |
| AuditEngine.NeverExcellent | audit_engine.py:118-141 | With the four category scores in [0,100], the final score lies in [0,85] and the grade is never EXCELLENT |
| AuditEngine.FinalScoreRange | audit_engine.py:118-128 | round(Σ score·weight, 1) over the four weights lies in [0,85] for percentage scores, so EXCELLENT is unreachable |
| AuditEngine.WeightsTotal | config.py:19-25 | The four category weights add up to 0.85 and with the unused `advanced` weight to 1.0 |
| AuditEngine.Round1 | audit_engine.py:128 | `round(x, 1)` lies within 0.05 of x and is a whole number of tenths |
| AuditEngine.GetGrade | audit_engine.py:130-141 | The grade is the highest band (90, 75, 60, 40, otherwise CRITICAL) that the score reaches: that band is reached and no higher band is |
| AuditEngine.GradeMonotone | audit_engine.py:130-141 | A higher score never gets a lower grade |
| AuditEngine.SortByImpactSpec | audit_engine.py:93 | The stable reverse sort by impact returns a permutation of its input, non-increasing in impact, in which the issues of each impact value keep their input order |
| AuditEngine.SortByImpactSorted | audit_engine.py:93 | The sorted list is non-increasing in impact and a permutation of the input |
| AuditEngine.SortByImpactStable | audit_engine.py:93 | For every impact value, the sorted list holds the issues of that impact in their input order (stability under `reverse=True`) |
| AuditEngine.InsertSorted | audit_engine.py:93 | Inserting an issue into a list sorted by impact keeps it sorted |
| AuditEngine.InsertWithImpact | audit_engine.py:93 | Inserting into a sorted list places the issue after every issue of equal impact |
| AuditEngine.Candidates | audit_engine.py:97-99 | The filter keeps only issues of impact at least 6 that are important or recommendations, and each qualifying issue exactly as often as the list holds it (multiset counts); with `CandidatesSubSeq` this fixes the result as the qualifying issues in list order |
| AuditEngine.QuickWinsSpec | audit_engine.py:97-100 | At most five quick wins, none critical, each of impact at least 6, a subsequence of `all_issues`. They are the first qualifying issues: a prefix of the filtered list, five of them whenever at least five qualify, and all of them (wherever they sit) when fewer do |
| AuditEngine.CandidatesSubSeq | audit_engine.py:97-99 | The filtered issues are a subsequence of the list |
| AuditEngine.IssueLists | audit_engine.py:88-90 | One issue list per category, six in all; a category dict without `issues` contributes none |
| AuditEngine.FlattenIssueLists | audit_engine.py:88-90 | The `extend` loop yields the six lists concatenated in category order |
| App.GenerateCsv | app.py:80-95 | The export built by appending lines equals `Csv`: header, check lines, `\nIssues:`, issue header and issue lines, joined with newlines, or the exception raised on the way |
| App.CheckSection | app.py:85-87 | The outer loop over the categories yields `CheckLines`: the lines of every category in dict order, or the first exception |
| App.CategoryStep | app.py:86-87 | The inner loop yields one line per check of the category, or the exception of the first check that is not a dict |
| App.IssueSection | app.py:92-93 | The issue loop yields one line per item of `all_issues` (default []), or the first exception |
| App.CheckRow | app.py:87 | A check row exists exactly when the check data is a dict (`.get` raises otherwise) |
| App.IssueRow | app.py:93 | An issue row exists exactly when the issue is a dict |
| App.HeaderFirst | app.py:83 | Every export starts with `Category,Check,Value,Pass,Score` and a newline |
| App.EmptyExport | app.py:82-95 | With no categories and no issues, the export is exactly the header, `\nIssues:` and the issue header joined by newlines |
| App.OneLinePerCheck | app.py:85-87 | A category gives one line per item of its `checks` dict, in order, each starting with `category,check,` |
| App.OneLinePerIssue | app.py:92-93 | A list of issue dicts gives one line per issue, in order |
| App.RowDefaults | app.py:87-93 | A check without fields prints as `N/A,False,0`; an issue without fields prints as `,,0,,` |
| App.UnquotedFields | app.py:87-93 | A row has its four separating commas plus every comma inside its fields, so a title with a comma yields extra columns |
| App.ShapeErrors | app.py:85 | A results value that is not a dict raises `'T' object has no attribute 'get'`; a `categories` value that is not a dict raises `... has no attribute 'items'` |
| Utils.ValidateUrl | utils.py:7-14 | The result, when there is one, has an http(s) scheme and is accepted by the validator; a URL with a scheme is kept as is, one without gets `https://` in front |
| Utils.ValidateUrlIdempotent | utils.py:7-14 | Validating a validated URL changes nothing |
| Utils.GetDomain | utils.py:16-19 | The domain starts with the scheme, ends with `://netloc` and is exactly as long as both with `://` between them, so it is `scheme://netloc` |
| Utils.IsInternalLink | utils.py:39-45 | An empty link is not internal; a link without a host is internal; otherwise internal exactly when its host equals the base's |
| Utils.CalculateScore | utils.py:47-57 | The score lies in [0,100]; it is 0 at or below the minimum and 100 exactly at or above the maximum, after mirroring when `reverse`; strictly between them it is the integer part of the linear interpolation `(v - min) / (max - min) * 100` |
| Utils.CalculateScoreMonotone | utils.py:47-57 | Without `reverse`, a larger value never scores lower |
| Utils.CalculateScoreReverseAntitone | utils.py:47-57 | With `reverse`, a larger value never scores higher |
| Technical.HttpStatusRule | analyzers/technical.py:17-30 | Passes and scores 100 exactly for status 200; any other status gives one critical impact-10 issue titled with the status and without a fix |
| Technical.SslRule | analyzers/technical.py:41-56 | Passes and scores 100 exactly when the audited URL starts with `https://`; otherwise one critical impact-10 issue with a fix |
| Technical.TtfbRule | analyzers/technical.py:58-73 | Under 600 ms scores 100 and passes; 600 to 1200 ms scores 50; from 1200 ms scores 0. An important impact-7 issue is raised only strictly above 1200 ms |
| Technical.TtfbGapAt1200 | analyzers/technical.py:63-66 | A response of exactly 1.2 s scores 0 yet raises no issue |
| Technical.MissingHeaders | analyzers/technical.py:84-87 | The missing headers are exactly the four security headers absent from the response headers (compared as spelled) |
| Technical.MissingAmongOrdered | analyzers/technical.py:84-87 | Missing headers keep the order of the security-header table |
| Technical.CollectMissingHeaders | analyzers/technical.py:84-87 | The loop collects `MissingHeaders` |
| Technical.SecurityHeadersRule | analyzers/technical.py:89-102 | Scores 25 per header present, passes only with all four; any missing header gives one recommendation of impact 4 naming them, joined by `, ` |
| Technical.TechnicalRules | analyzers/technical.py:16-102 | A fetched page is judged by four rules, each with a percentage score and issues of impact 1-10 |
| Technical.TechnicalResultWellScored | analyzers/technical.py:104-106 | The score is the mean of the check scores, each a percentage, and every issue has impact 1-10; a fetched page records http_status, ssl, ttfb, security_headers in that order |
| Technical.UnreachableScoresZero | analyzers/technical.py:31-39 | An unfetched page records only http_status, scores 0 and yields exactly one critical impact-10 issue |
| Technical.AnalyzeTechnical | analyzers/technical.py:8-108 | Recording each check and appending its issues in turn yields `TechnicalResult` |
| OnPage.OgTags.Present | analyzers/onpage.py:180 | The number of OG tags present is at most 4 |
| OnPage.TitleLengthRule | analyzers/onpage.py:26-55 | 50-60 characters scores 100 and passes. 30-49 or 61-70 scores 70 with an important impact-7 issue whose fix says to shorten above the range and lengthen below it. Anything else scores 30 with a critical impact-9 issue |
| OnPage.TitleRule | analyzers/onpage.py:19-64 | A title is judged on its stripped length; a missing title scores 0 and gives a critical impact-10 issue |
| OnPage.TitleScoreTowardsOptimal | analyzers/onpage.py:26-48 | Moving a title length towards the optimal range never lowers its score |
| OnPage.MetaDescriptionRule | analyzers/onpage.py:66-97 | Missing or empty content scores 0 with an important impact-7 issue. Otherwise the description passes and scores 100 exactly when its stripped length is 150-160, and scores 50 with an important impact-6 issue when outside |
| OnPage.BlankMetaDescriptionIsPresent | analyzers/onpage.py:68-73 | A description of only spaces counts as present: it scores 50, not 0 |
| OnPage.H1Rule | analyzers/onpage.py:99-134 | Exactly one H1 passes with 100; none scores 0 with a critical impact-9 issue; several score 50 with an important impact-6 issue naming the count |
| OnPage.HeadingStructureRule | analyzers/onpage.py:136-149 | Passes with 100 when there is an H2, else scores 70; never raises an issue |
| OnPage.AltCount | analyzers/onpage.py:153 | Counts the images with a non-empty alt; all are counted exactly when every image has one |
| OnPage.AltPercentage | analyzers/onpage.py:154 | The alt percentage is a percentage, 100 for a page without images |
| OnPage.ImagesAltRule | analyzers/onpage.py:151-170 | Scores the truncated alt percentage and passes at 90 or more. Below 90 with images, one issue names the images without alt: important impact 8 under 50 %, otherwise a recommendation of impact 5 |
| OnPage.AllAltsScoreFull | analyzers/onpage.py:151-170 | When every image has alt text, the check scores 100 without an issue |
| OnPage.OpenGraphRule | analyzers/onpage.py:172-194 | Scores 25 per OG tag and passes with 3 or more; fewer than 3 gives a recommendation of impact 4 naming how many are missing |
| OnPage.InternalLinks | analyzers/onpage.py:200 | The internal links are exactly the hrefs that `is_internal_link` accepts |
| OnPage.ExternalLinks | analyzers/onpage.py:201 | The external links are exactly the hrefs it rejects |
| OnPage.LinksPartition | analyzers/onpage.py:200-201 | Internal and external links together are the page's links, each counted once |
| OnPage.LinksRule | analyzers/onpage.py:203-216 | Passes with 5-100 internal links and scores 100 only for 10-50 (else 70); fewer than 5 gives a recommendation of impact 5 |
| OnPage.ManyLinksPassBelowFull | analyzers/onpage.py:205-206 | 80 internal links pass yet score 70 |
| OnPage.OnPageRules | analyzers/onpage.py:19-216 | Seven rules, each with a percentage score and issues of impact 1-10 |
| OnPage.OnPageResultWellScored | analyzers/onpage.py:218-220 | Checks title, meta_description, h1, heading_structure, images_alt, open_graph, links in order; the score is their mean; issue impacts lie in 1-10 |
| OnPage.AnalyzeOnPage | analyzers/onpage.py:10-222 | Recording each check and appending its issues in turn yields `OnPageResult` |
| Indexing.RobotsRule | analyzers/indexing.py:18-67 | A 200 robots.txt passes unless it blocks everything, and scores 100 exactly when it also declares a sitemap, else 70. Blocking gives a critical impact-10 issue, and a missing sitemap line a recommendation of impact 3, in that order. Another status passes with 80 and one recommendation of impact 2. A request that raised fails with 50 and no issue |
| Indexing.DisallowAnyPathCountsAsBlockingAll | analyzers/indexing.py:26 | "Disallow: /" followed by any path, such as "/admin", still counts as blocking the whole site |
| Indexing.SitemapRule | analyzers/indexing.py:69-121 | A 200 sitemap that parses passes with 100 and warns (important, impact 6, naming the count) only above 50,000 URLs. One that does not parse scores 50 with an important impact-7 issue. Another status scores 0 with a critical impact-8 issue. A request that raised scores 0 with no issue |
| Indexing.CanonicalRule | analyzers/indexing.py:123-145 | Passes with 100 exactly when the canonical href is present and non-empty, else scores 60 with a recommendation of impact 5 |
| Indexing.MetaRobotsRule | analyzers/indexing.py:147-172 | Fails with 0 and a critical impact-10 issue exactly when the lowercased robots meta content contains "noindex"; otherwise, also without the tag, passes with 100 |
| Indexing.UpperCaseNoindexBlocks | analyzers/indexing.py:150-151 | "NOINDEX" is lowercased before the test, so it blocks |
| Indexing.SchemaRule | analyzers/indexing.py:174-191 | Passes with 100 exactly when there is a JSON-LD script, else scores 40 with a recommendation of impact 6 |
| Indexing.IndexingRules | analyzers/indexing.py:18-191 | Five rules, each with a percentage score and issues of impact 1-10 |
| Indexing.IndexingResultWellScored | analyzers/indexing.py:193-195 | Checks robots_txt, sitemap, canonical, meta_robots, schema_markup in order; the score is their mean; issue impacts lie in 1-10 |
| Indexing.AnalyzeIndexing | analyzers/indexing.py:7-197 | Recording each check and appending its issues in turn yields `IndexingResult` |
| Content.WordCountRule | analyzers/content.py:25-55 | Passes at 300 words or more and scores 100/90/60/20 by the bands 1500/600/300. Under 600 words there is one issue: important with impact 8 under 300 ("Zbyt"), else a recommendation of impact 5 ("Mało"), naming the count |
| Content.WordCountMonotone | analyzers/content.py:29-40 | More words never lower the word-count score |
| Content.TextShare | analyzers/content.py:57-60 | The ratio is the text length as a percentage of the HTML length, 0 for an empty document |
| Content.RatioRule | analyzers/content.py:62-75 | Passes with 100 from 15 %. Below that it scores the truncated `ratio / 15 * 100`, always under 100, with a recommendation of impact 4 showing the ratio to one decimal |
| Content.ReadabilityRule | analyzers/content.py:77-111 | With 50 words or fewer it fails with 0. If the readability library raised, it passes with 70. Otherwise it passes from reading ease 50 and scores 100/80/60 by the bands 60/50; a recommendation of impact 3 appears exactly below 50 |
| Content.CapitalisedStopWordIsNoCandidate | analyzers/content.py:117 | Stop words are matched after lowercasing, so "Oraz" is not a keyword candidate |
| Content.Candidates | analyzers/content.py:117 | Every candidate is longer than 3 characters and is no stop word; there are none exactly when no word qualifies; a single word gives its lowercase form exactly when it qualifies |
| Content.CandidatesConcat | analyzers/content.py:117 | The candidates of two word lists in a row are those of the first followed by those of the second, so the result is the lowercased qualifying words in text order, repeats included |
| Content.MostCommonIndex | analyzers/content.py:120-121 | Picks a word of maximal count among the first n, and the first such |
| Content.TopKeyword | analyzers/content.py:120-122 | `most_common(5)[0]`: a word of maximal count, and the first of those in order of appearance |
| Content.DensityRule | analyzers/content.py:126-140 | Passes with 100 exactly for density 1-3 %. Otherwise it scores 50 below 5 % and 0 from 5 %. An important impact-7 stuffing issue naming the word appears exactly above 5 % |
| Content.DensityGapAtFive | analyzers/content.py:129-133 | At exactly 5 % the check scores 0 yet raises no issue |
| Content.KeywordDensityOfTopCandidate | analyzers/content.py:113-142 | Without candidates the check passes with 70. Otherwise it is the density rule on the top candidate's share of all words |
| Content.LongParagraphs | analyzers/content.py:146 | Counts the paragraphs over 150 words; none exactly when every paragraph has at most 150 |
| Content.ParagraphsRule | analyzers/content.py:144-161 | Passes exactly when fewer than 30 % of the paragraphs are long. Scores 100 without long paragraphs, else 70 with a recommendation of impact 3 naming their number |
| Content.NoParagraphsFailsAtFullScore | analyzers/content.py:150-151 | A page without paragraphs fails the check while scoring 100 |
| Content.ContentRules | analyzers/content.py:25-161 | Five rules in the order word_count, text_html_ratio, readability, keyword_density, paragraphs, each well scored |
| Content.ContentResultWellScored | analyzers/content.py:163-165 | The result lists the five checks in order; the score is their mean, a percentage; issue impacts lie in 1-10 |
| Content.AnalyzeContent | analyzers/content.py:7-167 | Recording each check and appending its issues in turn yields `ContentResult` |
| Results.AssembleInTurn | analyzers/content.py:42-165 | Recording each rule's check under its key and appending its issues in turn, then averaging the scores, yields `Assemble` of the rules |
| Results.SumBounds | analyzers/onpage.py:218-220 | A sum of percentages lies between 0 and 100 times their number |
| Results.Mean | analyzers/onpage.py:218-220 | The category score is the mean of the check scores: it times the count is the sum, and it is a percentage when they all are |
| Results.AssembleWellScored | analyzers/indexing.py:193-195 | A category result built from well-formed rules keeps their check names in order, has a percentage score and issue impacts in 1-10 |
| Results.PercentOf | analyzers/onpage.py:154 | `part / whole * 100` is a percentage, and it is 100 exactly when part equals whole |
| PageSpeed.Truncate | analyzers/pagespeed.py:114 | Python `int()` of a float rounds toward zero |
| PageSpeed.PerformanceScore | analyzers/pagespeed.py:114 | The performance score is `int(score * 100)`: an int or bool is multiplied exactly and a float truncated toward zero. A string succeeds exactly when `int()` reads its hundred copies (never for the empty string); a list, dict or None raises |
| PageSpeed.DigitStringScore | analyzers/pagespeed.py:114 | A score given as a non-empty string of digits scores the number its hundred copies spell |
| PageSpeed.OtherStringRaises | analyzers/pagespeed.py:114 | A score string holding a character other than whitespace, a sign, a digit or an underscore raises |
| Json.IntOfTextRoundTrip | analyzers/pagespeed.py:114 | `int()` reads back what `str()` writes for every integer |
| Json.IntOfTextChars | analyzers/pagespeed.py:114 | Text that `int()` accepts holds only whitespace, signs, digits and underscores |
| PageSpeed.ReadVital | analyzers/pagespeed.py:117-135 | A vital missing from the audits reads as value 0 and display "N/A"; otherwise its value is the audit's `numericValue` (default 0) and its display the audit's `displayValue` (default "N/A"); audits that are not a dictionary raise |
| PageSpeed.OpportunityOf | analyzers/pagespeed.py:137-144 | An audit is an opportunity only when it is a dictionary; its savings are its `numericValue` (default 0) |
| PageSpeed.Opportunities | analyzers/pagespeed.py:137-145 | Selecting opportunities never yields more than there are audits, and succeeds only when every audit is a dictionary |
| PageSpeed.ParsePsiData | analyzers/pagespeed.py:108-146 | At most five opportunities are kept; a reply that is not a dictionary raises |
| PageSpeed.ParsedFromReply | analyzers/pagespeed.py:108-146 | A parsed reply reports what it holds: the performance score is `PerformanceScore` of `lighthouseResult.categories.performance.score` (0 when absent), each vital is `ReadVital` of its audit, and the opportunities are the first five of the filtered audits |
| PageSpeed.EmptyReplyDefaults | analyzers/pagespeed.py:108-146 | An empty reply parses to score 0, every vital 0 shown as "N/A", and no opportunities |
| PageSpeed.Exceeds | analyzers/pagespeed.py:32-52 | Comparing a numeric vital with a threshold gives the comparison; a non-numeric value raises |
| PageSpeed.LcpIssue | analyzers/pagespeed.py:33-39 | Above 4000 ms the LCP issue is critical with impact 9, else important with impact 7; its title shows the seconds to one decimal |
| PageSpeed.ClsIssue | analyzers/pagespeed.py:43-49 | Above 0.25 the CLS issue is important with impact 7, else a recommendation of impact 5; its title shows the shift to three decimals |
| PageSpeed.FidIssue | analyzers/pagespeed.py:53-59 | The FID issue is important with impact 6 and names the value in ms |
| PageSpeed.FailureIssue | analyzers/pagespeed.py:68-74 | The failure issue is important with impact 5, and its description shows at most the first 100 characters of the error, all of a short one |
| PageSpeed.VitalIssues | analyzers/pagespeed.py:31-59 | At most three vital issues with impacts in 1-10. Checking fails exactly when a vital is not numeric; a non-numeric LCP raises before any issue. Without failure there is one issue per vital over its threshold |
| PageSpeed.DefaultVitalsRaiseNoIssue | analyzers/pagespeed.py:125-133 | Vitals missing from the reply default to 0 and raise no issue |
| PageSpeed.FailureScoresZero | analyzers/pagespeed.py:61-80 | A fetch or parse failure scores 0, records a failing `mobile_performance` check and exactly one important impact-5 issue, with no mobile data |
| PageSpeed.SuccessScoresPerformance | analyzers/pagespeed.py:19-80 | After a successful parse the score is the performance score and the check passes from 50; there is one issue per exceeded vital |
| PageSpeed.PagespeedShape | analyzers/pagespeed.py:8-82 | Whatever happens there is a single `mobile_performance` check, at most four issues with impacts in 1-10, and the score is the mobile performance score or 0 |
| PageSpeed.CheckVitals | analyzers/pagespeed.py:28-59 | Testing LCP, CLS and FID in turn yields `VitalIssues` |
| PageSpeed.AnalyzePagespeed | analyzers/pagespeed.py:8-82 | Building the result step by step yields `PagespeedResultOf` |
| AiEngine.ResponseOf | ai_engine.py:75-85 | A client call that raised becomes the JSON text `{"error": message}`, and an answer is returned as its text |
| AiEngine.AIAnalyzer.constructor | ai_engine.py:8-39 | Stores the key and model and the URL-context tool list; the client is ready exactly when creating it succeeded |
| AiEngine.AIAnalyzer.UrlResponse | ai_engine.py:57-85 | Without a client or with the placeholder key the reply is the "AI not available" error JSON, otherwise the client's response |
| AiEngine.AIAnalyzer.AnalyzeUrl | ai_engine.py:45-85 | Sends a request exactly when the analyzer is available: the prompt, a blank line and "URL to analyze: " with the URL. Tools are sent exactly when URL context is wanted and the tool list is non-empty, and the JSON MIME type exactly when tools are not |
| AiEngine.AIAnalyzer.AnalyzeText | ai_engine.py:87-118 | Sends a request exactly when the analyzer is available, with at most the first 10,000 characters of the text after the prompt, no tools, and the JSON or plain-text MIME type as asked |
| AiEngine.AIAnalyzer.AnalyzeWithRetry | ai_engine.py:143-174 | Makes at most `max_retries + 1` attempts. Every attempt but the last was rejected (its parse holds "error"), and the result is the last attempt's parse. It stops early only on an accepted reply. With a negative count nothing is called and the result is "Max retries exceeded". An unavailable analyzer is asked every time and ends with the unavailability error |
| AiEngine.UnavailableAttemptIsRejected | ai_engine.py:57-58 | The unavailability reply parses to an error object, so it is retried |
| AiEngine.CleanFences | ai_engine.py:131-135 | A reply that does not start with a code fence is left as it is |
| AiEngine.FencesRemoved | ai_engine.py:132-135 | After cleaning a fenced reply no fence remains and no surrounding whitespace is left |
| AiEngine.ParseJsonResponse | ai_engine.py:120-141 | The error JSON parses to its error object. A cleaned reply that decodes gives its value, and one that does not gives `{"error": "Invalid JSON response", "raw": cleaned}`. Only a missing reply raises |
| AiEngine.InvalidReplyIsRejected | ai_engine.py:138-141 | An undecodable reply is rejected with the invalid-JSON object |
| AiEngine.CreateAiAnalyzer | ai_engine.py:177-196 | Returns a fresh available analyzer with the given key and model exactly when the client was created and the key is not the placeholder, else null |
| AiIssues.ConvertEach | analyzers/ai_content.py:245-260 | Converts reply items in order until one raises: the issues are the converted prefix, and the error names the item that raised. There is no error exactly when every item converted |
| AiIssues.ConvertEachSnoc | analyzers/ai_content.py:245-260 | One more item either adds its issue or records its exception |
| AiIssues.ConvertEachStops | analyzers/ai_content.py:274-275 | After an exception no later item is looked at |
| AiIssues.AppendConverted | analyzers/ai_content.py:245-260 | Appending converted items one by one yields the earlier issues followed by `ConvertEach` |
| AiIssues.ConvertEachInRange | analyzers/ai_content.py:252-257 | A converter whose impacts lie in 1-10 yields issues whose impacts lie in 1-10 |
| AiContent.IndicatorCount | analyzers/ai_content.py:33-34 | Counts indicator words found in the sample, at most their number |
| AiContent.DetectedCodeIsShort | analyzers/ai_content.py:10-41 | A detected language code has at most two characters and no upper-case letter |
| AiContent.LanguageSourcesInOrder | analyzers/ai_content.py:17-38 | A non-empty `<html lang>` decides, else a non-empty meta language, each cut to two lowercased characters. Otherwise the first 500 characters decide "pl" exactly when they hold more Polish than English indicator words, else "en" |
| AiContent.IndicatorCountsBounded | analyzers/ai_content.py:29-34 | Each indicator count is at most seven |
| AiContent.CriticalSeverity | analyzers/ai_content.py:246-252 | The severity table gives one of its levels, and raises exactly for an unhashable list or dict level |
| AiContent.CriticalSeverityTable | analyzers/ai_content.py:246-252 | critical → (critical, 10), high → (critical, 9), medium → (important, 6), low → (recommendation, 3), anything else → (important, 6) |
| AiContent.ConvertCritical | analyzers/ai_content.py:252-260 | A critical issue converts exactly when it is a dictionary whose `severity` (default "medium") is not a list or a dictionary. Its severity and impact are then the table entry for that `severity` |
| AiContent.ConvertWin | analyzers/ai_content.py:263-270 | A quick win converts exactly when it is a dictionary, as a recommendation of impact 8 |
| AiContent.FromReply | analyzers/ai_content.py:224-278 | The reply yields at most eight issues with impacts in 1-10, under the detected language |
| AiContent.Shape | analyzers/ai_content.py:229-275 | Issue building keeps the score read from the reply and the language |
| AiContent.ShapeBounds | analyzers/ai_content.py:245-270 | At most five critical issues and three quick wins give at most eight issues in range |
| AiContent.CriticalImpactsInRange | analyzers/ai_content.py:246-252 | Every converted critical issue has an impact in 1-10 |
| AiContent.WinImpactsInRange | analyzers/ai_content.py:267 | Every converted quick win has an impact in 1-10 |
| AiContent.ErrorReplyRaisesNothing | analyzers/ai_content.py:224-227 | A reply with an "error" entry keeps score 0 and raises no issue |
| AiContent.CriticalFromTable | analyzers/ai_content.py:246-257 | Every converted critical issue takes its levels from the table: the entry for the issue's own `severity`, default "medium" |
| AiContent.WinsAtQuickWinLevel | analyzers/ai_content.py:265-267 | Every converted quick win is a recommendation of impact 8 |
| AiContent.IssuesThenQuickWins | analyzers/ai_content.py:245-270 | The issues are at most five critical issues at table levels, followed by at most three quick wins at recommendation level 8 |
| AiContent.ReplyIssuesInOrder | analyzers/ai_content.py:224-278 | The same order and levels hold for the issues of any reply |
| AiContent.ShapeReply | analyzers/ai_content.py:220-278 | Running the early return and the two append loops yields `FromReply` |
| AiContent.AppendIssues | analyzers/ai_content.py:245-275 | Running the two append loops yields `Shape` |
| AiContent.AnalyzeInLanguage | analyzers/ai_content.py:73-278 | An unusable analyzer gives the "ai_unavailable" insight. A usable one makes 1 to 3 calls. Every call before the last was rejected, and the last was accepted unless it was the third. The result is `FromReply` of the last attempt's value, under the given language, with at most eight issues in range |
| AiContent.AnalyzeAiContent | analyzers/ai_content.py:43-278 | With AI switched off: score 0, the "ai_disabled" insight, language "unknown" and no issues. Otherwise the detected language and the analysis in it |
| AiContentOld.ConvertRecommendation | analyzers/ai_content_old.py:108-122 | A recommendation converts exactly when it is a dictionary whose `priority` (default "medium") is not a list or a dictionary. Its severity and impact are then the priority-table entry for that `priority`, (important, 6) for an unknown one |
| AiContentOld.PriorityTableLevels | analyzers/ai_content_old.py:109-114 | high → (critical, 9), medium → (important, 6), low → (recommendation, 3), anything else → (important, 6) |
| AiContentOld.Below | analyzers/ai_content_old.py:126 | Comparing a JSON value with an integer bound succeeds exactly for numbers and then is `<` |
| AiContentOld.IntentIssue | analyzers/ai_content_old.py:124-133 | A search-intent issue is important with impact 8 |
| AiContentOld.IntentIssueExactly | analyzers/ai_content_old.py:125-133 | With a numeric intent score (100 when absent), the issue appears exactly below 70 |
| AiContentOld.SumScores | analyzers/ai_content_old.py:137-142 | Python `sum` succeeds exactly when every value is a number |
| AiContentOld.SumOfFour | analyzers/ai_content_old.py:137-142 | Four numbers sum to their total |
| AiContentOld.EeatIssue | analyzers/ai_content_old.py:135-151 | An E-E-A-T issue is important with impact 7 (what it says is stated by `LowEeatIssue` and `EeatIssueExactly`) |
| AiContentOld.LowEeatIssue | analyzers/ai_content_old.py:144-151 | Below a mean of 60 the issue is important, impact 7, with the mean in its title. With no findings, or a list whose first three are strings, it succeeds and its description cites at most those first three joined with ", " (none without findings); a list with a non-string among its first three, a dict or a scalar raises; a string of findings succeeds |
| AiContentOld.EeatIssueExactly | analyzers/ai_content_old.py:136-151 | With four numeric scores (0 when absent): no issue when their mean is at least 60; below 60 the result is exactly `LowEeatIssue` for that mean, so there is an issue whenever joining the findings does not raise |
| AiContentOld.StuffingIssue | analyzers/ai_content_old.py:153-162 | A stuffing issue is critical with impact 9. For a dictionary of keyword usage, the issue appears exactly when the stuffing flag is truthy |
| AiContentOld.RunChecks | analyzers/ai_content_old.py:124-165 | Running the checks gives at most one issue per check |
| AiContentOld.RunThreeChecks | analyzers/ai_content_old.py:124-165 | The three checks run in order: the issues found before the first exception, and that exception |
| AiContentOld.RunChecksInRange | analyzers/ai_content_old.py:124-162 | Checks whose issues have impacts in 1-10 give issues in range |
| AiContentOld.ChecksOfReplyInRange | analyzers/ai_content_old.py:124-162 | The intent, E-E-A-T and stuffing checks have impacts in 1-10 |
| AiContentOld.RecommendationImpactsInRange | analyzers/ai_content_old.py:109-119 | Every converted recommendation has an impact in 1-10 |
| AiContentOld.Shape | analyzers/ai_content_old.py:98-165 | Issue building keeps the score read from the reply |
| AiContentOld.OldShapeBounds | analyzers/ai_content_old.py:107-162 | At most five recommendations and three checks give at most eight issues in range |
| AiContentOld.FromAnalysis | analyzers/ai_content_old.py:93-165 | The parsed reply yields at most eight issues with impacts in 1-10 |
| AiContentOld.ErrorAnalysisRaisesNothing | analyzers/ai_content_old.py:94-96 | A reply with an "error" entry keeps score 0 and raises no issue |
| AiContentOld.ShapeAnalysis | analyzers/ai_content_old.py:98-165 | Running the recommendations loop and the three checks yields `Shape` |
| AiContentOld.AppendChecks | analyzers/ai_content_old.py:124-165 | Running the three checks, each appending its issue, yields the issues that `RunChecks` finds |
| AiContentOld.FromParsed | analyzers/ai_content_old.py:90-165 | Whatever the parse gives, at most eight issues in range |
| AiContentOld.AnalyzeOldContent | analyzers/ai_content_old.py:8-168 | With AI off: the "ai_disabled" insight. With an unusable analyzer: the "ai_unavailable" insight. Otherwise one call with URL context, parsed, then analysed; at most eight issues in range |
| AiContentOld.AnalyzeParsed | analyzers/ai_content_old.py:93-165 | Running the analysis block on a parsed reply yields `FromAnalysis` |
| AiActionPlan.ScoresOf | analyzers/ai_action_plan.py:50-53 | Each category maps to its `score` (default 0), in order; this succeeds exactly when every category is a dictionary |
| AiActionPlan.CategoryScores | analyzers/ai_action_plan.py:50-53 | Category scores are read only from a dictionary of categories |
| AiActionPlan.CategoryScoreOf | analyzers/ai_action_plan.py:50-53 | The summary's score for a category is that category's `score`, 0 when absent |
| AiActionPlan.CountCritical | analyzers/ai_action_plan.py:55-58 | The count is the number of positions holding an issue whose severity is "critical"; so it is at most their number, 0 exactly when none is critical and all of them exactly when all are. Every issue must be a dictionary |
| AiActionPlan.Summary | analyzers/ai_action_plan.py:45-60 | The summary carries the URL, `final_score` (0 when absent), the grade's `label` ("UNKNOWN" when the grade or its label is absent; a grade that is no dictionary raises) and the category scores. With a list of issues it counts them, counts exactly the critical ones and keeps the first ten; without `all_issues` there are none. It succeeds whenever the audit, its grade and categories are dictionaries and the issues a list of dictionaries |
| AiActionPlan.PlanLanguage | analyzers/ai_action_plan.py:62-65 | Without `categories`, or with a categories dictionary lacking `ai_content`, the language is "en". With a dictionary `ai_content` it is that dictionary's `language`, default "en". It raises when `ai_content` is present but not a dictionary, and when `categories` cannot be searched with `in` |
| AiActionPlan.InstructionAfterSummary | analyzers/ai_action_plan.py:62-76 | The instruction is the table entry for the detected language, the English one for an unknown language or a non-string, and raises for an unhashable list or dict |
| AiActionPlan.FillPlan | analyzers/ai_action_plan.py:197-231 | Filling the results step by step yields `PlanFrom` |
| AiActionPlan.EmptyPlanUnfinished | analyzers/ai_action_plan.py:21-26 | The initial plan has no error, no success flag and no quick wins |
| AiActionPlan.PutErrorFails | analyzers/ai_action_plan.py:203-205 | Recording an error marks the plan failed, never successful |
| AiActionPlan.ConcludedSucceeds | analyzers/ai_action_plan.py:219-227 | Without an error the plan ends successful, with the quick wins and the message naming their number |
| AiActionPlan.PlanSucceedsUnlessError | analyzers/ai_action_plan.py:197-233 | Every plan ends either failed with an error or successful, never both, with at most five quick wins |
| AiActionPlan.FromAnalysisFacts | analyzers/ai_action_plan.py:203-231 | The analysis of any reply settles the plan |
| AiActionPlan.AfterRoadmapFacts | analyzers/ai_action_plan.py:219-231 | The steps after the roadmap settle the plan |
| AiActionPlan.SuccessfulPlan | analyzers/ai_action_plan.py:207-227 | A reply without an error gives a successful plan with its first five quick wins, its three roadmap periods and the message naming the quick-win count |
| AiActionPlan.RoadmapSurvives | analyzers/ai_action_plan.py:219-227 | The steps after the roadmap leave the roadmap as it was |
| AiActionPlan.ErrorReplyPassedOn | analyzers/ai_action_plan.py:203-205 | A reply with an error passes that error on, with no success flag and the initial empty quick wins and roadmap |
| AiActionPlan.PlanKeepsItsEntries | analyzers/ai_action_plan.py:21-26 | The plan always keeps its action_plan, roadmap, quick_wins and estimated_impact entries |
| AiActionPlan.GenerateActionPlan | analyzers/ai_action_plan.py:9-233 | With AI off, or an unusable analyzer, the plan is the initial one with the matching error and no request is sent. Otherwise the request carries the encoded summary and the language instruction, and the plan is what the reply makes of it |
| AiActionPlan.LinesOfBlock | analyzers/ai_action_plan.py:264-267 | Each numbered entry takes its own fixed-width block of lines, in order |
| AiActionPlan.StrategyLines | analyzers/ai_action_plan.py:252-258 | The strategy section is empty exactly when the strategy is falsy, else four lines |
| AiActionPlan.WinEntry | analyzers/ai_action_plan.py:265-267 | A quick win shows as three lines, and only a dictionary can be shown |
| AiActionPlan.QuickWinLines | analyzers/ai_action_plan.py:260-267 | The quick-win section is empty exactly when there are no quick wins |
| AiActionPlan.WinsNumbered | analyzers/ai_action_plan.py:264-265 | The k-th quick win's first line is numbered k + 1 and shows its title, "N/A" when absent |
| AiActionPlan.TaskEntry | analyzers/ai_action_plan.py:276-277 | A task shows as two lines, and only a dictionary can be shown |
| AiActionPlan.PeriodLines | analyzers/ai_action_plan.py:272-277 | A period's section is empty exactly when its task list is falsy |
| AiActionPlan.PeriodShowsAtMostThree | analyzers/ai_action_plan.py:275 | A period shows at most three tasks: seven lines |
| AiActionPlan.RoadmapAtMostSevenEach | analyzers/ai_action_plan.py:270-277 | The roadmap has at most seven lines per period |
| AiActionPlan.ImpactLines | analyzers/ai_action_plan.py:279-286 | The progression section is empty exactly when the estimate is falsy, else five lines |
| AiActionPlan.BodyLines | analyzers/ai_action_plan.py:245-288 | The display opens with the three header lines and closes with the ruler |
| AiActionPlan.ErrorPlanShown | analyzers/ai_action_plan.py:242-243 | A plan with an error shows only the error line |
| AiActionPlan.FormatActionPlanForDisplay | analyzers/ai_action_plan.py:236-290 | Building the display step by step yields `FormatPlan` |
| AiActionPlan.DisplayBody | analyzers/ai_action_plan.py:245-288 | Appending the sections in turn yields `BodyLines` |
| AiActionPlan.AppendWins | analyzers/ai_action_plan.py:260-267 | Appending the quick wins yields the output followed by `QuickWinLines` |
| AiActionPlan.AppendRoadmap | analyzers/ai_action_plan.py:269-277 | Appending the three periods yields the output followed by `RoadmapLines` |
| AiActionPlan.AppendPeriod | analyzers/ai_action_plan.py:272-277 | Appending one period yields the output followed by `PeriodLines` |
| AiSiteStructure.LinkLines | analyzers/ai_site_structure.py:47-49 | At most the first 50 links are listed, each as "- " and the link, in order |
| AiSiteStructure.ValidatedFlag | analyzers/ai_site_structure.py:140-160 | A validated reply is reported as a success exactly when it has both required fields and a truthy page selection, and then it is the selection built from the reply |
| AiSiteStructure.SuccessExactlyWhenAccepted | analyzers/ai_site_structure.py:127-172 | The result is a success exactly when the reply decodes to an accepted object. It then holds site_type, site_type_confidence (default 0), site_characteristics (default {}) and selected_pages, in that order |
| AiSiteStructure.RejectedReplyKeptWhole | analyzers/ai_site_structure.py:162-167 | A reply that does not decode fails with the decoder's message and keeps the raw reply |
| AiSiteStructure.RejectionReasons | analyzers/ai_site_structure.py:141-152 | A missing site_type or selected_pages fails with "missing required fields"; an empty selection fails with "did not select any pages" |
| AiSiteStructure.ExceptionsCaught | analyzers/ai_site_structure.py:141-172 | A decoded value that is not a container, or a truthy number as the selection, raises Python's own error, which becomes "AI analysis failed" |
| AiMultiPage.PageBlock | analyzers/ai_multi_page.py:59-64 | A page block can be built exactly when the page is a dictionary with a url |
| AiMultiPage.BlocksNumbered | analyzers/ai_multi_page.py:56-66 | The page blocks are built exactly when every page has a url: one block per page, the k-th headed "PAGE k:" and its url |
| AiMultiPage.BuildPagesContext | analyzers/ai_multi_page.py:57-64 | Appending one block per page yields `PageBlocks` |
| AiMultiPage.Urls | analyzers/ai_multi_page.py:219 | The extra URLs are the pages' url entries, in order |
| AiMultiPage.ExtraUrlsInOrder | analyzers/ai_multi_page.py:219-225 | The joined extra URLs are the pages' urls in order; joining raises exactly when some url is not a string |
| AiMultiPage.UnfencedIsStripped | analyzers/ai_multi_page.py:230-240 | After the fences are removed no surrounding whitespace is left |
| AiMultiPage.BraceSpan | analyzers/ai_multi_page.py:242-247 | A text not starting with "{" is cut to the span from its first "{" to its last "}" when that span exists; otherwise it is left as it is |
| AiMultiPage.BraceSpanIdempotent | analyzers/ai_multi_page.py:242-247 | Cutting to the braces twice is the same as once |
| AiMultiPage.CleanResponse | analyzers/ai_multi_page.py:230-247 | Cleaning step by step yields `Cleaned` |
| AiMultiPage.RemoveFences | analyzers/ai_multi_page.py:230-240 | Stripping and removing the fences step by step yields `Unfenced` |
| AiMultiPage.CutToBraces | analyzers/ai_multi_page.py:242-247 | Searching for the braces yields `BraceSpan` |
| AiMultiPage.FirstMissingFrom | analyzers/ai_multi_page.py:253-259 | Gives the first required field missing from the reply, or none when all are present. The `in` test raises exactly for a value that is not a container |
| AiMultiPage.FindMissingField | analyzers/ai_multi_page.py:253-259 | The loop over the required fields yields `FirstMissingFrom` |
| AiMultiPage.MissingInOrder | analyzers/ai_multi_page.py:253-259 | The fields are looked up in the order holistic_score, template_insights, scalable_recommendations |
| AiMultiPage.MergedLookup | analyzers/ai_multi_page.py:261-264 | In `{'success': True, **result}` the reply's entries override, and other keys keep their value |
| AiMultiPage.MergedKeepsFirst | analyzers/ai_multi_page.py:261-264 | The merged dictionary keeps "success" as its first key |
| AiMultiPage.SucceededEntries | analyzers/ai_multi_page.py:261-264 | The success result starts with "success", whose value is the reply's own "success" when it has one, else True; every other key is the reply's |
| AiMultiPage.ParseFailed | analyzers/ai_multi_page.py:270-274 | A parse failure keeps at most the first 1000 characters of the raw reply |
| AiMultiPage.AnalyzeSiteHolistically | analyzers/ai_multi_page.py:7-282 | Running the analysis step by step yields `HolisticResult` |
| AiMultiPage.CheckReply | analyzers/ai_multi_page.py:252-264 | Checking the required fields and merging yields `Checked` |
| AiMultiPage.CheckedDict | analyzers/ai_multi_page.py:253-264 | A reply with the three fields succeeds with its entries; otherwise it fails naming the first missing field |
| AiMultiPage.CheckedFlag | analyzers/ai_multi_page.py:253-264 | The result starts with "success", and it is not False only when all required fields are present |
| AiMultiPage.AttemptFlag | analyzers/ai_multi_page.py:215-282 | The result is not a failure only when the cleaned reply decoded and holds all required fields |
| AiMultiPage.RejectedReplyCapped | analyzers/ai_multi_page.py:266-274 | A reply that does not decode is kept as raw_response, cut to its first 1000 characters |
| SiteCrawler.RaiseForStatus | site_crawler.py:27 | `raise_for_status` raises exactly for a status from 400 to 599 |
| SiteCrawler.FoundLinks | site_crawler.py:33-46 | Every collected link starts with "http", differs from the page URL, and is the cleaned form (scheme, host, path) of some href that resolves to the same host. Every href that qualifies is collected |
| SiteCrawler.TrailingSlashKept | site_crawler.py:44-45 | A link to the root path ("https://x.com/") differs textually from "https://x.com" and is kept |
| SiteCrawler.SomeOf | site_crawler.py:51 | Takes min(size, limit) distinct links of the set |
| SiteCrawler.CrawlHomepage | site_crawler.py:12-61 | Succeeds exactly when the fetch succeeded with a non-error status. It then returns the HTML, the status code and at most 100 distinct collected links; otherwise empty HTML, no links and the error message |
| SiteCrawler.FetchSinglePage | site_crawler.py:82-100 | A page result keeps its URL, and succeeds with the text and status exactly when the fetch did and the status is not an error; otherwise the HTML is empty and an error is recorded |
| SiteCrawler.Range | site_crawler.py:104 | The indices 0 to n - 1 in order |
| SiteCrawler.PermutationInRange | site_crawler.py:106 | A completion order holds only valid indices |
| SiteCrawler.DropLargest | site_crawler.py:106 | Removing the last index from a completion order leaves a completion order of the rest |
| SiteCrawler.PickPermutes | site_crawler.py:106-109 | Results taken in any completion order are a permutation of the results |
| SiteCrawler.FetchSelectedPages | site_crawler.py:64-119 | One result per URL, appended in completion order, each the single-page fetch of its URL |
| SiteCrawler.OneResultPerUrl | site_crawler.py:103-119 | The result URLs are the requested URLs, as a multiset, whatever the completion order |
| SiteCrawler.SitemapUrl | site_crawler.py:130-131 | The sitemap URL starts with the scheme and host of the page, ends with "/sitemap.xml" and is exactly as long as both, so it is `scheme://netloc/sitemap.xml` |
| SiteCrawler.AttemptSitemapFetch | site_crawler.py:122-144 | At most 50 URLs, and some only from a 200 reply. For a 200 reply they are the first min(50, n) `loc` texts in order |
| SiteCrawler.ExtractPageMetadata | site_crawler.py:147-190 | Unparsable HTML gives empty metadata; otherwise the title text ("" without a title), the description's content ("" without the tag), the H1 texts and the number of whitespace-separated words |
| SiteCrawler.NoWordsIffBlank | site_crawler.py:175 | The word count is 0 exactly when the text is all whitespace |
| AuditEngine.InsertPermutes | audit_engine.py:93 | Inserting one issue adds exactly that issue: the multiset of the input plus it |
| AuditEngine.SortByImpact | audit_engine.py:93 | Sorting keeps the number of issues |
| Content.KeywordDensityRule | analyzers/content.py:113-142 | The keyword-density check has a percentage score and issues in range |
| Technical.MissingAmong | analyzers/technical.py:84-87 | A header is missing exactly when it is wanted and absent, never more than wanted |
| Utils.Interpolate | utils.py:55-57 | Strictly inside the interval the score is the integer part of `(v - lo) / (hi - lo) * 100`, so it lies in [0,100) |

## Observations about the code

- `run_audit` guards only page speed, AI content and the action plan (audit_engine.py:60-67, 72-77, 105-111). An exception from the technical, on-page, indexing or content analyzer (audit_engine.py:44-56) ends the audit. See `AuditEngine.RuleExceptionsPropagate`.
- The four weights used sum to 0.85 (config.py:19-25). So the final score stays at or below 85, and the EXCELLENT grade cannot be reached. See `AuditEngine.NeverExcellent`.
- `run_audit` has no multi-page step. The crawler, page selection and holistic analysis live in their own modules (site_crawler.py, analyzers/ai_multi_page.py, analyzers/ai_site_structure.py), and the model has them there as well.
- The crawler compares the network location exactly (site_crawler.py:42), so links to "www.x.com" are not internal to "x.com". See `SiteCrawler.FoundLinks`.
- `disabled: true` is set only by `run_audit`, for the AI content category and the action plan (audit_engine.py:80, 113). The AI modules report `ai_disabled` in their insights, or an error message in the action plan. See `AiContent.AnalyzeAiContent` and `AiActionPlan.GenerateActionPlan`.

## Left out

- Network I/O is not modelled. This covers `fetch_url` (utils.py:21-37), every `requests.get`, `fetch_psi_data` (analyzers/pagespeed.py:84-106) and the model client calls. Their outcomes (a response, or the exception's message) are inputs.
- HTML and XML parsing (BeautifulSoup, lxml, ElementTree) is not modelled. Each analyzer receives the features it reads as a record, such as `OnPageDoc`, `IndexingDoc` and `ContentDoc`. Counting sitemap URLs is a function parameter.
- `validators.url`, `urlparse`, `urljoin`, `json.loads` and `json.dumps` are foreign code. They are function parameters, or a record (`Url`) for the parsed URL.
- `textstat.flesch_reading_ease` is floating-point library code. Its result, or the exception it raised, is an input of `Content.ReadabilityRule`.
- Floating point is not modelled. Scores, ratios and vitals are exact reals. Python `int()` of a non-negative float is `Floor`, and of a negative one truncation (`PageSpeed.Truncate`).
- AuditEngine.Round1: `round(x, 1)` is rounded half up on exact reals. Python rounds the binary float half to even, which can differ on a tie.
- Thread-pool concurrency in `fetch_selected_pages` (site_crawler.py:103-117) is reduced to its observable effect. The completion order is an input permutation, and the results are appended in that order.
- `future.result()` raising (site_crawler.py:110-117) is left out, because `fetch_single_page` catches every exception itself.
- SiteCrawler.CrawlHomepage: `list(internal_links)[:100]` takes set elements in an unspecified order. The model promises only that it returns min(n, 100) distinct collected links.
- `print` logging, the `datetime.now()` timestamp (audit_engine.py:38) and the traceback printing are left out. They produce no result.
- The Flask routes, CORS setup and the exception handler around `generate_csv` (app.py:7-78, 97-100) are left out, as are start.py and wsgi.py. Only `generate_csv` is modelled.
- Prompt wording has no behaviour to verify. Prompts are represented only where the code builds them from data: the URL suffix, the text cut and the link and page lists.
- `AIEngine` is not importable: analyzers/ai_multi_page.py:4 and analyzers/ai_site_structure.py:4 import a name that ai_engine.py does not define. Importing either module would fail. The model covers what the two functions do once a reply exists.
- AiEngine.AIAnalyzer.constructor: the client library's import and construction are reduced to whether creating the client succeeded (`clientCreated`).
- AiEngine.CreateAiAnalyzer: an exception from the constructor cannot happen in the model, so that branch of the factory (ai_engine.py:194-196) is left out.
- `ENABLE_AI_ANALYSIS` and `GEMINI_API_KEY` are parameters rather than constants. A constant would leave one of the two branches unreachable.
- The analyzers that `run_audit` calls are parameters of `AuditEngine.Audit`. Each returns a value or an exception, and they are modelled in their own modules.
- The `desktop` entry of the PageSpeed result is always empty (analyzers/pagespeed.py:15) and is not represented.
- The `core_web_vitals` copied into the technical category (audit_engine.py:63-64) is kept in the report, but it never feeds a score.
- Text.Lower: lowercasing covers ASCII letters only. Non-ASCII letters (Polish diacritics) are left unchanged, unlike Python's `str.lower`.
- Text.Words: `str.split()` uses Python's whitespace set. The regex whitespace normalisation of the content analyzer (analyzers/content.py:23) is assumed to be done in the extracted text.
- The decoded JSON (`Json`) keeps object entries in order. For duplicate keys, a lookup gives the last entry, as `json.loads` does, but iterating over an object visits every entry as written.
- The issue texts are kept symbolically (`Messages.Msg`), and `Messages.Render` gives their text. `f'{x:.Nf}'` rounds halves away from zero on the exact real, where Python rounds the binary float to nearest even. `str()` of a float shows one decimal place, and no exponent form is used.
- AiContentOld.EeatIssue: its own contract states only the issue's level. What it raises and says is stated for four numeric scores by `EeatIssueExactly` and `LowEeatIssue`.
- AiContentOld.LowEeatIssue: for findings that are a string, success is promised but the description (the first three characters joined with ", ") is not stated.
- PageSpeed.PerformanceScore: `int()` also reads non-ASCII decimal digits, such as Arabic-Indic or fullwidth ones. The model reads ASCII digits only, so a score string with such digits raises in the model. The error message quotes the text without Python's escaping.
- Results.Check: the `value` each rule check records (status code, protocol, times, missing headers, lengths, counts) is not carried, and neither is the content analyzer's `top_keywords` (analyzers/content.py:130). Checks keep their pass flag and score only. App.CheckRow prints a check's `value` from the decoded report it is given, but that report is not tied to the values the analyzers would record.
- AiContent.FromReply: the contract bounds the issues (at most eight, impacts in range); their order and levels are stated by `AiContent.ReplyIssuesInOrder`.
