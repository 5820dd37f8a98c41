/**
 * The multi-page crawler (site_crawler.py): the homepage's internal links, the collection
 * of the selected pages' fetches, the sitemap probe and the page metadata. Requests are
 * inputs (their outcome, or the exception they raised); URL parsing and joining are the
 * library functions given as parameters; HTML parsing is replaced by the features read.
 */
module SiteCrawler {
  import opened Outcomes
  import opened Text
  import opened Utils

  /** A response to a GET request that follows redirects: its status, reason phrase, body and final URL. */
  datatype Reply = Reply(status: int, reason: string, text: string, finalUrl: string)

  /** `urllib.parse.urljoin(base, href)`, which the model does not implement. */
  type UrlJoiner = (string, string) -> string

  /** `response.raise_for_status()`: a 4xx or 5xx status raises an `HTTPError`. */
  function RaiseForStatus(reply: Reply): (r: Outcome<()>)
    ensures r.Ok? <==> !(400 <= reply.status < 600)
  {
    if 400 <= reply.status < 500 then
      Raised(IntToString(reply.status) + " Client Error: " + reply.reason + " for url: " + reply.finalUrl)
    else if 500 <= reply.status < 600 then
      Raised(IntToString(reply.status) + " Server Error: " + reply.reason + " for url: " + reply.finalUrl)
    else Ok(())
  }

  /** A link rebuilt from its scheme, host and path, dropping any query and fragment. */
  function CleanUrl(p: Url): string {
    p.scheme + "://" + p.netloc + p.path
  }

  /**
   * The link an `href` of the homepage at `url` contributes: its absolute form on the
   * homepage's host, cleaned, unless it is textually the homepage's URL or does not start
   * with "http".
   */
  function Kept(url: string, href: string, parse: UrlParser, join: UrlJoiner): Option<string> {
    var parsed := parse(join(url, href));
    if parsed.netloc == parse(url).netloc then
      var clean := CleanUrl(parsed);
      if clean != url && StartsWith(clean, "http") then Some(clean) else None
    else None
  }

  /** The set the link loop builds from the homepage's `href`s. */
  function Found(url: string, hrefs: seq<string>, parse: UrlParser, join: UrlJoiner): set<string>
    decreases |hrefs|
  {
    if |hrefs| == 0 then {}
    else
      var n := |hrefs| - 1;
      var earlier := Found(url, hrefs[..n], parse, join);
      match Kept(url, hrefs[n], parse, join)
      case Some(link) => earlier + {link}
      case None => earlier
  }

  /**
   * A found link is the cleaned absolute form of some `href` on the homepage's host: it
   * starts with "http" and is not the homepage's URL; and every such `href` is found.
   */
  lemma {:induction false} FoundLinks(url: string, hrefs: seq<string>, parse: UrlParser, join: UrlJoiner,
                                      link: string)
    ensures link in Found(url, hrefs, parse, join) ==>
              StartsWith(link, "http") && link != url
              && exists i :: 0 <= i < |hrefs| && parse(join(url, hrefs[i])).netloc == parse(url).netloc
                                             && link == CleanUrl(parse(join(url, hrefs[i])))
    ensures forall i :: 0 <= i < |hrefs| && Kept(url, hrefs[i], parse, join) == Some(link) ==>
              link in Found(url, hrefs, parse, join)
    decreases |hrefs|
  {
    if |hrefs| > 0 {
      var n := |hrefs| - 1;
      FoundLinks(url, hrefs[..n], parse, join, link);
      assert forall i :: 0 <= i < n ==> hrefs[..n][i] == hrefs[i];
    }
  }

  /**
   * Only a cleaned link textually equal to the homepage's URL is dropped: on
   * "https://x.com", an `href` resolving to "https://x.com/" is kept.
   */
  lemma TrailingSlashKept(href: string, parse: UrlParser, join: UrlJoiner)
    requires parse("https://x.com").netloc == "x.com"
    requires parse(join("https://x.com", href)) == Url("https", "x.com", "/")
    ensures "https://x.com/" in Found("https://x.com", [href], parse, join)
  {
    assert CleanUrl(Url("https", "x.com", "/")) == "https://x.com/";
    assert [href][..0] == [];
  }

  /** Lists at most `limit` of the links, picked in no particular order, each once. */
  method SomeOf(links: set<string>, limit: nat) returns (r: seq<string>)
    ensures |r| == if |links| < limit then |links| else limit
    ensures forall i :: 0 <= i < |r| ==> r[i] in links
    ensures forall i, j :: 0 <= i < j < |r| ==> r[i] != r[j]
  {
    r := [];
    var rest := links;
    while |r| < limit && rest != {}
      invariant rest <= links && |r| + |rest| == |links| && |r| <= limit
      invariant forall i :: 0 <= i < |r| ==> r[i] in links && r[i] !in rest
      invariant forall i, j :: 0 <= i < j < |r| ==> r[i] != r[j]
      decreases |rest|
    {
      var link :| link in rest;
      r := r + [link];
      rest := rest - {link};
    }
  }

  /** The most links the crawl returns. */
  const LinkLimit: nat := 100

  /** The crawl result dict: success, html, links, and the status code or the error. */
  datatype CrawlResult = CrawlResult(success: bool, html: string, links: seq<string>,
                                     statusCode: Option<int>, error: Option<string>)

  /**
   * `crawl_homepage`: `fetched` is the outcome of the GET of `url` and `hrefs` the `href`
   * values of the page's `<a>` tags, in document order.
   */
  method CrawlHomepage(url: string, fetched: Outcome<Reply>, hrefs: seq<string>,
                       parse: UrlParser, join: UrlJoiner) returns (r: CrawlResult)
    ensures r.success <==> fetched.Ok? && RaiseForStatus(fetched.value).Ok?
    ensures !r.success ==> r.html == "" && r.links == [] && r.statusCode == None
                           && r.error == Some(if fetched.Raised? then fetched.msg
                                              else RaiseForStatus(fetched.value).msg)
    ensures r.success ==>
              var found := Found(url, hrefs, parse, join);
              r.html == fetched.value.text && r.statusCode == Some(fetched.value.status)
              && r.error == None
              && |r.links| == (if |found| < LinkLimit then |found| else LinkLimit)
              && (forall i :: 0 <= i < |r.links| ==> r.links[i] in found)
              && (forall i, j :: 0 <= i < j < |r.links| ==> r.links[i] != r.links[j])
  {
    if fetched.Raised? {
      return CrawlResult(false, "", [], None, Some(fetched.msg));
    }
    var reply := fetched.value;
    var status := RaiseForStatus(reply);
    if status.Raised? {
      return CrawlResult(false, "", [], None, Some(status.msg));
    }
    var found: set<string> := {};
    var i := 0;
    while i < |hrefs|
      invariant 0 <= i <= |hrefs|
      invariant found == Found(url, hrefs[..i], parse, join)
    {
      assert hrefs[..i + 1][..i] == hrefs[..i];
      var parsed := parse(join(url, hrefs[i]));
      if parsed.netloc == parse(url).netloc {
        var clean := CleanUrl(parsed);
        if clean != url && StartsWith(clean, "http") {
          found := found + {clean};
        }
      }
      i := i + 1;
    }
    assert hrefs[..i] == hrefs;
    var links := SomeOf(found, LinkLimit);
    r := CrawlResult(true, reply.text, links, Some(reply.status), None);
  }

  /** The dict `fetch_single_page` returns for one URL. */
  datatype PageResult = PageResult(url: string, success: bool, html: string,
                                   statusCode: Option<int>, error: Option<string>)

  /** `fetch_single_page`: the fetch of `url` ended with `fetched`; every exception is caught. */
  function FetchSinglePage(url: string, fetched: Outcome<Reply>): (r: PageResult)
    ensures r.url == url
    ensures r.success <==> fetched.Ok? && !(400 <= fetched.value.status < 600)
    ensures r.success ==> r.html == fetched.value.text && r.statusCode == Some(fetched.value.status)
    ensures !r.success ==> r.html == "" && r.error.Some?
  {
    match fetched
    case Raised(m) => PageResult(url, false, "", None, Some(m))
    case Ok(reply) =>
      match RaiseForStatus(reply)
      case Raised(m) => PageResult(url, false, "", None, Some(m))
      case Ok(_) => PageResult(url, true, reply.text, Some(reply.status), None)
  }

  /** 0, 1, ..., n - 1. */
  function Range(n: nat): (r: seq<nat>)
    ensures |r| == n && forall i :: 0 <= i < n ==> r[i] == i
  {
    seq(n, i requires 0 <= i < n => i)
  }

  /** `order` lists each of 0, ..., n - 1 exactly once. */
  predicate IsPermutation(order: seq<nat>, n: nat) {
    |order| == n && multiset(order) == multiset(Range(n))
  }

  /** The entries of a permutation are in range. */
  lemma PermutationInRange(order: seq<nat>, n: nat)
    requires IsPermutation(order, n)
    ensures forall k :: 0 <= k < |order| ==> order[k] < n
  {
    forall k | 0 <= k < |order| ensures order[k] < n {
      assert order[k] in multiset(order);
      assert order[k] in multiset(Range(n));
      var j :| 0 <= j < n && Range(n)[j] == order[k];
    }
  }

  /** The items `order` points at, in that order. */
  function Pick<T>(xs: seq<T>, order: seq<nat>): (r: seq<T>)
    requires forall k :: 0 <= k < |order| ==> order[k] < |xs|
    ensures |r| == |order| && forall k :: 0 <= k < |order| ==> r[k] == xs[order[k]]
  {
    seq(|order|, k requires 0 <= k < |order| => xs[order[k]])
  }

  /** Dropping the largest position from a permutation leaves a permutation of the others. */
  lemma DropLargest(order: seq<nat>, k: nat, n: nat)
    requires IsPermutation(order, n + 1) && k < |order| && order[k] == n
    ensures IsPermutation(order[..k] + order[k + 1..], n)
  {
    assert Range(n + 1) == Range(n) + [n];
    assert multiset(Range(n + 1)) == multiset(Range(n)) + multiset{n};
    assert order == order[..k] + [n] + order[k + 1..];
    assert multiset(order) == multiset(order[..k]) + multiset{n} + multiset(order[k + 1..]);
    var rest := order[..k] + order[k + 1..];
    assert multiset(rest) == multiset(order[..k]) + multiset(order[k + 1..]);
    assert multiset(rest) + multiset{n} == multiset(Range(n)) + multiset{n};
    assert forall x :: multiset(rest)[x] == multiset(Range(n))[x] by {
      forall x ensures multiset(rest)[x] == multiset(Range(n))[x] {
        assert (multiset(rest) + multiset{n})[x] == (multiset(Range(n)) + multiset{n})[x];
      }
    }
  }

  /** A permutation of 0, ..., n - 1 lists n - 1 somewhere. */
  lemma LastPosition(order: seq<nat>, n: nat) returns (k: nat)
    requires IsPermutation(order, n) && n > 0
    ensures k < |order| && order[k] == n - 1
  {
    assert Range(n)[n - 1] == n - 1;
    assert n - 1 in multiset(Range(n));
    assert n - 1 in multiset(order);
    k :| 0 <= k < |order| && order[k] == n - 1;
  }

  /** Picking along two orders one after the other. */
  lemma PickConcat<T>(xs: seq<T>, a: seq<nat>, b: seq<nat>)
    requires forall k :: 0 <= k < |a| ==> a[k] < |xs|
    requires forall k :: 0 <= k < |b| ==> b[k] < |xs|
    ensures Pick(xs, a + b) == Pick(xs, a) + Pick(xs, b)
  {
  }

  /** Positions before m pick the same items from the first m items. */
  lemma PickFront<T>(xs: seq<T>, a: seq<nat>, m: nat)
    requires m <= |xs| && forall j :: 0 <= j < |a| ==> a[j] < m
    ensures Pick(xs[..m], a) == Pick(xs, a)
  {
  }

  /**
   * Picking along `order`, whose entry k points at the last item while the others (`rest`)
   * point before it, gives the last item and the picks along `rest`.
   */
  lemma PickAround<T>(xs: seq<T>, order: seq<nat>, k: nat, rest: seq<nat>)
    requires |xs| > 0 && k < |order| && order[k] == |xs| - 1
    requires forall j :: 0 <= j < |order| ==> order[j] < |xs|
    requires rest == order[..k] + order[k + 1..]
    requires forall j :: 0 <= j < |rest| ==> rest[j] < |xs| - 1
    ensures multiset(Pick(xs, order)) == multiset(Pick(xs[..|xs| - 1], rest)) + multiset{xs[|xs| - 1]}
  {
    var m := |xs| - 1;
    var a := order[..k];
    var b := order[k + 1..];
    assert a == rest[..k] && b == rest[k..];
    assert order == a + ([order[k]] + b);
    PickConcat(xs, a, [order[k]] + b);
    PickConcat(xs, [order[k]], b);
    assert Pick(xs, [order[k]]) == [xs[m]];
    PickConcat(xs, a, b);
    PickFront(xs, rest, m);
  }

  /** Picking along a permutation rearranges the items: the same multiset. */
  lemma {:induction false} PickPermutes<T>(xs: seq<T>, order: seq<nat>)
    requires IsPermutation(order, |xs|)
    requires forall k :: 0 <= k < |order| ==> order[k] < |xs|
    ensures multiset(Pick(xs, order)) == multiset(xs)
    decreases |xs|
  {
    var n := |xs|;
    if n == 0 {
      assert |multiset(order)| == 0;
    } else {
      var last := n - 1;
      var k := LastPosition(order, n);
      var rest := order[..k] + order[k + 1..];
      DropLargest(order, k, last);
      PermutationInRange(rest, last);
      PickAround(xs, order, k, rest);
      PickPermutes(xs[..last], rest);
      assert xs == xs[..last] + [xs[last]];
    }
  }

  /**
   * `fetch_selected_pages`: `fetches[i]` is how the fetch of `urls[i]` ended, and the
   * fetches complete in the order `completion` (a permutation of the positions), in which
   * the results are appended.
   */
  method FetchSelectedPages(urls: seq<string>, fetches: seq<Outcome<Reply>>, completion: seq<nat>)
    returns (results: seq<PageResult>)
    requires |fetches| == |urls| && IsPermutation(completion, |urls|)
    ensures |results| == |urls|
    ensures forall i :: 0 <= i < |completion| ==> completion[i] < |urls|
    ensures forall k :: 0 <= k < |results| ==>
              results[k] == FetchSinglePage(urls[completion[k]], fetches[completion[k]])
  {
    PermutationInRange(completion, |urls|);
    results := [];
    var k := 0;
    while k < |completion|
      invariant 0 <= k <= |completion| && |results| == k
      invariant forall j :: 0 <= j < k ==>
                  results[j] == FetchSinglePage(urls[completion[j]], fetches[completion[j]])
    {
      var i := completion[k];
      results := results + [FetchSinglePage(urls[i], fetches[i])];
      k := k + 1;
    }
  }

  /** The URLs carried by the results. */
  function UrlsOf(results: seq<PageResult>): (r: seq<string>)
    ensures |r| == |results| && forall k :: 0 <= k < |results| ==> r[k] == results[k].url
  {
    seq(|results|, k requires 0 <= k < |results| => results[k].url)
  }

  /** Exactly one result per input URL: the results carry the input URLs, rearranged. */
  lemma OneResultPerUrl(urls: seq<string>, fetches: seq<Outcome<Reply>>, completion: seq<nat>,
                        results: seq<PageResult>)
    requires |fetches| == |urls| && IsPermutation(completion, |urls|)
    requires forall i :: 0 <= i < |completion| ==> completion[i] < |urls|
    requires |results| == |completion|
    requires forall k :: 0 <= k < |results| ==>
               results[k] == FetchSinglePage(urls[completion[k]], fetches[completion[k]])
    ensures multiset(UrlsOf(results)) == multiset(urls)
  {
    assert UrlsOf(results) == Pick(urls, completion);
    PickPermutes(urls, completion);
  }

  /** The sitemap the probe asks for: "/sitemap.xml" on the URL's scheme and host. */
  function SitemapUrl(url: string, parse: UrlParser): (r: string)
    ensures StartsWith(r, parse(url).scheme + "://" + parse(url).netloc)
    ensures EndsWith(r, "/sitemap.xml")
    ensures |r| == |parse(url).scheme| + 3 + |parse(url).netloc| + |"/sitemap.xml"|
  {
    var head := parse(url).scheme + "://" + parse(url).netloc;
    var r := head + "/sitemap.xml";
    assert r[..|head|] == head;
    assert r[|r| - |"/sitemap.xml"|..] == "/sitemap.xml";
    r
  }

  /** The most sitemap URLs the probe returns. */
  const SitemapLimit: nat := 50

  /**
   * `attempt_sitemap_fetch`: `get` gives the outcome of a GET of a URL and `locs` the texts
   * of a body's `<loc>` tags. Only a 200 response yields URLs; any error yields none.
   */
  function AttemptSitemapFetch(url: string, parse: UrlParser, get: string -> Outcome<Reply>,
                               locs: string -> seq<string>): (r: seq<string>)
    ensures |r| <= SitemapLimit
    ensures r != [] ==> get(SitemapUrl(url, parse)).Ok? && get(SitemapUrl(url, parse)).value.status == 200
    ensures get(SitemapUrl(url, parse)).Ok? && get(SitemapUrl(url, parse)).value.status == 200 ==>
              |r| == (if |locs(get(SitemapUrl(url, parse)).value.text)| < SitemapLimit
                      then |locs(get(SitemapUrl(url, parse)).value.text)| else SitemapLimit)
              && r == locs(get(SitemapUrl(url, parse)).value.text)[..|r|]
  {
    match get(SitemapUrl(url, parse))
    case Raised(_) => []
    case Ok(reply) => if reply.status == 200 then Take(locs(reply.text), SitemapLimit) else []
  }

  /**
   * What the parsed page offers: the stripped text of its `<title>` (None without one), the
   * `content` of its description meta tag (None without the tag; "" when the tag has no
   * content), the stripped texts of its `<h1>` tags and its whole text.
   */
  datatype PageFeatures = PageFeatures(title: Option<string>, metaContent: Option<string>,
                                       h1: seq<string>, text: string)

  datatype Metadata = Metadata(title: string, metaDescription: string, h1: seq<string>, wordCount: nat)

  /** `extract_page_metadata`; `doc` is None when parsing raised. */
  function ExtractPageMetadata(doc: Option<PageFeatures>): (r: Metadata)
    ensures doc.None? ==> r == Metadata("", "", [], 0)
    ensures doc.Some? ==> r.h1 == doc.value.h1 && r.wordCount == |Words(doc.value.text)|
    ensures doc.Some? && doc.value.title.Some? ==> r.title == doc.value.title.value
    ensures doc.Some? && doc.value.title.None? ==> r.title == ""
    ensures doc.Some? && doc.value.metaContent.Some? ==> r.metaDescription == doc.value.metaContent.value
    ensures doc.Some? && doc.value.metaContent.None? ==> r.metaDescription == ""
  {
    match doc
    case None => Metadata("", "", [], 0)
    case Some(f) => Metadata(f.title.GetOr(""), f.metaContent.GetOr(""), f.h1, |Words(f.text)|)
  }

  /** The word count is 0 exactly when the page's text is all whitespace. */
  lemma NoWordsIffBlank(text: string)
    ensures |Words(text)| == 0 <==> forall i :: 0 <= i < |text| ==> IsSpace(text[i])
  {
    LStripSpec(text);
    if LStrip(text) != [] {
      var k := |text| - |LStrip(text)|;
      assert text[k] == LStrip(text)[0];
    }
  }
}
