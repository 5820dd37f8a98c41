/** URL helpers and the page fetch result shared by the analyzers (utils.py). */
module Utils {
  import opened Outcomes
  import opened Text

  /** The parts of `urllib.parse.urlparse(url)` that the audit code reads. */
  datatype Url = Url(scheme: string, netloc: string, path: string)

  /** `urlparse`, which the model does not implement. */
  type UrlParser = string -> Url

  /**
   * What `fetch_url` returns: the response of a GET that follows redirects, or the
   * message of the request exception ("Timeout" for a timeout).
   */
  datatype PageData =
    | Fetched(statusCode: int, content: string, headers: map<string, string>,
              finalUrl: string, elapsed: real)
    | NotFetched(error: Option<string>)

  predicate HasWebScheme(url: string) {
    StartsWith(url, "http://") || StartsWith(url, "https://")
  }

  /**
   * `validate_url`: a URL without an http(s) scheme gets "https://" in front, and the
   * result is kept only if the URL validator (a library, given as `accepts`) accepts it.
   */
  function ValidateUrl(url: string, accepts: string -> bool): (r: Option<string>)
    ensures r.Some? ==> HasWebScheme(r.value) && accepts(r.value)
    ensures HasWebScheme(url) ==> r == if accepts(url) then Some(url) else None
    ensures !HasWebScheme(url) ==>
              r == if accepts("https://" + url) then Some("https://" + url) else None
  {
    var candidate := if HasWebScheme(url) then url else "https://" + url;
    assert StartsWith(candidate, "https://") || HasWebScheme(url);
    if accepts(candidate) then Some(candidate) else None
  }

  /** A validated URL is a fixed point: validating it again changes nothing. */
  lemma {:induction false} ValidateUrlIdempotent(url: string, accepts: string -> bool)
    requires ValidateUrl(url, accepts).Some?
    ensures ValidateUrl(ValidateUrl(url, accepts).value, accepts) == ValidateUrl(url, accepts)
  {
    var v := ValidateUrl(url, accepts).value;
    assert HasWebScheme(v) && accepts(v);
  }

  /** `get_domain`: "scheme://netloc" of the parsed URL, dropping path, query and fragment. */
  function GetDomain(url: string, parse: UrlParser): (r: string)
    ensures StartsWith(r, parse(url).scheme)
    ensures EndsWith(r, "://" + parse(url).netloc)
    ensures |r| == |parse(url).scheme| + 3 + |parse(url).netloc|
  {
    var r := parse(url).scheme + "://" + parse(url).netloc;
    assert r[..|parse(url).scheme|] == parse(url).scheme;
    assert r[|r| - |"://" + parse(url).netloc|..] == "://" + parse(url).netloc;
    r
  }

  /**
   * `is_internal_link`: a non-empty link is internal when it has no host of its own
   * (a relative link) or the same host as the base.
   */
  function IsInternalLink(link: string, base: string, parse: UrlParser): (r: bool)
    ensures link == "" ==> !r
    ensures link != "" && parse(link).netloc == "" ==> r
    ensures link != "" && parse(link).netloc != "" ==>
              (r <==> parse(link).netloc == parse(base).netloc)
  {
    if link == "" then false
    else
      var host := parse(link).netloc;
      host == parse(base).netloc || host == ""
  }

  /**
   * `calculate_score`: 0 at or below `minVal`, 100 at or above `maxVal`, linear (truncated)
   * in between; `reverse` mirrors the value inside the interval first.
   */
  function CalculateScore(value: real, minVal: real, maxVal: real, reverse: bool): (r: int)
    ensures 0 <= r <= 100
    ensures Effective(value, minVal, maxVal, reverse) <= minVal ==> r == 0
    ensures minVal < Effective(value, minVal, maxVal, reverse) ==>
              (r == 100 <==> Effective(value, minVal, maxVal, reverse) >= maxVal)
    ensures var v := Effective(value, minVal, maxVal, reverse);
            minVal < v < maxVal ==>
              r as real <= (v - minVal) / (maxVal - minVal) * 100.0 < r as real + 1.0
  {
    var v := Effective(value, minVal, maxVal, reverse);
    if v <= minVal then 0
    else if v >= maxVal then 100
    else Interpolate(v, minVal, maxVal)
  }

  /** The value `calculate_score` compares: mirrored inside the interval when `reverse`. */
  function Effective(value: real, minVal: real, maxVal: real, reverse: bool): real {
    if reverse then maxVal - value + minVal else value
  }

  /** `int((v - lo) / (hi - lo) * 100)` strictly inside the interval. */
  function Interpolate(v: real, lo: real, hi: real): (r: int)
    requires lo < v < hi
    ensures 0 <= r < 100
    ensures r as real <= (v - lo) / (hi - lo) * 100.0 < r as real + 1.0
  {
    var fraction := (v - lo) / (hi - lo);
    FractionBelowOne(v - lo, hi - lo);
    (fraction * 100.0).Floor
  }

  lemma FractionBelowOne(a: real, b: real)
    requires 0.0 < a < b
    ensures 0.0 < a / b
    ensures a / b < 1.0
  {
    var q := a / b;
    assert q * b == a;
    var d := 1.0 - q;
    assert d * b == b - a;
  }

  lemma DivMonotone(a1: real, a2: real, b: real)
    requires a1 <= a2 && 0.0 < b
    ensures a1 / b <= a2 / b
  {
    assert (a2 / b - a1 / b) * b == a2 - a1;
  }

  /** Without `reverse`, a larger value never scores lower. */
  lemma {:induction false} CalculateScoreMonotone(v1: real, v2: real, lo: real, hi: real)
    requires v1 <= v2
    ensures CalculateScore(v1, lo, hi, false) <= CalculateScore(v2, lo, hi, false)
  {
    if lo < v1 < hi && lo < v2 < hi {
      var f1 := (v1 - lo) / (hi - lo);
      var f2 := (v2 - lo) / (hi - lo);
      DivMonotone(v1 - lo, v2 - lo, hi - lo);
      assert (f1 * 100.0).Floor <= (f2 * 100.0).Floor;
    }
  }

  /** With `reverse`, a larger value never scores higher (used for "lower is better" metrics). */
  lemma {:induction false} CalculateScoreReverseAntitone(v1: real, v2: real, lo: real, hi: real)
    requires v1 <= v2
    ensures CalculateScore(v1, lo, hi, true) >= CalculateScore(v2, lo, hi, true)
  {
    CalculateScoreMonotone(hi - v2 + lo, hi - v1 + lo, lo, hi);
  }
}
