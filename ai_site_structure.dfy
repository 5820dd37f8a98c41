/**
 * Stage one of the multi-page audit (analyzers/ai_site_structure.py): the links offered to
 * the model, and the checks applied to the model's reply before its page selection is
 * returned. The reply is an input; `json.loads` is the decoder parameter.
 */
module AiSiteStructure {
  import opened Outcomes
  import opened Text
  import opened Json

  /** How many of the homepage's links the prompt offers at most. */
  const LinkSample: nat := 50

  /** The prompt's link list: one "- link" line for each of the first 50 links, in order. */
  function LinkLines(links: seq<string>): (r: seq<string>)
    ensures |r| == if |links| > LinkSample then LinkSample else |links|
    ensures forall i :: 0 <= i < |r| ==> r[i] == "- " + links[i]
  {
    var sample := Take(links, LinkSample);
    seq(|sample|, i requires 0 <= i < |sample| => "- " + sample[i])
  }

  /** A result dict reporting failure with `error`. */
  function Failure(error: string): seq<(string, Json)> {
    [("success", JBool(false)), ("error", JStr(error))]
  }

  /** The error of the generic exception handler. */
  function AnalysisFailed(msg: string): seq<(string, Json)> {
    Failure("AI analysis failed: " + msg)
  }

  const MissingFields := "AI response missing required fields"
  const NoPages := "AI did not select any pages"

  /**
   * What the call returns once the model has replied with `response` (`None` when the
   * reply carries no text). The reply is decoded as it is, without removing code fences.
   */
  function SiteStructureResult(response: Option<string>, decode: Decoder): seq<(string, Json)> {
    match response
    case None => AnalysisFailed("the JSON object must be str, bytes or bytearray, not NoneType")
    case Some(text) =>
      match decode(text)
      case DecodeError(m) =>
        [("success", JBool(false)), ("error", JStr("Failed to parse AI response as JSON: " + m)),
         ("raw_response", JStr(text))]
      case Parsed(result) =>
        match Validated(result)
        case Raised(m) => AnalysisFailed(m)
        case Ok(r) => r
  }

  /**
   * The checks on the decoded reply: both keys present (the second `in` is evaluated only
   * when the first key is there), a truthy and non-empty page selection (`len` raises for
   * a truthy number), then the five-key success dict.
   */
  function Validated(result: Json): Outcome<seq<(string, Json)>> {
    var hasType :- In("site_type", result);
    // The second `in` cannot raise once the first one has not.
    var hasPages := hasType && In("selected_pages", result) == Ok(true);
    if !hasType || !hasPages then Ok(Failure(MissingFields))
    else
      var pages :- Index(result, "selected_pages");
      var empty :- if !Truthy(pages) then Ok(true) else (var n :- Len(pages); Ok(n == 0));
      if empty then Ok(Failure(NoPages))
      else Ok(Selection(result.fields, pages))
  }

  /** The success dict built from a reply dict that holds both required keys. */
  function Selection(fields: seq<(string, Json)>, pages: Json): seq<(string, Json)>
    requires HasKey(fields, "site_type")
  {
    [("success", JBool(true)),
     ("site_type", Lookup(fields, "site_type").value),
     ("site_type_confidence", Lookup(fields, "site_type_confidence").GetOr(JInt(0))),
     ("site_characteristics", Lookup(fields, "site_characteristics").GetOr(JObj([]))),
     ("selected_pages", pages)]
  }

  /** A decoded dict with a site type and a truthy page selection that has a length. */
  predicate AcceptedValue(result: Json) {
    result.JObj? && HasKey(result.fields, "site_type") && HasKey(result.fields, "selected_pages")
    && var pages := Lookup(result.fields, "selected_pages").value;
    (pages.JArr? || pages.JStr? || pages.JObj?) && Truthy(pages)
  }

  /** A reply that decodes to an accepted value. */
  predicate Accepted(response: Option<string>, decode: Decoder) {
    response.Some? && decode(response.value).Parsed? && AcceptedValue(decode(response.value).value)
  }

  /** The checks leave a result flagged True exactly for an accepted value. */
  lemma ValidatedFlag(result: Json)
    ensures Validated(result).Ok? ==>
              var r := Validated(result).value;
              |r| >= 2 && r[0].0 == "success" && r[0].1.JBool?
              && (r[0].1.b <==> AcceptedValue(result))
    ensures AcceptedValue(result) ==>
              Validated(result) == Ok(Selection(result.fields, Lookup(result.fields, "selected_pages").value))
  {
    if AcceptedValue(result) {
      assert Index(result, "selected_pages") == Ok(Lookup(result.fields, "selected_pages").value);
    }
  }

  /**
   * Every result starts with its `success` flag, which is True exactly for an accepted
   * reply; the success dict then has exactly the five keys, with the defaults 0 and {}
   * and the page selection passed through whole, however many pages it lists.
   */
  lemma SuccessExactlyWhenAccepted(response: Option<string>, decode: Decoder)
    ensures var r := SiteStructureResult(response, decode);
            |r| >= 2 && r[0].0 == "success" && r[0].1.JBool?
            && (r[0].1.b <==> Accepted(response, decode))
    ensures Accepted(response, decode) ==>
              var fields := decode(response.value).value.fields;
              SiteStructureResult(response, decode) ==
              [("success", JBool(true)),
               ("site_type", Lookup(fields, "site_type").value),
               ("site_type_confidence", Lookup(fields, "site_type_confidence").GetOr(JInt(0))),
               ("site_characteristics", Lookup(fields, "site_characteristics").GetOr(JObj([]))),
               ("selected_pages", Lookup(fields, "selected_pages").value)]
  {
    if response.Some? && decode(response.value).Parsed? {
      ValidatedFlag(decode(response.value).value);
    }
  }

  /**
   * The reply is decoded as it came: a reply the decoder rejects (a fenced one, for a
   * JSON decoder) fails with the decoder's message and the whole reply, uncut.
   */
  lemma RejectedReplyKeptWhole(text: string, decode: Decoder)
    requires decode(text).DecodeError?
    ensures SiteStructureResult(Some(text), decode) ==
              [("success", JBool(false)),
               ("error", JStr("Failed to parse AI response as JSON: " + decode(text).msg)),
               ("raw_response", JStr(text))]
  {
  }

  /**
   * A decoded dict that lacks either key fails with the missing-fields error; one whose
   * selection is empty or falsy fails with the no-pages error.
   */
  lemma RejectionReasons(fields: seq<(string, Json)>)
    ensures !HasKey(fields, "site_type") || !HasKey(fields, "selected_pages") ==>
              Validated(JObj(fields)) == Ok(Failure(MissingFields))
    ensures HasKey(fields, "site_type") && HasKey(fields, "selected_pages")
            && !Truthy(Lookup(fields, "selected_pages").value) ==>
              Validated(JObj(fields)) == Ok(Failure(NoPages))
  {
  }

  /**
   * The exceptions the handler turns into "AI analysis failed: ...": a reply that is not a
   * container, and a truthy selection that has no length (a number or True).
   */
  lemma ExceptionsCaught(fields: seq<(string, Json)>, result: Json)
    ensures !(result.JObj? || result.JArr? || result.JStr?) ==>
              Validated(result) == Raised("argument of type '" + TypeName(result) + "' is not iterable")
    ensures HasKey(fields, "site_type") && HasKey(fields, "selected_pages") ==>
              var pages := Lookup(fields, "selected_pages").value;
              Truthy(pages) && (pages.JInt? || pages.JFloat? || pages.JBool?) ==>
                Validated(JObj(fields)) ==
                Raised("object of type '" + TypeName(pages) + "' has no len()")
  {
  }
}
