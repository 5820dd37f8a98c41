/**
 * Stage two of the multi-page audit (analyzers/ai_multi_page.py): the per-page blocks of
 * the prompt, the cleaning of the model's reply, the required-field checks and the merge
 * of the decoded reply into the result. The reply is an input; `json.loads` is the
 * decoder parameter.
 */
module AiMultiPage {
  import opened Outcomes
  import opened Text
  import opened Json

  /** The prompt block for the page numbered `n`; the page must be a dict with a URL. */
  function PageBlock(n: nat, page: Json): (r: Outcome<string>)
    ensures r.Ok? <==> page.JObj? && HasKey(page.fields, "url")
  {
    var url :- Index(page, "url");
    Ok(Heading(n, url) + Details(page.fields))
  }

  /** The first line of a page's block: its number and URL. */
  function Heading(n: nat, url: Json): string {
    "\nPAGE " + NatToString(n) + ": " + StrOf(url)
  }

  /** The rest of a page's block: its type and the reason it was selected, with defaults. */
  function Details(fields: seq<(string, Json)>): string {
    "\nType: " + StrOf(Lookup(fields, "page_type").GetOr(JStr("unknown")))
    + "\nSelection Reason: " + StrOf(Lookup(fields, "selection_reason").GetOr(JStr("N/A")))
    + "\n---\n"
  }

  /** A page the prompt can describe. */
  predicate HasUrl(page: Json) {
    page.JObj? && HasKey(page.fields, "url")
  }

  /**
   * The texts `entry` makes of the items, numbered from 1, in order; the first item whose
   * entry raises stops the loop with its exception.
   */
  function Numbered<T>(items: seq<T>, entry: (nat, T) -> Outcome<string>): (r: Outcome<seq<string>>)
    ensures r.Ok? <==> forall i :: 0 <= i < |items| ==> entry(i + 1, items[i]).Ok?
    ensures r.Ok? ==> |r.value| == |items|
                      && forall k :: 0 <= k < |items| ==> r.value[k] == entry(k + 1, items[k]).value
    decreases |items|
  {
    if |items| == 0 then Ok([])
    else
      var n := |items| - 1;
      var rest :- Numbered(items[..n], entry);
      assert forall i :: 0 <= i < n ==> items[..n][i] == items[i];
      var text :- entry(n + 1, items[n]);
      Ok(rest + [text])
  }

  /** Once a prefix of the items raises, so do all the items, with the same exception. */
  lemma {:induction false} NumberedStops<T>(items: seq<T>, entry: (nat, T) -> Outcome<string>, i: nat)
    requires i <= |items| && Numbered(items[..i], entry).Raised?
    ensures Numbered(items, entry) == Numbered(items[..i], entry)
    decreases |items| - i
  {
    if i < |items| {
      var longer := items[..i + 1];
      assert longer[..i] == items[..i];
      NumberedStops(items, entry, i + 1);
    } else {
      assert items[..i] == items;
    }
  }

  /** The blocks of all pages, numbered from 1; the first page without a URL raises. */
  function PageBlocks(pages: seq<Json>): Outcome<seq<string>> {
    Numbered(pages, PageBlock)
  }

  /** The blocks exist exactly when every page has a URL; block k names page k as number k + 1. */
  lemma BlocksNumbered(pages: seq<Json>)
    ensures PageBlocks(pages).Ok? <==> forall i :: 0 <= i < |pages| ==> HasUrl(pages[i])
    ensures PageBlocks(pages).Ok? ==>
              |PageBlocks(pages).value| == |pages|
              && forall k :: 0 <= k < |pages| ==>
                   StartsWith(PageBlocks(pages).value[k], Heading(k + 1, Lookup(pages[k].fields, "url").value))
  {
    assert forall i :: 0 <= i < |pages| ==> (PageBlock(i + 1, pages[i]).Ok? <==> HasUrl(pages[i]));
    if PageBlocks(pages).Ok? {
      forall k | 0 <= k < |pages|
        ensures StartsWith(PageBlocks(pages).value[k], Heading(k + 1, Lookup(pages[k].fields, "url").value))
      {
        var head := Heading(k + 1, Lookup(pages[k].fields, "url").value);
        assert PageBlocks(pages).value[k] == head + Details(pages[k].fields);
        assert (head + Details(pages[k].fields))[..|head|] == head;
      }
    }
  }

  /** The loop that appends one block per page. */
  method BuildPagesContext(pages: seq<Json>) returns (r: Outcome<seq<string>>)
    ensures r == PageBlocks(pages)
  {
    var blocks: seq<string> := [];
    var i := 0;
    while i < |pages|
      invariant 0 <= i <= |pages|
      invariant Numbered(pages[..i], PageBlock) == Ok(blocks)
    {
      var block := PageBlock(i + 1, pages[i]);
      assert pages[..i + 1][..i] == pages[..i];
      if block.Raised? {
        NumberedStops(pages, PageBlock, i + 1);
        return Raised(block.msg);
      }
      blocks := blocks + [block.value];
      i := i + 1;
    }
    assert pages[..i] == pages;
    r := Ok(blocks);
  }

  /** The pages' URLs, in order. */
  function Urls(pages: seq<Json>): (r: seq<Json>)
    requires forall i :: 0 <= i < |pages| ==> HasUrl(pages[i])
    ensures |r| == |pages|
    ensures forall i :: 0 <= i < |pages| && HasUrl(pages[i]) ==> Lookup(pages[i].fields, "url") == Some(r[i])
  {
    seq(|pages|, i requires 0 <= i < |pages| && HasUrl(pages[i]) => Lookup(pages[i].fields, "url").value)
  }

  /** Removes a leading "```json", then a leading "```", once each. */
  function DropOpening(t: string): string {
    var t1 := if StartsWith(t, "```json") then ReplaceFirst(t, "```json", "") else t;
    if StartsWith(t1, "```") then ReplaceFirst(t1, "```", "") else t1
  }

  /** Cuts the text before its last "```" when it ends with one. */
  function DropClosing(t: string): string {
    if EndsWith(t, "```") then BeforeLast(t, "```") else t
  }

  /** The response after the code-fence steps: stripped, fences removed once each, stripped. */
  function Unfenced(response: string): string {
    Strip(DropClosing(DropOpening(Strip(response))))
  }

  /** The cleaned response has no whitespace at either end. */
  lemma UnfencedIsStripped(response: string)
    ensures var u := Unfenced(response); u == [] || (!IsSpace(u[0]) && !IsSpace(u[|u| - 1]))
  {
    var _ := StripSpec(DropClosing(DropOpening(Strip(response))));
  }

  /**
   * A text that does not start with '{' but holds a '{' before a later '}' is cut to the
   * span from its first '{' to its last '}'; any other text is kept.
   */
  function BraceSpan(s: string): (r: string)
    ensures r == s || (|r| >= 2 && r[0] == '{' && r[|r| - 1] == '}')
    ensures r != s ==>
              !StartsWith(s, "{") && 0 <= Find(s, '{') < RFind(s, '}')
              && r == s[Find(s, '{')..RFind(s, '}') + 1]
    ensures !StartsWith(s, "{") && 0 <= Find(s, '{') < RFind(s, '}') ==>
              r == s[Find(s, '{')..RFind(s, '}') + 1]
  {
    if StartsWith(s, "{") then s
    else
      var start := Find(s, '{');
      var end := RFind(s, '}');
      if start != -1 && end != -1 && end > start then s[start..end + 1] else s
  }

  /** A cut span holds the text's first '{' and last '}': cutting again keeps it. */
  lemma BraceSpanIdempotent(s: string)
    ensures BraceSpan(BraceSpan(s)) == BraceSpan(s)
  {
    var r := BraceSpan(s);
    if r != s {
      assert StartsWith(r, "{") by { assert r[..1] == ['{']; }
    }
  }

  /** What the reply becomes before it is decoded. */
  function Cleaned(response: string): string {
    BraceSpan(Unfenced(response))
  }

  /** The reassignments of the reply before decoding. */
  method CleanResponse(response: string) returns (cleaned: string)
    ensures cleaned == Cleaned(response)
  {
    cleaned := RemoveFences(response);
    cleaned := CutToBraces(cleaned);
  }

  /** Stripping and removing the code fences. */
  method RemoveFences(response: string) returns (cleaned: string)
    ensures cleaned == Unfenced(response)
  {
    cleaned := Strip(response);
    ghost var stripped := cleaned;
    if StartsWith(cleaned, "```json") {
      cleaned := ReplaceFirst(cleaned, "```json", "");
    }
    if StartsWith(cleaned, "```") {
      cleaned := ReplaceFirst(cleaned, "```", "");
    }
    assert cleaned == DropOpening(stripped);
    if EndsWith(cleaned, "```") {
      cleaned := BeforeLast(cleaned, "```");
    }
    cleaned := Strip(cleaned);
  }

  /** Cutting a text that does not start with '{' to its outermost braces. */
  method CutToBraces(text: string) returns (cleaned: string)
    ensures cleaned == BraceSpan(text)
  {
    cleaned := text;
    if !StartsWith(cleaned, "{") {
      var start := Find(cleaned, '{');
      var end := RFind(cleaned, '}');
      if start != -1 && end != -1 && end > start {
        cleaned := cleaned[start..end + 1];
      }
    }
  }

  /** The keys the reply must have, in the order they are checked. */
  const RequiredFields: seq<string> := ["holistic_score", "template_insights", "scalable_recommendations"]

  /** `name in result` holds. */
  predicate Present(result: Json, name: string) {
    In(name, result) == Ok(true)
  }

  /**
   * The index of the first of `names[i..]` missing from `result`, or None; `in` raises
   * for a value that is neither a dict, a list nor a string.
   */
  function FirstMissingFrom(result: Json, names: seq<string>, i: nat): (r: Outcome<Option<nat>>)
    requires i <= |names|
    ensures r.Raised? <==> i < |names| && !(result.JObj? || result.JArr? || result.JStr?)
    ensures r == Ok(None) <==> r.Ok? && forall j :: i <= j < |names| ==> Present(result, names[j])
    ensures r.Ok? && r.value.Some? ==>
              var k := r.value.value;
              i <= k < |names| && !Present(result, names[k])
              && forall j :: i <= j < k ==> Present(result, names[j])
    decreases |names| - i
  {
    if i == |names| then Ok(None)
    else
      var present :- In(names[i], result);
      if !present then Ok(Some(i)) else FirstMissingFrom(result, names, i + 1)
  }

  /** The loop over the required fields, returning at the first one missing. */
  method FindMissingField(result: Json) returns (r: Outcome<Option<nat>>)
    ensures r == FirstMissingFrom(result, RequiredFields, 0)
  {
    var i := 0;
    while i < |RequiredFields|
      invariant 0 <= i <= |RequiredFields|
      invariant FirstMissingFrom(result, RequiredFields, 0) == FirstMissingFrom(result, RequiredFields, i)
    {
      var present := In(RequiredFields[i], result);
      if present.Raised? {
        return Raised(present.msg);
      }
      if !present.value {
        return Ok(Some(i));
      }
      i := i + 1;
    }
    r := Ok(None);
  }

  /** `{**base, **more}` on dicts: each entry of `more` in turn is set in `base`. */
  function Merged(base: seq<(string, Json)>, more: seq<(string, Json)>): seq<(string, Json)>
    decreases |more|
  {
    if |more| == 0 then base
    else
      var n := |more| - 1;
      Put(Merged(base, more[..n]), more[n].0, more[n].1)
  }

  /** A key of `more` takes its value from `more`; any other key keeps its value in `base`. */
  lemma {:induction false} MergedLookup(base: seq<(string, Json)>, more: seq<(string, Json)>, key: string)
    ensures Lookup(Merged(base, more), key) ==
              if HasKey(more, key) then Lookup(more, key) else Lookup(base, key)
    decreases |more|
  {
    if |more| > 0 {
      var n := |more| - 1;
      var init := Merged(base, more[..n]);
      assert Merged(base, more) == Put(init, more[n].0, more[n].1);
      if more[n].0 != key {
        PutKeepsOthers(init, more[n].0, more[n].1, key);
        MergedLookup(base, more[..n], key);
        LookupSkipLast(more, key);
      } else {
        assert Lookup(more, key) == Some(more[n].1);
      }
    }
  }

  lemma LookupSkipLast(fields: seq<(string, Json)>, key: string)
    requires |fields| > 0 && fields[|fields| - 1].0 != key
    ensures Lookup(fields, key) == Lookup(fields[..|fields| - 1], key)
  {
  }

  /** Merging never moves the first entry of the base. */
  lemma {:induction false} MergedKeepsFirst(base: seq<(string, Json)>, more: seq<(string, Json)>)
    requires |base| > 0
    ensures |Merged(base, more)| > 0 && Merged(base, more)[0].0 == base[0].0
    decreases |more|
  {
    if |more| > 0 {
      var n := |more| - 1;
      MergedKeepsFirst(base, more[..n]);
      PutKeepsFirst(Merged(base, more[..n]), more[n].0, more[n].1);
    }
  }

  /** The success dict: `{'success': True, **result}`. */
  function Succeeded(fields: seq<(string, Json)>): seq<(string, Json)> {
    Merged([("success", JBool(true))], fields)
  }

  /**
   * The success flag comes first and is True unless the reply sets its own `success`,
   * which then wins; every other key carries the reply's value, and there is no other key.
   */
  lemma SucceededEntries(fields: seq<(string, Json)>)
    ensures var r := Succeeded(fields);
            |r| > 0 && r[0].0 == "success"
            && Lookup(r, "success") == Some(Lookup(fields, "success").GetOr(JBool(true)))
            && forall key :: key != "success" ==> Lookup(r, key) == Lookup(fields, key)
  {
    MergedKeepsFirst([("success", JBool(true))], fields);
    MergedLookup([("success", JBool(true))], fields, "success");
    forall key | key != "success"
      ensures Lookup(Succeeded(fields), key) == Lookup(fields, key)
    {
      MergedLookup([("success", JBool(true))], fields, key);
    }
  }

  /** A result dict reporting failure with `error`. */
  function Failure(error: string): seq<(string, Json)> {
    [("success", JBool(false)), ("error", JStr(error))]
  }

  /** The result for a reply that lacks the required key `name`. */
  function MissingField(name: string): seq<(string, Json)> {
    Failure("AI response missing required field: " + name)
  }

  /** The error of the generic exception handler. */
  function HolisticFailed(msg: string): seq<(string, Json)> {
    Failure("Holistic AI analysis failed: " + msg)
  }

  /** How much of the reply a decode error keeps. */
  const RawLimit: nat := 1000

  /** The result for a reply the decoder rejected. */
  function ParseFailed(msg: string, response: string): (r: seq<(string, Json)>)
    ensures |r| == 3 && r[2].0 == "raw_response" && r[2].1.JStr? && |r[2].1.s| <= RawLimit
  {
    [("success", JBool(false)), ("error", JStr("Failed to parse AI response as JSON: " + msg)),
     ("raw_response", JStr(Take(response, RawLimit)))]
  }

  /** What the checks make of a decoded reply. */
  function Checked(result: Json): seq<(string, Json)> {
    match FirstMissingFrom(result, RequiredFields, 0)
    case Raised(m) => HolisticFailed(m)
    case Ok(Some(k)) => MissingField(RequiredFields[k])
    case Ok(None) =>
      if result.JObj? then Succeeded(result.fields)
      else HolisticFailed("'" + TypeName(result) + "' object is not a mapping")
  }

  /** What the try block returns once the prompt's blocks exist and the model replied. */
  function Attempt(pages: seq<Json>, reply: Option<string>, decode: Decoder): seq<(string, Json)>
    requires forall i :: 0 <= i < |pages| ==> HasUrl(pages[i])
  {
    match StringItems(Urls(pages), 0)
    case Raised(m) => HolisticFailed(m)
    case Ok(_) =>
      match reply
      case None => HolisticFailed("'NoneType' object has no attribute 'strip'")
      case Some(text) =>
        match decode(Cleaned(text))
        case DecodeError(m) => ParseFailed(m, text)
        case Parsed(result) => Checked(result)
  }

  /**
   * The whole call, given the model's reply: a page without a URL raises out of it (the
   * blocks are built before the try block); anything else yields a result dict.
   */
  function HolisticResult(pages: seq<Json>, reply: Option<string>, decode: Decoder): Outcome<seq<(string, Json)>> {
    var blocks :- PageBlocks(pages);
    Ok(Attempt(pages, reply, decode))
  }

  /** The call, step by step. */
  method AnalyzeSiteHolistically(pages: seq<Json>, reply: Option<string>, decode: Decoder)
    returns (r: Outcome<seq<(string, Json)>>)
    ensures r == HolisticResult(pages, reply, decode)
  {
    var blocks := BuildPagesContext(pages);
    if blocks.Raised? {
      return Raised(blocks.msg);
    }
    var urls := StringItems(Urls(pages), 0);
    if urls.Raised? {
      return Ok(HolisticFailed(urls.msg));
    }
    if reply.None? {
      return Ok(HolisticFailed("'NoneType' object has no attribute 'strip'"));
    }
    var cleaned := CleanResponse(reply.value);
    var decoded := decode(cleaned);
    if decoded.DecodeError? {
      return Ok(ParseFailed(decoded.msg, reply.value));
    }
    assert HolisticResult(pages, reply, decode) == Ok(Checked(decoded.value));
    var checked := CheckReply(decoded.value);
    r := Ok(checked);
  }

  /** The required-field loop followed by the merge. */
  method CheckReply(result: Json) returns (r: seq<(string, Json)>)
    ensures r == Checked(result)
  {
    var missing := FindMissingField(result);
    match missing {
      case Raised(m) =>
        r := HolisticFailed(m);
      case Ok(Some(k)) =>
        r := MissingField(RequiredFields[k]);
      case Ok(None) =>
        if result.JObj? {
          r := Succeeded(result.fields);
        } else {
          r := HolisticFailed("'" + TypeName(result) + "' object is not a mapping");
        }
    }
  }

  /** For a dict, the first required key it lacks, in the checked order. */
  lemma MissingInOrder(fields: seq<(string, Json)>)
    ensures FirstMissingFrom(JObj(fields), RequiredFields, 0) ==
              if !HasKey(fields, "holistic_score") then Ok(Some(0))
              else if !HasKey(fields, "template_insights") then Ok(Some(1))
              else if !HasKey(fields, "scalable_recommendations") then Ok(Some(2))
              else Ok(None)
  {
    var v := JObj(fields);
    assert FirstMissingFrom(v, RequiredFields, 3) == Ok(None);
    assert FirstMissingFrom(v, RequiredFields, 2) ==
             if HasKey(fields, "scalable_recommendations") then Ok(None) else Ok(Some(2));
    assert FirstMissingFrom(v, RequiredFields, 1) ==
             if HasKey(fields, "template_insights") then FirstMissingFrom(v, RequiredFields, 2) else Ok(Some(1));
  }

  /**
   * A decoded dict holding the three required keys succeeds with the reply's own entries;
   * one that lacks a key fails naming the first missing one in the checked order.
   */
  lemma CheckedDict(fields: seq<(string, Json)>)
    ensures HasKey(fields, "holistic_score") && HasKey(fields, "template_insights")
            && HasKey(fields, "scalable_recommendations") ==>
              Checked(JObj(fields)) == Succeeded(fields)
    ensures !HasKey(fields, "holistic_score") ==>
              Checked(JObj(fields)) == MissingField("holistic_score")
    ensures HasKey(fields, "holistic_score") && !HasKey(fields, "template_insights") ==>
              Checked(JObj(fields)) == MissingField("template_insights")
    ensures HasKey(fields, "holistic_score") && HasKey(fields, "template_insights")
            && !HasKey(fields, "scalable_recommendations") ==>
              Checked(JObj(fields)) == MissingField("scalable_recommendations")
  {
    MissingInOrder(fields);
    assert RequiredFields[0] == "holistic_score" && RequiredFields[1] == "template_insights"
           && RequiredFields[2] == "scalable_recommendations";
  }

  /** A dict with the required keys. */
  predicate Complete(result: Json) {
    result.JObj? && forall j :: 0 <= j < |RequiredFields| ==> HasKey(result.fields, RequiredFields[j])
  }

  /** The checks flag success first, and only a complete dict can escape the False flag. */
  lemma CheckedFlag(result: Json)
    ensures var r := Checked(result);
            |r| > 0 && r[0].0 == "success" && (r[0].1 != JBool(false) ==> Complete(result))
  {
    if result.JObj? && FirstMissingFrom(result, RequiredFields, 0) == Ok(None) {
      SucceededEntries(result.fields);
    }
  }

  /**
   * Every result dict starts with its success flag, which is False unless the reply
   * decoded to a dict with the required keys.
   */
  lemma AttemptFlag(pages: seq<Json>, reply: Option<string>, decode: Decoder)
    requires forall i :: 0 <= i < |pages| ==> HasUrl(pages[i])
    ensures var r := Attempt(pages, reply, decode);
            |r| > 0 && r[0].0 == "success"
            && (r[0].1 != JBool(false) ==>
                  reply.Some? && decode(Cleaned(reply.value)).Parsed?
                  && Complete(decode(Cleaned(reply.value)).value))
  {
    if StringItems(Urls(pages), 0).Ok? && reply.Some? && decode(Cleaned(reply.value)).Parsed? {
      CheckedFlag(decode(Cleaned(reply.value)).value);
    }
  }

  /** A reply the decoder rejects keeps at most its first 1000 characters. */
  lemma RejectedReplyCapped(pages: seq<Json>, text: string, decode: Decoder)
    requires forall i :: 0 <= i < |pages| ==> HasUrl(pages[i])
    requires StringItems(Urls(pages), 0).Ok? && decode(Cleaned(text)).DecodeError?
    ensures var r := Attempt(pages, Some(text), decode);
            r[2] == ("raw_response", JStr(text[..if |text| < RawLimit then |text| else RawLimit]))
  {
  }

  /** The URLs listed after the prompt are the pages' URLs in order; a non-string one fails. */
  lemma ExtraUrlsInOrder(pages: seq<Json>)
    requires forall i :: 0 <= i < |pages| ==> HasUrl(pages[i])
    ensures StringItems(Urls(pages), 0).Ok? ==>
              forall i :: 0 <= i < |pages| ==>
                Lookup(pages[i].fields, "url") == Some(JStr(StringItems(Urls(pages), 0).value[i]))
    ensures StringItems(Urls(pages), 0).Raised? ==>
              exists i :: 0 <= i < |pages| && !Lookup(pages[i].fields, "url").value.JStr?
  {
  }
}
