/**
 * The Gemini wrapper (ai_engine.py): availability, the two request kinds, reading a
 * reply as JSON, the bounded retry loop and the factory. The model call itself is
 * opaque: each call's outcome is an input.
 */
module AiEngine {
  import opened Outcomes
  import opened Text
  import opened Json

  /** The key value shipped in the configuration, which means "no key configured". */
  const PlaceholderKey: string := "YOUR_GEMINI_API_KEY_HERE"
  const DefaultModel: string := "gemini-2.5-flash"
  const UnavailableError: string := "AI not available - check API key"
  const InvalidJsonError: string := "Invalid JSON response"
  const MaxRetriesError: string := "Max retries exceeded"
  /** `analyze_text` sends at most this many characters of the text. */
  const TextLimit: nat := 10000

  /** What one `generate_content` call gives: its text, a response whose text is None, or an exception. */
  datatype ClientReply = Answer(text: string) | NoText | Failure(error: string)

  /**
   * What `analyze_url` and `analyze_text` return: the reply text, None, or the text of
   * `json.dumps({"error": msg})`.
   */
  datatype Response = Body(text: string) | Missing | ErrorJson(error: string)

  /** The request handed to the client: contents, the tools list if any, the response MIME type if any. */
  datatype Request = Request(contents: string, tools: Option<Json>, mimeType: Option<string>)

  /** The tools list every analyzer is created with: URL context enabled. */
  function UrlContextTools(): Json {
    JArr([JObj([("url_context", JObj([]))])])
  }

  /** What the wrapper returns for a client call: its text, or the JSON text of the exception. */
  function ResponseOf(reply: ClientReply): (r: Response)
    ensures reply.Failure? <==> r.ErrorJson?
    ensures reply.Answer? ==> r == Body(reply.text)
  {
    match reply
    case Answer(t) => Body(t)
    case NoText => Missing
    case Failure(e) => ErrorJson(e)
  }

  class AIAnalyzer {
    var apiKey: string
    var model: string
    /** `self.client is not None`: whether the client library could be loaded and set up. */
    var clientReady: bool
    var tools: Json

    /**
     * `__init__` and `_initialize_client`: whether the client could be created (the
     * library is installed and accepted the key) is given as `clientCreated`.
     */
    constructor (apiKey: string, model: string, clientCreated: bool)
      ensures this.apiKey == apiKey && this.model == model
      ensures clientReady == clientCreated && tools == UrlContextTools()
    {
      this.apiKey := apiKey;
      this.model := model;
      this.clientReady := clientCreated;
      this.tools := UrlContextTools();
    }

    /** `is_available`: a client exists and the key is not the shipped placeholder. */
    predicate IsAvailable()
      reads this
    {
      clientReady && apiKey != PlaceholderKey
    }

    /** What `analyze_url` returns when the client gives `reply`. */
    function UrlResponse(reply: ClientReply): (r: Response)
      reads this
      ensures !IsAvailable() ==> r == ErrorJson(UnavailableError)
      ensures IsAvailable() ==> r == ResponseOf(reply)
    {
      if IsAvailable() then ResponseOf(reply) else ErrorJson(UnavailableError)
    }

    /**
     * `analyze_url`: without a usable client nothing is sent and the unavailability error
     * comes back as JSON text; otherwise the prompt and the URL are sent, with the tools
     * list when URL context is on and a JSON response type when it is off, and a client
     * exception comes back as the JSON text of its message.
     */
    method AnalyzeUrl(url: string, prompt: string, useUrlContext: bool, reply: ClientReply)
      returns (sent: Option<Request>, r: Response)
      ensures sent.None? <==> !IsAvailable()
      ensures r == UrlResponse(reply)
      ensures sent.Some? ==> sent.value.contents == prompt + "\n\nURL to analyze: " + url
      ensures sent.Some? ==> (sent.value.tools.Some? <==> useUrlContext && Truthy(tools))
      ensures sent.Some? ==> (sent.value.mimeType.Some? <==> sent.value.tools.None?)
    {
      if !IsAvailable() {
        return None, ErrorJson(UnavailableError);
      }
      var configTools := if useUrlContext then tools else JArr([]);
      var request;
      if Truthy(configTools) {
        request := Request(prompt + "\n\nURL to analyze: " + url, Some(configTools), None);
      } else {
        request := Request(prompt + "\n\nURL to analyze: " + url, None, Some("application/json"));
      }
      sent := Some(request);
      r := ResponseOf(reply);
    }

    /**
     * `analyze_text`: like `analyze_url`, without tools, and the text is cut to its first
     * `TextLimit` characters before it is sent.
     */
    method AnalyzeText(text: string, prompt: string, jsonOutput: bool, reply: ClientReply)
      returns (sent: Option<Request>, r: Response)
      ensures sent.None? <==> !IsAvailable()
      ensures r == UrlResponse(reply)
      ensures sent.Some? ==>
                sent.value.contents == prompt + "\n\nText to analyze:\n" + Take(text, TextLimit)
      ensures sent.Some? ==> sent.value.tools.None?
      ensures sent.Some? ==>
                sent.value.mimeType == Some(if jsonOutput then "application/json" else "text/plain")
    {
      if !IsAvailable() {
        return None, ErrorJson(UnavailableError);
      }
      var mimeType := if jsonOutput then "application/json" else "text/plain";
      sent := Some(Request(prompt + "\n\nText to analyze:\n" + Take(text, TextLimit), None, Some(mimeType)));
      r := ResponseOf(reply);
    }

    /**
     * `analyze_with_retry`: up to `maxRetries + 1` calls of `analyze_url`, attempt `i`
     * getting `replies(i)` from the client; the first reply that reads as JSON without an
     * "error" key is returned at once, and when every attempt fails the last attempt's
     * error is returned. A negative `maxRetries` makes no call at all.
     */
    method AnalyzeWithRetry(url: string, prompt: string, maxRetries: int,
                            replies: nat -> ClientReply, decode: Decoder)
      returns (r: Json, calls: nat)
      ensures maxRetries < 0 ==> calls == 0 && r == ErrorObject(MaxRetriesError)
      ensures maxRetries >= 0 ==> 1 <= calls <= maxRetries + 1
      ensures forall i :: 0 <= i < calls - 1 ==> AttemptOf(UrlResponse(replies(i)), decode).Rejected?
      ensures calls > 0 ==> r == AttemptOf(UrlResponse(replies(calls - 1)), decode).value
      ensures 0 < calls <= maxRetries ==> AttemptOf(UrlResponse(replies(calls - 1)), decode).Accepted?
      ensures maxRetries >= 0 && !IsAvailable() ==>
                calls == maxRetries + 1 && r == ErrorObject(UnavailableError)
    {
      calls := 0;
      var attempt := 0;
      while attempt < maxRetries + 1
        invariant 0 <= attempt && calls == attempt
        invariant maxRetries >= 0 ==> attempt <= maxRetries
        invariant maxRetries < 0 ==> attempt == 0
        invariant forall i :: 0 <= i < attempt ==> AttemptOf(UrlResponse(replies(i)), decode).Rejected?
        decreases maxRetries + 1 - attempt
      {
        var _, response := AnalyzeUrl(url, prompt, true, replies(attempt));
        var outcome := AttemptOf(response, decode);
        calls := attempt + 1;
        if !IsAvailable() {
          UnavailableAttemptIsRejected(decode);
        }
        if outcome.Accepted? || attempt >= maxRetries {
          return outcome.value, calls;
        }
        attempt := attempt + 1;
      }
      return ErrorObject(MaxRetriesError), calls;
    }
  }

  /** One attempt of the retry loop: a reply accepted as the result, or an error value. */
  datatype Attempt = Accepted(value: Json) | Rejected(value: Json)

  /**
   * What the retry loop makes of one response: an exception while reading it, or while
   * testing `"error" in parsed`, becomes `{"error": str(e)}`; a value with an "error"
   * entry is an error; anything else is accepted.
   */
  function AttemptOf(response: Response, decode: Decoder): (r: Attempt)
  {
    match ParseJsonResponse(response, decode)
    case Raised(m) => Rejected(ErrorObject(m))
    case Ok(v) =>
      match In("error", v)
      case Raised(m) => Rejected(ErrorObject(m))
      case Ok(hasError) => if hasError then Rejected(v) else Accepted(v)
  }

  /** Without a usable client every attempt reads back the unavailability error. */
  lemma UnavailableAttemptIsRejected(decode: Decoder)
    ensures AttemptOf(ErrorJson(UnavailableError), decode) == Rejected(ErrorObject(UnavailableError))
  {
    assert HasKey(ErrorObject(UnavailableError).fields, "error");
  }

  /**
   * The code-fence removal of `parse_json_response`: a text opening with "```json" loses
   * every "```json" and then every "```", a text opening with "```" loses every "```",
   * and either is then stripped; any other text is left as it is.
   */
  function CleanFences(s: string): (r: string)
    ensures !StartsWith(s, "```") ==> r == s
  {
    if StartsWith(s, "```json") then Strip(ReplaceAll(ReplaceAll(s, "```json", ""), "```", ""))
    else if StartsWith(s, "```") then Strip(ReplaceAll(s, "```", ""))
    else s
  }

  /** A fenced reply keeps no fence at all, inner ones included, and has no outer whitespace. */
  lemma FencesRemoved(s: string)
    requires StartsWith(s, "```")
    ensures !Contains(CleanFences(s), "```")
    ensures CleanFences(s) == [] || (!IsSpace(CleanFences(s)[0]) && !IsSpace(CleanFences(s)[|CleanFences(s)| - 1]))
  {
    if StartsWith(s, "```json") {
      var once := ReplaceAll(s, "```json", "");
      NoFenceAfterRemoval(once);
      StripKeepsOut(ReplaceAll(once, "```", ""), "```");
      var _ := StripSpec(ReplaceAll(once, "```", ""));
    } else {
      NoFenceAfterRemoval(s);
      StripKeepsOut(ReplaceAll(s, "```", ""), "```");
      var _ := StripSpec(ReplaceAll(s, "```", ""));
    }
  }

  /** The value `parse_json_response` gives for text `json.loads` rejects. */
  function InvalidJson(cleaned: string): Json {
    JObj([("error", JStr(InvalidJsonError)), ("raw", JStr(cleaned))])
  }

  /**
   * `parse_json_response`: the fence-cleaned text decoded, or the invalid-JSON value with
   * the cleaned text. It raises only when there is no text at all (`None.startswith`).
   * The wrapper's own error text is `json.dumps({"error": m})`, which decodes to that dict.
   */
  function ParseJsonResponse(response: Response, decode: Decoder): (r: Outcome<Json>)
    ensures r.Raised? <==> response.Missing?
    ensures response.ErrorJson? ==> r == Ok(ErrorObject(response.error))
    ensures response.Body? && decode(CleanFences(response.text)).Parsed? ==>
              r == Ok(decode(CleanFences(response.text)).value)
    ensures response.Body? && decode(CleanFences(response.text)).DecodeError? ==>
              r == Ok(InvalidJson(CleanFences(response.text)))
  {
    match response
    case Missing => Raised("'NoneType' object has no attribute 'startswith'")
    case ErrorJson(m) => Ok(ErrorObject(m))
    case Body(text) =>
      var cleaned := CleanFences(text);
      match decode(cleaned)
      case Parsed(v) => Ok(v)
      case DecodeError(_) => Ok(InvalidJson(cleaned))
  }

  /** A reply that is not valid JSON is reported as an error value, never as an exception. */
  lemma InvalidReplyIsRejected(text: string, decode: Decoder)
    requires decode(CleanFences(text)).DecodeError?
    ensures AttemptOf(Body(text), decode) == Rejected(InvalidJson(CleanFences(text)))
  {
    assert HasKey(InvalidJson(CleanFences(text)).fields, "error");
  }

  /**
   * `create_ai_analyzer`: an analyzer when it is usable, otherwise None. The constructor
   * catches every failure of the client set-up itself, so it never raises here.
   */
  method CreateAiAnalyzer(apiKey: string, model: string, clientCreated: bool)
    returns (a: AIAnalyzer?)
    ensures a != null <==> clientCreated && apiKey != PlaceholderKey
    ensures a != null ==> fresh(a) && a.IsAvailable() && a.apiKey == apiKey && a.model == model
  {
    var analyzer := new AIAnalyzer(apiKey, model, clientCreated);
    if analyzer.IsAvailable() {
      return analyzer;
    }
    return null;
  }
}
