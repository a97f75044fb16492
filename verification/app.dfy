/** The Flask front door: `/search`, `/extract`, `/analyze` and the
    `/find_house` pipeline. A request body is the decoded JSON object; each
    upstream call's outcome is an input. */
module App {
  import opened Wrappers
  import opened JsonValue
  import opened Upstream
  import opened UrlSelection

  /** The query `/search` falls back to, and the one `/find_house` always uses. */
  const DefaultQuery: string := "10 Marla house DHA Phase 6 under 5 Crore"

  /** Characters of extracted content handed to the classifier by `/find_house`. */
  const ClassifierInputLimit: nat := 512

  /** The exceptions a handler can meet, each with what `str(e)` is built from. */
  datatype AppException =
    | Requests(exception: RequestException)  // requests.post or raise_for_status
    | JsonDecode(message: string)            // response.json() on a body that is not JSON
    | Shape                                  // the selection loop on a payload of an unexpected shape

  /** The `error` member of an error body: a fixed message, or `str(e)`. */
  datatype ErrorText = Message(text: string) | Described(exception: AppException)

  /** One element of `extracted_data`. */
  datatype Extracted = Extracted(url: Json, content: string, analysis: Json)

  datatype Body =
    | SearchResults(searchResults: Json, urls: seq<Json>)
    | Content(content: string)
    | Analysis(analysis: Json)
    | HouseReport(query: string, searchResults: Json, extractedData: seq<Extracted>)
    | ErrorJson(error: ErrorText)
    | ServerErrorPage(cause: AppException)   // Flask's own page for an exception the handler lets escape

  datatype Response = Response(status: nat, body: Body)

  /** The request a handler sends, if any, and the response it gives. */
  datatype Exchange = Exchange(sent: Option<Outbound>, response: Response)

  /** `return jsonify({'error': str(e)}), 500`. */
  function Failed(e: AppException): Response
  {
    Response(500, ErrorJson(Described(e)))
  }

  /** `if not data.get(key)`: the key is absent or its value is falsy. */
  predicate Missing(data: map<string, Json>, key: string)
  {
    key !in data || !Truthy(data[key])
  }

  /** POST /search. */
  function Search(data: map<string, Json>, outcome: PyOutcome): (ex: Exchange)
    ensures "query" in data ==> ex.sent == Some(SearchRequest(data["query"]))
    ensures "query" !in data ==> ex.sent == Some(SearchRequest(Str(DefaultQuery)))
    ensures ex.response.status == 200 || ex.response.status == 500
    ensures ex.response.status == 200 <==>
              && outcome.Received?
              && !IsHttpError(outcome.reply.status)
              && outcome.reply.json.Parsed?
              && Selected(outcome.reply.json.value, SearchUrlLimit).Urls?
    ensures ex.response.status == 200 ==>
              && outcome.Received? && outcome.reply.json.Parsed?
              && ex.response.body
                 == SearchResults(outcome.reply.json.value,
                                  Selected(outcome.reply.json.value, SearchUrlLimit).urls)
    ensures ex.response.status == 500 ==> ex.response.body.ErrorJson? && ex.response.body.error.Described?
    ensures outcome.RequestFailed? ==>
              ex.response == Failed(Requests(RequestException(outcome.message)))
    ensures outcome.Received? && IsHttpError(outcome.reply.status) ==>
              ex.response == Failed(Requests(RequestException(HttpErrorMessage(outcome.reply))))
  {
    var query := if "query" in data then data["query"] else Str(DefaultQuery);
    var response :=
      match PostChecked(outcome)
      case Failure(e) => Failed(Requests(e))
      case Success(reply) =>
        match reply.json
        case Undecodable(message) => Failed(JsonDecode(message))
        case Parsed(payload) =>
          match Selected(payload, SearchUrlLimit)
          case ShapeError => Failed(Shape)
          case Urls(urls) => Response(200, SearchResults(payload, urls));
    Exchange(Some(SearchRequest(query)), response)
  }

  /** POST /extract. */
  function Extract(data: map<string, Json>, outcome: PyOutcome): (ex: Exchange)
    ensures ex.sent.None? <==> Missing(data, "url")
    ensures Missing(data, "url") ==> ex.response == Response(400, ErrorJson(Message("URL required")))
    ensures !Missing(data, "url") ==> ex.sent == Some(ContentRequest(data["url"]))
    ensures !Missing(data, "url") ==>
              (ex.response.status == 200 <==> outcome.Received? && !IsHttpError(outcome.reply.status))
    ensures ex.response.status == 200 ==>
              outcome.Received? && ex.response.body == Content(outcome.reply.text)
    ensures !Missing(data, "url") && ex.response.status != 200 ==>
              ex.response.status == 500 && ex.response.body.ErrorJson?
              && ex.response.body.error.Described? && ex.response.body.error.exception.Requests?
  {
    if Missing(data, "url") then
      Exchange(None, Response(400, ErrorJson(Message("URL required"))))
    else
      var response :=
        match PostChecked(outcome)
        case Failure(e) => Failed(Requests(e))
        case Success(reply) => Response(200, Content(reply.text));
      Exchange(Some(ContentRequest(data["url"])), response)
  }

  /** POST /analyze. */
  function Analyze(data: map<string, Json>, outcome: PyOutcome): (ex: Exchange)
    ensures ex.sent.None? <==> Missing(data, "text")
    ensures Missing(data, "text") ==> ex.response == Response(400, ErrorJson(Message("Text required")))
    ensures !Missing(data, "text") ==>
              ex.sent == Some(ClassifyRequest(HuggingFaceRouter, data["text"]))
    ensures !Missing(data, "text") ==>
              (ex.response.status == 200 <==>
                 outcome.Received? && !IsHttpError(outcome.reply.status) && outcome.reply.json.Parsed?)
    ensures ex.response.status == 200 ==>
              outcome.Received? && outcome.reply.json.Parsed?
              && ex.response.body == Analysis(outcome.reply.json.value)
    ensures !Missing(data, "text") && ex.response.status != 200 ==>
              ex.response.status == 500 && ex.response.body.ErrorJson? && ex.response.body.error.Described?
  {
    if Missing(data, "text") then
      Exchange(None, Response(400, ErrorJson(Message("Text required"))))
    else
      var response :=
        match PostChecked(outcome)
        case Failure(e) => Failed(Requests(e))
        case Success(reply) =>
          match reply.json
          case Undecodable(message) => Failed(JsonDecode(message))
          case Parsed(analysis) => Response(200, Analysis(analysis));
      Exchange(Some(ClassifyRequest(HuggingFaceRouter, data["text"])), response)
  }

  // ---------------------------------------------------------------------
  // GET /find_house: search, then extract and classify each URL in turn.

  /** `content[:512]`: what the classifier is given for one page. */
  function ClassifierInput(content: string): (input: string)
    ensures |input| <= ClassifierInputLimit
    ensures input <= content
    ensures |content| <= ClassifierInputLimit ==> input == content
    ensures ClassifierInputLimit <= |content| ==> |input| == ClassifierInputLimit
  {
    Take(content, ClassifierInputLimit)
  }

  /** One triple per URL, in the URLs' order: the URL itself, exactly what the
      extractor answered on that turn of the loop, and the classifier's answer
      on that turn for the content's prefix. */
  ghost predicate ProcessedInOrder(urls: seq<Json>, results: seq<Extracted>,
                                   extract: (nat, Json) -> string, classify: (nat, string) -> Json)
  {
    && |results| == |urls|
    && forall i :: 0 <= i < |urls| ==>
         results[i] == Extracted(urls[i], extract(i, urls[i]),
                                 classify(i, ClassifierInput(extract(i, urls[i]))))
  }

  /** Two requests per URL, in the URLs' order: the Browserless request for
      the URL, then the Hugging Face request for the prefix of what came back. */
  ghost predicate SentInOrder(urls: seq<Json>, results: seq<Extracted>, sent: seq<Outbound>)
    requires |results| == |urls|
  {
    && |sent| == 2 * |urls|
    && forall i :: 0 <= i < |urls| ==>
         && sent[2 * i] == ContentRequest(urls[i])
         && sent[2 * i + 1] == ClassifyRequest(HuggingFaceRouter, Str(ClassifierInput(results[i].content)))
  }

  /** The `for url in urls` loop of `/find_house`. `extract(i, url)` stands for
      the `.text` of the Browserless reply on turn `i`, and `classify(i, input)`
      for the `.json()` of the Hugging Face reply on turn `i`: every call gets
      its own reply, so a URL listed twice may be answered differently. No
      status is checked on either. */
  method RunPipeline(urls: seq<Json>, extract: (nat, Json) -> string, classify: (nat, string) -> Json)
    returns (results: seq<Extracted>, sent: seq<Outbound>)
    ensures ProcessedInOrder(urls, results, extract, classify)
    ensures SentInOrder(urls, results, sent)
  {
    results, sent := [], [];
    for i := 0 to |urls|
      invariant ProcessedInOrder(urls[..i], results, extract, classify)
      invariant SentInOrder(urls[..i], results, sent)
    {
      var url := urls[i];
      sent := sent + [ContentRequest(url)];
      var content := extract(i, url);
      var input := ClassifierInput(content);
      sent := sent + [ClassifyRequest(HuggingFaceRouter, Str(input))];
      var analysis := classify(i, input);
      results := results + [Extracted(url, content, analysis)];
    }
    assert urls[..|urls|] == urls;
  }

  /** The search request `/find_house` sends first: the fixed query, ten results. */
  const FindHouseSearch: Outbound := SearchRequest(Str(DefaultQuery))

  /** The payload `/find_house` works on: `search_response.json()`, read whatever
      the status code was. */
  function PayloadOf(search: PyOutcome): Option<Json>
  {
    if search.Received? && search.reply.json.Parsed? then Some(search.reply.json.value) else None
  }

  /** GET /find_house, given the outcome of its search request. */
  method FindHouse(search: PyOutcome, extract: (nat, Json) -> string, classify: (nat, string) -> Json)
    returns (sent: seq<Outbound>, response: Response)
    ensures |sent| >= 1 && sent[0] == FindHouseSearch
    ensures response.status != 200 ==> sent == [FindHouseSearch]
    ensures search.RequestFailed? ==>
              response == Response(500, ServerErrorPage(Requests(RequestException(search.message))))
    ensures search.Received? && search.reply.json.Undecodable? ==>
              response == Response(500, ServerErrorPage(JsonDecode(search.reply.json.message)))
    ensures PayloadOf(search).Some? && Selected(PayloadOf(search).value, PipelineUrlLimit).ShapeError? ==>
              response == Response(500, ServerErrorPage(Shape))
    ensures response.status == 200 <==>
              PayloadOf(search).Some? && Selected(PayloadOf(search).value, PipelineUrlLimit).Urls?
    ensures response.status == 200 ==>
              && PayloadOf(search).Some?
              && var payload := PayloadOf(search).value;
              && response.body.HouseReport?
              && response.body.query == DefaultQuery
              && response.body.searchResults == payload
              && |response.body.extractedData| <= PipelineUrlLimit
              && ProcessedInOrder(Selected(payload, PipelineUrlLimit).urls,
                                  response.body.extractedData, extract, classify)
              && SentInOrder(Selected(payload, PipelineUrlLimit).urls,
                             response.body.extractedData, sent[1..])
              && (OrganicOf(payload).Absent? ==> response.body.extractedData == [])
  {
    sent := [FindHouseSearch];
    match search {
      case RequestFailed(message) =>
        return sent, Response(500, ServerErrorPage(Requests(RequestException(message))));
      case Received(reply) =>
        match reply.json {
          case Undecodable(message) =>
            return sent, Response(500, ServerErrorPage(JsonDecode(message)));
          case Parsed(payload) =>
            var selection := SelectUrls(payload, PipelineUrlLimit);
            match selection {
              case ShapeError =>
                return sent, Response(500, ServerErrorPage(Shape));
              case Urls(urls) =>
                var results, pipelineSent := RunPipeline(urls, extract, classify);
                assert (sent + pipelineSent)[1..] == pipelineSent;
                return sent + pipelineSent, Response(200, HouseReport(DefaultQuery, payload, results));
            }
        }
    }
  }

  /** `/find_house` reads the search payload without looking at the status:
      a 4xx or 5xx reply with a JSON body is processed like a 200. */
  lemma FindHouseIgnoresStatus(reply: Reply, status: nat)
    ensures PayloadOf(Received(reply.(status := status))) == PayloadOf(Received(reply))
  {
  }

  /** `/search` falls back to the default query only when `query` is absent:
      an explicit null or empty query is sent as it is. */
  lemma SearchDefaultOnlyWhenAbsent(outcome: PyOutcome)
    ensures Search(map[], outcome).sent == Some(SearchRequest(Str(DefaultQuery)))
    ensures Search(map["query" := Null], outcome).sent == Some(SearchRequest(Null))
    ensures Search(map["query" := Str("")], outcome).sent == Some(SearchRequest(Str("")))
  {
  }
}
