/** The three external HTTP services as the handlers see them. Nothing here
    talks to the network: an outbound request is a described value, and what
    the network answers is an input to the handlers. Credentials (the Serper
    header key, the Browserless token, the Hugging Face bearer token) are
    process configuration and are not part of the model. */
module Upstream {
  import opened Wrappers
  import opened JsonValue

  /** The POST targets used by the two front doors. The Flask handlers call the
      Hugging Face router, the tool adapters the older inference host. */
  datatype Endpoint =
    | SerperSearch          // https://google.serper.dev/search
    | BrowserlessContent    // https://chrome.browserless.io/content?token=...
    | HuggingFaceRouter     // https://router.huggingface.co/hf-inference/models/distilbert-...
    | HuggingFaceInference  // https://api-inference.huggingface.co/models/distilbert-...

  /** One outbound POST with its JSON body. */
  datatype Outbound = Post(endpoint: Endpoint, body: Json)

  /** Number of results every search request asks Serper for. */
  const RequestedResults: int := 10

  /** Milliseconds the tool adapters ask Browserless to wait after loading. */
  const RenderWaitMillis: int := 2000

  /** `{q: query, num: 10}` to Serper. */
  function SearchRequest(query: Json): (o: Outbound)
    ensures o.endpoint == SerperSearch && o.body.Obj?
    ensures o.body.fields.Keys == {"q", "num"}
    ensures o.body.fields["q"] == query && o.body.fields["num"] == Num(RequestedResults)
  {
    Post(SerperSearch, Obj(map["q" := query, "num" := Num(RequestedResults)]))
  }

  /** `{url}` to Browserless, as the Flask handlers send it. */
  function ContentRequest(url: Json): (o: Outbound)
    ensures o.endpoint == BrowserlessContent && o.body.Obj?
    ensures o.body.fields.Keys == {"url"} && o.body.fields["url"] == url
  {
    Post(BrowserlessContent, Obj(map["url" := url]))
  }

  /** `{url, waitFor: 2000, gotoOptions: {waitUntil: 'networkidle0'}}` to
      Browserless, as both tool adapters send it. */
  function RenderedContentRequest(url: Json): (o: Outbound)
    ensures o.endpoint == BrowserlessContent && o.body.Obj?
    ensures o.body.fields.Keys == {"url", "waitFor", "gotoOptions"}
    ensures o.body.fields["url"] == url
    ensures o.body.fields["waitFor"] == Num(RenderWaitMillis)
    ensures o.body.fields["gotoOptions"] == Obj(map["waitUntil" := Str("networkidle0")])
  {
    Post(BrowserlessContent, Obj(map[
      "url" := url,
      "waitFor" := Num(RenderWaitMillis),
      "gotoOptions" := Obj(map["waitUntil" := Str("networkidle0")])]))
  }

  /** `{inputs: text}` to one of the two Hugging Face hosts. */
  function ClassifyRequest(host: Endpoint, text: Json): (o: Outbound)
    requires host == HuggingFaceRouter || host == HuggingFaceInference
    ensures o.endpoint == host && o.body.Obj?
    ensures o.body.fields.Keys == {"inputs"} && o.body.fields["inputs"] == text
  {
    Post(host, Obj(map["inputs" := text]))
  }

  // ---------------------------------------------------------------------
  // Python `requests`: what `requests.post` hands back.

  /** What `response.json()` does with a body: a value, or a JSONDecodeError
      with its message. */
  datatype Decoded = Parsed(value: Json) | Undecodable(message: string)

  /** A completed HTTP exchange: status code, reason phrase, final URL, body
      text (`response.text`) and its decoding (`response.json()`). */
  datatype Reply = Reply(status: nat, reason: string, url: string, text: string, json: Decoded)

  /** Either a reply of any status, or a `requests.RequestException` raised by
      `requests.post` itself (connection refused, timeout, ...) with `str(e)`. */
  datatype PyOutcome = Received(reply: Reply) | RequestFailed(message: string)

  /** A `requests.RequestException` as the handlers see it: only `str(e)` is used. */
  datatype RequestException = RequestException(message: string)

  /** The statuses on which `raise_for_status` raises: 4xx and 5xx only. */
  predicate IsHttpError(status: nat)
  {
    400 <= status < 600
  }

  /** `str(e)` of the HTTPError that `raise_for_status` raises: the three
      digits of the status, whether it is a client or a server error, then the
      reason phrase and the URL. */
  function HttpErrorMessage(reply: Reply): (m: string)
    requires IsHttpError(reply.status)
    ensures |m| >= 18 && forall i :: 0 <= i < 3 ==> IsDigit(m[i])
    ensures DigitsValue(m[..3]) == reply.status
    ensures m[3..18] == (if reply.status < 500 then " Client Error: " else " Server Error: ")
    ensures m[18..] == reply.reason + " for url: " + reply.url
  {
    var code := NatToString(reply.status);
    var m := code
             + (if reply.status < 500 then " Client Error: " else " Server Error: ")
             + reply.reason + " for url: " + reply.url;
    assert m[..3] == code;
    m
  }

  /** `requests.post(...)` followed by `response.raise_for_status()`. */
  function PostChecked(outcome: PyOutcome): (r: Result<Reply, RequestException>)
    ensures r.Success? <==> outcome.Received? && !IsHttpError(outcome.reply.status)
    ensures r.Success? ==> r.value == outcome.reply
    ensures outcome.RequestFailed? ==> r == Failure(RequestException(outcome.message))
    ensures outcome.Received? && IsHttpError(outcome.reply.status) ==>
              r == Failure(RequestException(HttpErrorMessage(outcome.reply)))
  {
    match outcome
    case RequestFailed(message) => Failure(RequestException(message))
    case Received(reply) =>
      if IsHttpError(reply.status) then Failure(RequestException(HttpErrorMessage(reply)))
      else Success(reply)
  }

  // ---------------------------------------------------------------------
  // JavaScript axios: how `axiosInstance.post` settles.

  /** A reply of any status with its decoded `data`; a rejection with an
      AxiosError that carries no response (network failure, timeout) and its
      `message`; or a rejection with an error that is not an AxiosError. */
  datatype AxiosOutcome =
    | Settled(status: nat, data: Json)
    | NoResponse(message: string)
    | NonAxiosError(message: string)

  /** axios' default `validateStatus`: only 2xx replies resolve the promise. */
  predicate AxiosAccepts(status: nat)
  {
    200 <= status < 300
  }

  /** `error.message` of the AxiosError raised for a rejected status: a fixed
      phrase followed by the digits of the status. */
  function AxiosStatusMessage(status: nat): (m: string)
    ensures |m| > 32 && m[..32] == "Request failed with status code "
    ensures forall i :: 32 <= i < |m| ==> IsDigit(m[i])
    ensures DigitsValue(m[32..]) == status
  {
    var m := "Request failed with status code " + NatToString(status);
    assert m[32..] == NatToString(status);
    m
  }
}
