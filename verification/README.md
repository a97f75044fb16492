# AI-Property-Scout: a Dafny model of its request and response shaping

AI-Property-Scout chains three HTTP services: Serper (web search), Browserless
(rendered page content) and a Hugging Face text classifier. It has two front
doors:

- a Flask application (`app.py`) with `POST /search`, `POST /extract`,
  `POST /analyze` and the pipeline `GET /find_house`;
- a tool adapter for the Model Context Protocol, written twice: in Python
  (`property-scout-server/server.py`) and in TypeScript
  (`property-scout-server/src/property-scout-server/index.ts`).

Every operation makes outbound HTTP calls. The model keeps the deterministic
logic around those calls and makes the network an input:

- a request is a described value (`Upstream.Outbound`: endpoint and JSON body);
- what `requests` hands back is a `PyOutcome`: a reply of any status with its
  text and its decoding, or a `RequestException`;
- what axios settles with is an `AxiosOutcome`: a reply of any status, an
  AxiosError without a response, or some other error;
- in `/find_house`, the two calls made on each turn of the loop are function
  parameters indexed by the turn: `extract` gives the body text and
  `classify` gives the decoded answer, so every call has its own reply.

Modules, one per component:

| file | module | models |
|---|---|---|
| `json_value.dfy` | `JsonValue` | decoded JSON, Python truthiness, Python `in` on strings, decimal rendering |
| `upstream.dfy` | `Upstream` | endpoints, request bodies, `raise_for_status`, axios' status rule |
| `url_selection.dfy` | `UrlSelection` | the `organic[:N]` / `'link' in result` loop of `app.py` |
| `app.dfy` | `App` | the four Flask handlers and the `/find_house` pipeline loop |
| `tools.dfy` | `Tools` | tool names, required fields, requests and catalogue shared by both adapters |
| `py_server.dfy` | `PyServer` | `call_tool` and `list_tools` of `server.py` |
| `ts_server.dfy` | `TsServer` | the validators and the CallTool / ListTools handlers of `index.ts` |
| `adapters.dfy` | `AdapterComparison` | how the two adapters' argument checks relate |
| `wrappers.dfy` | `Wrappers` | `Option` and `Result` |

The URL selection loop is the method `UrlSelection.SelectUrls`. It is proved
equal to the function `UrlSelection.Selected`. The properties of the
selection are proved as lemmas about that function:

- the slice comes before the filter;
- links come out in order, with duplicates kept;
- records without a `link` are skipped;
- the three URLs of `/find_house` are a prefix of the five URLs of `/search`.

The pipeline loop is the method `App.RunPipeline`, and `App.FindHouse` calls
both methods.

Behaviour of the code worth knowing, each stated as a contract:

- `/extract` and `/analyze` answer 500 with `{error}` on any upstream
  failure (app.py:65-69, :90-94; `App.Extract`, `App.Analyze`).
- `/find_house` checks no status (app.py:113, :131, :144): the search reply
  is read whatever its status (`App.FindHouseIgnoresStatus`).
- `raise_for_status` raises only for statuses 400–599
  (`Upstream.PostChecked`).
- Fewer than min(M, limit) URLs come out of M organic records when some of
  the first `limit` records have no `link` (app.py:41-43;
  `UrlSelection.SliceBeforeFilter`).
- Python payloads of unexpected shape are modelled as Python treats them. For
  example, `organic` may be a string, or a record may not be a dictionary.
  When the loop raises, the result is `ShapeError`: a 500 `{error}` in
  `/search`, and Flask's uncaught-exception 500 page in `/find_house`.

## Model

| member | source | states |
|---|---|---|
| `UrlSelection.Take` | app.py:41 | `organic[:n]` keeps at most `n` elements, exactly `n` when there are enough, and is a prefix of the list |
| `UrlSelection.Selected` | app.py:38-43 | the selected URLs number at most the limit and at most the number of organic records; a payload without `organic` gives no URLs |
| `UrlSelection.OrganicOfCases` | app.py:40-41 | `'organic' in payload` then `payload['organic'][:n]`, per payload shape: an object without `organic` gives no records; a list under `organic` is sliced; a string under `organic` yields characters; any other value there raises; a list or string payload raises exactly when it contains "organic"; null, a boolean or a number raises |
| `UrlSelection.RecordOfCases` | app.py:42-43 | `'link' in result` then `result['link']`, per record shape: an object offers its `link` when it has one; a list or string raises exactly when it contains "link" and never offers a link; null, a boolean or a number raises |
| `UrlSelection.CharacterHasNoLink` | app.py:42 | a one-character string never contains "link", so a string under `organic` selects no URL |
| `UrlSelection.SelectedPicksLinks` | app.py:40-43 | every selected URL is the link of one of the first `limit` organic records, and the URLs are exactly those records' links in order, duplicates kept; no `organic` list gives no URLs |
| `UrlSelection.SelectUrls` | app.py:115-119 | the appending loop over the sliced records computes exactly `Selected`, including raising on a record it cannot read |
| `UrlSelection.LinksAppend` | app.py:41-43 | running the loop over two stretches of records concatenates their URL lists: order is kept, nothing is merged |
| `UrlSelection.LinksLength` | app.py:41-43 | the loop yields no more URLs than records it examines |
| `UrlSelection.LinksPicksEveryLink` | app.py:40-43 | there is an increasing list of positions, covering every record that has a `link`, whose links are exactly the selected URLs in order (duplicates kept, link-less records skipped) |
| `UrlSelection.ShiftedPicks` | app.py:41-43 | the positions picked in the records after the first are picked one place later in the whole list |
| `UrlSelection.ConsPicks` | app.py:42-43 | a first record with a `link` is picked at position 0, ahead of the links of the rest |
| `UrlSelection.SkipPicks` | app.py:42 | a first record without a `link` adds nothing |
| `UrlSelection.ObjectRecordsNeverRaise` | app.py:42-43 | when every record is a dictionary the loop never raises |
| `UrlSelection.WellShapedSelects` | app.py:40-43 | a payload of the documented shape (an object whose `organic` is a list of objects) always yields a URL list |
| `UrlSelection.SelectedPrefix` | app.py:41 | examining fewer records yields a prefix of the URLs |
| `UrlSelection.PipelineUrlsPrefixSearchUrls` | app.py:117 | the three URLs `/find_house` processes are the beginning of the five `/search` returns for the same payload |
| `UrlSelection.SliceBeforeFilter` | app.py:117-119 | three link-less records followed by a linked one give no URL at limit 3 but one URL at limit 5 |
| `App.Search` | app.py:18-47 | sends `{q, num: 10}` with the given query, or the default only when `query` is absent; 200 with the payload and its first-five URLs exactly when the call succeeds, the body decodes and the loop does not raise; otherwise 500 with `{error}` |
| `App.SearchDefaultOnlyWhenAbsent` | app.py:21 | an absent query becomes the default, while an explicit null or empty query is sent unchanged |
| `App.Extract` | app.py:49-69 | a missing or falsy `url` gives 400 "URL required" with no request sent; otherwise it sends `{url}` and answers 200 with the body text exactly when no exception is raised, else 500 |
| `App.Analyze` | app.py:71-94 | a missing or falsy `text` gives 400 "Text required" with no request sent; otherwise it sends `{inputs: text}` and answers 200 with the decoded analysis exactly when the call succeeds and decodes, else 500 |
| `App.ClassifierInput` | app.py:137 | the classifier gets at most 512 characters, a prefix of the content, equal to the content when it is that short |
| `App.RunPipeline` | app.py:121-150 | one triple per URL, in order: the URL itself, exactly the extractor's reply on that turn, and the classifier's reply on that turn for the 512-character prefix; the requests sent are, per URL in order, the Browserless request for the URL followed by the Hugging Face request for the prefix |
| `App.FindHouse` | app.py:96-156 | first sends the search `{q: default query, num: 10}`, and nothing else when it fails; echoes the fixed query and the search payload unchanged, with at most three triples processed in order (none without `organic`) and their requests sent in order; the search status is never checked; search, decode or shape failures escape as 500 |
| `App.FindHouseIgnoresStatus` | app.py:113 | the payload `/find_house` works on does not depend on the search reply's status |
| `Upstream.SearchRequest` | app.py:24-29 | the search body has exactly the keys `q` (the query) and `num` (10) |
| `Upstream.ContentRequest` | app.py:58-60 | the Flask extract body has exactly the key `url` |
| `Upstream.RenderedContentRequest` | property-scout-server/server.py:68-74 | the adapters' extract body has exactly `url`, `waitFor: 2000` and `gotoOptions: {waitUntil: 'networkidle0'}` |
| `Upstream.ClassifyRequest` | app.py:80-84 | the classify body has exactly the key `inputs`, holding the text |
| `Upstream.PostChecked` | app.py:58-65 | the call succeeds exactly on a reply outside 400–599; otherwise it gives the connection error's message or the HTTPError text |
| `Tools.ToolNamed` | property-scout-server/server.py:37-108 | a name selects the tool whose name it is, and selects nothing exactly when it matches none of the three |
| `Tools.ToolRequest` | property-scout-server/server.py:44-101 | search sends `{q, num: 10}` to Serper, extract sends the rendered-content body to Browserless, analyze sends `{inputs}` to the inference host |
| `Tools.Catalogue` | property-scout-server/src/property-scout-server/index.ts:76-121 | exactly three tools with distinct names, one per kind; each schema is an object with exactly one property, a required string, the field the dispatcher checks |
| `PyServer.ResultText` | property-scout-server/server.py:43-59 | a successful reply's text is returned unchanged; a connection error or a 4xx/5xx reply becomes the API name followed by `str(e)` |
| `PyServer.CallTool` | property-scout-server/server.py:35-109 | an unknown name gives METHOD_NOT_FOUND; a known tool gives INVALID_PARAMS exactly when the arguments are absent, empty or lack its key; otherwise it sends that tool's request with the key's value, whatever its type, and returns one text block |
| `PyServer.ListToolsMatchesDispatch` | property-scout-server/server.py:111-156 | `list_tools` returns the catalogue, and each advertised tool, called with just its required field, is dispatched and sends its request |
| `PyServer.ValidationPrecedesRequest` | property-scout-server/server.py:38-39 | a rejected call is rejected whatever the upstream would answer, and an accepted call sends the same request whatever it answers |
| `PyServer.UpstreamFailureIsText` | property-scout-server/server.py:58-59 | with valid arguments every upstream outcome yields a text block, prefixed with the API name on failure; nothing is raised |
| `TsServer.IsValidSearchArgs` | property-scout-server/src/property-scout-server/index.ts:26-31 | accepts exactly a JSON object whose `query` is a string |
| `TsServer.IsValidExtractArgs` | property-scout-server/src/property-scout-server/index.ts:33-38 | accepts exactly a JSON object whose `url` is a string |
| `TsServer.IsValidAnalyzeArgs` | property-scout-server/src/property-scout-server/index.ts:40-45 | accepts exactly a JSON object whose `text` is a string |
| `TsServer.AxiosErrorResult` | property-scout-server/src/property-scout-server/index.ts:157-169 | an axios error gives `isError: true` and the API name followed by the response's non-null `message` if any, else the error's own message; null response data throws instead |
| `TsServer.Complete` | property-scout-server/src/property-scout-server/index.ts:134-171 | a 2xx reply gives `isError: false` with the serialised data (raw data for extract); other statuses and network errors go through the axios-error path; non-axios errors are rethrown |
| `TsServer.CallTool` | property-scout-server/src/property-scout-server/index.ts:123-273 | an unknown name gives MethodNotFound; a known tool gives InvalidParams exactly when its validator fails, before any request; otherwise it sends the tool's request with the string field and returns or throws as `Complete` says |
| `TsServer.ListToolsMatchesDispatch` | property-scout-server/src/property-scout-server/index.ts:76-132 | ListTools returns the catalogue, and each advertised tool, called with a string in its required field, passes validation and sends its request |
| `TsServer.UpstreamMessagePreferred` | property-scout-server/src/property-scout-server/index.ts:163-164 | an error body `{message}` supplies the text; a string body or a null `message` falls back to axios' "Request failed with status code N" |
| `AdapterComparison.TsAcceptanceImpliesPyAcceptance` | property-scout-server/src/property-scout-server/index.ts:26-45 | arguments the TypeScript validators accept are accepted by the Python key check too, and both send the identical request |
| `AdapterComparison.NonStringQueryOnlyPythonAccepts` | property-scout-server/server.py:38-41 | a numeric `query` is sent to Serper by the Python adapter but rejected with InvalidParams by the TypeScript one |
| `AdapterComparison.UnknownToolAgrees` | property-scout-server/src/property-scout-server/index.ts:267-271 | both adapters reject an unknown name with MethodNotFound and "Unknown tool: name" |
| `JsonValue.ContainsIffOccurs` | app.py:40 | Python's `in` on strings holds exactly when the needle occurs at some position |
| `JsonValue.Truthy` | app.py:54 | `if not url` / `if not text` treat exactly null, false, 0, "", [] and {} as missing |
| `JsonValue.NatToString` | app.py:65 | the decimal form of a status code is a non-empty digit string that reads back as the code, three digits long for codes 100–999 |
| `Upstream.HttpErrorMessage` | app.py:65 | `str(e)` of the HTTPError starts with the three digits of the status, then " Client Error: " below 500 or " Server Error: " from 500, then the reason and " for url: " with the URL |
| `Upstream.AxiosStatusMessage` | property-scout-server/src/property-scout-server/index.ts:163-164 | axios' error message for a rejected status is "Request failed with status code " followed by digits that read back as the status |

## Left out

- Network traffic, the credentials it carries and the request headers
  (`X-API-KEY`, the Browserless `token`, `Authorization`, `Content-Type`).
  Requests are described values and replies are inputs.
- Loading `.env` files and environment variables, and the adapters' startup
  check that the three keys are present: process configuration.
- Flask routing, `render_template` for `/`, `jsonify`, and the MCP SDK server.
  The stdio transport, the SIGINT handler and `async`/`await` are also left
  out: framework and concurrency plumbing.
- JSON parsing and printing are library behaviour. A reply carries its
  decoding as a value. `TsServer.TsText.Serialized(data)` stands for
  `JSON.stringify(data, null, 2)`. `Template(prefix, value)` stands for
  JavaScript's string conversion of `value` after `prefix`; that conversion is
  not spelled out for non-string values.
- JSON numbers with a fractional part are not represented. Numbers are
  integers; upstream numbers are passed through and only truth-tested.
- A Flask request body that is not a JSON object (`request.json` being
  `None` or a list) is not modelled. There `data.get` fails before any
  handler logic runs.
- `str(e)` of the TypeError/KeyError raised by the selection loop is not
  spelled out (`App.AppException.Shape`).
- App.FindHouse: in `/find_house`, a failure of the per-URL Browserless or
  Hugging Face call escapes as an uncaught exception. The model does not
  capture this: `extract` and `classify` are total functions. Only failures of
  the search step are modelled, and a triple's analysis is whatever the
  classifier's reply decodes to.
- `TsServer.Member` treats every array and scalar as having no `query`,
  `url` or `text` property. That is true of JavaScript values; other
  property names are never read.
- The Python SDK's wrapping of `call_tool`'s returned list into a result
  with `isError: false` is left out. `PyServer.CallOutcome.Answered` carries
  the one text block.
