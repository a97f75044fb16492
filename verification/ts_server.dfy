/** The TypeScript tool adapter: the argument validators and the CallTool and
    ListTools handlers of PropertyScoutServer. Arguments are a decoded JSON
    value or absent (`undefined`); the way the one axios request settles is an
    input. */
module TsServer {
  import opened Wrappers
  import opened JsonValue
  import opened Upstream
  import opened Tools

  /** JavaScript's `typeof` on an argument value (None is `undefined`). */
  function TypeOf(v: Option<Json>): string
  {
    match v
    case None => "undefined"
    case Some(Null) => "object"
    case Some(Bool(_)) => "boolean"
    case Some(Num(_)) => "number"
    case Some(Str(_)) => "string"
    case Some(Arr(_)) => "object"
    case Some(Obj(_)) => "object"
  }

  /** `v[key]` for an argument value that is a non-null object, with a key
      (`query`, `url`, `text`) that no array has as a property. */
  function Member(v: Option<Json>, key: string): Option<Json>
  {
    if v.Some? && v.value.Obj? && key in v.value.fields then Some(v.value.fields[key]) else None
  }

  /** `typeof args === 'object' && args !== null && typeof args[key] === 'string'`. */
  predicate IsValidArgs(args: Option<Json>, key: string)
  {
    TypeOf(args) == "object" && args != Some(Null) && TypeOf(Member(args, key)) == "string"
  }

  /** `isValidSearchArgs`. */
  predicate IsValidSearchArgs(args: Option<Json>): (ok: bool)
    ensures ok <==> args.Some? && args.value.Obj? && "query" in args.value.fields
                    && args.value.fields["query"].Str?
  {
    IsValidArgs(args, "query")
  }

  /** `isValidExtractArgs`. */
  predicate IsValidExtractArgs(args: Option<Json>): (ok: bool)
    ensures ok <==> args.Some? && args.value.Obj? && "url" in args.value.fields
                    && args.value.fields["url"].Str?
  {
    IsValidArgs(args, "url")
  }

  /** `isValidAnalyzeArgs`. */
  predicate IsValidAnalyzeArgs(args: Option<Json>): (ok: bool)
    ensures ok <==> args.Some? && args.value.Obj? && "text" in args.value.fields
                    && args.value.fields["text"].Str?
  {
    IsValidArgs(args, "text")
  }

  /** The validator the handler applies for each tool. */
  predicate ArgsValidFor(kind: ToolKind, args: Option<Json>)
  {
    match kind
    case SearchTool => IsValidSearchArgs(args)
    case ExtractTool => IsValidExtractArgs(args)
    case AnalyzeTool => IsValidAnalyzeArgs(args)
  }

  function InvalidMessage(kind: ToolKind): string
  {
    match kind
    case SearchTool => "Invalid search arguments"
    case ExtractTool => "Invalid extract arguments"
    case AnalyzeTool => "Invalid analyze arguments"
  }

  /** The `text` of the one content block: `JSON.stringify(data, null, 2)`, the
      data as it came, or the template `${prefix}${value}`. */
  datatype TsText =
    | Serialized(data: Json)
    | RawData(data: Json)
    | Template(prefix: string, value: Json)

  datatype ToolResult = ToolResult(text: TsText, isError: bool)

  /** What leaves the handler as a thrown error once the request was sent:
      a non-axios error rethrown, or the TypeError of reading `message` off a
      null `error.response.data`. */
  datatype Thrown = Rethrown(message: string) | NullDataMessage

  datatype CallOutcome =
    | ProtocolError(code: ErrorCode, message: string)
    | Answered(sent: Outbound, result: ToolResult)
    | Threw(sent: Outbound, error: Thrown)

  /** `error.response?.data.message ?? error.message` inside the template, for
      an AxiosError whose `message` is `errorMessage` and whose response data is
      `data` (None when there is no response). */
  function AxiosErrorResult(kind: ToolKind, errorMessage: string, data: Option<Json>): (r: Result<ToolResult, Thrown>)
    ensures r.Failure? <==> data == Some(Null)
    ensures r.Failure? ==> r.error == NullDataMessage
    ensures r.Success? ==> r.value.isError && r.value.text.Template? && r.value.text.prefix == ApiErrorPrefix(kind)
    ensures r.Success? && data.Some? && data.value.Obj? && "message" in data.value.fields
            && data.value.fields["message"] != Null ==>
              r.value.text.value == data.value.fields["message"]
    ensures r.Success? && !(data.Some? && data.value.Obj? && "message" in data.value.fields
                            && data.value.fields["message"] != Null) ==>
              r.value.text.value == Str(errorMessage)
  {
    if data.None? then
      Success(ToolResult(Template(ApiErrorPrefix(kind), Str(errorMessage)), true))
    else if data.value.Null? then
      Failure(NullDataMessage)
    else if data.value.Obj? && "message" in data.value.fields && data.value.fields["message"] != Null then
      Success(ToolResult(Template(ApiErrorPrefix(kind), data.value.fields["message"]), true))
    else
      Success(ToolResult(Template(ApiErrorPrefix(kind), Str(errorMessage)), true))
  }

  /** The `try` / `catch` around the request, once it has been sent. */
  function Complete(kind: ToolKind, outcome: AxiosOutcome): (r: Result<ToolResult, Thrown>)
    ensures outcome.Settled? && AxiosAccepts(outcome.status) ==>
              r.Success? && !r.value.isError
              && r.value.text == (if kind.ExtractTool? then RawData(outcome.data) else Serialized(outcome.data))
    ensures outcome.Settled? && !AxiosAccepts(outcome.status) ==>
              r == AxiosErrorResult(kind, AxiosStatusMessage(outcome.status), Some(outcome.data))
    ensures outcome.NoResponse? ==> r == AxiosErrorResult(kind, outcome.message, None)
    ensures outcome.NonAxiosError? ==> r == Failure(Rethrown(outcome.message))
    ensures r.Success? ==> (r.value.isError <==> !(outcome.Settled? && AxiosAccepts(outcome.status)))
  {
    match outcome
    case Settled(status, data) =>
      if AxiosAccepts(status) then
        Success(ToolResult(if kind.ExtractTool? then RawData(data) else Serialized(data), false))
      else
        AxiosErrorResult(kind, AxiosStatusMessage(status), Some(data))
    case NoResponse(message) => AxiosErrorResult(kind, message, None)
    case NonAxiosError(message) => Failure(Rethrown(message))
  }

  /** The CallTool handler. */
  function CallTool(name: string, args: Option<Json>, outcome: AxiosOutcome): (r: CallOutcome)
    ensures ToolNamed(name).None? ==> r == ProtocolError(MethodNotFound, UnknownToolMessage(name))
    ensures ToolNamed(name).Some? ==>
              var kind := ToolNamed(name).value;
              && (r.ProtocolError? <==> !ArgsValidFor(kind, args))
              && (r.ProtocolError? ==> r == ProtocolError(InvalidParams, InvalidMessage(kind)))
              && (!r.ProtocolError? ==>
                    && args.Some? && args.value.Obj? && RequiredField(kind) in args.value.fields
                    && args.value.fields[RequiredField(kind)].Str?
                    && r.sent == ToolRequest(kind, args.value.fields[RequiredField(kind)]))
              && (r.Answered? <==> !r.ProtocolError? && Complete(kind, outcome).Success?)
              && (r.Answered? ==> r.result == Complete(kind, outcome).value)
              && (r.Threw? ==> r.error == Complete(kind, outcome).error)
  {
    match ToolNamed(name)
    case None => ProtocolError(MethodNotFound, UnknownToolMessage(name))
    case Some(kind) =>
      if !ArgsValidFor(kind, args) then
        ProtocolError(InvalidParams, InvalidMessage(kind))
      else
        var sent := ToolRequest(kind, args.value.fields[RequiredField(kind)]);
        match Complete(kind, outcome)
        case Success(result) => Answered(sent, result)
        case Failure(error) => Threw(sent, error)
  }

  /** Every advertised tool, called with a string in its one required field,
      passes its validator and sends its request. */
  lemma ListToolsMatchesDispatch(i: nat, value: string, outcome: AxiosOutcome)
    requires i < |Catalogue()|
    ensures
      var tool := Catalogue()[i];
      var field := tool.inputSchema.required[0];
      var kind := ToolNamed(tool.name).value;
      var call := CallTool(tool.name, Some(Obj(map[field := Str(value)])), outcome);
      !call.ProtocolError? && call.sent == ToolRequest(kind, Str(value))
  {
    var tool := Catalogue()[i];
    var kind := ToolNamed(tool.name).value;
    var field := RequiredField(kind);
    assert tool.inputSchema.required == [field];
    var args := Some(Obj(map[field := Str(value)]));
    assert ArgsValidFor(kind, args);
  }

  /** An upstream message is used only when the error response carries a
      non-null `message`; a string body or an object without one falls back to
      axios' own message. */
  lemma UpstreamMessagePreferred(kind: ToolKind, status: nat, message: string)
    requires !AxiosAccepts(status)
    ensures Complete(kind, Settled(status, Obj(map["message" := Str(message)])))
            == Success(ToolResult(Template(ApiErrorPrefix(kind), Str(message)), true))
    ensures Complete(kind, Settled(status, Str(message)))
            == Success(ToolResult(Template(ApiErrorPrefix(kind), Str(AxiosStatusMessage(status))), true))
    ensures Complete(kind, Settled(status, Obj(map["message" := Null])))
            == Success(ToolResult(Template(ApiErrorPrefix(kind), Str(AxiosStatusMessage(status))), true))
  {
  }
}
