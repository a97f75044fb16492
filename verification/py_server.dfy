/** The Python tool adapter: `call_tool` and `list_tools` of the
    property-scout server. A call names a tool and may carry an arguments
    dictionary; the upstream outcome of the one request it sends is an input. */
module PyServer {
  import opened Wrappers
  import opened JsonValue
  import opened Upstream
  import opened Tools

  /** A call either raises an McpError before any request is sent, or sends
      one request and returns one text block. */
  datatype CallOutcome =
    | ProtocolError(code: ErrorCode, message: string)
    | Answered(sent: Outbound, text: string)

  /** `not request.arguments or key not in request.arguments` is false: the
      dictionary is present, not empty, and has the key (of any value). */
  predicate HasArgument(arguments: Option<map<string, Json>>, key: string)
  {
    arguments.Some? && arguments.value != map[] && key in arguments.value
  }

  function MissingMessage(kind: ToolKind): string
  {
    "Missing " + RequiredField(kind) + " parameter"
  }

  /** The text block after the request is sent: the reply body as it came,
      or the API's name and `str(e)` of the RequestException. Never raises. */
  function ResultText(kind: ToolKind, outcome: PyOutcome): (text: string)
    ensures outcome.Received? && !IsHttpError(outcome.reply.status) ==> text == outcome.reply.text
    ensures outcome.RequestFailed? ==> text == ApiErrorPrefix(kind) + outcome.message
    ensures outcome.Received? && IsHttpError(outcome.reply.status) ==>
              text == ApiErrorPrefix(kind) + HttpErrorMessage(outcome.reply)
  {
    match PostChecked(outcome)
    case Success(reply) => reply.text
    case Failure(e) => ApiErrorPrefix(kind) + e.message
  }

  /** `call_tool`. */
  function CallTool(name: string, arguments: Option<map<string, Json>>, outcome: PyOutcome): (r: CallOutcome)
    ensures ToolNamed(name).None? ==> r == ProtocolError(MethodNotFound, UnknownToolMessage(name))
    ensures ToolNamed(name).Some? ==>
              var kind := ToolNamed(name).value;
              && (r.ProtocolError? <==> !HasArgument(arguments, RequiredField(kind)))
              && (r.ProtocolError? ==> r == ProtocolError(InvalidParams, MissingMessage(kind)))
              && (r.Answered? ==>
                    && arguments.Some? && RequiredField(kind) in arguments.value
                    && r.sent == ToolRequest(kind, arguments.value[RequiredField(kind)])
                    && r.text == ResultText(kind, outcome))
  {
    match ToolNamed(name)
    case None => ProtocolError(MethodNotFound, UnknownToolMessage(name))
    case Some(kind) =>
      if !HasArgument(arguments, RequiredField(kind)) then
        ProtocolError(InvalidParams, MissingMessage(kind))
      else
        Answered(ToolRequest(kind, arguments.value[RequiredField(kind)]), ResultText(kind, outcome))
  }

  /** Every advertised tool, called with its one required field, sends its
      request: the catalogue and the dispatcher agree. */
  lemma ListToolsMatchesDispatch(i: nat, value: Json, outcome: PyOutcome)
    requires i < |Catalogue()|
    ensures
      var tool := Catalogue()[i];
      var field := tool.inputSchema.required[0];
      var kind := ToolNamed(tool.name).value;
      CallTool(tool.name, Some(map[field := value]), outcome)
        == Answered(ToolRequest(kind, value), ResultText(kind, outcome))
  {
    var tool := Catalogue()[i];
    var kind := ToolNamed(tool.name).value;
    var field := RequiredField(kind);
    assert tool.inputSchema.required == [field];
    var arguments := map[field := value];
    assert field in arguments && arguments != map[];
    assert HasArgument(Some(arguments), field);
  }

  /** Validation happens before the request: a call that raises does so
      whatever the upstream would have answered, and a call that answers sends
      the same request whatever the upstream answers. */
  lemma ValidationPrecedesRequest(name: string, arguments: Option<map<string, Json>>,
                                  first: PyOutcome, second: PyOutcome)
    ensures CallTool(name, arguments, first).ProtocolError? ==>
              CallTool(name, arguments, first) == CallTool(name, arguments, second)
    ensures CallTool(name, arguments, first).Answered? ==>
              CallTool(name, arguments, second).Answered?
              && CallTool(name, arguments, second).sent == CallTool(name, arguments, first).sent
  {
  }

  /** Upstream failures never raise: once the arguments pass, every outcome,
      including a 4xx/5xx reply or a connection error, yields a text block. */
  lemma UpstreamFailureIsText(name: string, arguments: Option<map<string, Json>>, outcome: PyOutcome)
    requires ToolNamed(name).Some?
    requires HasArgument(arguments, RequiredField(ToolNamed(name).value))
    ensures CallTool(name, arguments, outcome).Answered?
    ensures !PostChecked(outcome).Success? ==>
              StartsWith(CallTool(name, arguments, outcome).text, ApiErrorPrefix(ToolNamed(name).value))
  {
    var kind := ToolNamed(name).value;
    var text := CallTool(name, arguments, outcome).text;
    if !PostChecked(outcome).Success? {
      var prefix := ApiErrorPrefix(kind);
      assert text[..|prefix|] == prefix;
    }
  }
}
