/** What the two tool adapters share: the three tool names, the field each
    requires, the request each sends, the advertised catalogue and the
    protocol's error codes. */
module Tools {
  import opened Wrappers
  import opened JsonValue
  import opened Upstream

  datatype ToolKind = SearchTool | ExtractTool | AnalyzeTool

  function ToolName(kind: ToolKind): string
  {
    match kind
    case SearchTool => "search_properties"
    case ExtractTool => "extract_property_data"
    case AnalyzeTool => "analyze_properties"
  }

  /** The tool a call names, found by comparing the name with each tool's in turn. */
  function ToolNamed(name: string): (kind: Option<ToolKind>)
    ensures kind.Some? ==> ToolName(kind.value) == name
    ensures kind.None? <==> forall k: ToolKind :: ToolName(k) != name
  {
    if name == ToolName(SearchTool) then Some(SearchTool)
    else if name == ToolName(ExtractTool) then Some(ExtractTool)
    else if name == ToolName(AnalyzeTool) then Some(AnalyzeTool)
    else None
  }

  /** The one argument each tool needs. */
  function RequiredField(kind: ToolKind): string
  {
    match kind
    case SearchTool => "query"
    case ExtractTool => "url"
    case AnalyzeTool => "text"
  }

  /** The API name that prefixes an upstream failure in a tool's result text. */
  function ApiErrorPrefix(kind: ToolKind): string
  {
    match kind
    case SearchTool => "Serper API error: "
    case ExtractTool => "Browserless API error: "
    case AnalyzeTool => "Hugging Face API error: "
  }

  /** The request a tool sends with the value of its required field. */
  function ToolRequest(kind: ToolKind, argument: Json): (o: Outbound)
    ensures o.body.Obj?
    ensures kind.SearchTool? ==> o == SearchRequest(argument)
    ensures kind.ExtractTool? ==> o == RenderedContentRequest(argument)
    ensures kind.AnalyzeTool? ==> o == ClassifyRequest(HuggingFaceInference, argument)
  {
    match kind
    case SearchTool => SearchRequest(argument)
    case ExtractTool => RenderedContentRequest(argument)
    case AnalyzeTool => ClassifyRequest(HuggingFaceInference, argument)
  }

  /** The protocol errors a call can raise instead of returning a result. */
  datatype ErrorCode = InvalidParams | MethodNotFound

  function UnknownToolMessage(name: string): string
  {
    "Unknown tool: " + name
  }

  // ---------------------------------------------------------------------
  // The catalogue: the constant list that both `list_tools` (Python) and the
  // ListTools handler (TypeScript) return.

  datatype Property = Property(jsonType: string, description: string)

  datatype InputSchema = InputSchema(schemaType: string, properties: map<string, Property>, required: seq<string>)

  datatype Tool = Tool(name: string, description: string, inputSchema: InputSchema)

  function Advertised(kind: ToolKind): Tool
  {
    match kind
    case SearchTool =>
      Tool(ToolName(kind), "Search for properties using Google search via Serper API",
           InputSchema("object", map["query" := Property("string", "Search query for properties")], ["query"]))
    case ExtractTool =>
      Tool(ToolName(kind), "Extract property data from a webpage using Browserless",
           InputSchema("object", map["url" := Property("string", "URL of the property listing page")], ["url"]))
    case AnalyzeTool =>
      Tool(ToolName(kind), "Analyze property data using Hugging Face",
           InputSchema("object", map["text" := Property("string", "Property data text to analyze")], ["text"]))
  }

  /** Exactly three tools, with distinct names, one per kind; each takes an
      object with exactly one property, a required string that is the field
      the dispatcher checks for. */
  function Catalogue(): (tools: seq<Tool>)
    ensures |tools| == 3
    ensures forall i, j :: 0 <= i < j < |tools| ==> tools[i].name != tools[j].name
    ensures forall k: ToolKind :: Advertised(k) in tools
    ensures forall i :: 0 <= i < |tools| ==>
              && ToolNamed(tools[i].name).Some?
              && var field := RequiredField(ToolNamed(tools[i].name).value);
              && tools[i].inputSchema.schemaType == "object"
              && tools[i].inputSchema.required == [field]
              && tools[i].inputSchema.properties.Keys == {field}
              && tools[i].inputSchema.properties[field].jsonType == "string"
  {
    [Advertised(SearchTool), Advertised(ExtractTool), Advertised(AnalyzeTool)]
  }
}
