/** The two tool adapters side by side: the TypeScript validators are
    stricter than the Python key check, and where both accept a call they
    send the same request. */
module AdapterComparison {
  import opened Wrappers
  import opened JsonValue
  import opened Upstream
  import opened Tools
  import PyServer
  import TsServer

  /** Whatever the TypeScript adapter accepts for a tool, the Python adapter
      accepts too, and both send the identical request. */
  lemma TsAcceptanceImpliesPyAcceptance(name: string, fields: map<string, Json>,
                                         pyOutcome: PyOutcome, tsOutcome: AxiosOutcome)
    requires !TsServer.CallTool(name, Some(Obj(fields)), tsOutcome).ProtocolError?
    ensures PyServer.CallTool(name, Some(fields), pyOutcome).Answered?
    ensures PyServer.CallTool(name, Some(fields), pyOutcome).sent
            == TsServer.CallTool(name, Some(Obj(fields)), tsOutcome).sent
  {
    var kind := ToolNamed(name).value;
    assert fields != map[] by {
      assert RequiredField(kind) in fields;
    }
  }

  /** The converse fails: a non-string query passes the Python key check and is
      sent to Serper, while the TypeScript validator rejects it. */
  lemma NonStringQueryOnlyPythonAccepts(pyOutcome: PyOutcome, tsOutcome: AxiosOutcome)
    ensures PyServer.CallTool("search_properties", Some(map["query" := Num(5)]), pyOutcome).Answered?
    ensures PyServer.CallTool("search_properties", Some(map["query" := Num(5)]), pyOutcome).sent
            == SearchRequest(Num(5))
    ensures TsServer.CallTool("search_properties", Some(Obj(map["query" := Num(5)])), tsOutcome)
            == TsServer.ProtocolError(InvalidParams, "Invalid search arguments")
  {
  }

  /** Both adapters reject an unknown tool name with the same protocol error,
      before any request. */
  lemma UnknownToolAgrees(name: string, pyArgs: Option<map<string, Json>>, tsArgs: Option<Json>,
                          pyOutcome: PyOutcome, tsOutcome: AxiosOutcome)
    requires ToolNamed(name).None?
    ensures PyServer.CallTool(name, pyArgs, pyOutcome) == PyServer.ProtocolError(MethodNotFound, "Unknown tool: " + name)
    ensures TsServer.CallTool(name, tsArgs, tsOutcome) == TsServer.ProtocolError(MethodNotFound, "Unknown tool: " + name)
  {
  }
}
