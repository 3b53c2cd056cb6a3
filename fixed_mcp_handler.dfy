/** The server-backed Model Context Protocol handler
    (utils/fixed-mcp-handler.py). When enabled it launches a tool server and
    routes each call through it: post the call, then fetch its result by id. It
    falls back to the local mock dispatch when it is disabled or when any step
    raises, and reports an error when a step answers with a status other than
    200. The server process itself is not modelled: launching it is an outcome
    passed in, and its HTTP answers are the `Server` oracle. */
module FixedMcpHandler {
  import opened Wrappers
  import opened McpTools

  datatype Regulation = Regulation(title: string, summary: string, region: string, category: string)

  datatype Requirement = Requirement(text: string, kind: string)

  datatype RegulationDetails = RegulationDetails(id: string, title: string, description: string, requirements: seq<Requirement>)

  datatype ComparisonEntry = ComparisonEntry(region: string, category: string, summary: string, keyDifferences: string)

  /** The dictionary a tool call returns; `ToolError` also carries the
      routing errors */
  datatype ToolResult =
    | Searched(regulations: seq<Regulation>)
    | Detailed(regulation: RegulationDetails)
    | Compared(comparison: seq<ComparisonEntry>)
    | ToolError(message: string)
  {
    /** The `status` entry */
    function Status(): string {
      if ToolError? then "error" else "success"
    }
  }

  function SearchRegulation(region: string, category: string): (r: Regulation)
    ensures r.region == region
    ensures r.category == OrDefault(category, "general") && r.category != []
  {
    Regulation("Regulation about " + OrDefault(category, "automotive") + " in " + region,
               "This regulation covers " + OrDefault(category, "various aspects") + " of automotive requirements in " + region + ".",
               region, OrDefault(category, "general"))
  }

  function Details(id: string, region: string): (d: RegulationDetails)
    ensures d.id == id && |d.requirements| == 2
    ensures d.requirements[0].kind == "technical" && d.requirements[1].kind == "documentation"
  {
    RegulationDetails(id, id + " - " + region + " Regulation",
                      "Detailed description of " + id + " applicable in " + region + ".",
                      [Requirement("Requirement 1 for " + id, "technical"),
                       Requirement("Requirement 2 for " + id, "documentation")])
  }

  function CompareEntry(region: string, category: string): (e: ComparisonEntry)
    ensures e.region == region && e.category == category
  {
    ComparisonEntry(region, category,
                    region + " has specific requirements for " + category + ".",
                    region + " focuses more on X compared to other regions.")
  }

  /** The comparison list, one entry per region in order */
  function Comparisons(regions: seq<string>, category: string): seq<ComparisonEntry>
    decreases |regions|
  {
    if regions == [] then []
    else Comparisons(regions[..|regions| - 1], category) + [CompareEntry(regions[|regions| - 1], category)]
  }

  /** `_execute_tool_locally` */
  function Local(name: string, p: Params): ToolResult {
    if name == SearchTool then
      Searched([SearchRegulation(Param(p, "region", "global"), Param(p, "category", ""))])
    else if name == DetailsTool then
      Detailed(Details(Param(p, "regulation_id", ""), Param(p, "region", "global")))
    else if name == CompareTool then
      Compared(Comparisons(p.regions.GetOr([]), Param(p, "category", "")))
    else ToolError("Unknown tool: " + name)
  }

  lemma {:induction false} ComparisonsShape(regions: seq<string>, category: string)
    ensures |Comparisons(regions, category)| == |regions|
    ensures forall i :: 0 <= i < |regions| ==>
              Comparisons(regions, category)[i].region == regions[i] && Comparisons(regions, category)[i].category == category
    decreases |regions|
  {
    if regions != [] {
      ComparisonsShape(regions[..|regions| - 1], category);
    }
  }

  /** The status is "error" exactly for a name outside the catalog, and then
      the message names the tool. */
  lemma LocalStatus(name: string, p: Params)
    ensures Local(name, p).Status() == "error" <==> name !in Names(Tools())
    ensures name !in Names(Tools()) ==> Local(name, p) == ToolError("Unknown tool: " + name)
  {
    CatalogNames();
  }

  /** A search returns one regulation whose region defaults to "global" and
      whose category defaults to "general". */
  lemma LocalSearchShape(p: Params)
    ensures var r := Local(SearchTool, p);
            && r.Searched? && |r.regulations| == 1
            && r.regulations[0].region == (if "region" in p.strings then p.strings["region"] else "global")
            && r.regulations[0].category == (if "category" in p.strings && p.strings["category"] != "" then p.strings["category"] else "general")
  {
  }

  /** The details echo the requested id and list two requirements. */
  lemma LocalDetailsShape(p: Params)
    ensures var r := Local(DetailsTool, p);
            r.Detailed? && r.regulation.id == Param(p, "regulation_id", "") && |r.regulation.requirements| == 2
  {
  }

  /** A comparison has one entry per requested region, in order, echoing the
      region and the category. */
  lemma LocalCompareShape(p: Params)
    ensures var r := Local(CompareTool, p);
            && r.Compared? && |r.comparison| == |p.regions.GetOr([])|
            && forall i :: 0 <= i < |r.comparison| ==>
                 r.comparison[i].region == p.regions.GetOr([])[i] && r.comparison[i].category == Param(p, "category", "")
  {
    ComparisonsShape(p.regions.GetOr([]), Param(p, "category", ""));
  }

  /** A JSON body that may fail to parse */
  datatype Json<T> = Unparsable | Parsed(value: T)

  /** The answer to posting a call: the request raised, or a status and the
      parsed body's `result_id` entry */
  datatype PostReply = PostRaised | PostAnswer(status: int, resultId: Json<Option<string>>)

  /** The answer to fetching a result */
  datatype GetReply = GetRaised | GetAnswer(status: int, result: Json<ToolResult>)

  /** The tool server as the handler observes it */
  datatype Server = Server(post: (string, Params) -> PostReply, fetch: string -> GetReply)

  const PostFailed: string := "Failed to execute tool via MCP"
  const FetchFailed: string := "Failed to get tool result via MCP"

  /** What `execute_tool` returns. A missing `result_id` is formatted into the
      URL as "None". */
  function Routed(enabled: bool, server: Server, name: string, p: Params): ToolResult {
    if !enabled then Local(name, p)
    else
      match server.post(name, p)
      case PostRaised => Local(name, p)
      case PostAnswer(status, body) =>
        if status != 200 then ToolError(PostFailed)
        else if body.Unparsable? then Local(name, p)
        else
          Fetched(server.fetch(body.value.GetOr("None")), name, p)
  }

  /** The result once a call was posted: local after a raised or unparsable
      fetch, an error after a status other than 200, else the server's result */
  function Fetched(reply: GetReply, name: string, p: Params): (r: ToolResult)
    ensures reply.GetAnswer? && reply.status != 200 ==> r == ToolError(FetchFailed)
    ensures reply.GetAnswer? && reply.status == 200 && reply.result.Parsed? ==> r == reply.result.value
    ensures reply.GetRaised? || (reply.status == 200 && reply.result.Unparsable?) ==> r == Local(name, p)
  {
    match reply
    case GetRaised => Local(name, p)
    case GetAnswer(status, result) =>
      if status != 200 then ToolError(FetchFailed)
      else if result.Unparsable? then Local(name, p)
      else result.value
  }

  /** Routing: a disabled handler and any raised step answer locally; a
      non-200 post or fetch is reported as an error; otherwise the server's
      result is returned. */
  lemma RoutedCases(enabled: bool, server: Server, name: string, p: Params)
    ensures !enabled ==> Routed(enabled, server, name, p) == Local(name, p)
    ensures enabled && server.post(name, p).PostRaised? ==> Routed(enabled, server, name, p) == Local(name, p)
    ensures enabled && server.post(name, p).PostAnswer? && server.post(name, p).status != 200 ==>
              Routed(enabled, server, name, p) == ToolError(PostFailed)
    ensures enabled && server.post(name, p) == PostAnswer(200, Parsed(None)) ==>
              Routed(enabled, server, name, p) == Fetched(server.fetch("None"), name, p)
    ensures forall id :: enabled && server.post(name, p) == PostAnswer(200, Parsed(Some(id))) ==>
              Routed(enabled, server, name, p) == Fetched(server.fetch(id), name, p)
    ensures Routed(enabled, server, name, p) != Local(name, p) ==> enabled
  {
  }

  /** The handler. `serverStarted` says whether a server process was
      launched. */
  class Handler {
    var enabled: bool
    var serverStarted: bool
    const tools: seq<Tool>

    /** `__init__`: enabled as configured, then the server is started when
        enabled; a failed launch disables the handler. */
    constructor(mcpEnabled: bool, launchRaises: bool)
      ensures tools == Tools()
      ensures enabled == (mcpEnabled && !launchRaises)
      ensures serverStarted == enabled
    {
      enabled := mcpEnabled;
      serverStarted := false;
      tools := Tools();
      new;
      if enabled {
        StartServer(launchRaises);
      }
    }

    /** `_start_server` */
    method StartServer(launchRaises: bool)
      modifies this
      ensures !old(enabled) ==> enabled == old(enabled) && serverStarted == old(serverStarted)
      ensures old(enabled) && launchRaises ==> !enabled && serverStarted == old(serverStarted)
      ensures old(enabled) && !launchRaises ==> enabled && serverStarted
    {
      if !enabled {
        return;
      }
      if launchRaises {
        enabled := false;
      } else {
        serverStarted := true;
      }
    }

    /** `execute_tool` */
    method ExecuteTool(server: Server, name: string, p: Params) returns (r: ToolResult)
      ensures r == Routed(enabled, server, name, p)
    {
      if !enabled {
        r := ExecuteLocally(name, p);
        return;
      }
      var response := server.post(name, p);
      if response.PostRaised? {
        r := ExecuteLocally(name, p);
        return;
      }
      if response.status != 200 {
        return ToolError(PostFailed);
      }
      if response.resultId.Unparsable? {
        r := ExecuteLocally(name, p);
        return;
      }
      var resultResponse := server.fetch(response.resultId.value.GetOr("None"));
      if resultResponse.GetRaised? {
        r := ExecuteLocally(name, p);
        return;
      }
      if resultResponse.status != 200 {
        return ToolError(FetchFailed);
      }
      if resultResponse.result.Unparsable? {
        r := ExecuteLocally(name, p);
        return;
      }
      r := resultResponse.result.value;
    }

    /** `_execute_tool_locally` */
    method ExecuteLocally(name: string, p: Params) returns (r: ToolResult)
      ensures r == Local(name, p)
    {
      if name == SearchTool {
        r := Searched([SearchRegulation(Param(p, "region", "global"), Param(p, "category", ""))]);
      } else if name == DetailsTool {
        r := Detailed(Details(Param(p, "regulation_id", ""), Param(p, "region", "global")));
      } else if name == CompareTool {
        var comparison := CompareAll(p.regions.GetOr([]), Param(p, "category", ""));
        r := Compared(comparison);
      } else {
        r := ToolError("Unknown tool: " + name);
      }
    }
  }

  /** The `comparison.append` loop */
  method CompareAll(regions: seq<string>, category: string) returns (comparison: seq<ComparisonEntry>)
    ensures comparison == Comparisons(regions, category)
  {
    comparison := [];
    for i := 0 to |regions|
      invariant comparison == Comparisons(regions[..i], category)
    {
      assert regions[..i + 1][..i] == regions[..i];
      comparison := comparison + [CompareEntry(regions[i], category)];
    }
    assert regions[..|regions|] == regions;
  }
}
