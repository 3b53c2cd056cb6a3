/** The cloud-safe Model Context Protocol handler (utils/mcp_handler.py): it
    never starts a server, and every tool call is answered by the local mock
    dispatch, whose results have a fixed shape for each tool. */
module McpHandler {
  import opened Wrappers
  import opened PyText
  import opened McpTools

  /** Which of the three canned answers the search tool gives */
  datatype Focus = EmissionsFocus | SafetyFocus | GeneralFocus

  /** A regulation of the search tool's answer; its texts follow from its
      region and focus. */
  datatype Regulation = Regulation(region: string, category: string, focus: Focus)
  {
    function Title(): string {
      match focus
      case EmissionsFocus => "Emissions Standards for " + region
      case SafetyFocus => "Vehicle Safety Requirements in " + region
      case GeneralFocus => "General Automotive Regulations in " + region
    }

    function Summary(): string {
      match focus
      case EmissionsFocus => "Current emissions regulations in " + region + " covering NOx, PM, CO, and HC limits for vehicles."
      case SafetyFocus => "Comprehensive safety standards covering active and passive safety systems in " + region + "."
      case GeneralFocus => "Overview of automotive regulatory framework in " + region + " covering safety, emissions, and market access."
    }

    function KeyPoints(): seq<string> {
      match focus
      case EmissionsFocus =>
        ["Strict NOx limits for diesel vehicles", "Real-world driving emissions testing",
         "Future Euro 7 / Tier 4 standards in development"]
      case SafetyFocus =>
        ["Advanced emergency braking systems", "Lane-keeping assistance", "Crash test performance standards"]
      case GeneralFocus =>
        ["Type approval requirements", "Conformity of production", "Market surveillance procedures"]
    }
  }

  /** Every search answer lists three key points. */
  lemma KeyPointsCount(r: Regulation)
    ensures |r.KeyPoints()| == 3
  {
    match r.focus
    case EmissionsFocus =>
    case SafetyFocus =>
    case GeneralFocus =>
  }

  datatype Requirement = Requirement(text: string, kind: string, complianceDate: string)

  const ComplianceDate: string := "Check latest official documentation"

  /** The details tool's regulation; its texts follow from the id and region. */
  datatype RegulationDetails = RegulationDetails(id: string, region: string)
  {
    function Title(): string { id + " - " + region + " Regulation" }
    function Description(): string { "Detailed technical specification for " + id + " applicable in " + region + "." }
    function Scope(): string { "This regulation applies to all vehicle types in " + region }
    function Requirements(): seq<Requirement> {
      [Requirement("Technical requirements for " + id, "technical", ComplianceDate),
       Requirement("Testing procedures for " + id, "testing", ComplianceDate),
       Requirement("Documentation requirements for " + id, "documentation", ComplianceDate)]
    }
    function Related(): seq<string> { ["Related regulation 1", "Related regulation 2"] }
  }

  /** The details list three requirements: technical, testing and
      documentation, each naming the regulation id. */
  lemma RequirementsShape(d: RegulationDetails)
    ensures |d.Requirements()| == 3
    ensures d.Requirements()[0].kind == "technical" && d.Requirements()[1].kind == "testing"
            && d.Requirements()[2].kind == "documentation"
    ensures forall q :: q in d.Requirements() ==> Contains(q.text, d.id)
  {
    var rs := d.Requirements();
    ContainsInRight("Technical requirements for ", d.id, d.id);
    ContainsInRight("Testing procedures for ", d.id, d.id);
    ContainsInRight("Documentation requirements for ", d.id, d.id);
  }

  /** One entry of the comparison; its texts follow from its region and
      category, by the lower-cased category. */
  datatype ComparisonEntry = ComparisonEntry(region: string, category: string)
  {
    function Summary(): string {
      if Lower(category) == "emissions" then region + " has specific emissions requirements focusing on NOx, PM, and CO limits."
      else if Lower(category) == "safety" then region + " has comprehensive safety requirements covering active and passive systems."
      else region + " has specific requirements for " + category + " in automotive regulations."
    }

    function KeyDifferences(): string {
      if Lower(category) == "emissions" then region + " emphasizes real-world testing and has unique certification procedures."
      else if Lower(category) == "safety" then region + " focuses on advanced driver assistance systems and crash performance."
      else region + " has unique approaches to " + category + " compliance and enforcement."
    }

    function Standards(): seq<string> {
      if Lower(category) == "emissions" then
        [region + " specific emissions limits", region + " testing procedures", region + " compliance timeline"]
      else if Lower(category) == "safety" then
        [region + " crash test standards", region + " ADAS requirements", region + " lighting regulations"]
      else
        [region + " specific " + category + " requirements",
         region + " " + category + " testing methods",
         region + " " + category + " compliance procedures"]
    }
  }

  /** Every comparison entry lists three standards, each starting with its
      region. */
  lemma StandardsShape(e: ComparisonEntry)
    ensures |e.Standards()| == 3
    ensures forall s :: s in e.Standards() ==> StartsWith(s, e.region)
  {
    var ss := e.Standards();
    assert ss[0][..|e.region|] == e.region;
    assert ss[1][..|e.region|] == e.region;
    assert ss[2][..|e.region|] == e.region;
  }

  /** The dictionary a tool call returns */
  datatype ToolResult =
    | Searched(regulations: seq<Regulation>)
    | Detailed(regulation: RegulationDetails)
    | Compared(comparison: seq<ComparisonEntry>, summary: string)
    | UnknownTool(message: string, availableTools: seq<string>)
  {
    /** The `status` entry */
    function Status(): string {
      if UnknownTool? then "error" else "success"
    }

    /** The `recommendations` of a comparison */
    function Recommendations(): seq<string>
      requires Compared?
    {
      ["Consult official regulatory documents for latest requirements",
       "Consider harmonized standards where available",
       "Plan for regional-specific compliance strategies"]
    }
  }

  /** The answer chosen by the first of "emissions" and "safety" in the
      lower-cased query */
  function SearchFocus(query: string): Focus {
    if Contains(Lower(query), "emissions") then EmissionsFocus
    else if Contains(Lower(query), "safety") then SafetyFocus
    else GeneralFocus
  }

  /** The one regulation the search tool returns */
  function SearchRegulation(query: string, region: string, category: string): Regulation {
    match SearchFocus(query)
    case EmissionsFocus => Regulation(region, "emissions", EmissionsFocus)
    case SafetyFocus => Regulation(region, "safety", SafetyFocus)
    case GeneralFocus => Regulation(region, OrDefault(category, "general"), GeneralFocus)
  }

  /** The comparison list, one entry per region in order */
  function Comparisons(regions: seq<string>, category: string): seq<ComparisonEntry>
    decreases |regions|
  {
    if regions == [] then []
    else Comparisons(regions[..|regions| - 1], category) + [ComparisonEntry(regions[|regions| - 1], category)]
  }

  function ComparisonSummary(category: string, count: nat): string {
    "Comparison of " + category + " regulations across " + NatToString(count) + " regions"
  }

  /** `_execute_tool_locally`, with `available` the names of the declared tools */
  function Execute(name: string, p: Params, available: seq<string>): ToolResult {
    if name == SearchTool then
      Searched([SearchRegulation(Param(p, "query", ""), Param(p, "region", "global"), Param(p, "category", ""))])
    else if name == DetailsTool then
      Detailed(RegulationDetails(Param(p, "regulation_id", ""), Param(p, "region", "global")))
    else if name == CompareTool then
      var category := Param(p, "category", "");
      var regions := p.regions.GetOr([]);
      Compared(Comparisons(regions, category), ComparisonSummary(category, |regions|))
    else UnknownTool("Unknown tool: " + name, available)
  }

  /** The comparison has one entry per region, in order, each naming its region
      and the category. */
  lemma {:induction false} ComparisonsShape(regions: seq<string>, category: string)
    ensures |Comparisons(regions, category)| == |regions|
    ensures forall i :: 0 <= i < |regions| ==>
              && Comparisons(regions, category)[i].region == regions[i]
              && Comparisons(regions, category)[i].category == category
    decreases |regions|
  {
    if regions != [] {
      ComparisonsShape(regions[..|regions| - 1], category);
    }
  }

  /** A search returns exactly one regulation; its region defaults to
      "global", and its category is chosen by the first of "emissions" and
      "safety" in the lower-cased query, else the category given or "general". */
  lemma SearchShape(p: Params, available: seq<string>)
    ensures var r := Execute(SearchTool, p, available);
            var query := Param(p, "query", "");
            && r.Searched? && r.Status() == "success" && |r.regulations| == 1
            && r.regulations[0].region == (if "region" in p.strings then p.strings["region"] else "global")
            && r.regulations[0].category ==
                 (if Contains(Lower(query), "emissions") then "emissions"
                  else if Contains(Lower(query), "safety") then "safety"
                  else if "category" in p.strings && p.strings["category"] != "" then p.strings["category"]
                  else "general")
            && |r.regulations[0].KeyPoints()| == 3
  {
    KeyPointsCount(Execute(SearchTool, p, available).regulations[0]);
  }

  /** The details echo the requested id and list three requirements: technical,
      testing and documentation. */
  lemma DetailsShape(p: Params, available: seq<string>)
    ensures var r := Execute(DetailsTool, p, available);
            && r.Detailed? && r.Status() == "success"
            && r.regulation.id == Param(p, "regulation_id", "")
            && |r.regulation.Requirements()| == 3
            && r.regulation.Requirements()[0].kind == "technical"
            && r.regulation.Requirements()[1].kind == "testing"
            && r.regulation.Requirements()[2].kind == "documentation"
  {
    RequirementsShape(Execute(DetailsTool, p, available).regulation);
  }

  /** A comparison has one entry per requested region, in order, echoing the
      region and category, and no regions yield an empty comparison. */
  lemma CompareShape(p: Params, available: seq<string>)
    ensures var r := Execute(CompareTool, p, available);
            var regions := p.regions.GetOr([]);
            && r.Compared? && r.Status() == "success"
            && |r.comparison| == |regions|
            && (forall i :: 0 <= i < |regions| ==>
                  r.comparison[i].region == regions[i] && r.comparison[i].category == Param(p, "category", ""))
            && |r.Recommendations()| == 3
  {
    ComparisonsShape(p.regions.GetOr([]), Param(p, "category", ""));
  }

  /** The status is "error" exactly for a name outside the catalog, and then the
      result names the tool and lists the catalog's tools in order. */
  lemma UnknownToolShape(name: string, p: Params)
    ensures var r := Execute(name, p, Names(Tools()));
            && (r.Status() == "error" <==> name !in Names(Tools()))
            && (r.Status() == "error" ==>
                  r == UnknownTool("Unknown tool: " + name, [SearchTool, DetailsTool, CompareTool]))
  {
    CatalogNames();
  }

  /** The handler: `enabled` is off from construction on */
  class Handler {
    var enabled: bool
    const tools: seq<Tool>

    constructor()
      ensures !enabled && tools == Tools()
    {
      enabled := false;
      tools := Tools();
    }

    /** `execute_tool`: always answered locally */
    method ExecuteTool(name: string, p: Params) returns (r: ToolResult)
      ensures r == Execute(name, p, Names(tools))
    {
      r := ExecuteLocally(name, p);
    }

    /** `_execute_tool_locally` */
    method ExecuteLocally(name: string, p: Params) returns (r: ToolResult)
      ensures r == Execute(name, p, Names(tools))
    {
      if name == SearchTool {
        var region := Param(p, "region", "global");
        r := Searched([SearchRegulation(Param(p, "query", ""), region, Param(p, "category", ""))]);
      } else if name == DetailsTool {
        r := Detailed(RegulationDetails(Param(p, "regulation_id", ""), Param(p, "region", "global")));
      } else if name == CompareTool {
        var category := Param(p, "category", "");
        var regions := p.regions.GetOr([]);
        var comparison := CompareAll(regions, category);
        r := Compared(comparison, ComparisonSummary(category, |regions|));
      } else {
        r := UnknownTool("Unknown tool: " + name, Names(tools));
      }
    }
  }

  /** The `comparison.append` loop */
  method CompareAll(regions: seq<string>, category: string) returns (comparison: seq<ComparisonEntry>)
    ensures comparison == Comparisons(regions, category)
  {
    comparison := [];
    for i := 0 to |regions|
      invariant comparison == Comparisons(regions[..i], category)
    {
      assert regions[..i + 1][..i] == regions[..i];
      comparison := comparison + [ComparisonEntry(regions[i], category)];
    }
    assert regions[..|regions|] == regions;
  }
}
