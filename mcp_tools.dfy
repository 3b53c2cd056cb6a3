/** The tool catalog both Model Context Protocol handlers declare
    (utils/mcp_handler.py and utils/fixed-mcp-handler.py carry the same
    `_initialize_tools`), and the parameter dictionary the tools receive. */
module McpTools {
  import opened Wrappers

  /** One declared parameter: its name, JSON type, description and, for an
      array, the type of its items */
  datatype Property = Property(name: string, kind: string, description: string, items: Option<string>)

  const SearchTool: string := "search_regulations"
  const DetailsTool: string := "get_regulation_details"
  const CompareTool: string := "compare_regulations"

  /** A declared tool; its definition's entries are its members */
  datatype Tool = SearchRegulations | GetRegulationDetails | CompareRegulations
  {
    function Name(): string {
      match this
      case SearchRegulations => SearchTool
      case GetRegulationDetails => DetailsTool
      case CompareRegulations => CompareTool
    }

    function Description(): string {
      match this
      case SearchRegulations => "Search for automotive regulations based on user query"
      case GetRegulationDetails => "Get detailed information about a specific regulation"
      case CompareRegulations => "Compare regulations between different regions"
    }

    /** The `properties` of its `parameters` object */
    function Properties(): seq<Property> {
      match this
      case SearchRegulations => SearchProperties()
      case GetRegulationDetails => DetailsProperties()
      case CompareRegulations => CompareProperties()
    }

    /** The `required` list of its `parameters` object */
    function Required(): seq<string> {
      match this
      case SearchRegulations => ["query"]
      case GetRegulationDetails => ["regulation_id"]
      case CompareRegulations => ["category", "regions"]
    }
  }

  function SearchProperties(): seq<Property> {
    [ Property("query", "string", "User query about automotive regulations", None),
      Property("region", "string", "Optional region to focus the search (e.g., EU, US, global)", None),
      Property("category", "string", "Optional category to focus the search (e.g., emissions, safety)", None) ]
  }

  function DetailsProperties(): seq<Property> {
    [ Property("regulation_id", "string", "ID or name of the regulation (e.g., ECE-R100, 2018/858)", None),
      Property("region", "string", "Region of the regulation (e.g., EU, US, global)", None) ]
  }

  function CompareProperties(): seq<Property> {
    [ Property("category", "string", "Category of regulations to compare (e.g., emissions, safety)", None),
      Property("regions", "array", "List of regions to compare (e.g., [\"EU\", \"US\", \"China\"])", Some("string")) ]
  }

  /** `_initialize_tools` */
  function Tools(): seq<Tool> {
    [SearchRegulations, GetRegulationDetails, CompareRegulations]
  }

  /** `[tool["name"] for tool in tools]` */
  function Names(tools: seq<Tool>): (names: seq<string>)
    ensures |names| == |tools|
    ensures forall i :: 0 <= i < |tools| ==> names[i] == tools[i].Name()
  {
    seq(|tools|, i requires 0 <= i < |tools| => tools[i].Name())
  }

  function PropertyNames(props: seq<Property>): seq<string> {
    seq(|props|, i requires 0 <= i < |props| => props[i].name)
  }

  /** A parameter object is well formed when every required parameter is
      declared and exactly its array parameters have an item type. */
  predicate WellFormed(props: seq<Property>, required: seq<string>) {
    && (forall r :: r in required ==> r in PropertyNames(props))
    && (forall p :: p in props ==> (p.items.Some? <==> p.kind == "array"))
  }

  /** The catalog's tool names, in definition order */
  lemma CatalogNames()
    ensures Names(Tools()) == [SearchTool, DetailsTool, CompareTool]
  {
  }

  lemma SearchWellFormed()
    ensures WellFormed(SearchProperties(), ["query"])
  {
    assert PropertyNames(SearchProperties()) == ["query", "region", "category"];
  }

  lemma DetailsWellFormed()
    ensures WellFormed(DetailsProperties(), ["regulation_id"])
  {
    assert PropertyNames(DetailsProperties()) == ["regulation_id", "region"];
  }

  lemma CompareWellFormed()
    ensures WellFormed(CompareProperties(), ["category", "regions"])
  {
    assert PropertyNames(CompareProperties()) == ["category", "regions"];
  }

  /** The parameters a tool is called with: the string-valued entries, and the
      `regions` list when one is given */
  datatype Params = Params(strings: map<string, string>, regions: Option<seq<string>>)

  /** `parameters.get(key, default)` */
  function Param(p: Params, key: string, default: string): (v: string)
    ensures key !in p.strings ==> v == default
    ensures key in p.strings ==> v == p.strings[key]
  {
    if key in p.strings then p.strings[key] else default
  }

  /** Python's `s or default` on a string */
  function OrDefault(s: string, default: string): (v: string)
    ensures v == [] ==> default == []
    ensures s != [] ==> v == s
  {
    if s == [] then default else s
  }
}
