/** config.py: the website catalog and the two keyword tables that point into it,
    the numeric budgets, the error messages, the key lookup (environment first,
    then the deployment's secrets store), the start-up credential check, the
    log level and the MCP switch. */
module Config {
  import opened Wrappers
  import opened PyText

  const MaxSitesPerQuery: nat := 3
  const MaxResultsPerSite: nat := 2
  const CrawlDepth: nat := 1
  const InterregsBaseUrl: string := "https://www.interregs.net"

  /** `https://host/path` */
  function HttpsUrl(host: string, path: string): string {
    "https://" + host + "/" + path
  }

  /** REGULATORY_WEBSITES, in the dictionary's insertion order */
  const RegulatoryWebsites: seq<(string, string)> := [
    ("US_NHTSA", HttpsUrl("www.nhtsa.gov", "laws-regulations")),
    ("US_EPA", HttpsUrl("www.epa.gov", "regulations-emissions-vehicles-and-engines")),
    ("EU_COMMISSION", HttpsUrl("ec.europa.eu", "growth/sectors/automotive-industry_en")),
    ("UNECE", HttpsUrl("unece.org", "transport/vehicle-regulations")),
    ("ACEA", HttpsUrl("www.acea.auto", "publication/automotive-regulatory-guide-2023/")),
    ("UK_VCA", HttpsUrl("www.vehicle-certification-agency.gov.uk", "")),
    ("JAPAN_MLIT", HttpsUrl("www.mlit.go.jp", "en/")),
    ("INDIA_MORTH", HttpsUrl("morth.nic.in", "")),
    ("AUSTRALIA_INFRASTRUCTURE", HttpsUrl("www.infrastructure.gov.au", "infrastructure-transport-vehicles/vehicles/vehicle-design-regulation"))
  ]

  /** WEBSITE_SELECTION_CRITERIA: category -> catalog keys */
  const WebsiteSelectionCriteria: seq<(string, seq<string>)> := [
    ("emissions", ["US_EPA", "EU_COMMISSION", "UNECE"]),
    ("safety", ["US_NHTSA", "UNECE", "EU_COMMISSION"]),
    ("homologation", ["EU_COMMISSION", "UNECE", "UK_VCA"]),
    ("type_approval", ["EU_COMMISSION", "UNECE"]),
    ("electric_vehicles", ["US_EPA", "EU_COMMISSION", "UNECE"]),
    ("fuel", ["US_EPA", "EU_COMMISSION"]),
    ("lighting", ["UNECE", "EU_COMMISSION"]),
    ("noise", ["UNECE", "EU_COMMISSION"])
  ]

  /** REGION_WEBSITES: region -> catalog keys */
  const RegionWebsites: seq<(string, seq<string>)> := [
    ("us", ["US_NHTSA", "US_EPA"]),
    ("usa", ["US_NHTSA", "US_EPA"]),
    ("united_states", ["US_NHTSA", "US_EPA"]),
    ("eu", ["EU_COMMISSION", "UNECE"]),
    ("europe", ["EU_COMMISSION", "UNECE"]),
    ("european", ["EU_COMMISSION", "UNECE"]),
    ("uk", ["UK_VCA", "UNECE"]),
    ("japan", ["JAPAN_MLIT", "UNECE"]),
    ("india", ["INDIA_MORTH"]),
    ("australia", ["AUSTRALIA_INFRASTRUCTURE"]),
    ("global", ["UNECE", "ACEA"])
  ]

  /** The entries of ERROR_MESSAGES the core raises or shows */
  const InterregsApiError: string := "Error connecting to the Interregs.net database. Please check credentials and network connection."
  const FirecrawlApiError: string := "Error connecting to the Firecrawl API. Please check your API key and network connection."
  const NoDataFound: string := "No relevant regulation data found for this query. Please try a more specific query or check if the regulation exists."
  const ApiKeyMissing: string := "Required API keys are not configured. Please check your configuration."

  /** The keys of a dictionary given as its (key, value) items in order */
  function Keys(items: seq<(string, string)>): (keys: seq<string>)
    ensures |keys| == |items|
    ensures forall i :: 0 <= i < |items| ==> keys[i] == items[i].0
  {
    seq(|items|, i requires 0 <= i < |items| => items[i].0)
  }

  /** The values of a dictionary given as its items in order */
  function Values(items: seq<(string, string)>): (values: seq<string>)
    ensures |values| == |items|
    ensures forall i :: 0 <= i < |items| ==> values[i] == items[i].1
  {
    seq(|items|, i requires 0 <= i < |items| => items[i].1)
  }

  function CatalogKeys(): (keys: seq<string>)
    ensures |keys| == |RegulatoryWebsites|
  {
    Keys(RegulatoryWebsites)
  }

  function CatalogUrls(): (urls: seq<string>)
    ensures |urls| == |RegulatoryWebsites|
  {
    Values(RegulatoryWebsites)
  }

  predicate IsCatalogKey(key: string) {
    key in CatalogKeys()
  }

  /** `items_dict.get(key)`: the value of the first item with that key */
  function LookupFrom(entries: seq<(string, string)>, key: string): Option<string>
    decreases |entries|
  {
    if entries == [] then None
    else if entries[0].0 == key then Some(entries[0].1)
    else LookupFrom(entries[1..], key)
  }

  /** A lookup succeeds exactly for a key of the dictionary, and yields one of
      its values. */
  lemma {:induction false} LookupFromMembers(entries: seq<(string, string)>, key: string)
    ensures LookupFrom(entries, key).Some? <==> key in Keys(entries)
    ensures LookupFrom(entries, key).Some? ==> LookupFrom(entries, key).value in Values(entries)
    decreases |entries|
  {
    if entries != [] && entries[0].0 != key {
      LookupFromMembers(entries[1..], key);
      assert Keys(entries) == [entries[0].0] + Keys(entries[1..]);
      assert Values(entries) == [entries[0].1] + Values(entries[1..]);
    } else if entries != [] {
      assert Keys(entries)[0] == key;
      assert Values(entries)[0] == entries[0].1;
    }
  }

  /** `REGULATORY_WEBSITES.get(key)` */
  function CatalogUrl(key: string): Option<string> {
    LookupFrom(RegulatoryWebsites, key)
  }

  /** Every key the two keyword tables name is a key of the catalog, so the
      `if website_key in REGULATORY_WEBSITES` guards of the selector never fail. */
  lemma TablesReferToCatalog()
    ensures forall i, j :: 0 <= i < |WebsiteSelectionCriteria| && 0 <= j < |WebsiteSelectionCriteria[i].1| ==>
              IsCatalogKey(WebsiteSelectionCriteria[i].1[j])
    ensures forall i, j :: 0 <= i < |RegionWebsites| && 0 <= j < |RegionWebsites[i].1| ==>
              IsCatalogKey(RegionWebsites[i].1[j])
  {
    assert CatalogKeys() == ["US_NHTSA", "US_EPA", "EU_COMMISSION", "UNECE", "ACEA", "UK_VCA",
                             "JAPAN_MLIT", "INDIA_MORTH", "AUSTRALIA_INFRASTRUCTURE"];
  }

  /** A catalog key resolves to a catalog URL. */
  lemma CatalogUrlOfKey(key: string)
    requires IsCatalogKey(key)
    ensures CatalogUrl(key).Some? && CatalogUrl(key).value in CatalogUrls()
  {
    LookupFromMembers(RegulatoryWebsites, key);
  }

  lemma CatalogKeysUnique()
    ensures forall i, j :: 0 <= i < j < |RegulatoryWebsites| ==> RegulatoryWebsites[i].0 != RegulatoryWebsites[j].0
    ensures forall i, j :: 0 <= i < j < |RegulatoryWebsites| ==> RegulatoryWebsites[i].1 != RegulatoryWebsites[j].1
  {
  }

  /** `url.split('/')[2]`, or `None` where Python raises `IndexError` */
  function Host(url: string): Option<string> {
    var parts := Split(url, "/");
    if |parts| > 2 then Some(parts[2]) else None
  }

  lemma {:induction false} SplitSkipsSegment(w: string, t: string, cur: string)
    requires forall k :: 0 <= k < |w| ==> w[k] != '/'
    ensures SplitFrom(w + t, "/", cur) == SplitFrom(t, "/", cur + w)
    decreases |w|
  {
    if w == [] {
      assert w + t == t && cur + w == cur;
    } else {
      assert (w + t)[0] == w[0];
      assert !StartsWith(w + t, "/");
      assert (w + t)[1..] == w[1..] + t;
      assert cur + [w[0]] + w[1..] == cur + w;
      SplitSkipsSegment(w[1..], t, cur + [w[0]]);
      calc {
        SplitFrom(w + t, "/", cur);
        SplitFrom((w + t)[1..], "/", cur + [(w + t)[0]]);
        SplitFrom(w[1..] + t, "/", cur + [w[0]]);
        SplitFrom(t, "/", cur + [w[0]] + w[1..]);
      }
    }
  }

  /** For `https://host/rest`, `split('/')[2]` is the host. */
  lemma HostOfHttpsUrl(host: string, rest: string)
    requires forall k :: 0 <= k < |host| ==> host[k] != '/'
    ensures StartsWith("https://" + host + "/" + rest, "https://")
    ensures Host("https://" + host + "/" + rest) == Some(host)
  {
    assert ("https://" + host + "/" + rest)[..8] == "https://";
    var url := "https://" + host + "/" + rest;
    var afterHost := "/" + rest;
    var afterScheme := "/" + ("/" + (host + afterHost));
    assert url == "https:" + afterScheme;
    SplitSkipsSegment("https:", afterScheme, []);
    assert [] + "https:" == "https:";
    assert StartsWith(afterScheme, "/");
    assert afterScheme[1..] == "/" + (host + afterHost);
    assert StartsWith(afterScheme[1..], "/");
    assert afterScheme[1..][1..] == host + afterHost;
    SplitSkipsSegment(host, afterHost, []);
    assert [] + host == host;
    assert StartsWith(afterHost, "/");
    var tailParts := SplitFrom(afterHost, "/", host);
    assert tailParts[0] == host;
    calc {
      Split(url, "/");
      SplitFrom("https:" + afterScheme, "/", []);
      SplitFrom(afterScheme, "/", "https:");
      ["https:"] + SplitFrom(afterScheme[1..], "/", []);
      ["https:"] + ([[]] + SplitFrom(afterScheme[1..][1..], "/", []));
      ["https:"] + ([[]] + SplitFrom(host + afterHost, "/", []));
      ["https:"] + ([[]] + tailParts);
    }
  }

  lemma CatalogUrlHasHost(i: nat)
    requires i < |RegulatoryWebsites|
    ensures StartsWith(RegulatoryWebsites[i].1, "https://")
    ensures Host(RegulatoryWebsites[i].1).Some? && Host(RegulatoryWebsites[i].1).value != []
  {
    var hosts := ["www.nhtsa.gov", "www.epa.gov", "ec.europa.eu", "unece.org", "www.acea.auto",
                  "www.vehicle-certification-agency.gov.uk", "www.mlit.go.jp", "morth.nic.in",
                  "www.infrastructure.gov.au"];
    var paths := ["laws-regulations", "regulations-emissions-vehicles-and-engines",
                  "growth/sectors/automotive-industry_en", "transport/vehicle-regulations",
                  "publication/automotive-regulatory-guide-2023/", "", "en/", "",
                  "infrastructure-transport-vehicles/vehicles/vehicle-design-regulation"];
    assert RegulatoryWebsites[i].1 == HttpsUrl(hosts[i], paths[i]);
    HostOfHttpsUrl(hosts[i], paths[i]);
  }

  /** Every catalog URL starts with `https://`, so the learning cache's
      `split('/')[2]` key is its host and never raises. */
  lemma CatalogUrlsHaveHosts()
    ensures forall u :: u in CatalogUrls() ==> StartsWith(u, "https://") && Host(u).Some? && Host(u).value != []
  {
    forall u | u in CatalogUrls()
      ensures StartsWith(u, "https://") && Host(u).Some? && Host(u).value != []
    {
      var i :| 0 <= i < |CatalogUrls()| && CatalogUrls()[i] == u;
      CatalogUrlHasHost(i);
    }
  }

  /** Python truthiness of an optional string: `None` and `""` are false */
  predicate Truthy(v: Option<string>) { v.Some? && v.value != [] }

  /** `get_api_key`: the environment value when it is set and non-empty;
      otherwise the secret of that name when the secrets store has one;
      otherwise whatever the environment gave (`None` or `""`). */
  function GetApiKey(env: Option<string>, secret: Option<string>): (key: Option<string>)
    ensures Truthy(env) ==> key == env
    ensures !Truthy(env) && secret.Some? ==> key == secret
    ensures !Truthy(env) && secret.None? ==> key == env
  {
    if !Truthy(env) && secret.Some? then secret else env
  }

  /** The start-up checks of config.py: the first missing credential raises. */
  function ValidateCredentials(firecrawl: Option<string>, cerebras: Option<string>,
                               email: Option<string>, password: Option<string>): (r: Result<(), string>)
    ensures r.Success? <==> Truthy(firecrawl) && Truthy(cerebras) && Truthy(email) && Truthy(password)
    ensures !Truthy(firecrawl) ==> r == Failure("FIRECRAWL_API_KEY is required but not configured")
    ensures Truthy(firecrawl) && !Truthy(cerebras) ==> r == Failure("CEREBRAS_API_KEY is required but not configured")
    ensures Truthy(firecrawl) && Truthy(cerebras) && !(Truthy(email) && Truthy(password)) ==>
              r == Failure("Interregs.net credentials are required but not configured")
  {
    if !Truthy(firecrawl) then Failure("FIRECRAWL_API_KEY is required but not configured")
    else if !Truthy(cerebras) then Failure("CEREBRAS_API_KEY is required but not configured")
    else if !Truthy(email) || !Truthy(password) then Failure("Interregs.net credentials are required but not configured")
    else Success(())
  }

  const LogLevels: seq<(string, int)> := [("DEBUG", 10), ("INFO", 20), ("WARNING", 30), ("ERROR", 40), ("CRITICAL", 50)]

  /** `LOG_LEVELS.get(os.getenv("LOG_LEVEL", "INFO"), 20)` */
  function LogLevel(env: Option<string>): (level: int)
    ensures env.None? ==> level == 20
    ensures forall i :: 0 <= i < |LogLevels| && env == Some(LogLevels[i].0) ==> level == LogLevels[i].1
    ensures env.Some? && env.value !in ["DEBUG", "INFO", "WARNING", "ERROR", "CRITICAL"] ==> level == 20
  {
    var name := env.GetOr("INFO");
    if name == "DEBUG" then 10
    else if name == "INFO" then 20
    else if name == "WARNING" then 30
    else if name == "ERROR" then 40
    else if name == "CRITICAL" then 50
    else 20
  }

  /** `MCP_ENABLED`: off exactly when a cloud deployment is detected, that is when
      `STREAMLIT_CLOUD` is set to a non-empty value or the variable `STREAMLIT` is
      set (to any value). */
  function McpEnabled(streamlitCloud: Option<string>, streamlitVarSet: bool): (enabled: bool)
    ensures enabled <==> !Truthy(streamlitCloud) && !streamlitVarSet
  {
    !(Truthy(streamlitCloud) || streamlitVarSet)
  }
}
