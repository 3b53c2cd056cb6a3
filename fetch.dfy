/** `fetch_regulation_data` of utils/firecrawl_utils.py: check the Firecrawl key,
    let the LLM (or the heuristic) choose the websites, scrape each one and keep
    its relevant content, ask Interregs.net for more when fewer than two primary
    results came back, and raise when nothing was found.

    The services are oracles: `scrape` gives the outcome of `scrape_website` for a
    URL, `llmReply` the Cerebras reply (or `None` when that call raised), and
    `backup` the outcome of `search_interregs_regulations` for
    (query, region, category), `None` when it raised. The backup's three lists are
    taken in record form, being aligned by construction (see the Interregs model). */
module Fetch {
  import opened Wrappers
  import opened PyText
  import opened Config
  import opened Sources
  import opened SearchTerms
  import opened Classify
  import opened SiteSelection
  import opened Content

  /** What `scrape_website` gave for one site: an exception, or the response's
      data with its optional `markdown` and `metadata.title` fields. */
  datatype ScrapeOutcome = ScrapeRaised | Scraped(markdown: Option<string>, title: Option<string>)

  /** `not api_key or api_key == "YOUR_FIRECRAWL_API_KEY"` is false */
  predicate KeyConfigured(apiKey: Option<string>) {
    Truthy(apiKey) && apiKey.value != "YOUR_FIRECRAWL_API_KEY"
  }

  /** The record one site contributes: none when scraping raised, when there is
      no markdown, or when nothing relevant was extracted. */
  function SiteResult(site: string, outcome: ScrapeOutcome, terms: set<string>): (r: seq<Source>)
    ensures |r| <= 1
    ensures forall s :: s in r ==> s.url == site && s.text != []
  {
    match outcome
    case ScrapeRaised => []
    case Scraped(markdown, title) =>
      if markdown.None? then []
      else
        var content := RelevantContent(markdown.value, terms);
        if content == [] then [] else [Source(content, site, title.GetOr(site))]
  }

  /** The primary results from the first `n` sites, in site order */
  function Primary(sites: seq<string>, n: nat, scrape: string -> ScrapeOutcome, terms: set<string>): (r: seq<Source>)
    requires n <= |sites|
    ensures |r| <= n
    ensures forall s :: s in r ==> s.url in sites[..n] && s.text != []
    decreases n
  {
    if n == 0 then []
    else
      var before := Primary(sites, n - 1, scrape, terms);
      assert sites[..n - 1] <= sites[..n];
      before + SiteResult(sites[n - 1], scrape(sites[n - 1]), terms)
  }

  lemma PrimaryStep(sites: seq<string>, i: nat, scrape: string -> ScrapeOutcome, terms: set<string>)
    requires i < |sites|
    ensures Primary(sites, i + 1, scrape, terms) == Primary(sites, i, scrape, terms) + SiteResult(sites[i], scrape(sites[i]), terms)
    ensures var o := scrape(sites[i]);
            SiteResult(sites[i], o, terms) ==
              if o.ScrapeRaised? || o.markdown.None? || RelevantContent(o.markdown.value, terms) == [] then []
              else [Source(RelevantContent(o.markdown.value, terms), sites[i], o.title.GetOr(sites[i]))]
  {
  }

  /** The Interregs records added to the primary ones: the backup is asked only
      when fewer than two primary results exist, and its failure adds nothing. */
  function BackupResults(query: string, primary: seq<Source>, backup: (string, string, string) -> Option<seq<Source>>): seq<Source> {
    if |primary| < 2 then backup(query, ExtractRegion(query), ExtractCategory(query)).GetOr([]) else []
  }

  /** What fetching from the chosen `targets` gives: the primary records and any
      backup records, or `no_data_found` when there are none. */
  function Fetched(query: string, targets: seq<string>, scrape: string -> ScrapeOutcome,
                   backup: (string, string, string) -> Option<seq<Source>>): Result<SourceLists, string>
  {
    var primary := Primary(targets, |targets|, scrape, PrepareSearchTerms(query));
    var all := primary + BackupResults(query, primary, backup);
    if all == [] then Failure(NoDataFound) else Success(Unzip(all))
  }

  /** The loop over the chosen sites: a site whose scrape raised or lacked
      markdown is skipped, and the three lists grow together. */
  method ScrapeSites(sites: seq<string>, scrape: string -> ScrapeOutcome, terms: set<string>) returns (lists: SourceLists)
    ensures lists == Unzip(Primary(sites, |sites|, scrape, terms))
  {
    var texts: seq<string> := [];
    var urls: seq<string> := [];
    var titles: seq<string> := [];
    ghost var acc: seq<Source> := [];
    var i := 0;
    while i < |sites|
      invariant i <= |sites|
      invariant acc == Primary(sites, i, scrape, terms)
      invariant SourceLists(texts, urls, titles) == Unzip(acc)
    {
      var site := sites[i];
      var outcome := scrape(site);
      ghost var added := SiteResult(site, outcome, terms);
      PrimaryStep(sites, i, scrape, terms);
      UnzipAppend(acc, added);
      acc := acc + added;
      i := i + 1;
      if outcome.ScrapeRaised? || outcome.markdown.None? {
        continue;
      }
      var title := outcome.title.GetOr(site);
      var content := ExtractRelevantContent(outcome.markdown.value, terms);
      if content != [] {
        UnzipSmall(Source(content, site, title));
        texts := texts + [content];
        urls := urls + [site];
        titles := titles + [title];
      }
    }
    lists := SourceLists(texts, urls, titles);
  }

  /** The Interregs step: asked only when fewer than two primary results exist;
      an exception it raises is logged and the primary results stand. */
  method AddBackup(query: string, primary: seq<Source>, backup: (string, string, string) -> Option<seq<Source>>)
    returns (lists: SourceLists)
    ensures lists == Unzip(primary + BackupResults(query, primary, backup))
  {
    lists := Unzip(primary);
    if |lists.texts| < 2 {
      var found := backup(query, ExtractRegion(query), ExtractCategory(query));
      if found.Some? {
        var extra := Unzip(found.value);
        UnzipAppend(primary, found.value);
        lists := SourceLists(lists.texts + extra.texts, lists.urls + extra.urls, lists.titles + extra.titles);
        return;
      }
    }
    assert primary + [] == primary;
  }

  /** `fetch_regulation_data`. Besides the three lists it returns `targets`,
      the websites it chose to scrape (a local variable of the source). */
  method FetchRegulationData(query: string, websites: seq<string>, apiKey: Option<string>,
                             llmReply: Option<string>, scrape: string -> ScrapeOutcome,
                             backup: (string, string, string) -> Option<seq<Source>>)
    returns (r: Result<SourceLists, string>, targets: seq<string>)
    ensures !KeyConfigured(apiKey) ==> r == Failure(ApiKeyMissing) && targets == []
    ensures KeyConfigured(apiKey) ==> 1 <= |targets| <= MaxSitesPerQuery && forall u :: u in targets ==> u in CatalogUrls()
    ensures KeyConfigured(apiKey) && llmReply.Some? && ParseLlmReply(llmReply.value) != [] ==>
              targets == ParseLlmReply(llmReply.value)[..Min(MaxSitesPerQuery, |ParseLlmReply(llmReply.value)|)]
    ensures KeyConfigured(apiKey) ==> r == Fetched(query, targets, scrape, backup)
  {
    if !Truthy(apiKey) || apiKey.value == "YOUR_FIRECRAWL_API_KEY" {
      return Failure(ApiKeyMissing), [];
    }
    var sites := SelectWebsitesWithLlm(query, llmReply);
    targets := sites;
    var terms := PrepareSearchTerms(query);
    var primaryLists := ScrapeSites(sites, scrape, terms);
    ghost var primary := Primary(sites, |sites|, scrape, terms);
    ZipUnzip(primary, primaryLists);
    var lists := AddBackup(query, Zip(primaryLists), backup);
    if lists.texts == [] {
      return Failure(NoDataFound), targets;
    }
    r := Success(lists);
  }

  /** Every primary source is one of the chosen sites, each at most once, and
      carries non-empty text; a site whose scrape raised or lacked markdown adds
      nothing. */
  lemma PrimaryFromTargets(sites: seq<string>, scrape: string -> ScrapeOutcome, terms: set<string>)
    ensures |Primary(sites, |sites|, scrape, terms)| <= |sites|
    ensures forall s :: s in Primary(sites, |sites|, scrape, terms) ==> s.url in sites && s.text != []
    ensures forall i :: 0 <= i < |sites| && (scrape(sites[i]).ScrapeRaised? || scrape(sites[i]).markdown.None?) ==>
              SiteResult(sites[i], scrape(sites[i]), terms) == []
  {
    assert sites[..|sites|] == sites;
  }

  /** With two or more primary results the backup adds nothing and the primary
      results are returned as they are. */
  lemma EnoughPrimaryMeansNoBackup(query: string, primary: seq<Source>, backup: (string, string, string) -> Option<seq<Source>>)
    requires |primary| >= 2
    ensures primary + BackupResults(query, primary, backup) == primary
  {
  }
}
