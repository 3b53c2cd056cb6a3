/** The older fetcher of utils/firecrawl-utils.py: no key check, no LLM and no
    backup; the first three given websites are scraped and each one is also
    crawled, the crawl's relevant pages being appended after the page itself.

    The Firecrawl service is given as oracles: `scrape` as in the newer fetcher,
    `crawlStart` the reply to the request that starts a crawl of a URL, and
    `crawlPoll` the reply to the n-th status request (n = 1 … 5) for a job. */
module FetchLegacy {
  import opened Wrappers
  import opened PyText
  import opened Config
  import opened Sources
  import opened SearchTerms
  import opened Content
  import opened Fetch

  /** The reply to the request that starts a crawl: an exception, a status other
      than 200, or the job's JSON with its optional `id`. */
  datatype CrawlStart = StartRaised | StartRejected | Started(jobId: Option<string>)

  /** One crawled page: its optional `markdown`, `metadata.sourceURL` and
      `metadata.title`. */
  datatype CrawlPage = CrawlPage(markdown: Option<string>, sourceUrl: Option<string>, title: Option<string>)

  /** The reply to one status request: an exception, a status other than 200, or
      the job's `status` and `data` fields. */
  datatype PollOutcome = PollRaised | PollHttpError | PollStatus(status: Option<string>, data: Option<seq<CrawlPage>>)

  /** The five-request wait for a crawl job */
  const MaxPollAttempts: nat := 5

  /** What polling gives from attempt `k + 1` on: `None` when a request raised,
      otherwise the pages of a completed job (none for a failed job, for one that
      did not complete within five attempts, or for a completed one without data). */
  function PollFrom(jobId: string, poll: (string, nat) -> PollOutcome, k: nat): (r: Option<seq<CrawlPage>>)
    decreases MaxPollAttempts - k
  {
    if k >= MaxPollAttempts then Some([])
    else
      match poll(jobId, k + 1)
      case PollRaised => None
      case PollHttpError => PollFrom(jobId, poll, k + 1)
      case PollStatus(status, data) =>
        if status == Some("completed") then Some(data.GetOr([]))
        else if status == Some("failed") then Some([])
        else PollFrom(jobId, poll, k + 1)
  }

  /** The record a crawled page contributes: its relevant content, if any, with
      the page's source URL (default: the crawled URL) and title (default: that
      source URL). */
  function PageResult(url: string, page: CrawlPage, terms: set<string>): (r: seq<Source>)
    ensures |r| <= 1
    ensures forall s :: s in r ==> s.text != []
  {
    if page.markdown.None? then []
    else
      var content := RelevantContentLegacy(page.markdown.value, terms);
      if content == [] then []
      else
        var source := page.sourceUrl.GetOr(url);
        [Source(content, source, page.title.GetOr(source))]
  }

  /** The cap the loop's `break` enforces: it is tested only after an append. */
  function Cap(maxResults: int): nat {
    if maxResults < 1 then 1 else maxResults
  }

  /** The records taken from the first `n` pages, the loop stopping once `Cap`
      of them are collected */
  function Collected(url: string, pages: seq<CrawlPage>, n: nat, terms: set<string>, maxResults: int): (r: seq<Source>)
    requires n <= |pages|
    ensures |r| <= Cap(maxResults)
    ensures forall s :: s in r ==> s.text != []
    decreases n
  {
    if n == 0 then []
    else
      var before := Collected(url, pages, n - 1, terms, maxResults);
      if |before| >= Cap(maxResults) then before
      else before + PageResult(url, pages[n - 1], terms)
  }

  /** `crawl_website`: `Failure` stands for the firecrawl_api_error it raises */
  function Crawl(url: string, terms: set<string>, maxResults: int, start: CrawlStart,
                 poll: (string, nat) -> PollOutcome): Result<seq<Source>, string>
  {
    match start
    case StartRaised => Failure(FirecrawlApiError)
    case StartRejected => Success([])
    case Started(jobId) =>
      if jobId.None? || jobId.value == [] then Success([])
      else
        match PollFrom(jobId.value, poll, 0)
        case None => Failure(FirecrawlApiError)
        case Some(pages) => Success(Collected(url, pages, |pages|, terms, maxResults))
  }

  /** The status loop of `crawl_website` */
  method AwaitCrawl(jobId: string, poll: (string, nat) -> PollOutcome) returns (r: Option<seq<CrawlPage>>)
    ensures r == PollFrom(jobId, poll, 0)
  {
    var attempts: nat := 0;
    while attempts < MaxPollAttempts
      invariant attempts <= MaxPollAttempts
      invariant PollFrom(jobId, poll, attempts) == PollFrom(jobId, poll, 0)
    {
      attempts := attempts + 1;
      var reply := poll(jobId, attempts);
      if reply.PollRaised? {
        return None;
      }
      if reply.PollHttpError? {
        continue;
      }
      if reply.status == Some("completed") {
        return Some(reply.data.GetOr([]));
      } else if reply.status == Some("failed") {
        return Some([]);
      }
    }
    return Some([]);
  }

  /** The result loop of `crawl_website` */
  method CollectPages(url: string, pages: seq<CrawlPage>, terms: set<string>, maxResults: int) returns (lists: SourceLists)
    ensures lists == Unzip(Collected(url, pages, |pages|, terms, maxResults))
  {
    var contents: seq<string> := [];
    var urls: seq<string> := [];
    var titles: seq<string> := [];
    ghost var acc: seq<Source> := [];
    var i := 0;
    while i < |pages|
      invariant i <= |pages|
      invariant acc == Collected(url, pages, i, terms, maxResults)
      invariant SourceLists(contents, urls, titles) == Unzip(acc)
      invariant |acc| < Cap(maxResults)
    {
      var page := pages[i];
      CollectedStep(url, pages, i, terms, maxResults);
      i := i + 1;
      if page.markdown.None? {
        continue;
      }
      var content := ExtractRelevantContentLegacy(page.markdown.value, terms);
      if content == [] {
        continue;
      }
      var source := page.sourceUrl.GetOr(url);
      var title := page.title.GetOr(source);
      UnzipSnoc(acc, Source(content, source, title));
      acc := acc + [Source(content, source, title)];
      contents := contents + [content];
      urls := urls + [source];
      titles := titles + [title];
      if |contents| >= maxResults {
        CollectedStable(url, pages, i, terms, maxResults);
        break;
      }
    }
    lists := SourceLists(contents, urls, titles);
  }

  method CrawlWebsite(url: string, terms: set<string>, maxResults: int, start: CrawlStart,
                      poll: (string, nat) -> PollOutcome) returns (r: Result<SourceLists, string>)
    ensures r.Failure? <==> Crawl(url, terms, maxResults, start, poll).Failure?
    ensures r.Failure? ==> r.error == FirecrawlApiError
    ensures r.Success? ==> r.value == Unzip(Crawl(url, terms, maxResults, start, poll).value)
  {
    if start.StartRaised? {
      return Failure(FirecrawlApiError);
    }
    UnzipSmall(Source([], [], []));
    if start.StartRejected? || start.jobId.None? || start.jobId.value == [] {
      return Success(SourceLists([], [], []));
    }
    var pages := AwaitCrawl(start.jobId.value, poll);
    if pages.None? {
      return Failure(FirecrawlApiError);
    }
    var lists := CollectPages(url, pages.value, terms, maxResults);
    r := Success(lists);
  }

  lemma CollectedStep(url: string, pages: seq<CrawlPage>, i: nat, terms: set<string>, maxResults: int)
    requires i < |pages| && |Collected(url, pages, i, terms, maxResults)| < Cap(maxResults)
    ensures var before := Collected(url, pages, i, terms, maxResults);
            var page := pages[i];
            Collected(url, pages, i + 1, terms, maxResults) ==
              if page.markdown.None? || RelevantContentLegacy(page.markdown.value, terms) == [] then before
              else
                var source := page.sourceUrl.GetOr(url);
                before + [Source(RelevantContentLegacy(page.markdown.value, terms), source, page.title.GetOr(source))]
  {
    assert Collected(url, pages, i, terms, maxResults) + [] == Collected(url, pages, i, terms, maxResults);
  }

  /** Once the cap is reached, later pages change nothing. */
  lemma {:induction false} CollectedStable(url: string, pages: seq<CrawlPage>, n: nat, terms: set<string>, maxResults: int)
    requires n <= |pages| && |Collected(url, pages, n, terms, maxResults)| >= Cap(maxResults)
    ensures Collected(url, pages, |pages|, terms, maxResults) == Collected(url, pages, n, terms, maxResults)
    decreases |pages| - n
  {
    if n < |pages| {
      assert Collected(url, pages, n + 1, terms, maxResults) == Collected(url, pages, n, terms, maxResults);
      CollectedStable(url, pages, n + 1, terms, maxResults);
    }
  }

  /** What one website contributes: its own relevant content, then the pages the
      crawl collected; an exception in the crawl drops the crawl's records only,
      one in the scrape drops the site. */
  function SiteRecords(site: string, terms: set<string>, scrape: string -> ScrapeOutcome,
                       crawlStart: string -> CrawlStart, poll: (string, nat) -> PollOutcome): seq<Source>
  {
    var outcome := scrape(site);
    if outcome.ScrapeRaised? || outcome.markdown.None? then []
    else
      var content := RelevantContentLegacy(outcome.markdown.value, terms);
      var own := if content == [] then [] else [Source(content, site, outcome.title.GetOr(site))];
      var crawled := if CrawlDepth > 0 then CrawledOrNone(Crawl(site, terms, MaxResultsPerSite, crawlStart(site), poll)) else [];
      own + crawled
  }

  /** The crawl's records, none when it raised */
  function CrawledOrNone(r: Result<seq<Source>, string>): seq<Source> {
    match r
    case Success(records) => records
    case Failure(_) => []
  }

  /** The records of the first `n` websites, in order */
  function Gathered(sites: seq<string>, n: nat, terms: set<string>, scrape: string -> ScrapeOutcome,
                    crawlStart: string -> CrawlStart, poll: (string, nat) -> PollOutcome): seq<Source>
    requires n <= |sites|
  {
    Concat(sites, n, site => SiteRecords(site, terms, scrape, crawlStart, poll))
  }

  /** The records of the first `n` sites, each site giving `records(site)` */
  function Concat(sites: seq<string>, n: nat, records: string -> seq<Source>): seq<Source>
    requires n <= |sites|
    decreases n
  {
    if n == 0 then [] else Concat(sites, n - 1, records) + records(sites[n - 1])
  }

  /** The per-site work inside the `try` of the loop: scrape, then crawl. An
      exception from the crawl leaves the scraped record in place. */
  method FetchSite(site: string, terms: set<string>, scrape: string -> ScrapeOutcome,
                   crawlStart: string -> CrawlStart, poll: (string, nat) -> PollOutcome) returns (lists: SourceLists)
    ensures lists == Unzip(SiteRecords(site, terms, scrape, crawlStart, poll))
  {
    var outcome := scrape(site);
    UnzipSmall(Source([], [], []));
    if outcome.ScrapeRaised? || outcome.markdown.None? {
      return SourceLists([], [], []);
    }
    var title := outcome.title.GetOr(site);
    var content := ExtractRelevantContentLegacy(outcome.markdown.value, terms);
    ghost var own: seq<Source> := [];
    lists := SourceLists([], [], []);
    if content != [] {
      own := [Source(content, site, title)];
      UnzipSmall(Source(content, site, title));
      lists := SourceLists([content], [site], [title]);
    }
    ghost var crawled: seq<Source> := [];
    if CrawlDepth > 0 {
      var crawl := CrawlWebsite(site, terms, MaxResultsPerSite, crawlStart(site), poll);
      crawled := CrawledOrNone(Crawl(site, terms, MaxResultsPerSite, crawlStart(site), poll));
      if crawl.Success? {
        UnzipAppend(own, crawled);
        lists := SourceLists(lists.texts + crawl.value.texts, lists.urls + crawl.value.urls, lists.titles + crawl.value.titles);
      }
    }
    assert own + [] == own;
  }

  /** `fetch_regulation_data` of utils/firecrawl-utils.py */
  method FetchRegulationDataLegacy(query: string, websites: seq<string>, scrape: string -> ScrapeOutcome,
                                   crawlStart: string -> CrawlStart, poll: (string, nat) -> PollOutcome)
    returns (r: Result<SourceLists, string>)
    ensures var targets := websites[..Min(MaxSitesPerQuery, |websites|)];
            var all := Gathered(targets, |targets|, PrepareSearchTerms(query), scrape, crawlStart, poll);
            r == if all == [] then Failure(NoDataFound) else Success(Unzip(all))
  {
    var terms := PrepareSearchTerms(query);
    var targets := websites[..Min(MaxSitesPerQuery, |websites|)];
    var texts: seq<string> := [];
    var urls: seq<string> := [];
    var titles: seq<string> := [];
    UnzipSmall(Source([], [], []));
    var i := 0;
    while i < |targets|
      invariant i <= |targets|
      invariant SourceLists(texts, urls, titles) == Unzip(Gathered(targets, i, terms, scrape, crawlStart, poll))
    {
      var site := targets[i];
      var found := FetchSite(site, terms, scrape, crawlStart, poll);
      UnzipAppend(Gathered(targets, i, terms, scrape, crawlStart, poll), SiteRecords(site, terms, scrape, crawlStart, poll));
      texts := texts + found.texts;
      urls := urls + found.urls;
      titles := titles + found.titles;
      i := i + 1;
    }
    if texts == [] {
      return Failure(NoDataFound);
    }
    r := Success(SourceLists(texts, urls, titles));
  }

  /** A site gives at most its own record and `MaxResultsPerSite` crawled
      ones, so the older fetcher returns at most nine records, all with text. */
  lemma GatheredBound(sites: seq<string>, n: nat, terms: set<string>, scrape: string -> ScrapeOutcome,
                      crawlStart: string -> CrawlStart, poll: (string, nat) -> PollOutcome)
    requires n <= |sites|
    ensures |Gathered(sites, n, terms, scrape, crawlStart, poll)| <= (1 + MaxResultsPerSite) * n
    ensures forall s :: s in Gathered(sites, n, terms, scrape, crawlStart, poll) ==> s.text != []
  {
    var records := site => SiteRecords(site, terms, scrape, crawlStart, poll);
    forall site
      ensures |records(site)| <= 1 + MaxResultsPerSite && forall s :: s in records(site) ==> s.text != []
    {
      SiteRecordsBound(site, terms, scrape, crawlStart, poll);
    }
    ConcatBound(sites, n, records, 1 + MaxResultsPerSite);
  }

  /** `k` records at most per site give `k * n` at most for `n` sites. */
  lemma {:induction false} ConcatBound(sites: seq<string>, n: nat, records: string -> seq<Source>, k: nat)
    requires n <= |sites|
    requires forall site :: |records(site)| <= k && forall s :: s in records(site) ==> s.text != []
    ensures |Concat(sites, n, records)| <= k * n
    ensures forall s :: s in Concat(sites, n, records) ==> s.text != []
    decreases n
  {
    if n > 0 {
      ConcatBound(sites, n - 1, records, k);
      assert k * n == k * (n - 1) + k;
    }
  }

  lemma SiteRecordsBound(site: string, terms: set<string>, scrape: string -> ScrapeOutcome,
                         crawlStart: string -> CrawlStart, poll: (string, nat) -> PollOutcome)
    ensures |SiteRecords(site, terms, scrape, crawlStart, poll)| <= 1 + MaxResultsPerSite
    ensures forall s :: s in SiteRecords(site, terms, scrape, crawlStart, poll) ==> s.text != []
  {
    var crawl := Crawl(site, terms, MaxResultsPerSite, crawlStart(site), poll);
    assert |CrawledOrNone(crawl)| <= MaxResultsPerSite && forall s :: s in CrawledOrNone(crawl) ==> s.text != [] by {
      assert Cap(MaxResultsPerSite) == MaxResultsPerSite;
    }
  }

  /** A job that neither completes nor fails within five status requests, and
      whose requests do not raise, yields no pages. */
  lemma {:induction false} PollTimesOut(jobId: string, poll: (string, nat) -> PollOutcome, k: nat)
    requires forall a :: k < a <= MaxPollAttempts ==>
               poll(jobId, a).PollHttpError? ||
               (poll(jobId, a).PollStatus? && poll(jobId, a).status != Some("completed") && poll(jobId, a).status != Some("failed"))
    ensures PollFrom(jobId, poll, k) == Some([])
    decreases MaxPollAttempts - k
  {
    if k < MaxPollAttempts {
      PollTimesOut(jobId, poll, k + 1);
    }
  }

  /** The first completed status ends the wait with that status's pages, however
      the later requests would have gone. */
  lemma {:induction false} PollStopsAtCompletion(jobId: string, poll: (string, nat) -> PollOutcome, k: nat, a: nat, pages: seq<CrawlPage>)
    requires k < a <= MaxPollAttempts && poll(jobId, a) == PollStatus(Some("completed"), Some(pages))
    requires forall b :: k < b < a ==> poll(jobId, b).PollHttpError?
    ensures PollFrom(jobId, poll, k) == Some(pages)
    decreases a - k
  {
    if k + 1 < a {
      PollStopsAtCompletion(jobId, poll, k + 1, a, pages);
    }
  }
}
