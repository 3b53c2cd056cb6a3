/** The earlier advisor page (GlobalAutoRegAdvisor.py; app-py.py is an
    identical copy). It shares the fetch, ranking, citation and topic logic of
    the current page, but prioritises the catalog by its keys rather than its
    URLs, has a single `except` that reports "An error occurred: …", and logs
    failures with topic "Error" and no sources. */
module AdvisorLegacy {
  import opened Wrappers
  import opened Config
  import opened Sources
  import opened Sorting
  import opened Ranking
  import opened Fetch
  import opened Advisor

  /** `sorted(REGULATORY_WEBSITES, key=lambda x: rates.get(x, 0), reverse=True)`
      iterates the catalog's keys, so the cache (keyed by host) is looked up
      by catalog key; with an empty cache the catalog itself is passed on. */
  function KeyPrioritized(rates: map<string, int>): seq<string> {
    if rates == map[] then CatalogKeys()
    else SortDesc<string>(CatalogKeys(), k => Get(rates, k))
  }

  /** The keys come back in catalog order unless the cache holds a catalog key
      itself, which a host never is; in any case they are a permutation of the
      catalog keys. */
  lemma KeyPrioritizedKeepsOrder(rates: map<string, int>)
    ensures multiset(KeyPrioritized(rates)) == multiset(CatalogKeys())
    ensures (forall k :: k in CatalogKeys() ==> k !in rates) ==> KeyPrioritized(rates) == CatalogKeys()
  {
    if rates != map[] && forall k :: k in CatalogKeys() ==> k !in rates {
      SortDescConstant<string>(CatalogKeys(), k => Get(rates, k), 0);
    }
  }

  const ErrorPrefix: string := "An error occurred: "

  /** What the page shows and records for one query: the assistant's text, the
      citation markup (`None` after an exception), the cache afterwards and the
      number of sources logged. */
  datatype LegacyReply = LegacyReply(text: string, sourceHtml: Option<string>, rates: map<string, int>, sourceCount: nat)

  function Failed(message: string, rates: map<string, int>): LegacyReply {
    LegacyReply(ErrorPrefix + message, None, rates, 0)
  }

  /** The `try` block: every exception becomes "An error occurred: " and its
      message. */
  function LegacyRespond(query: string, fetched: Result<SourceLists, string>, score: Option<nat -> int>,
                         llm: (string, seq<string>) -> LlmOutcome, rates: map<string, int>): LegacyReply
  {
    match fetched
    case Failure(e) => Failed(e, rates)
    case Success(lists) =>
      match llm(query, ExtractRelevantRegulations(lists.texts, score))
      case LlmRaised(m, _) => Failed(m, rates)
      case LlmAnswer(answer, refs) =>
        match Citations(refs, lists.urls, lists.titles)
        case Failure(e) => Failed(e, rates)
        case Success(html) =>
          var (m, ok) := Record(rates, refs, lists.urls);
          if ok then LegacyReply(answer, Some(html), m, |lists.urls|)
          else Failed(IndexErrorMessage, m)
  }

  /** Any failure is reported with the error prefix, without markup and with
      no sources; a success shows the model's answer with its rendered
      citations and credits every cited host. */
  lemma LegacyOutcomes(query: string, fetched: Result<SourceLists, string>, score: Option<nat -> int>,
                       llm: (string, seq<string>) -> LlmOutcome, rates: map<string, int>)
    ensures var r := LegacyRespond(query, fetched, score, llm, rates);
            && (r.sourceHtml.None? ==> r.text[..|ErrorPrefix|] == ErrorPrefix && r.sourceCount == 0)
            && (r.sourceHtml.Some? ==>
                  && fetched.Success?
                  && var reply := llm(query, ExtractRelevantRegulations(fetched.value.texts, score));
                  && reply.LlmAnswer? && r.text == reply.answer
                  && Citations(reply.referenced, fetched.value.urls, fetched.value.titles) == Success(r.sourceHtml.value)
                  && r.sourceCount == |fetched.value.urls|
                  && forall h :: Get(r.rates, h) == Get(rates, h) + Credits(reply.referenced, fetched.value.urls, h))
            && (fetched.Failure? ==> r == Failed(fetched.error, rates))
  {
    var r := LegacyRespond(query, fetched, score, llm, rates);
    if fetched.Success? {
      var reply := llm(query, ExtractRelevantRegulations(fetched.value.texts, score));
      if reply.LlmAnswer? {
        RecordCounts(rates, reply.referenced, fetched.value.urls);
      }
    }
    if r.sourceHtml.None? {
      assert exists m :: r.text == ErrorPrefix + m;
      var m :| r.text == ErrorPrefix + m;
      assert (ErrorPrefix + m)[..|ErrorPrefix|] == ErrorPrefix;
    }
  }

  /** One row of the legacy query log */
  datatype LegacyLogEntry = LegacyLogEntry(query: string, answer: string, topic: string, sourceCount: nat)

  /** The topic logged: the first keyword found after a success, "Error" after
      an exception. */
  function LegacyTopic(query: string, r: LegacyReply): string {
    if r.sourceHtml.Some? then TopicFrom(query, r.text, 0) else "Error"
  }

  class LegacySession {
    var chatHistory: seq<Message>
    var successRates: map<string, int>

    /** Without a cache file the cache starts empty. */
    constructor(cached: Option<map<string, int>>)
      ensures chatHistory == []
      ensures successRates == if cached.Some? then cached.value else map[]
    {
      chatHistory := [];
      successRates := if cached.Some? then cached.value else map[];
    }

    /** "Get Answer" on the earlier page */
    method Submit(query: string, firecrawlKey: Option<string>, llmReply: Option<string>,
                  scrape: string -> ScrapeOutcome, backup: (string, string, string) -> Option<seq<Source>>,
                  score: Option<nat -> int>, llm: (string, seq<string>) -> LlmOutcome)
      returns (entry: Option<LegacyLogEntry>, ghost fetched: Result<SourceLists, string>, ghost targets: seq<string>)
      modifies this
      ensures query == [] ==> entry.None? && chatHistory == old(chatHistory) && successRates == old(successRates)
      ensures query != [] ==>
                var r := LegacyRespond(query, fetched, score, llm, old(successRates));
                && chatHistory == old(chatHistory) + [Message("user", query, ""),
                                                      Message("assistant", r.text, r.sourceHtml.GetOr(""))]
                && successRates == r.rates
                && entry == Some(LegacyLogEntry(query, r.text, LegacyTopic(query, r), r.sourceCount))
      ensures query != [] && !KeyConfigured(firecrawlKey) ==> fetched == Failure(ApiKeyMissing)
      ensures query != [] && KeyConfigured(firecrawlKey) ==>
                && 1 <= |targets| <= MaxSitesPerQuery && (forall u :: u in targets ==> u in CatalogUrls())
                && fetched == Fetched(query, targets, scrape, backup)
    {
      if query == [] {
        return None, Failure(""), [];
      }
      ghost var history := chatHistory;
      var asked := Message("user", query, "");
      chatHistory := chatHistory + [asked];
      var r, chosen := FetchPrioritized(query, firecrawlKey, llmReply, scrape, backup);
      fetched, targets := r, chosen;
      var reply := Answer(query, r, score, llm);
      var logged := Conclude(query, reply);
      entry := Some(logged);
      AppendTwo(history, asked, Message("assistant", reply.text, reply.sourceHtml.GetOr("")));
    }

    /** The fetch over the catalog keys in the order the cache gives them */
    method FetchPrioritized(query: string, firecrawlKey: Option<string>, llmReply: Option<string>,
                            scrape: string -> ScrapeOutcome, backup: (string, string, string) -> Option<seq<Source>>)
      returns (r: Result<SourceLists, string>, targets: seq<string>)
      ensures !KeyConfigured(firecrawlKey) ==> r == Failure(ApiKeyMissing) && targets == []
      ensures KeyConfigured(firecrawlKey) ==> 1 <= |targets| <= MaxSitesPerQuery && forall u :: u in targets ==> u in CatalogUrls()
      ensures KeyConfigured(firecrawlKey) ==> r == Fetched(query, targets, scrape, backup)
    {
      var websites := KeyPrioritized(successRates);
      r, targets := FetchRegulationData(query, websites, firecrawlKey, llmReply, scrape, backup);
    }

    /** The reply joins the history, and the row to log is built. */
    method Conclude(query: string, reply: LegacyReply) returns (entry: LegacyLogEntry)
      modifies this
      ensures chatHistory == old(chatHistory) + [Message("assistant", reply.text, reply.sourceHtml.GetOr(""))]
      ensures successRates == old(successRates)
      ensures entry == LegacyLogEntry(query, reply.text, LegacyTopic(query, reply), reply.sourceCount)
    {
      chatHistory := chatHistory + [Message("assistant", reply.text, reply.sourceHtml.GetOr(""))];
      var topic := "Error";
      if reply.sourceHtml.Some? {
        topic := TopicOf(query, reply.text, true);
      }
      entry := LegacyLogEntry(query, reply.text, topic, reply.sourceCount);
    }

    /** The `try` block from the fetched data on */
    method Answer(query: string, fetched: Result<SourceLists, string>, score: Option<nat -> int>,
                  llm: (string, seq<string>) -> LlmOutcome) returns (reply: LegacyReply)
      modifies this
      ensures reply == LegacyRespond(query, fetched, score, llm, old(successRates))
      ensures successRates == reply.rates && chatHistory == old(chatHistory)
    {
      if fetched.Failure? {
        return Failed(fetched.error, successRates);
      }
      var lists := fetched.value;
      var outcome := llm(query, ExtractRelevantRegulations(lists.texts, score));
      if outcome.LlmRaised? {
        return Failed(outcome.message, successRates);
      }
      var rendered := RenderCitations(outcome.referenced, lists.urls, lists.titles);
      if rendered.Failure? {
        return Failed(rendered.error, successRates);
      }
      var m, ok := RecordCitations(successRates, outcome.referenced, lists.urls);
      successRates := m;
      if ok {
        reply := LegacyReply(outcome.answer, Some(rendered.value), m, |lists.urls|);
      } else {
        reply := Failed(IndexErrorMessage, m);
      }
    }
  }
}
