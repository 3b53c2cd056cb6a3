/** The query handling of the Streamlit advisor (app.py): the start-up key
    check, the learning cache that reorders the catalog by past citations, the
    fetch → rank → answer pipeline with its two error messages, the citation
    markup, and the topic recorded in the query log. Page rendering, the log
    file and the cache file are I/O and are not modelled; the answering model
    is the oracle `llm`. */
module Advisor {
  import opened Wrappers
  import opened PyText
  import opened Config
  import opened Sources
  import opened Sorting
  import opened Ranking
  import opened Fetch

  // ---------------------------------------------------------------------------
  // check_api_keys

  /** The names `check_api_keys` reports as missing; the app stops when there
      is any. */
  function MissingApiKeys(firecrawl: Option<string>, cerebras: Option<string>): (missing: seq<string>)
    ensures "Firecrawl API Key" in missing <==> !Truthy(firecrawl) || firecrawl.value == "fc-your-firecrawl-api-key-here"
    ensures "Cerebras API Key" in missing <==> !Truthy(cerebras) || cerebras.value == "csk-your-cerebras-api-key-here"
    ensures |missing| <= 2 && (|missing| == 2 ==> missing == ["Firecrawl API Key", "Cerebras API Key"])
  {
    (if !Truthy(firecrawl) || firecrawl.value == "fc-your-firecrawl-api-key-here" then ["Firecrawl API Key"] else [])
      + (if !Truthy(cerebras) || cerebras.value == "csk-your-cerebras-api-key-here" then ["Cerebras API Key"] else [])
  }

  // ---------------------------------------------------------------------------
  // Learning cache: website success rates

  /** `website_success_rates.get(url.split('/')[2], 0)` */
  function Rate(rates: map<string, int>, url: string): int {
    match Host(url)
    case Some(h) => if h in rates then rates[h] else 0
    case None => 0
  }

  /** The catalog in the order the query is sent with: catalog order while the
      cache is empty, otherwise sorted by descending success rate (stably). */
  function PrioritizedWebsites(rates: map<string, int>): seq<string> {
    if rates == map[] then CatalogUrls()
    else SortDesc<string>(CatalogUrls(), u => Rate(rates, u))
  }

  /** The reordering is a permutation of the catalog, ordered by rate. */
  lemma PrioritizedIsCatalogPermutation(rates: map<string, int>)
    ensures multiset(PrioritizedWebsites(rates)) == multiset(CatalogUrls())
    ensures rates != map[] ==> SortedDesc(PrioritizedWebsites(rates), u => Rate(rates, u))
  {
    if rates != map[] {
      SortDescSorted<string>(CatalogUrls(), u => Rate(rates, u));
    }
  }

  /** The reordering is stable: the URLs sharing a success rate keep their
      catalog order. */
  lemma PrioritizedKeepsTiesInCatalogOrder(rates: map<string, int>, c: int)
    ensures WithKey(PrioritizedWebsites(rates), u => Rate(rates, u), c) == WithKey(CatalogUrls(), u => Rate(rates, u), c)
  {
    if rates != map[] {
      SortDescStable<string>(CatalogUrls(), u => Rate(rates, u), c);
    }
  }

  /** An empty cache, or one that rates every catalog host 0 (one that knows
      none of them, say), keeps catalog order. */
  lemma PrioritizedKeepsCatalogOrder(rates: map<string, int>)
    requires forall u :: u in CatalogUrls() ==> Rate(rates, u) == 0
    ensures PrioritizedWebsites(rates) == CatalogUrls()
  {
    if rates != map[] {
      SortDescConstant<string>(CatalogUrls(), u => Rate(rates, u), 0);
    }
  }

  /** Python's `xs[idx]`: negative indices count from the end; `None` is the
      `IndexError`. */
  function At(xs: seq<string>, idx: int): Option<string> {
    if 0 <= idx < |xs| then Some(xs[idx])
    else if -|xs| <= idx < 0 then Some(xs[|xs| + idx])
    else None
  }

  const IndexErrorMessage: string := "list index out of range"

  /** One cited source of the answer; `number` is the position in the model's
      list of referenced sources, counted from 1. */
  function Citation(number: nat, url: string, title: string): string {
    "\n                <p><span class='source-title'>Source " + NatToString(number) + ":</span> \n"
      + "                <a href='" + url + "' target='_blank'>" + title + "</a></p>\n                "
  }

  /** The markup of the cited sources: indices not below the number of URLs are
      skipped, the others are read Python-style and raise when too negative. */
  function Citations(refs: seq<int>, urls: seq<string>, titles: seq<string>): Result<string, string>
    decreases |refs|
  {
    if refs == [] then Success("")
    else
      match Citations(refs[..|refs| - 1], urls, titles)
      case Failure(e) => Failure(e)
      case Success(html) =>
        var idx := refs[|refs| - 1];
        if idx >= |urls| then Success(html)
        else if At(urls, idx).None? || At(titles, idx).None? then Failure(IndexErrorMessage)
        else Success(html + Citation(|refs|, At(urls, idx).value, At(titles, idx).value))
  }

  /** `get(h, 0)` */
  function Get(rates: map<string, int>, h: string): int {
    if h in rates then rates[h] else 0
  }

  /** The learning-cache update: every cited in-range source adds one to its
      host. The flag is false when a lookup raised; the increments made before
      stay, since the dictionary is updated in place. */
  function Record(rates: map<string, int>, refs: seq<int>, urls: seq<string>): (map<string, int>, bool)
    decreases |refs|
  {
    if refs == [] then (rates, true)
    else
      var (m, ok) := Record(rates, refs[..|refs| - 1], urls);
      var idx := refs[|refs| - 1];
      if !ok then (m, false)
      else if idx >= |urls| then (m, true)
      else if At(urls, idx).None? || Host(At(urls, idx).value).None? then (m, false)
      else
        var h := Host(At(urls, idx).value).value;
        (m[h := Get(m, h) + 1], true)
  }

  /** How many of the references credit host `h` */
  function Credits(refs: seq<int>, urls: seq<string>, h: string): nat
    decreases |refs|
  {
    if refs == [] then 0
    else
      var idx := refs[|refs| - 1];
      Credits(refs[..|refs| - 1], urls, h)
        + if idx < |urls| && At(urls, idx).Some? && Host(At(urls, idx).value) == Some(h) then 1 else 0
  }

  /** A complete update adds to each host exactly the number of references that
      credit it, and adds no other key; an interrupted one never lowers a rate. */
  lemma {:induction false} RecordCounts(rates: map<string, int>, refs: seq<int>, urls: seq<string>)
    ensures forall h :: Get(Record(rates, refs, urls).0, h) >= Get(rates, h)
    ensures Record(rates, refs, urls).1 ==>
              forall h :: Get(Record(rates, refs, urls).0, h) == Get(rates, h) + Credits(refs, urls, h)
    ensures forall h :: h in Record(rates, refs, urls).0 ==> h in rates || Credits(refs, urls, h) > 0
    decreases |refs|
  {
    if refs != [] {
      RecordCounts(rates, refs[..|refs| - 1], urls);
    }
  }

  /** The markup renders exactly when no reference is below minus the number of
      sources (with as many titles as URLs). */
  lemma {:induction false} CitationsSucceed(refs: seq<int>, urls: seq<string>, titles: seq<string>)
    requires |titles| == |urls|
    ensures Citations(refs, urls, titles).Success? <==> forall k :: 0 <= k < |refs| ==> refs[k] >= -|urls|
    decreases |refs|
  {
    if refs != [] {
      CitationsSucceed(refs[..|refs| - 1], urls, titles);
      assert forall k :: 0 <= k < |refs| - 1 ==> refs[..|refs| - 1][k] == refs[k];
    }
  }

  /** The positions in the model's reference list that get a citation: those
      whose index is below the number of URLs, in order */
  function ShownPositions(refs: seq<int>, urls: seq<string>): (p: seq<nat>)
    ensures forall j :: 0 <= j < |p| ==> p[j] < |refs| && refs[p[j]] < |urls|
    ensures forall k: nat :: k < |refs| && refs[k] < |urls| ==> k in p
    ensures forall i, j :: 0 <= i < j < |p| ==> p[i] < p[j]
  {
    ShownUpTo(refs, urls, |refs|)
  }

  /** The shown positions below `n` */
  function ShownUpTo(refs: seq<int>, urls: seq<string>, n: nat): (p: seq<nat>)
    requires n <= |refs|
    ensures forall j :: 0 <= j < |p| ==> p[j] < n && refs[p[j]] < |urls|
    ensures forall k: nat :: k < n && refs[k] < |urls| ==> k in p
    ensures forall i, j :: 0 <= i < j < |p| ==> p[i] < p[j]
    decreases n
  {
    if n == 0 then []
    else
      var before := ShownUpTo(refs, urls, n - 1);
      if refs[n - 1] < |urls| then
        var p := before + [n - 1];
        assert forall j :: 0 <= j < |before| ==> p[j] == before[j];
        p
      else before
  }

  /** One citation per shown position `k`, numbered k+1 and read Python-style */
  function CitationEntries(refs: seq<int>, urls: seq<string>, titles: seq<string>, p: seq<nat>): seq<string>
    requires |titles| == |urls|
    requires forall j :: 0 <= j < |p| ==> p[j] < |refs| && -|urls| <= refs[p[j]] < |urls|
  {
    seq(|p|, j requires 0 <= j < |p| => Entry(refs, urls, titles, p[j]))
  }

  /** The citation of the reference at position `k` */
  function Entry(refs: seq<int>, urls: seq<string>, titles: seq<string>, k: nat): string
    requires |titles| == |urls| && k < |refs| && -|urls| <= refs[k] < |urls|
  {
    Citation(k + 1, At(urls, refs[k]).value, At(titles, refs[k]).value)
  }

  lemma EntriesSnoc(refs: seq<int>, urls: seq<string>, titles: seq<string>, p: seq<nat>, k: nat)
    requires |titles| == |urls| && k < |refs| && -|urls| <= refs[k] < |urls|
    requires forall j :: 0 <= j < |p| ==> p[j] < |refs| && -|urls| <= refs[p[j]] < |urls|
    ensures CitationEntries(refs, urls, titles, p + [k]) == CitationEntries(refs, urls, titles, p) + [Entry(refs, urls, titles, k)]
  {
  }

  /** When no reference is too negative, the markup is exactly the citations of
      the shown positions, in order: a reference not below the number of URLs
      contributes nothing. */
  lemma CitationsExact(refs: seq<int>, urls: seq<string>, titles: seq<string>)
    requires |titles| == |urls|
    requires forall k :: 0 <= k < |refs| ==> refs[k] >= -|urls|
    ensures Citations(refs, urls, titles) == Success(Join("", CitationEntries(refs, urls, titles, ShownPositions(refs, urls))))
  {
    CitationsUpTo(refs, urls, titles, |refs|);
    assert refs[..|refs|] == refs;
  }

  /** The same for the first `n` references */
  lemma {:induction false} CitationsUpTo(refs: seq<int>, urls: seq<string>, titles: seq<string>, n: nat)
    requires |titles| == |urls| && n <= |refs|
    requires forall k :: 0 <= k < |refs| ==> refs[k] >= -|urls|
    ensures Citations(refs[..n], urls, titles) == Success(Join("", CitationEntries(refs, urls, titles, ShownUpTo(refs, urls, n))))
    decreases n
  {
    if n > 0 {
      CitationsUpTo(refs, urls, titles, n - 1);
      CitationsUpToStep(refs, urls, titles, n);
    }
  }

  lemma CitationsUpToStep(refs: seq<int>, urls: seq<string>, titles: seq<string>, n: nat)
    requires |titles| == |urls| && 0 < n <= |refs|
    requires forall k :: 0 <= k < |refs| ==> refs[k] >= -|urls|
    requires Citations(refs[..n - 1], urls, titles) == Success(Join("", CitationEntries(refs, urls, titles, ShownUpTo(refs, urls, n - 1))))
    ensures Citations(refs[..n], urls, titles) == Success(Join("", CitationEntries(refs, urls, titles, ShownUpTo(refs, urls, n))))
  {
    var p := ShownUpTo(refs, urls, n - 1);
    var before := CitationEntries(refs, urls, titles, p);
    assert refs[..n][..n - 1] == refs[..n - 1];
    assert refs[..n][n - 1] == refs[n - 1];
    if refs[n - 1] < |urls| {
      var last := Entry(refs, urls, titles, n - 1);
      assert Citations(refs[..n], urls, titles) == Success(Join("", before) + last);
      EntriesSnoc(refs, urls, titles, p, n - 1);
      JoinEmptySnoc(before, last);
    }
  }

  lemma JoinEmptySnoc(parts: seq<string>, last: string)
    ensures Join("", parts + [last]) == Join("", parts) + last
  {
    if parts == [] {
      assert parts + [last] == [last];
    } else {
      JoinAppend("", parts, last);
    }
  }

  /** Every in-range reference at position `k` shows up as "Source k+1" with the
      URL and title at that index of the fetched lists. */
  lemma {:induction false} CitationListed(refs: seq<int>, urls: seq<string>, titles: seq<string>, k: nat)
    requires k < |refs| && 0 <= refs[k] < |urls| && refs[k] < |titles|
    requires Citations(refs, urls, titles).Success?
    ensures Contains(Citations(refs, urls, titles).value, Citation(k + 1, urls[refs[k]], titles[refs[k]]))
    decreases |refs|
  {
    var init := refs[..|refs| - 1];
    var html := Citations(refs, urls, titles).value;
    assert Citations(init, urls, titles).Success?;
    var before := Citations(init, urls, titles).value;
    if k == |refs| - 1 {
      assert html == before + Citation(k + 1, urls[refs[k]], titles[refs[k]]);
      ContainsSelf(Citation(k + 1, urls[refs[k]], titles[refs[k]]));
      ContainsInRight(before, Citation(k + 1, urls[refs[k]], titles[refs[k]]), Citation(k + 1, urls[refs[k]], titles[refs[k]]));
    } else {
      assert init[k] == refs[k];
      CitationListed(init, urls, titles, k);
      if html != before {
        var idx := refs[|refs| - 1];
        ContainsInLeft(before, Citation(|refs|, At(urls, idx).value, At(titles, idx).value), Citation(k + 1, urls[refs[k]], titles[refs[k]]));
      }
    }
  }

  // ---------------------------------------------------------------------------
  // Answers and topics

  /** What the answering model (`process_with_llama_scout`) does: it raises
      (a `ValueError` or another exception) or answers with the indices of the
      snippets it used. */
  datatype LlmOutcome = LlmRaised(message: string, valueError: bool) | LlmAnswer(answer: string, referenced: seq<int>)

  /** What the assistant shows: the model's answer or one of the two error
      texts of the `except` clauses */
  datatype Answer = ModelAnswer(text: string) | DataNotFound(message: string) | SystemError(message: string) {
    function Text(): string {
      if ModelAnswer? then text else Heading() + message + Advice()
    }

    /** The bold title an error text opens with */
    function Heading(): string
      requires !ModelAnswer?
    {
      if DataNotFound? then "\U{274C} **Data Not Found**: " else "\U{274C} **System Error**: "
    }

    /** The advice an error text closes with */
    function Advice(): string
      requires !ModelAnswer?
    {
      if DataNotFound? then
        "\n\nPlease try:\n- Being more specific in your query\n- Checking if the regulation exists\n- Trying different keywords"
      else "\n\nPlease try again later or contact support if the problem persists."
    }
  }

  /** The "Data Not Found" text opens with a cross mark and that title,
      followed by the exception's message. */
  lemma DataNotFoundStart(m: string)
    ensures StartsWith(DataNotFound(m).Text(), "\U{274C} **Data Not Found**: " + m)
  {
    PrefixStarts(DataNotFound(m).Heading() + m, DataNotFound(m).Advice());
  }

  /** The "System Error" text likewise */
  lemma SystemErrorStart(m: string)
    ensures StartsWith(SystemError(m).Text(), "\U{274C} **System Error**: " + m)
  {
    PrefixStarts(SystemError(m).Heading() + m, SystemError(m).Advice());
  }

  lemma PrefixStarts(a: string, b: string)
    ensures StartsWith(a + b, a)
  {
    assert (a + b)[..|a|] == a;
  }

  /** The outcome of one query: the text shown, the citation markup, whether it
      succeeded, the learning cache after it and the number of source URLs
      logged. */
  datatype Reply = Reply(answer: Answer, sourceHtml: string, successful: bool, rates: map<string, int>, sourceCount: nat)

  /** What the query handler shows and records, given what the fetch returned */
  function Respond(query: string, fetched: Result<SourceLists, string>, score: Option<nat -> int>,
                   llm: (string, seq<string>) -> LlmOutcome, rates: map<string, int>): Reply
  {
    match fetched
    case Failure(e) => Reply(DataNotFound(e), "", false, rates, 0)
    case Success(lists) =>
      if lists.texts == [] then Reply(DataNotFound(NoDataFound), "", false, rates, |lists.urls|)
      else RespondToModel(llm(query, ExtractRelevantRegulations(lists.texts, score)), lists, rates)
  }

  /** The reply once the model has been asked about the ranked snippets */
  function RespondToModel(outcome: LlmOutcome, lists: SourceLists, rates: map<string, int>): Reply {
    match outcome
    case LlmRaised(m, valueError) =>
      Reply(if valueError then DataNotFound(m) else SystemError(m), "", false, rates, |lists.urls|)
    case LlmAnswer(answer, refs) =>
      match Citations(refs, lists.urls, lists.titles)
      case Failure(e) => Reply(SystemError(e), "", false, rates, |lists.urls|)
      case Success(html) =>
        var (m, ok) := Record(rates, refs, lists.urls);
        if ok then Reply(ModelAnswer(answer), html, true, m, |lists.urls|)
        else Reply(SystemError(IndexErrorMessage), "", false, m, |lists.urls|)
  }

  /** A successful reply is the model's own answer over non-empty fetched data,
      with every cited host credited; a failed one carries one of the two error
      texts and no citation markup, and the cache only moves when the model
      answered over fetched data. */
  lemma RespondOutcomes(query: string, fetched: Result<SourceLists, string>, score: Option<nat -> int>,
                        llm: (string, seq<string>) -> LlmOutcome, rates: map<string, int>)
    ensures var r := Respond(query, fetched, score, llm, rates);
            && (r.successful ==>
                  && fetched.Success? && fetched.value.texts != []
                  && var reply := llm(query, ExtractRelevantRegulations(fetched.value.texts, score));
                  && reply.LlmAnswer? && r.answer == ModelAnswer(reply.answer)
                  && Citations(reply.referenced, fetched.value.urls, fetched.value.titles) == Success(r.sourceHtml)
                  && forall h :: Get(r.rates, h) == Get(rates, h) + Credits(reply.referenced, fetched.value.urls, h))
            && (!r.successful ==> r.sourceHtml == "" && !r.answer.ModelAnswer?)
            && (r.successful <==> r.answer.ModelAnswer?)
            && (fetched.Failure? ==> r.rates == rates && r.sourceCount == 0 && r.answer == DataNotFound(fetched.error))
            && (r.rates != rates ==> fetched.Success? && llm(query, ExtractRelevantRegulations(fetched.value.texts, score)).LlmAnswer?)
  {
    if fetched.Success? && fetched.value.texts != [] {
      var lists := fetched.value;
      var reply := llm(query, ExtractRelevantRegulations(lists.texts, score));
      if reply.LlmAnswer? {
        RecordCounts(rates, reply.referenced, lists.urls);
      }
    }
  }

  /** The only message a failed rendering carries is the `IndexError`'s. */
  lemma {:induction false} CitationsFailureMessage(refs: seq<int>, urls: seq<string>, titles: seq<string>)
    ensures Citations(refs, urls, titles).Failure? ==> Citations(refs, urls, titles).error == IndexErrorMessage
    decreases |refs|
  {
    if refs != [] {
      CitationsFailureMessage(refs[..|refs| - 1], urls, titles);
    }
  }

  /** Which `except` clause shows a failure: a `ValueError` (a failed fetch,
      no data, or one the model raised) is shown as "Data Not Found"; any other
      exception of the model, and an `IndexError` from a too negative citation
      index or from a URL without a host, as "System Error". */
  lemma RespondErrorKinds(query: string, fetched: Result<SourceLists, string>, score: Option<nat -> int>,
                          llm: (string, seq<string>) -> LlmOutcome, rates: map<string, int>)
    ensures var r := Respond(query, fetched, score, llm, rates);
            && (fetched.Success? && fetched.value.texts == [] ==> r.answer == DataNotFound(NoDataFound))
            && (fetched.Success? && fetched.value.texts != [] ==>
                  var lists := fetched.value;
                  var reply := llm(query, ExtractRelevantRegulations(lists.texts, score));
                  && (reply.LlmRaised? && reply.valueError ==> r.answer == DataNotFound(reply.message))
                  && (reply.LlmRaised? && !reply.valueError ==> r.answer == SystemError(reply.message))
                  && (reply.LlmAnswer? && Citations(reply.referenced, lists.urls, lists.titles).Failure? ==>
                        r.answer == SystemError(IndexErrorMessage) && r.rates == rates)
                  && (reply.LlmAnswer? && Citations(reply.referenced, lists.urls, lists.titles).Success?
                        && !Record(rates, reply.referenced, lists.urls).1 ==>
                        r.answer == SystemError(IndexErrorMessage) && r.rates == Record(rates, reply.referenced, lists.urls).0))
  {
    if fetched.Success? && fetched.value.texts != [] {
      var lists := fetched.value;
      var reply := llm(query, ExtractRelevantRegulations(lists.texts, score));
      if reply.LlmAnswer? {
        CitationsFailureMessage(reply.referenced, lists.urls, lists.titles);
      }
    }
  }

  const TopicKeywords: seq<(string, string)> := [
    ("emissions", "Emissions Standards"),
    ("safety", "Safety Requirements"),
    ("fuel", "Fuel Efficiency"),
    ("electric", "Electric Vehicles"),
    ("autonomous", "Autonomous Driving"),
    ("homologation", "Homologation"),
    ("type approval", "Type Approval"),
    ("certification", "Certification"),
    ("recall", "Recalls"),
    ("import", "Import Regulations")
  ]

  predicate KeywordIn(query: string, answer: string, k: nat)
    requires k < |TopicKeywords|
  {
    Contains(Lower(query), Lower(TopicKeywords[k].0)) || Contains(Lower(answer), Lower(TopicKeywords[k].0))
  }

  /** The topic of the first keyword from position `k` on found in the query or
      the answer */
  function TopicFrom(query: string, answer: string, k: nat): string
    requires k <= |TopicKeywords|
    decreases |TopicKeywords| - k
  {
    if k == |TopicKeywords| then "General"
    else if KeywordIn(query, answer, k) then TopicKeywords[k].1
    else TopicFrom(query, answer, k + 1)
  }

  /** The regulation topic logged for a query */
  function Topic(query: string, answer: string, successful: bool): string {
    if !successful then "Error" else TopicFrom(query, answer, 0)
  }

  /** The topic loop with its `break` */
  method TopicOf(query: string, answer: string, successful: bool) returns (topic: string)
    ensures topic == Topic(query, answer, successful)
  {
    topic := if !successful then "Error" else "General";
    if successful {
      var k := 0;
      while k < |TopicKeywords|
        invariant k <= |TopicKeywords|
        invariant TopicFrom(query, answer, k) == TopicFrom(query, answer, 0)
        invariant topic == "General"
      {
        if Contains(Lower(query), Lower(TopicKeywords[k].0)) || Contains(Lower(answer), Lower(TopicKeywords[k].0)) {
          topic := TopicKeywords[k].1;
          return;
        }
        k := k + 1;
      }
    }
  }

  /** A successful query is filed under the first keyword that occurs in the
      query or the answer, and under "General" exactly when none does. */
  lemma {:induction false} TopicIsFirstKeyword(query: string, answer: string, k: nat)
    requires k <= |TopicKeywords|
    ensures TopicFrom(query, answer, k) == "General" <==> forall j :: k <= j < |TopicKeywords| ==> !KeywordIn(query, answer, j)
    ensures forall j :: k <= j < |TopicKeywords| && KeywordIn(query, answer, j)
                        && (forall i :: k <= i < j ==> !KeywordIn(query, answer, i))
                        ==> TopicFrom(query, answer, k) == TopicKeywords[j].1
    decreases |TopicKeywords| - k
  {
    if k < |TopicKeywords| {
      TopicIsFirstKeyword(query, answer, k + 1);
      assert TopicKeywords[k].1 != "General" by {
        assert TopicKeywords[k].1[0] != 'G';
      }
    }
  }

  // ---------------------------------------------------------------------------
  // The session

  /** The citation loop */
  method RenderCitations(refs: seq<int>, urls: seq<string>, titles: seq<string>) returns (r: Result<string, string>)
    ensures r == Citations(refs, urls, titles)
  {
    var html := "";
    for i := 0 to |refs|
      invariant Citations(refs[..i], urls, titles) == Success(html)
    {
      assert refs[..i + 1][..i] == refs[..i];
      var idx := refs[i];
      if idx < |urls| {
        var url := At(urls, idx);
        var title := At(titles, idx);
        if url.None? || title.None? {
          CitationsFailureStays(refs, urls, titles, i + 1);
          assert refs[..|refs|] == refs;
          return Failure(IndexErrorMessage);
        }
        html := html + Citation(i + 1, url.value, title.value);
      }
    }
    assert refs[..|refs|] == refs;
    r := Success(html);
  }

  /** The learning-cache loop; the session stores the map it returns, which
      keeps the increments made before a lookup raised */
  method RecordCitations(rates: map<string, int>, refs: seq<int>, urls: seq<string>) returns (m: map<string, int>, ok: bool)
    ensures (m, ok) == Record(rates, refs, urls)
  {
    m := rates;
    for i := 0 to |refs|
      invariant Record(rates, refs[..i], urls) == (m, true)
    {
      assert refs[..i + 1][..i] == refs[..i];
      var idx := refs[i];
      if idx < |urls| {
        var url := At(urls, idx);
        if url.None? || Host(url.value).None? {
          RecordFailureStays(rates, refs, urls, i + 1);
          assert refs[..|refs|] == refs;
          return m, false;
        }
        var h := Host(url.value).value;
        if h in m {
          m := m[h := m[h] + 1];
        } else {
          m := m[h := 1];
        }
      }
    }
    assert refs[..|refs|] == refs;
    ok := true;
  }

  datatype Message = Message(role: string, content: string, sourceHtml: string)

  /** One row of the query log (session id, response time and the file are not
      modelled) */
  datatype LogEntry = LogEntry(query: string, answer: string, topic: string, sourceCount: nat,
                               location: string, successful: bool)

  const UserLocation: string := "Los Angeles, CA, US"

  /** The per-browser session state: the chat history and the learning cache's
      website success rates. */
  class AdvisorSession {
    var chatHistory: seq<Message>
    var successRates: map<string, int>

    /** A new session starts with no history and the cache read from disk, or
        an empty one. */
    constructor(cached: Option<map<string, int>>)
      ensures chatHistory == []
      ensures successRates == if cached.Some? then cached.value else map[]
    {
      chatHistory := [];
      successRates := if cached.Some? then cached.value else map[];
    }

    /** "Get Answer": nothing happens for an empty query; otherwise the query
        and the reply join the history, the cache is updated as `Respond` says
        and the log row is returned. */
    method Submit(query: string, firecrawlKey: Option<string>, llmReply: Option<string>,
                  scrape: string -> ScrapeOutcome, backup: (string, string, string) -> Option<seq<Source>>,
                  score: Option<nat -> int>, llm: (string, seq<string>) -> LlmOutcome)
      returns (entry: Option<LogEntry>, ghost fetched: Result<SourceLists, string>, ghost targets: seq<string>)
      modifies this
      ensures query == [] ==> entry.None? && chatHistory == old(chatHistory) && successRates == old(successRates)
      ensures query != [] ==>
                var reply := Respond(query, fetched, score, llm, old(successRates));
                && chatHistory == old(chatHistory) + [Message("user", query, ""),
                                                      Message(if reply.successful then "assistant" else "error", reply.answer.Text(), reply.sourceHtml)]
                && successRates == reply.rates
                && entry == Some(LogEntry(query, reply.answer.Text(), Topic(query, reply.answer.Text(), reply.successful),
                                          reply.sourceCount, UserLocation, reply.successful))
      ensures query != [] && !KeyConfigured(firecrawlKey) ==> fetched == Failure(ApiKeyMissing)
      ensures query != [] && KeyConfigured(firecrawlKey) ==>
                && 1 <= |targets| <= MaxSitesPerQuery && (forall u :: u in targets ==> u in CatalogUrls())
                && fetched == Fetched(query, targets, scrape, backup)
    {
      if query == [] {
        return None, Failure(""), [];
      }
      ghost var history := chatHistory;
      var asked := Message("user", query, "");
      chatHistory := chatHistory + [asked];
      var r, chosen := FetchPrioritized(query, firecrawlKey, llmReply, scrape, backup);
      fetched, targets := r, chosen;
      var reply := Answer(query, r, score, llm);
      var logged := Conclude(query, reply);
      entry := Some(logged);
      AppendTwo(history, asked, Message(if reply.successful then "assistant" else "error", reply.answer.Text(), reply.sourceHtml));
    }

    /** The fetch over the catalog in the order the cache gives it */
    method FetchPrioritized(query: string, firecrawlKey: Option<string>, llmReply: Option<string>,
                            scrape: string -> ScrapeOutcome, backup: (string, string, string) -> Option<seq<Source>>)
      returns (r: Result<SourceLists, string>, targets: seq<string>)
      ensures !KeyConfigured(firecrawlKey) ==> r == Failure(ApiKeyMissing) && targets == []
      ensures KeyConfigured(firecrawlKey) ==> 1 <= |targets| <= MaxSitesPerQuery && forall u :: u in targets ==> u in CatalogUrls()
      ensures KeyConfigured(firecrawlKey) ==> r == Fetched(query, targets, scrape, backup)
    {
      var websites := PrioritizedWebsites(successRates);
      r, targets := FetchRegulationData(query, websites, firecrawlKey, llmReply, scrape, backup);
    }

    /** The reply joins the history, and the row to log is built. */
    method Conclude(query: string, reply: Reply) returns (entry: LogEntry)
      modifies this
      ensures chatHistory == old(chatHistory) + [Message(if reply.successful then "assistant" else "error", reply.answer.Text(), reply.sourceHtml)]
      ensures successRates == old(successRates)
      ensures entry == LogEntry(query, reply.answer.Text(), Topic(query, reply.answer.Text(), reply.successful),
                                reply.sourceCount, UserLocation, reply.successful)
    {
      var text := reply.answer.Text();
      chatHistory := chatHistory + [Message(if reply.successful then "assistant" else "error", text, reply.sourceHtml)];
      entry := LogRow(query, reply);
    }

    /** The row `log_query` writes */
    method LogRow(query: string, reply: Reply) returns (entry: LogEntry)
      ensures entry == LogEntry(query, reply.answer.Text(), Topic(query, reply.answer.Text(), reply.successful),
                                reply.sourceCount, UserLocation, reply.successful)
    {
      var text := reply.answer.Text();
      var topic := TopicOf(query, text, reply.successful);
      entry := LogEntry(query, text, topic, reply.sourceCount, UserLocation, reply.successful);
    }

    /** The `try` block and its two `except` clauses, from the fetched data on */
    method Answer(query: string, fetched: Result<SourceLists, string>, score: Option<nat -> int>,
                  llm: (string, seq<string>) -> LlmOutcome) returns (reply: Reply)
      modifies this
      ensures reply == Respond(query, fetched, score, llm, old(successRates))
      ensures successRates == reply.rates && chatHistory == old(chatHistory)
    {
      if fetched.Failure? {
        reply := Reply(DataNotFound(fetched.error), "", false, successRates, 0);
      } else if fetched.value.texts == [] {
        reply := Reply(DataNotFound(NoDataFound), "", false, successRates, |fetched.value.urls|);
      } else {
        var lists := fetched.value;
        var relevant := ExtractRelevantRegulations(lists.texts, score);
        assert Respond(query, fetched, score, llm, successRates) == RespondToModel(llm(query, relevant), lists, successRates);
        reply := AnswerFromModel(llm(query, relevant), lists);
      }
    }

    /** Rendering and recording the citations of the model's answer */
    method AnswerFromModel(outcome: LlmOutcome, lists: SourceLists) returns (reply: Reply)
      modifies this
      ensures reply == RespondToModel(outcome, lists, old(successRates))
      ensures successRates == reply.rates && chatHistory == old(chatHistory)
    {
      var count := |lists.urls|;
      if outcome.LlmRaised? {
        var answer := if outcome.valueError then DataNotFound(outcome.message) else SystemError(outcome.message);
        return Reply(answer, "", false, successRates, count);
      }
      var rendered := RenderCitations(outcome.referenced, lists.urls, lists.titles);
      if rendered.Failure? {
        return Reply(SystemError(rendered.error), "", false, successRates, count);
      }
      var m, ok := RecordCitations(successRates, outcome.referenced, lists.urls);
      successRates := m;
      if ok {
        reply := Reply(ModelAnswer(outcome.answer), rendered.value, true, successRates, count);
      } else {
        reply := Reply(SystemError(IndexErrorMessage), "", false, successRates, count);
      }
    }

    /** "Clear Chat History" */
    method ClearChat()
      modifies this
      ensures chatHistory == [] && successRates == old(successRates)
    {
      chatHistory := [];
    }
  }

  lemma AppendTwo<T>(h: seq<T>, a: T, b: T)
    ensures h + [a] + [b] == h + [a, b]
  {
  }

  lemma {:induction false} CitationsFailureStays(refs: seq<int>, urls: seq<string>, titles: seq<string>, n: nat)
    requires n <= |refs| && Citations(refs[..n], urls, titles).Failure?
    ensures Citations(refs, urls, titles) == Citations(refs[..n], urls, titles)
    decreases |refs| - n
  {
    if n < |refs| {
      assert refs[..n + 1][..n] == refs[..n];
      CitationsFailureStays(refs, urls, titles, n + 1);
    } else {
      assert refs[..n] == refs;
    }
  }

  lemma {:induction false} RecordFailureStays(rates: map<string, int>, refs: seq<int>, urls: seq<string>, n: nat)
    requires n <= |refs| && !Record(rates, refs[..n], urls).1
    ensures Record(rates, refs, urls) == Record(rates, refs[..n], urls)
    decreases |refs| - n
  {
    if n < |refs| {
      assert refs[..n + 1][..n] == refs[..n];
      RecordFailureStays(rates, refs, urls, n + 1);
    } else {
      assert refs[..n] == refs;
    }
  }
}
