# Global automotive regulation advisor — a Dafny model

The advisor answers questions about vehicle regulations (emissions, safety,
homologation, electric vehicles, …) across regions (UN ECE, EU, US, China,
Japan, India, …). For each question it works through these steps:

- It chooses up to three regulator websites from a fixed catalog, either as a
  language model suggests or by keyword heuristics.
- It scrapes those sites through the Firecrawl service, keeping the
  paragraphs that mention the question's search terms. A backup search runs
  when fewer than two records are found.
- It ranks the snippets and asks a language model for an answer with
  citations.
- It renders the citations, credits each cited website in a learning cache
  (the cache reorders the catalog for later questions) and logs the exchange
  with a topic.

Besides this flow, the repository holds:

- regulation utilities that extract regulation numbers, regions, categories
  and requirements from text, report coverage gaps and format a structured
  answer;
- a client for the Interregs.net database (login, search, document retrieval
  and whitespace clean-up);
- two Model Context Protocol tool handlers: one that answers locally, and one
  that routes calls through a tool server and falls back to local answers.

The earlier generation of the page and of the fetcher is modelled too:

- The earlier page (`GlobalAutoRegAdvisor.py`) calls the current fetcher. It
  differs in how it orders the catalog and in its error handling.
- The earlier fetcher (`utils/firecrawl-utils.py`, which no page imports) has
  no key check, no language-model site selection and no backup. It crawls
  each site instead.

Each module mirrors one source file:

| module | source |
|---|---|
| `Config` | `config.py` |
| `SiteSelection`, `SearchTerms`, `Classify`, `Content`, `Fetch` | `utils/firecrawl_utils.py` |
| `FetchLegacy` | `utils/firecrawl-utils.py` |
| `Ranking`, `Patterns`, `RegulationMetadata`, `RegulationReport` | `utils/regulation_utils.py` (and its identical copy `regulation-utils.py`) |
| `Advisor` | `app.py` |
| `AdvisorLegacy` | `GlobalAutoRegAdvisor.py` (and its identical copy `app-py.py`) |
| `Interregs` | `utils/interregs_utils.py` |
| `McpTools`, `McpHandler` | `utils/mcp_handler.py` |
| `FixedMcpHandler` | `utils/fixed-mcp-handler.py` |

Shared helpers:

- `Wrappers`: `Option` and `Result`.
- `PyText`: the Python string operations used (`lower`, `in`, `split`,
  `join`, `strip`, `\b`).
- `Sources`: the three parallel result lists (texts, URLs, titles) and their
  zip/unzip.
- `Sorting`: Python's stable `sorted(..., reverse=True)`.

Every outside service becomes a parameter of the operation that uses it:

- the Firecrawl scrape and crawl endpoints;
- the language model's site suggestion and answer;
- the TF-IDF similarity score;
- the Interregs.net HTTP session and the HTML it returns;
- the tool server.

Each contract then holds for every behaviour of those services.

Where the source updates state in place, the model is imperative:

- the Streamlit session becomes the classes `Advisor.AdvisorSession` and
  `AdvisorLegacy.LegacySession`, with the chat history and the learning cache
  as fields;
- the Interregs client becomes `Interregs.InterregsClient`;
- the handlers become `McpHandler.Handler` and `FixedMcpHandler.Handler`;
- every loop that builds a list or a string becomes a method with loop
  invariants, proved equal to a function that states the result.

## Model

| member | source | states |
|---|---|---|
| Config.Keys | config.py:63-73 | the catalog's keys, one per entry, in order |
| Config.Values | config.py:63-73 | the catalog's URLs, one per entry, in order |
| Config.CatalogKeys | config.py:63-73 | `REGULATORY_WEBSITES.keys()` has one key per catalog entry |
| Config.CatalogUrls | config.py:63-73 | `REGULATORY_WEBSITES.values()` has one URL per catalog entry |
| Config.LookupFromMembers | config.py:63-73 | a dictionary lookup succeeds exactly for a present key, and yields one of the values |
| Config.TablesReferToCatalog | config.py:76-100 | every key listed by the selection criteria and the region table names a catalog website |
| Config.CatalogUrlOfKey | config.py:63-73 | every catalog key resolves to a catalog URL |
| Config.CatalogKeysUnique | config.py:63-73 | no two catalog entries share a key or a URL |
| Config.SplitSkipsSegment | app.py:331 | splitting on `/` carries a slash-free segment into the current piece |
| Config.HostOfHttpsUrl | app.py:331 | `url.split('/')[2]` of `https://host/rest` is the host |
| Config.CatalogUrlHasHost | config.py:63-73 | each catalog URL starts with `https://` and has a non-empty host |
| Config.CatalogUrlsHaveHosts | app.py:283-288 | the host lookup used to rank the catalog never fails on a catalog URL |
| Config.GetApiKey | config.py:9-17 | a non-empty environment variable wins; otherwise the secret, when there is one |
| Config.ValidateCredentials | config.py:29-34 | credentials are valid iff all four are non-empty; otherwise the first missing one is named in the error |
| Config.LogLevel | config.py:113-120 | a known level name maps to its number; a missing or unknown name gives INFO (20) |
| Config.McpEnabled | config.py:57-58 | MCP is enabled iff `STREAMLIT_CLOUD` is not set to a non-empty value and the variable `STREAMLIT` is absent |
| SiteSelection.KeysUrls | utils/firecrawl_utils.py:95-104 | the URLs of a list of keys are all catalog URLs |
| SiteSelection.TableUrls | utils/firecrawl_utils.py:88-99 | the URLs a keyword table selects are all catalog URLs |
| SiteSelection.KeysUrlsMembers | utils/firecrawl_utils.py:95-104 | a URL is selected by a key list iff some listed key looks it up |
| SiteSelection.TableUrlsMembers | utils/firecrawl_utils.py:88-99 | a URL is selected by a table iff some entry whose keyword occurs in the query lists a key that maps to it |
| SiteSelection.HeuristicSet | utils/firecrawl_utils.py:74-104 | the heuristic only ever selects catalog URLs |
| SiteSelection.HeuristicFrom | utils/firecrawl_utils.py:84-104 | the heuristic over any tables selects only URLs of their catalog |
| SiteSelection.GlobalUrlsNonEmpty | utils/firecrawl_utils.py:102-104 | the global fallback selects at least one site |
| SiteSelection.SelectWebsitesHeuristic | utils/firecrawl_utils.py:74-106 | one to three distinct catalog URLs, all heuristically selected, as many as the selection allows up to three |
| SiteSelection.AddTableUrls | utils/firecrawl_utils.py:88-99 | the keyword loop adds exactly the table's URLs |
| SiteSelection.AddKeyUrls | utils/firecrawl_utils.py:102-104 | the fallback loop adds exactly the URLs of the global keys |
| SiteSelection.ListPrefix | utils/firecrawl_utils.py:106 | `list(s)[:n]` gives min(n, \|s\|) distinct members of `s` |
| SiteSelection.HeuristicDefaultsToGlobal | utils/firecrawl_utils.py:102-104 | when no region or category keyword occurs, the selection is the global sites |
| SiteSelection.DefaultsToGlobal | utils/firecrawl_utils.py:102-104 | the same fallback, for any catalog and tables |
| SiteSelection.NothingFires | utils/firecrawl_utils.py:88-99 | a table none of whose keywords occurs selects nothing |
| SiteSelection.KeysUrlsOfThree | utils/firecrawl_utils.py:103 | three present keys select exactly their three URLs |
| SiteSelection.KeysUrlsSnoc | utils/firecrawl_utils.py:103 | one more key adds its URL, if it has one |
| SiteSelection.GlobalKeysUrls | utils/firecrawl_utils.py:102-104 | the global fallback is the UNECE, EU Commission and US EPA sites |
| SiteSelection.CatalogUrlsOf | utils/firecrawl_utils.py:60-61 | the reply's keys that name catalog sites give at most one URL each, all from the catalog |
| SiteSelection.CatalogUrlsOfAppend | utils/firecrawl_utils.py:60-61 | the URL list of a concatenation is the concatenation of the URL lists |
| SiteSelection.CatalogUrlsOfOne | utils/firecrawl_utils.py:60-61 | a catalog key contributes its URL; any other reply word contributes nothing |
| SiteSelection.ReplyKeys | utils/firecrawl_utils.py:60 | the reply split on commas, each piece stripped |
| SiteSelection.SelectWebsitesWithLlm | utils/firecrawl_utils.py:20-72 | one to three catalog URLs: the first three suggested sites when the reply names any, else the heuristic choice |
| PyText.SeparatorsAreWhitespace | utils/firecrawl_utils.py:257 | `str.split()` and `str.strip()` treat the ASCII separators `\x1c`–`\x1f` as whitespace |
| SearchTerms.DropCommonWords | utils/firecrawl_utils.py:256-258 | exactly the query words that are not stop words remain |
| SearchTerms.Elements | utils/firecrawl_utils.py:272 | `set(...)` has exactly the list's members |
| SearchTerms.PrepareSearchTerms | utils/firecrawl_utils.py:244-274 | a term is searched for iff it is a non-stop word of the lower-cased query, a fixed regulation or region term, or a regulation code in the query |
| SearchTerms.SearchTermsHaveVocabulary | utils/firecrawl_utils.py:261-272 | all fixed terms are always searched for, so the set is never empty |
| SearchTerms.StopWordsNotVocabulary | utils/firecrawl_utils.py:256-262 | no stop word is a fixed term |
| SearchTerms.RegCodeNotCommon | utils/firecrawl_utils.py:266 | a regulation code is never a stop word |
| SearchTerms.SearchTermsFilterStopWords | utils/firecrawl_utils.py:256-272 | every non-stop word of the query is searched for, and no stop word ever is |
| SearchTerms.SearchTermsNonEmpty | utils/firecrawl_utils.py:244-274 | no search term is the empty string |
| Classify.FirstMatchFrom | utils/firecrawl_utils.py:206-221 | the `if/elif` chain picks the first branch whose keyword occurs |
| Classify.FirstMatch | utils/firecrawl_utils.py:206-221 | the first matching branch, with no earlier one matching; none when nothing matches |
| Classify.Classify | utils/firecrawl_utils.py:206-221 | the label of the first matching branch, else the default |
| Classify.RegionIsALabel | utils/firecrawl_utils.py:202-221 | the region is one of the eight labels, and "Global" exactly when no region keyword occurs |
| Classify.CategoryIsALabel | utils/firecrawl_utils.py:223-242 | the category is one of the eight labels, and "General" exactly when no category keyword occurs |
| Classify.RegionUsFirst | utils/firecrawl_utils.py:206-207 | any query containing "us", even inside a word, is classified US |
| Classify.RegionNeverAustralia | utils/firecrawl_utils.py:206-219 | the Australia branch can never be taken, since "australia" contains "us" |
| Content.Paragraphs | utils/firecrawl_utils.py:340 | `split('\n\n')` yields at least one paragraph |
| Content.Sentences | utils/firecrawl_utils.py:351 | newlines become spaces, then `split('. ')` yields at least one sentence |
| Content.Matching | utils/firecrawl_utils.py:340-346 | the kept paragraphs are exactly those that mention a search term, in order |
| Content.MatchingAppend | utils/firecrawl_utils.py:340-346 | one more paragraph is kept iff it mentions a term |
| Content.Widen | utils/firecrawl_utils.py:349-354 | the widened list extends the paragraphs with mentioning sentences, each ending in "." |
| Content.MatchParagraphs | utils/firecrawl_utils.py:340-346 | the paragraph loop keeps the matching paragraphs |
| Content.WidenWithSentences | utils/firecrawl_utils.py:349-354 | fewer than two paragraphs are widened with the mentioning sentences |
| Content.ExtractRelevantContent | utils/firecrawl_utils.py:325-365 | the loop computes the newer `extract_relevant_content` |
| Content.ExtractRelevantContentLegacy | utils/firecrawl-utils.py:277-310 | the loop computes the older `extract_relevant_content` |
| Content.JoinLong | utils/firecrawl_utils.py:361-365 | joining two or more parts with a separator is never empty |
| Content.EmptyParagraphMeansSeveral | utils/firecrawl_utils.py:340 | an empty paragraph in non-empty content means at least two paragraphs |
| Content.EmptyMentioned | utils/firecrawl_utils.py:345 | a term set with the empty term is mentioned by every text |
| Content.MatchingAll | utils/firecrawl_utils.py:340-346 | when every paragraph mentions a term, all are kept |
| Content.RelevantContentEmptyIff | utils/firecrawl_utils.py:336-365 | the newer extraction is empty exactly for empty content |
| Content.ParagraphsSuffice | utils/firecrawl_utils.py:340-365 | with two or more matching paragraphs, both versions return exactly those, blank-line joined |
| Content.ChosenMention | utils/firecrawl_utils.py:340-354 | everything chosen is a mentioning paragraph or a mentioning sentence with its "." |
| Content.NothingMentioned | utils/firecrawl_utils.py:357-358 | with nothing mentioned, the newer version falls back to the first three paragraphs; the older one returns "" |
| Sources.Unzip | utils/firecrawl_utils.py:145-171 | the three parallel lists have one aligned entry per record |
| Sources.Zip | utils/firecrawl_utils.py:145-171 | aligned lists give one record per index |
| Sources.ZipUnzip | utils/firecrawl_utils.py:145-171 | records and aligned parallel lists convert back and forth without loss |
| Sources.UnzipAppend | utils/firecrawl_utils.py:185-187 | extending the lists by a batch of records appends to each list |
| Sources.UnzipSnoc | utils/firecrawl_utils.py:163-166 | appending one record appends to each list |
| Sources.UnzipSmall | utils/firecrawl_utils.py:141-143 | no records give three empty lists; one record gives singletons |
| Fetch.SiteResult | utils/firecrawl_utils.py:145-171 | a site contributes at most one record, with non-empty text and the site's URL |
| Fetch.Primary | utils/firecrawl_utils.py:145-171 | the first n sites give at most n records, each from one of them with non-empty text |
| Fetch.PrimaryStep | utils/firecrawl_utils.py:145-171 | a site adds its record exactly when the scrape returned markdown with relevant content |
| Fetch.ScrapeSites | utils/firecrawl_utils.py:145-171 | the site loop computes the primary records |
| Fetch.AddBackup | utils/firecrawl_utils.py:174-192 | the backup records are appended after the primary ones |
| Fetch.FetchRegulationData | utils/firecrawl_utils.py:108-200 | a missing key fails with its message; otherwise one to three catalog sites (the suggested ones when the reply names any) are scraped, and no data at all fails with no_data_found |
| Fetch.PrimaryFromTargets | utils/firecrawl_utils.py:145-171 | every primary record comes from a target site; a failed or empty scrape adds none |
| Fetch.EnoughPrimaryMeansNoBackup | utils/firecrawl_utils.py:174 | with two or more primary records, the backup search is not used |
| FetchLegacy.PageResult | utils/firecrawl-utils.py:250-267 | a crawled page gives at most one record, with non-empty text |
| FetchLegacy.Collected | utils/firecrawl-utils.py:250-269 | the result loop stops at the per-site cap |
| FetchLegacy.AwaitCrawl | utils/firecrawl-utils.py:211-239 | the status loop polls at most five times, stopping at completion, failure or an exception |
| FetchLegacy.CollectPages | utils/firecrawl-utils.py:250-269 | the result loop computes the capped record list |
| FetchLegacy.CrawlWebsite | utils/firecrawl-utils.py:155-275 | the crawl fails with firecrawl_api_error exactly when starting or polling raised; otherwise it gives the capped pages |
| FetchLegacy.CollectedStep | utils/firecrawl-utils.py:250-269 | below the cap, a page adds its record |
| FetchLegacy.CollectedStable | utils/firecrawl-utils.py:268-269 | once the cap is reached, no later page adds anything |
| FetchLegacy.FetchSite | utils/firecrawl-utils.py:40-75 | a site gives its scraped record, then its crawled records |
| FetchLegacy.FetchRegulationDataLegacy | utils/firecrawl-utils.py:9-82 | only the first three websites are used; no records at all fail with no_data_found |
| FetchLegacy.GatheredBound | utils/firecrawl-utils.py:34-75 | n sites give at most three records each, all with non-empty text |
| FetchLegacy.ConcatBound | utils/firecrawl-utils.py:40-75 | concatenating per-site records that are each bounded by k gives at most k·n |
| FetchLegacy.SiteRecordsBound | utils/firecrawl-utils.py:40-75 | one site gives at most 1 + MAX_RESULTS_PER_SITE records |
| FetchLegacy.PollTimesOut | utils/firecrawl-utils.py:211-239 | five non-final answers end the wait with no pages |
| FetchLegacy.PollStopsAtCompletion | utils/firecrawl-utils.py:211-239 | the first "completed" answer, after only HTTP errors, gives its pages |
| Sorting.Insert | app.py:283-288 | insertion keeps every element and adds one |
| Sorting.InsertSorted | app.py:283-288 | insertion keeps a descending list descending |
| Sorting.SortDesc | app.py:283-288 | the sorted list is a permutation of its input |
| Sorting.SortDescSorted | app.py:283-288 | the sorted list is in descending order of the key |
| Sorting.SortDescOfSorted | app.py:283-288 | an already descending list is left unchanged, as with Python's stable sort |
| Sorting.SortDescConstant | app.py:283-288 | with equal keys the order is kept |
| Sorting.WithKey | app.py:283-288 | selecting the elements with one key keeps at most as many elements as the input has |
| Sorting.WithKeyMembers | app.py:283-288 | the selected elements are exactly the input's elements with that key |
| Sorting.WithKeyAppend | app.py:283-288 | selecting one key distributes over concatenation |
| Sorting.WithKeyInsert | app.py:283-288 | insertion puts the element before every other element with its key |
| Sorting.SortDescStable | app.py:283-288 | stability: for every key, the elements with that key leave the sort in their input order |
| Sorting.WithKeyRank | app.py:283-288 | two positions with equal keys keep their order among the elements with that key |
| Ranking.Countdown | utils/regulation_utils.py:41 | the positions n-1 … 0, last first |
| Ranking.InRangePermutation | utils/regulation_utils.py:41-44 | a permutation of valid indices holds only valid indices |
| Ranking.Pick | utils/regulation_utils.py:44 | one snippet per index |
| Ranking.PickAt | utils/regulation_utils.py:44 | the k-th picked snippet is the one at the k-th index |
| Ranking.RankedIndices | utils/regulation_utils.py:41 | `argsort(...)[::-1]`: a permutation of 0 … n-1, by descending similarity, and equal similarities by descending position |
| Ranking.ExtractRelevantRegulations | utils/regulation_utils.py:10-52 | ranking returns as many snippets as it is given; its order is stated by `RankingIsPermutation` and `RankingOrdersByScore` |
| Ranking.TiesByDescendingPosition | utils/regulation_utils.py:41 | equal similarities are ranked later position first |
| Ranking.SortedTieOrder | utils/regulation_utils.py:41 | sorting positions given in decreasing order keeps ties in decreasing order |
| Ranking.WithKeyDecreasing | utils/regulation_utils.py:41 | the positions of one score, taken from decreasing positions, are decreasing |
| Ranking.PickCountdown | utils/regulation_utils.py:41-44 | picking the positions from last to first picks every snippet once |
| Ranking.PickInsert | utils/regulation_utils.py:41-44 | inserting an index adds exactly its snippet to the picked multiset |
| Ranking.InsertInRange | utils/regulation_utils.py:41-44 | insertion keeps indices valid |
| Ranking.PickCons | utils/regulation_utils.py:44 | picking a leading index adds its snippet |
| Ranking.PickSort | utils/regulation_utils.py:41-44 | sorting the indices does not change which snippets are picked |
| Ranking.RankingIsPermutation | utils/regulation_utils.py:10-52 | ranking is a permutation of the data, empty for no data, and the identity when scoring fails |
| Ranking.RankingOrdersByScore | utils/regulation_utils.py:41-44 | the ranked snippets follow the indices in descending order of similarity, and of two equally similar snippets the later one comes first |
| Ranking.TiedSnippetsReversed | utils/regulation_utils.py:41-44 | two snippets of equal similarity come back in reverse order |
| Patterns.Run | utils/regulation_utils.py:72 | the longest run of characters with a property |
| Patterns.RegCodeAt | utils/firecrawl_utils.py:266 | a regulation-code match ends after its start |
| Patterns.DigitsAt | utils/regulation_utils.py:72 | a digit-run match ends after its start |
| Patterns.AfterLetter | utils/regulation_utils.py:72 | a letter-then-digits match ends after its start |
| Patterns.AfterSep | utils/regulation_utils.py:72 | a separator-then-code match ends after its start |
| Patterns.FirstAltFrom | utils/regulation_utils.py:72 | the first alternative of the number pattern ends after its start |
| Patterns.FirstAlt | utils/regulation_utils.py:72 | the first alternative ends after its start |
| Patterns.DigitCapture | utils/regulation_utils.py:72 | the captured group is the digit run matched |
| Patterns.SecondAlt | utils/regulation_utils.py:72 | the "Regulation No." alternative captures a non-empty digit run that ends where the match ends |
| Patterns.NumericDateAt | utils/regulation_utils.py:76-84 | a numeric date match ends after its start |
| Patterns.IsoDateAt | utils/regulation_utils.py:76-84 | an ISO date match ends after its start |
| Patterns.MonthDateAt | utils/regulation_utils.py:76-84 | a month-name date match ends after its start |
| Patterns.MatchAt | utils/regulation_utils.py:72-84 | a match is the matched text (a regulation code has the code shape), except for the number pattern, which yields its capture group |
| Patterns.MatchItemOk | utils/regulation_utils.py:72-84 | every match is a well-formed item of its pattern |
| Patterns.FindAllFromItems | utils/regulation_utils.py:72-84 | `re.findall` yields only well-formed items |
| Patterns.FindAllItems | utils/regulation_utils.py:72-84 | every item found occurs in the text; number captures are digits or empty |
| Patterns.RegNumberCodeYieldsEmpty | utils/regulation_utils.py:72 | on "ECE-R100" the number pattern's capture group is empty |
| Patterns.RegulationNo48NoCode | utils/regulation_utils.py:72 | "… Regulation No. 48" matches no code alternative |
| Patterns.RegulationNo48Capture | utils/regulation_utils.py:72 | and its second alternative captures "48" |
| Patterns.RegNumberCapturesDigits | utils/regulation_utils.py:72-73 | the number pattern finds exactly "48" there |
| Patterns.WordSearchImpliesPrefixSearch | utils/regulation_utils.py:119-123 | a whole-word match is also a word-prefix match |
| RegulationMetadata.NonEmpty | utils/regulation_utils.py:73 | exactly the non-empty captures are kept |
| RegulationMetadata.CollectNames | utils/regulation_utils.py:100-104 | the region loop collects the names found |
| RegulationMetadata.AddIfFound | utils/regulation_utils.py:100-104 | a name is added once, when one of its patterns is found |
| RegulationMetadata.CollectMetadata | utils/regulation_utils.py:54-125 | the extraction loops compute the metadata of a vocabulary |
| RegulationMetadata.ExtractRegulationMetadata | utils/regulation_utils.py:54-125 | the extraction computes the text's metadata |
| RegulationMetadata.RowsFoundNames | utils/regulation_utils.py:87-104 | each name found belongs to a table row |
| RegulationMetadata.NamesFoundAreRows | utils/regulation_utils.py:100-104 | with distinct row names, the names found are exactly the rows found |
| RegulationMetadata.RowsFoundDistinct | utils/regulation_utils.py:100-104 | the rows found have no duplicates |
| RegulationMetadata.RowsFoundMembers | utils/regulation_utils.py:100-104 | every row with a pattern in the text is found |
| RegulationMetadata.RegionNamesDistinct | utils/regulation_utils.py:87-98 | the region table's names are distinct |
| RegulationMetadata.CategoryNamesDistinct | utils/regulation_utils.py:107-117 | the category table's names are distinct |
| RegulationMetadata.MetadataNames | utils/regulation_utils.py:87-123 | regions and categories are duplicate-free and are exactly the rows with a pattern in the text, in table order |
| RegulationMetadata.RowsFoundOnlyFound | utils/regulation_utils.py:100-104 | a row is reported only when one of its patterns is found |
| RegulationMetadata.RegulationNumbersAreDigits | utils/regulation_utils.py:72-73 | every regulation number is a non-empty digit run taken from the text |
| RegulationMetadata.RegulationNumbersExamples | utils/regulation_utils.py:72-73 | "ECE-R100" yields no number, while "Regulation No. 48" yields "48" |
| RegulationMetadata.ExtractRegulationRequirements | utils/regulation_utils.py:256-307 | the loop computes the requirements of the blank-line separated paragraphs |
| RegulationMetadata.CollectRequirements | utils/regulation_utils.py:283-305 | the paragraph loop computes the requirements of any vocabulary |
| RegulationMetadata.AnyIndicator | utils/regulation_utils.py:287 | `any(...)` is true iff some indicator occurs in the paragraph |
| RegulationMetadata.RequirementKind | utils/regulation_utils.py:292-295 | the type is a category label, and "General" exactly when no category pattern occurs |
| RegulationMetadata.NoGeneralCategory | utils/regulation_utils.py:107-117 | no category is called "General" |
| RegulationMetadata.KindIn | utils/regulation_utils.py:292-295 | the same for any vocabulary without a "General" row |
| RegulationMetadata.RequirementsShape | utils/regulation_utils.py:283-305 | exactly the paragraphs with an indicator become requirements |
| RegulationMetadata.RequirementsInShape | utils/regulation_utils.py:283-305 | the same for any vocabulary |
| RegulationMetadata.FilterMapSound | utils/regulation_utils.py:285-305 | every result comes from a kept element |
| RegulationMetadata.FilterMapComplete | utils/regulation_utils.py:285-305 | every kept element yields a result |
| RegulationReport.MetadataOfAll | utils/regulation_utils.py:140-143 | one metadata record per regulation text |
| RegulationReport.MetadataOfAllIn | utils/regulation_utils.py:140-143 | the same for any vocabulary |
| RegulationReport.ExtractAllMetadata | utils/regulation_utils.py:140-143 | the loop computes the metadata of every text |
| RegulationReport.CollectAllMetadata | utils/regulation_utils.py:140-143 | the loop computes it for any vocabulary |
| RegulationReport.Missing | utils/regulation_utils.py:233-239 | the query items the data does not cover, in order |
| RegulationReport.RegionSuggestions | utils/regulation_utils.py:245-246 | one suggestion per query category for a region |
| RegulationReport.CategorySuggestions | utils/regulation_utils.py:248-249 | one suggestion per missing category |
| RegulationReport.NumberSuggestions | utils/regulation_utils.py:251-252 | one suggestion per missing number |
| RegulationReport.IdentifyRegulationGaps | utils/regulation_utils.py:200-254 | the loops compute the gap suggestions |
| RegulationReport.SuggestPairs | utils/regulation_utils.py:244-246 | the nested loop suggests every missing region with every query category |
| RegulationReport.SuggestCategories | utils/regulation_utils.py:248-249 | the category suggestions are appended |
| RegulationReport.SuggestNumbers | utils/regulation_utils.py:251-252 | the number suggestions are appended |
| RegulationReport.PairSuggestionsCount | utils/regulation_utils.py:244-246 | the nested loop gives regions × categories suggestions |
| RegulationReport.GapCount | utils/regulation_utils.py:200-254 | the number of gaps is missing regions × query categories, plus missing categories, plus missing regulation numbers |
| RegulationReport.MissingEmpty | utils/regulation_utils.py:233-239 | nothing is missing iff the data covers every query item |
| RegulationReport.NoGapsIffCovered | utils/regulation_utils.py:200-254 | no suggestion is made iff every query category and every query regulation number is covered, and every query region is too unless the query has no category |
| RegulationReport.Priority | utils/regulation_utils.py:160-161 | the prioritised list holds only merged items |
| RegulationReport.PriorityMembers | utils/regulation_utils.py:160-161 | an item is listed iff it was merged and either it occurs, ignoring case, inside some item of that kind the query names, or the query names no item of that kind; every merged query item is listed |
| RegulationReport.ListOfSet | utils/regulation_utils.py:140-157 | a set becomes a duplicate-free list with the same members |
| RegulationReport.AppendBullets | utils/regulation_utils.py:167-185 | the loop appends one bullet per item |
| RegulationReport.AppendSection | utils/regulation_utils.py:167-185 | a section is appended |
| RegulationReport.AppendDetails | utils/regulation_utils.py:188-191 | the first three regulations are appended |
| RegulationReport.AppendLinks | utils/regulation_utils.py:194-196 | the first three source links are appended |
| RegulationReport.FormatRegulationResponse | utils/regulation_utils.py:127-198 | the response is the fixed layout over the merged regions, categories and numbers, each listed once |
| RegulationReport.FormatResponseShape | utils/regulation_utils.py:164-196 | the response starts with its header, has the details and sources headings, and ends with at most three details and three links |
| RegulationReport.StartsWithExtend | utils/regulation_utils.py:164 | appending keeps the header at the start |
| RegulationReport.HeadingAtEnd | utils/regulation_utils.py:188-194 | an appended heading occurs in the response |
| Advisor.MissingApiKeys | app.py:31-44 | each key is reported iff it is missing or the placeholder, in a fixed order |
| Advisor.PrioritizedIsCatalogPermutation | app.py:282-288 | the websites tried are the catalog's URLs reordered, by descending host success when the cache has entries |
| Advisor.PrioritizedKeepsCatalogOrder | app.py:282-288 | with no credited catalog host, the catalog order is kept |
| Advisor.PrioritizedKeepsTiesInCatalogOrder | app.py:282-288 | the websites sharing a success rate keep their catalog order |
| Advisor.RecordCounts | app.py:329-335 | the cache only grows: each host gains exactly its citation count, and no other key appears |
| Advisor.CitationsSucceed | app.py:320-326 | rendering fails (a list index error) iff some reference is below -len(urls) |
| Advisor.CitationListed | app.py:320-326 | each in-range reference appears as its numbered citation |
| Advisor.ShownPositions | app.py:321-322 | the positions rendered are exactly those whose index is below the number of URLs, in increasing order |
| Advisor.ShownUpTo | app.py:321-322 | the same for the first n positions |
| Advisor.CitationsExact | app.py:320-326 | when no index is too negative, the markup is exactly the numbered citations of the shown positions, in order; other references contribute nothing |
| Advisor.CitationsUpTo | app.py:320-326 | the same for the first n references |
| Advisor.CitationsFailureMessage | app.py:320-326 | a failed rendering carries the list-index error message |
| Advisor.DataNotFoundStart | app.py:343-345 | the "Data Not Found" text opens with the cross mark, that title and the message |
| Advisor.SystemErrorStart | app.py:347-349 | the "System Error" text opens with the cross mark, that title and the message |
| Advisor.RespondOutcomes | app.py:263-349 | success means a model answer over fetched data with its citations, and every cited host is credited; failures carry an error text and no markup; a failed fetch leaves the cache and reports no sources |
| Advisor.RespondErrorKinds | app.py:301-349 | a ValueError (no data, or one the model raised) is shown as "Data Not Found"; any other exception of the model, and the index error of a too-negative citation or of a URL without a host, as "System Error" |
| Advisor.TopicOf | app.py:366-384 | the loop computes the logged topic |
| Advisor.TopicIsFirstKeyword | app.py:366-384 | the topic is "General" iff no keyword occurs; otherwise it is the first keyword's topic |
| Advisor.RenderCitations | app.py:320-326 | the loop renders the citations |
| Advisor.RecordCitations | app.py:329-335 | the loop updates the cache |
| Advisor.AdvisorSession.constructor | app.py:50-59 | empty history; the cache as loaded, or empty |
| Advisor.AdvisorSession.Submit | app.py:263-398 | an empty query does nothing; otherwise the question and reply join the history, the cache is updated and one row is logged; the fetch fails on a missing key and otherwise gives what the chosen catalog sites and the backup yield |
| Advisor.AdvisorSession.FetchPrioritized | app.py:282-301 | a missing key fails the fetch; otherwise one to three catalog sites are chosen and the result is what they and the backup yield, or no_data_found |
| Advisor.AdvisorSession.Conclude | app.py:355-384 | the reply joins the history with its role, and the row to log is built |
| Advisor.AdvisorSession.LogRow | app.py:366-398 | the logged row carries the query, the answer, the topic and the source count |
| Advisor.AdvisorSession.Answer | app.py:294-349 | the reply is the one `Respond` specifies, and the cache becomes its cache |
| Advisor.AdvisorSession.AnswerFromModel | app.py:313-349 | the same from the model's answer on |
| Advisor.AdvisorSession.ClearChat | app.py:401-403 | the history is emptied and the cache kept |
| Advisor.CitationsFailureStays | app.py:320-326 | once rendering fails, later references do not matter |
| Advisor.RecordFailureStays | app.py:329-335 | once the cache update fails, later references do not matter |
| AdvisorLegacy.KeyPrioritizedKeepsOrder | GlobalAutoRegAdvisor.py:208-214 | sorting catalog keys by a host-keyed cache is a permutation that keeps the catalog order |
| AdvisorLegacy.LegacyOutcomes | GlobalAutoRegAdvisor.py:188-329 | a failure is "An error occurred: …" with no markup and no sources; a success is the model's answer with its citations, and the cited hosts credited |
| AdvisorLegacy.LegacySession.constructor | GlobalAutoRegAdvisor.py:30-39 | empty history; the cache as loaded, or empty |
| AdvisorLegacy.LegacySession.Submit | GlobalAutoRegAdvisor.py:188-329 | an empty query does nothing; otherwise the history, cache and log row follow `LegacyRespond`, and the fetch is stated as for the current page |
| AdvisorLegacy.LegacySession.FetchPrioritized | GlobalAutoRegAdvisor.py:208-221 | a missing key fails the fetch; otherwise one to three catalog sites are chosen and the result is what they and the backup yield, or no_data_found |
| AdvisorLegacy.LegacySession.Conclude | GlobalAutoRegAdvisor.py:256-305 | the reply joins the history; the topic is "Error" after an exception |
| AdvisorLegacy.LegacySession.Answer | GlobalAutoRegAdvisor.py:217-249 | the reply is the one `LegacyRespond` specifies |
| Interregs.BuildLoginData | utils/interregs_utils.py:59-75 | the loop builds the posted form data |
| Interregs.LoginDataFields | utils/interregs_utils.py:59-75 | each named hidden field carries the value of its last occurrence; other fields keep their credential |
| Interregs.LastOccurrenceWins | utils/interregs_utils.py:73-75 | the last occurrence of a hidden field wins |
| Interregs.UntouchedField | utils/interregs_utils.py:59-75 | a field no hidden input names keeps its credential |
| Interregs.LoginNeedsAnAcceptedEndpoint | utils/interregs_utils.py:78-115 | a form login succeeds iff some endpoint answers 200 with a success indicator, or with neither "error" nor "invalid" |
| Interregs.SpaceRun | utils/interregs_utils.py:252 | the maximal whitespace run |
| Interregs.LastNewline | utils/interregs_utils.py:252 | the position of the last newline |
| Interregs.BlankLineEnd | utils/interregs_utils.py:252 | a blank-line match spans at least two characters |
| Interregs.SpacesPrefix | utils/interregs_utils.py:253 | the maximal run of spaces |
| Interregs.VisibleOfSpaces | utils/interregs_utils.py:252-253 | dropping whitespace loses no visible character |
| Interregs.CollapseBlankLinesVisible | utils/interregs_utils.py:252 | collapsing blank lines keeps every visible character, in order |
| Interregs.BlankLineStep | utils/interregs_utils.py:252 | the blank-line case of that proof |
| Interregs.VisibleAfterBlankLine | utils/interregs_utils.py:252 | a blank line holds nothing visible |
| Interregs.VisibleOfBlankLine | utils/interregs_utils.py:252 | the replacement "\n\n" holds nothing visible |
| Interregs.OtherCharStep | utils/interregs_utils.py:252 | the copied-character case of that proof |
| Interregs.VisibleCons | utils/interregs_utils.py:252-253 | the visible characters of a string with one more character |
| Interregs.BlankLineRun | utils/interregs_utils.py:252 | a blank-line match is all whitespace |
| Interregs.CollapseSpacesProperties | utils/interregs_utils.py:253 | collapsing spaces keeps the visible text and the first character, and leaves no double space |
| Interregs.CollapseSpacesVisible | utils/interregs_utils.py:253 | collapsing spaces keeps the visible text |
| Interregs.CollapseSpacesSingle | utils/interregs_utils.py:253 | collapsing spaces leaves no double space |
| Interregs.CollapseSpacesIdentity | utils/interregs_utils.py:253 | a single-spaced text is unchanged |
| Interregs.CollapseSpacesIdempotent | utils/interregs_utils.py:253 | collapsing spaces twice is collapsing once |
| Interregs.CleanTextProperties | utils/interregs_utils.py:249-255 | the clean-up keeps every visible character in order and leaves no double space |
| Interregs.ResolveLinkUnderBase | utils/interregs_utils.py:176-179 | absolute links are kept; others are placed under the base URL, with or without "/db/" |
| Interregs.EntryRecords | utils/interregs_utils.py:169-195 | an entry gives at most two records |
| Interregs.RecordsShape | utils/interregs_utils.py:169-195 | at most two records per entry, all with text; each is either a document's cleaned content or a long summary citing the search page |
| Interregs.InterregsClient.constructor | utils/interregs_utils.py:13-16 | a new client is not logged in |
| Interregs.InterregsClient.Login | utils/interregs_utils.py:18-122 | the result is `LoginSucceeds`, and success marks the client logged in |
| Interregs.InterregsClient.SearchRegulations | utils/interregs_utils.py:124-205 | logs in if needed; fails with interregs_api_error when login or the search fails; else the first five entries' records |
| Interregs.InterregsClient.GetRegulationById | utils/interregs_utils.py:263-296 | logs in if needed; the document's content, URL and title, or interregs_api_error |
| Interregs.AnyIndicator | utils/interregs_utils.py:100 | true iff some success indicator occurs |
| Interregs.CollectEntries | utils/interregs_utils.py:169-195 | the entry loop builds the three aligned lists of the entries' records |
| Interregs.SearchInterregsRegulations | utils/interregs_utils.py:299-312 | a fresh client, so it always logs in first |
| Interregs.GetInterregsRegulation | utils/interregs_utils.py:315-326 | a fresh client, so it always logs in first |
| Interregs.SearchOutcomeShape | utils/interregs_utils.py:124-205 | the search fails exactly when login fails or the search raises, always with interregs_api_error; otherwise at most ten aligned records |
| McpTools.Names | utils/mcp_handler.py:270 | one name per declared tool |
| McpTools.CatalogNames | utils/mcp_handler.py:27-96 | the tools are search, details and compare, in that order |
| McpTools.SearchWellFormed | utils/mcp_handler.py:34-55 | the search tool declares its required "query" |
| McpTools.DetailsWellFormed | utils/mcp_handler.py:56-74 | the details tool declares its required "regulation_id" |
| McpTools.CompareWellFormed | utils/mcp_handler.py:75-95 | the compare tool declares "category" and "regions", the latter an array of strings |
| McpTools.Param | utils/mcp_handler.py:125-127 | `parameters.get(key, default)` |
| McpTools.OrDefault | utils/fixed-mcp-handler.py:413-416 | `s or default` keeps a non-empty string |
| McpHandler.KeyPointsCount | utils/mcp_handler.py:123-175 | every canned regulation has three key points |
| McpHandler.RequirementsShape | utils/mcp_handler.py:177-210 | three requirements (technical, testing, documentation), each naming the id |
| McpHandler.StandardsShape | utils/mcp_handler.py:212-253 | three standards per region, each starting with it |
| McpHandler.ComparisonsShape | utils/mcp_handler.py:216-253 | one comparison entry per region, in order |
| McpHandler.SearchShape | utils/mcp_handler.py:123-175 | one regulation; region defaults to "global"; the category is chosen by "emissions"/"safety" in the query, else the given one or "general" |
| McpHandler.DetailsShape | utils/mcp_handler.py:177-210 | the details echo the id and list the three requirements |
| McpHandler.CompareShape | utils/mcp_handler.py:212-264 | one entry per requested region echoing region and category, and three recommendations |
| McpHandler.UnknownToolShape | utils/mcp_handler.py:266-271 | an error iff the tool is not declared, listing the declared tools |
| McpHandler.Handler.constructor | utils/mcp_handler.py:15-25 | the handler is disabled and declares the tool catalog |
| McpHandler.Handler.ExecuteTool | utils/mcp_handler.py:98-110 | every call is answered locally |
| McpHandler.Handler.ExecuteLocally | utils/mcp_handler.py:112-271 | the local dispatch |
| McpHandler.CompareAll | utils/mcp_handler.py:216-253 | the loop builds one comparison entry per region |
| FixedMcpHandler.SearchRegulation | utils/fixed-mcp-handler.py:405-420 | the regulation keeps the region and defaults the category to "general" |
| FixedMcpHandler.Details | utils/fixed-mcp-handler.py:422-443 | two requirements, technical then documentation, for the id |
| FixedMcpHandler.CompareEntry | utils/fixed-mcp-handler.py:449-455 | an entry echoes region and category |
| FixedMcpHandler.ComparisonsShape | utils/fixed-mcp-handler.py:445-461 | one entry per region, in order |
| FixedMcpHandler.LocalStatus | utils/fixed-mcp-handler.py:463-468 | the status is "error" iff the tool is unknown, with a message naming it |
| FixedMcpHandler.LocalSearchShape | utils/fixed-mcp-handler.py:405-420 | one regulation with defaulted region and category |
| FixedMcpHandler.LocalDetailsShape | utils/fixed-mcp-handler.py:422-443 | the details echo the id with two requirements |
| FixedMcpHandler.LocalCompareShape | utils/fixed-mcp-handler.py:445-461 | one entry per requested region echoing region and category |
| FixedMcpHandler.Fetched | utils/fixed-mcp-handler.py:377-389 | a non-200 fetch is an error; a parsed 200 is the server's result; an exception falls back to the local dispatch |
| FixedMcpHandler.RoutedCases | utils/fixed-mcp-handler.py:344-389 | disabled or raised calls answer locally; a non-200 post is an error; otherwise the result is fetched by id ("None" when absent); only an enabled handler departs from the local answer |
| FixedMcpHandler.Handler.constructor | utils/fixed-mcp-handler.py:22-33 | enabled as configured unless the launch raises; a server runs iff enabled |
| FixedMcpHandler.Handler.StartServer | utils/fixed-mcp-handler.py:106-139 | nothing when disabled; a failed launch disables the handler |
| FixedMcpHandler.Handler.ExecuteTool | utils/fixed-mcp-handler.py:344-389 | the call is routed as `Routed` states |
| FixedMcpHandler.Handler.ExecuteLocally | utils/fixed-mcp-handler.py:391-468 | the local dispatch |
| FixedMcpHandler.CompareAll | utils/fixed-mcp-handler.py:449-456 | the loop builds one entry per region |

## Left out

- Text is modelled on ASCII. Python's `lower()`, `\s`, `split()` and
  `strip()` also act on non-ASCII characters (such as `\x85` and `\xa0`).
- The TF-IDF similarity in `extract_relevant_regulations` is an abstract
  score function (`None` when scikit-learn raises). The module that queries
  the language model (`utils/cerebras_utils.py`) is not part of this model;
  its answers are the `llm` and `llmReply` parameters.
- HTML parsing (BeautifulSoup) is left out. The pages, forms, entries and
  document texts it would yield are parameters. HTTP headers, timeouts and
  the Firecrawl request bodies are not modelled.
- The tool server's process, monitor thread, sleeps and generated script,
  and both handlers' `shutdown`, are not modelled. Launching the server is a
  boolean outcome; its HTTP answers are an oracle.
- File and log I/O, timing, the session id and Streamlit rendering are left
  out:
  - loading and saving the learning cache and its save failure;
  - `log_query`, whose row is returned instead;
  - spinners and status messages.
  
  The cache's unused `query_patterns` entry is not modelled. The dates are
  extracted (`RegulationMetadata.DatesFound`), but their merge into the
  combined metadata of `format_regulation_response` is not modelled, since
  they are never shown. `utils/logger.py` is not part of this
  model.
- The Interregs.net credentials and the API keys are parameters rather than
  module globals.
- Python set iteration order is left abstract. The search terms are a set,
  and the three heuristic sites are any three of the selected set.
- `McpTools.WellFormed` does not state that parameter names are distinct.
- Ranking.ExtractRelevantRegulations: ties are ordered as numpy's scalar
  `argsort` orders them on arrays of at most 16 values (insertion sort, so
  descending position after the reversal). numpy's default `argsort` is not
  stable: on longer arrays, or with its vectorised sort kernels, ties may come
  in another order.
- SiteSelection.HeuristicDefaultsToGlobal: states only that the selected set
  equals the global sites. Which three URLs those are is stated by
  `SiteSelection.GlobalKeysUrls`.
