/** `identify_regulation_gaps` and `format_regulation_response` of
    utils/regulation_utils.py (regulation-utils.py is an identical copy). Both
    merge the metadata of every snippet and deduplicate it through a Python set,
    whose iteration order is unspecified: the gap search only asks membership of
    the merged values, and the response lists them in an order the method picks
    nondeterministically. */
module RegulationReport {
  import opened PyText
  import opened RegulationMetadata

  function MetadataOfAll(texts: seq<string>): (ms: seq<Metadata>)
    ensures |ms| == |texts|
  {
    MetadataOfAllIn(Standard(), texts)
  }

  /** The metadata of each text, found with the tables of `v` */
  function MetadataOfAllIn(v: Vocabulary, texts: seq<string>): (ms: seq<Metadata>)
    ensures |ms| == |texts|
    decreases |texts|
  {
    if texts == [] then [] else MetadataOfAllIn(v, texts[..|texts| - 1]) + [MetadataIn(v, texts[|texts| - 1])]
  }

  /** `[extract_regulation_metadata(d) for d in data]` */
  method ExtractAllMetadata(texts: seq<string>) returns (ms: seq<Metadata>)
    ensures ms == MetadataOfAll(texts)
  {
    ms := CollectAllMetadata(Standard(), texts);
  }

  method CollectAllMetadata(v: Vocabulary, texts: seq<string>) returns (ms: seq<Metadata>)
    ensures ms == MetadataOfAllIn(v, texts)
  {
    ms := [];
    for i := 0 to |texts|
      invariant ms == MetadataOfAllIn(v, texts[..i])
    {
      assert texts[..i + 1][..i] == texts[..i];
      var m := CollectMetadata(v, texts[i]);
      ms := ms + [m];
    }
    assert texts[..|texts|] == texts;
  }

  /** The merged (deduplicated) values of all snippets */
  function AllNumbers(ms: seq<Metadata>): set<string> { set m, x | m in ms && x in m.regulationNumbers :: x }
  function AllRegions(ms: seq<Metadata>): set<string> { set m, x | m in ms && x in m.regions :: x }
  function AllCategories(ms: seq<Metadata>): set<string> { set m, x | m in ms && x in m.categories :: x }

  /** `[x for x in xs if x not in have]` */
  function Missing(xs: seq<string>, have: set<string>): (r: seq<string>)
    ensures |r| <= |xs|
    ensures forall x :: x in r <==> x in xs && x !in have
    decreases |xs|
  {
    if xs == [] then []
    else
      var init := Missing(xs[..|xs| - 1], have);
      assert xs == xs[..|xs| - 1] + [xs[|xs| - 1]];
      if xs[|xs| - 1] in have then init else init + [xs[|xs| - 1]]
  }

  /** `f"{region} {category} regulations"` for every category of the query */
  function RegionSuggestions(region: string, categories: seq<string>): (r: seq<string>)
    ensures |r| == |categories|
    decreases |categories|
  {
    if categories == [] then []
    else RegionSuggestions(region, categories[..|categories| - 1]) + [region + " " + categories[|categories| - 1] + " regulations"]
  }

  /** The suggestions of the nested loop over missing regions */
  function PairSuggestions(regions: seq<string>, categories: seq<string>): seq<string>
    decreases |regions|
  {
    if regions == [] then []
    else PairSuggestions(regions[..|regions| - 1], categories) + RegionSuggestions(regions[|regions| - 1], categories)
  }

  function CategorySuggestion(category: string, queryRegions: seq<string>): string {
    category + " regulations " + Join(" ", queryRegions)
  }

  function NumberSuggestion(number: string): string {
    "Regulation " + number + " automotive"
  }

  function CategorySuggestions(categories: seq<string>, queryRegions: seq<string>): (r: seq<string>)
    ensures |r| == |categories|
    decreases |categories|
  {
    if categories == [] then []
    else CategorySuggestions(categories[..|categories| - 1], queryRegions) + [CategorySuggestion(categories[|categories| - 1], queryRegions)]
  }

  function NumberSuggestions(numbers: seq<string>): (r: seq<string>)
    ensures |r| == |numbers|
    decreases |numbers|
  {
    if numbers == [] then [] else NumberSuggestions(numbers[..|numbers| - 1]) + [NumberSuggestion(numbers[|numbers| - 1])]
  }

  /** What `identify_regulation_gaps` suggests, given the metadata of the query
      and of each snippet */
  function Gaps(q: Metadata, ms: seq<Metadata>): seq<string> {
    PairSuggestions(Missing(q.regions, AllRegions(ms)), q.categories)
      + CategorySuggestions(Missing(q.categories, AllCategories(ms)), q.regions)
      + NumberSuggestions(Missing(q.regulationNumbers, AllNumbers(ms)))
  }

  /** `identify_regulation_gaps` */
  method IdentifyRegulationGaps(query: string, data: seq<string>) returns (suggestions: seq<string>)
    ensures suggestions == Gaps(MetadataOf(query), MetadataOfAll(data))
  {
    var q := ExtractRegulationMetadata(query);
    var ms := ExtractAllMetadata(data);
    var missingRegions := Missing(q.regions, AllRegions(ms));
    var missingCategories := Missing(q.categories, AllCategories(ms));
    var missingNumbers := Missing(q.regulationNumbers, AllNumbers(ms));
    suggestions := SuggestPairs(missingRegions, q.categories);
    suggestions := SuggestCategories(suggestions, missingCategories, q.regions);
    suggestions := SuggestNumbers(suggestions, missingNumbers);
  }

  /** The nested loop over missing regions and query categories */
  method SuggestPairs(regions: seq<string>, categories: seq<string>) returns (suggestions: seq<string>)
    ensures suggestions == PairSuggestions(regions, categories)
  {
    suggestions := [];
    for i := 0 to |regions|
      invariant suggestions == PairSuggestions(regions[..i], categories)
    {
      assert regions[..i + 1][..i] == regions[..i];
      ghost var before := suggestions;
      for j := 0 to |categories|
        invariant suggestions == before + RegionSuggestions(regions[i], categories[..j])
      {
        assert categories[..j + 1][..j] == categories[..j];
        suggestions := suggestions + [regions[i] + " " + categories[j] + " regulations"];
      }
      assert categories[..|categories|] == categories;
    }
    assert regions[..|regions|] == regions;
  }

  /** The loop over missing categories */
  method SuggestCategories(suggestions: seq<string>, categories: seq<string>, queryRegions: seq<string>) returns (r: seq<string>)
    ensures r == suggestions + CategorySuggestions(categories, queryRegions)
  {
    r := suggestions;
    for i := 0 to |categories|
      invariant r == suggestions + CategorySuggestions(categories[..i], queryRegions)
    {
      assert categories[..i + 1][..i] == categories[..i];
      r := r + [categories[i] + " regulations " + Join(" ", queryRegions)];
    }
    assert categories[..|categories|] == categories;
  }

  /** The loop over missing regulation numbers */
  method SuggestNumbers(suggestions: seq<string>, numbers: seq<string>) returns (r: seq<string>)
    ensures r == suggestions + NumberSuggestions(numbers)
  {
    r := suggestions;
    for i := 0 to |numbers|
      invariant r == suggestions + NumberSuggestions(numbers[..i])
    {
      assert numbers[..i + 1][..i] == numbers[..i];
      r := r + ["Regulation " + numbers[i] + " automotive"];
    }
    assert numbers[..|numbers|] == numbers;
  }

  lemma {:induction false} PairSuggestionsCount(regions: seq<string>, categories: seq<string>)
    ensures |PairSuggestions(regions, categories)| == |regions| * |categories|
    decreases |regions|
  {
    if regions != [] {
      PairSuggestionsCount(regions[..|regions| - 1], categories);
      assert |regions| * |categories| == (|regions| - 1) * |categories| + |categories|;
    }
  }

  /** One suggestion per (missing region, query category) pair, one per missing
      category and one per missing regulation number. */
  lemma GapCount(q: Metadata, ms: seq<Metadata>)
    ensures |Gaps(q, ms)| == |Missing(q.regions, AllRegions(ms))| * |q.categories|
                                   + |Missing(q.categories, AllCategories(ms))|
                                   + |Missing(q.regulationNumbers, AllNumbers(ms))|
  {
    PairSuggestionsCount(Missing(q.regions, AllRegions(ms)), q.categories);
  }

  lemma MissingEmpty(xs: seq<string>, have: set<string>)
    ensures Missing(xs, have) == [] <==> forall x :: x in xs ==> x in have
  {
    var r := Missing(xs, have);
    if r != [] {
      assert r[0] in r;
    }
  }

  /** Nothing is suggested exactly when the snippets mention every category and
      every regulation number of the query, and every region of the query too
      unless the query names no category (a missing region is only suggested
      together with a query category). */
  lemma NoGapsIffCovered(q: Metadata, ms: seq<Metadata>)
    ensures Gaps(q, ms) == [] <==>
              && (forall x :: x in q.categories ==> x in AllCategories(ms))
              && (forall x :: x in q.regulationNumbers ==> x in AllNumbers(ms))
              && (q.categories == [] || forall x :: x in q.regions ==> x in AllRegions(ms))
  {
    var mr := Missing(q.regions, AllRegions(ms));
    GapCount(q, ms);
    MissingEmpty(q.regions, AllRegions(ms));
    MissingEmpty(q.categories, AllCategories(ms));
    MissingEmpty(q.regulationNumbers, AllNumbers(ms));
    if |mr| > 0 && |q.categories| > 0 {
      assert |mr| * |q.categories| >= |q.categories|;
    }
  }

  // ---------------------------------------------------------------------------
  // format_regulation_response

  const Header: string := "# Automotive Regulation Information\n\n"
  const DetailsHeading: string := "## Detailed Information\n\n"
  const SourcesHeading: string := "## Sources\n"

  /** `"- " + x + "\n"` for each item */
  function Bullets(items: seq<string>): string
    decreases |items|
  {
    if items == [] then "" else Bullets(items[..|items| - 1]) + "- " + items[|items| - 1] + "\n"
  }

  /** A titled bullet list, or nothing when there are no items */
  function Section(title: string, items: seq<string>): string {
    if items == [] then "" else title + Bullets(items) + "\n"
  }

  /** `"### Source {i+1}\n{regulation}\n\n"` for each snippet */
  function Details(regs: seq<string>): string
    decreases |regs|
  {
    if regs == [] then ""
    else Details(regs[..|regs| - 1]) + "### Source " + NatToString(|regs|) + "\n" + regs[|regs| - 1] + "\n\n"
  }

  /** `"- [Source {i+1}]({url})\n"` for each URL */
  function Links(urls: seq<string>): string
    decreases |urls|
  {
    if urls == [] then ""
    else Links(urls[..|urls| - 1]) + "- [Source " + NatToString(|urls|) + "](" + urls[|urls| - 1] + ")\n"
  }

  /** The names of the merged list kept for the response: those occurring,
      lower-cased, inside a lower-cased name found in the query, or all of them
      when the query names none. */
  function Priority(merged: seq<string>, queryNames: seq<string>): (r: seq<string>)
    ensures forall x :: x in r ==> x in merged
    decreases |merged|
  {
    if queryNames == [] then merged
    else if merged == [] then []
    else
      var init := Priority(merged[..|merged| - 1], queryNames);
      var x := merged[|merged| - 1];
      assert merged == merged[..|merged| - 1] + [x];
      if exists qr :: qr in queryNames && Contains(Lower(qr), Lower(x)) then init + [x] else init
  }

  /** A merged name is kept exactly when it occurs inside some name the query
      mentions, or when the query mentions none; names the query mentions
      itself are always kept. */
  lemma {:induction false} PriorityMembers(merged: seq<string>, queryNames: seq<string>, x: string)
    ensures x in Priority(merged, queryNames) <==>
              x in merged && (queryNames == [] || exists qr :: qr in queryNames && Contains(Lower(qr), Lower(x)))
    ensures x in merged && x in queryNames ==> x in Priority(merged, queryNames)
    decreases |merged|
  {
    if queryNames != [] && merged != [] {
      var init := merged[..|merged| - 1];
      PriorityMembers(init, queryNames, x);
      assert merged == init + [merged[|merged| - 1]];
    }
    if x in queryNames {
      ContainsSelf(Lower(x));
    }
  }

  /** The title and the optional region, category and regulation-number sections */
  function Head(q: Metadata, regions: seq<string>, categories: seq<string>, numbers: seq<string>): string {
    Header
      + Section("## Applicable Regions\n", Priority(regions, q.regions))
      + Section("## Regulation Categories\n", Priority(categories, q.categories))
      + Section("## Relevant Regulation Numbers\n", numbers)
  }

  /** The response for the metadata of the query and given orders of the merged
      regions, categories and regulation numbers */
  function Layout(q: Metadata, regions: seq<string>, categories: seq<string>, numbers: seq<string>,
                  regs: seq<string>, urls: seq<string>): string
  {
    Head(q, regions, categories, numbers)
      + DetailsHeading + Details(regs[..Min(3, |regs|)])
      + SourcesHeading + Links(urls[..Min(3, |urls|)])
  }

  /** `list(s)`: the elements of a set, once each, in an unspecified order */
  method ListOfSet(s: set<string>) returns (xs: seq<string>)
    ensures NoDuplicates(xs) && forall x :: x in xs <==> x in s
  {
    xs := [];
    var rest := s;
    while rest != {}
      invariant rest <= s
      invariant forall x :: x in xs <==> x in s && x !in rest
      invariant NoDuplicates(xs)
      decreases |rest|
    {
      var x :| x in rest;
      xs := xs + [x];
      rest := rest - {x};
    }
  }

  /** The `for … response += …` loop of a bullet list */
  method AppendBullets(response: string, items: seq<string>) returns (r: string)
    ensures r == response + Bullets(items)
  {
    r := response;
    for i := 0 to |items|
      invariant r == response + Bullets(items[..i])
    {
      assert items[..i + 1][..i] == items[..i];
      r := r + "- " + items[i] + "\n";
    }
    assert items[..|items|] == items;
  }

  method AppendSection(response: string, title: string, items: seq<string>) returns (r: string)
    ensures r == response + Section(title, items)
  {
    r := response;
    if items != [] {
      r := r + title;
      r := AppendBullets(r, items);
      r := r + "\n";
    }
  }

  /** The loop over the first three snippets */
  method AppendDetails(response: string, regs: seq<string>) returns (r: string)
    ensures r == response + Details(regs[..Min(3, |regs|)])
  {
    var top := regs[..Min(3, |regs|)];
    r := response;
    for i := 0 to |top|
      invariant r == response + Details(top[..i])
    {
      assert top[..i + 1][..i] == top[..i];
      r := r + "### Source " + NatToString(i + 1) + "\n" + top[i] + "\n\n";
    }
    assert top[..|top|] == top;
  }

  /** The loop over the first three URLs */
  method AppendLinks(response: string, urls: seq<string>) returns (r: string)
    ensures r == response + Links(urls[..Min(3, |urls|)])
  {
    var cited := urls[..Min(3, |urls|)];
    r := response;
    for i := 0 to |cited|
      invariant r == response + Links(cited[..i])
    {
      assert cited[..i + 1][..i] == cited[..i];
      r := r + "- [Source " + NatToString(i + 1) + "](" + cited[i] + ")\n";
    }
    assert cited[..|cited|] == cited;
  }

  /** `format_regulation_response`; the three ghost results are the orders in
      which the merged regions, categories and regulation numbers were listed. */
  method FormatRegulationResponse(query: string, regs: seq<string>, urls: seq<string>)
    returns (response: string, ghost regionOrder: seq<string>, ghost categoryOrder: seq<string>, ghost numberOrder: seq<string>)
    ensures NoDuplicates(regionOrder) && forall x :: x in regionOrder <==> x in AllRegions(MetadataOfAll(regs))
    ensures NoDuplicates(categoryOrder) && forall x :: x in categoryOrder <==> x in AllCategories(MetadataOfAll(regs))
    ensures NoDuplicates(numberOrder) && forall x :: x in numberOrder <==> x in AllNumbers(MetadataOfAll(regs))
    ensures response == Layout(MetadataOf(query), regionOrder, categoryOrder, numberOrder, regs, urls)
  {
    var q := ExtractRegulationMetadata(query);
    var ms := ExtractAllMetadata(regs);
    var regions := ListOfSet(AllRegions(ms));
    var categories := ListOfSet(AllCategories(ms));
    var numbers := ListOfSet(AllNumbers(ms));
    regionOrder, categoryOrder, numberOrder := regions, categories, numbers;
    response := Header;
    response := AppendSection(response, "## Applicable Regions\n", Priority(regions, q.regions));
    response := AppendSection(response, "## Regulation Categories\n", Priority(categories, q.categories));
    response := AppendSection(response, "## Relevant Regulation Numbers\n", numbers);
    assert response == Head(q, regions, categories, numbers);
    response := response + DetailsHeading;
    response := AppendDetails(response, regs);
    response := response + SourcesHeading;
    response := AppendLinks(response, urls);
  }

  /** The response opens with the title, always carries the "Detailed
      Information" and "Sources" headings, and ends with the sections of at most
      three snippets followed by the links of at most three URLs. */
  lemma FormatResponseShape(q: Metadata, regions: seq<string>, categories: seq<string>, numbers: seq<string>,
                            regs: seq<string>, urls: seq<string>)
    ensures var r := Layout(q, regions, categories, numbers, regs, urls);
            && StartsWith(r, Header)
            && Contains(r, "## Detailed Information")
            && Contains(r, "## Sources")
            && exists head: string :: r == head + DetailsHeading + Details(regs[..Min(3, |regs|)]) + SourcesHeading + Links(urls[..Min(3, |urls|)])
  {
    var head := Head(q, regions, categories, numbers);
    var details := Details(regs[..Min(3, |regs|)]);
    var links := Links(urls[..Min(3, |urls|)]);
    var r := Layout(q, regions, categories, numbers, regs, urls);
    assert StartsWith(Header, Header);
    StartsWithExtend(Header, Section("## Applicable Regions\n", Priority(regions, q.regions)), Header);
    StartsWithExtend(Header + Section("## Applicable Regions\n", Priority(regions, q.regions)),
                     Section("## Regulation Categories\n", Priority(categories, q.categories)), Header);
    StartsWithExtend(Header + Section("## Applicable Regions\n", Priority(regions, q.regions))
                       + Section("## Regulation Categories\n", Priority(categories, q.categories)),
                     Section("## Relevant Regulation Numbers\n", numbers), Header);
    StartsWithExtend(head, DetailsHeading, Header);
    StartsWithExtend(head + DetailsHeading, details, Header);
    StartsWithExtend(head + DetailsHeading + details, SourcesHeading, Header);
    StartsWithExtend(head + DetailsHeading + details + SourcesHeading, links, Header);
    HeadingAtEnd(head, DetailsHeading, "## Detailed Information");
    ContainsInLeft(head + DetailsHeading, details, "## Detailed Information");
    ContainsInLeft(head + DetailsHeading + details, SourcesHeading, "## Detailed Information");
    ContainsInLeft(head + DetailsHeading + details + SourcesHeading, links, "## Detailed Information");
    HeadingAtEnd(head + DetailsHeading + details, SourcesHeading, "## Sources");
    ContainsInLeft(head + DetailsHeading + details + SourcesHeading, links, "## Sources");
  }

  lemma StartsWithExtend(a: string, b: string, prefix: string)
    requires StartsWith(a, prefix)
    ensures StartsWith(a + b, prefix)
  {
    assert (a + b)[..|prefix|] == a[..|prefix|];
  }

  lemma HeadingAtEnd(before: string, heading: string, title: string)
    requires StartsWith(heading, title)
    ensures Contains(before + heading, title)
  {
    var r := before + heading;
    assert r[|before|..|before| + |title|] == heading[..|title|];
    ContainsAt(r, title, |before|);
  }
}
