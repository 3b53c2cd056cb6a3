/** Choosing which catalog websites to scrape for a query: the keyword heuristic
    `select_websites_heuristic`, and the parse of the LLM's comma-separated reply in
    `select_websites_with_llm`, which falls back to the heuristic. The Cerebras
    call itself is an oracle: its reply text, or `None` when it raised. */
module SiteSelection {
  import opened Wrappers
  import opened PyText
  import opened Config

  /** The values `catalog` gives those `keys` that are among its keys */
  function KeysUrls(catalog: seq<(string, string)>, keys: seq<string>): (urls: set<string>)
    ensures forall u :: u in urls ==> u in Values(catalog)
    decreases |keys|
  {
    if keys == [] then {}
    else
      var before := KeysUrls(catalog, keys[..|keys| - 1]);
      LookupFromMembers(catalog, keys[|keys| - 1]);
      match LookupFrom(catalog, keys[|keys| - 1])
      case Some(u) => before + {u}
      case None => before
  }

  /** Does the table entry fire on the lower-cased query? Category names are also
      tried with `_` read as a space. */
  predicate EntryFires(name: string, q: string, spaced: bool) {
    Contains(q, name) || (spaced && Contains(q, ReplaceChar(name, '_', ' ')))
  }

  /** URLs contributed by the first `n` entries of a keyword table */
  function TableUrls(catalog: seq<(string, string)>, table: seq<(string, seq<string>)>, q: string, spaced: bool, n: nat): (urls: set<string>)
    requires n <= |table|
    ensures forall u :: u in urls ==> u in Values(catalog)
    decreases n
  {
    if n == 0 then {}
    else TableUrls(catalog, table, q, spaced, n - 1) + (if EntryFires(table[n - 1].0, q, spaced) then KeysUrls(catalog, table[n - 1].1) else {})
  }

  /** A URL is added for the keys exactly when one of them looks it up. */
  lemma {:induction false} KeysUrlsMembers(catalog: seq<(string, string)>, keys: seq<string>, u: string)
    ensures u in KeysUrls(catalog, keys) <==> exists k :: k in keys && LookupFrom(catalog, k) == Some(u)
    decreases |keys|
  {
    if keys != [] {
      var last := keys[|keys| - 1];
      var init := keys[..|keys| - 1];
      assert keys == init + [last];
      KeysUrlsMembers(catalog, init, u);
      if exists k :: k in keys && LookupFrom(catalog, k) == Some(u) {
        var k :| k in keys && LookupFrom(catalog, k) == Some(u);
        if k != last {
          assert k in init;
        }
      }
    }
  }

  /** Entry `i` of the table fired and names a key whose URL is `u` */
  predicate Contributes(catalog: seq<(string, string)>, table: seq<(string, seq<string>)>, q: string, spaced: bool, i: nat, u: string)
    requires i < |table|
  {
    EntryFires(table[i].0, q, spaced) && u in KeysUrls(catalog, table[i].1)
  }

  /** A URL is contributed by the first `n` entries exactly when one of them
      fired and names a key with that URL (see `KeysUrlsMembers`). */
  lemma {:induction false} TableUrlsMembers(catalog: seq<(string, string)>, table: seq<(string, seq<string>)>, q: string, spaced: bool, n: nat, u: string)
    requires n <= |table|
    ensures u in TableUrls(catalog, table, q, spaced, n) <==> exists i :: 0 <= i < n && Contributes(catalog, table, q, spaced, i, u)
    decreases n
  {
    if n > 0 {
      TableUrlsMembers(catalog, table, q, spaced, n - 1, u);
      if Contributes(catalog, table, q, spaced, n - 1, u) {
        assert 0 <= n - 1 < n;
      }
    }
  }

  const GlobalKeys: seq<string> := ["UNECE", "EU_COMMISSION", "US_EPA"]

  /** The set the heuristic builds before it is listed and cut */
  function HeuristicSet(query: string): (urls: set<string>)
    ensures forall u :: u in urls ==> u in CatalogUrls()
  {
    HeuristicFrom(RegulatoryWebsites, RegionWebsites, WebsiteSelectionCriteria, query)
  }

  /** The same set, for any catalog and tables */
  function HeuristicFrom(catalog: seq<(string, string)>, regions: seq<(string, seq<string>)>,
                         criteria: seq<(string, seq<string>)>, query: string): (urls: set<string>)
    ensures forall u :: u in urls ==> u in Values(catalog)
  {
    var q := Lower(query);
    var found := TableUrls(catalog, regions, q, false, |regions|)
               + TableUrls(catalog, criteria, q, true, |criteria|);
    if found == {} then KeysUrls(catalog, GlobalKeys) else found
  }

  lemma GlobalUrlsNonEmpty()
    ensures KeysUrls(RegulatoryWebsites, GlobalKeys) != {}
  {
    assert CatalogKeys()[3] == "UNECE";
    LookupFromMembers(RegulatoryWebsites, "UNECE");
    KeysUrlsMembers(RegulatoryWebsites, GlobalKeys, CatalogUrl("UNECE").value);
    assert "UNECE" in GlobalKeys;
  }

  /** `select_websites_heuristic`: the region and category tables add catalog URLs
      to a set, the three global sources stand in when nothing fired, and the first
      `MAX_SITES_PER_QUERY` elements of the set, in the set's own unspecified
      order, are returned. */
  method SelectWebsitesHeuristic(query: string) returns (sites: seq<string>)
    ensures |sites| == Min(MaxSitesPerQuery, |HeuristicSet(query)|)
    ensures 1 <= |sites| <= MaxSitesPerQuery
    ensures forall i, j :: 0 <= i < j < |sites| ==> sites[i] != sites[j]
    ensures forall u :: u in sites ==> u in HeuristicSet(query) && u in CatalogUrls()
  {
    var q := Lower(query);
    var fromRegions := AddTableUrls(RegulatoryWebsites, RegionWebsites, q, false);
    var fromCategories := AddTableUrls(RegulatoryWebsites, WebsiteSelectionCriteria, q, true);
    var selected := fromRegions + fromCategories;
    if selected == {} {
      selected := AddKeyUrls(RegulatoryWebsites, GlobalKeys);
    }
    assert selected == HeuristicSet(query);
    GlobalUrlsNonEmpty();
    sites := ListPrefix(selected, MaxSitesPerQuery);
  }

  /** One table's loop: each entry that fires adds the URLs of its keys. */
  method AddTableUrls(catalog: seq<(string, string)>, table: seq<(string, seq<string>)>, q: string, spaced: bool)
    returns (selected: set<string>)
    ensures selected == TableUrls(catalog, table, q, spaced, |table|)
  {
    selected := {};
    for i := 0 to |table|
      invariant selected == TableUrls(catalog, table, q, spaced, i)
    {
      var entry := table[i];
      if Contains(q, entry.0) || (spaced && Contains(q, ReplaceChar(entry.0, '_', ' '))) {
        var urls := AddKeyUrls(catalog, entry.1);
        selected := selected + urls;
      }
    }
  }

  /** The inner loop: `if key in catalog: selected.add(catalog[key])` */
  method AddKeyUrls(catalog: seq<(string, string)>, keys: seq<string>) returns (selected: set<string>)
    ensures selected == KeysUrls(catalog, keys)
  {
    selected := {};
    for j := 0 to |keys|
      invariant selected == KeysUrls(catalog, keys[..j])
    {
      var key := keys[j];
      assert keys[..j + 1][..j] == keys[..j];
      var url := LookupFrom(catalog, key);
      if url.Some? {
        selected := selected + {url.value};
      }
    }
    assert keys[..|keys|] == keys;
  }

  /** `list(s)[:n]`, the order being the set's own */
  method ListPrefix(s: set<string>, n: nat) returns (items: seq<string>)
    ensures |items| == Min(n, |s|)
    ensures forall i, j :: 0 <= i < j < |items| ==> items[i] != items[j]
    ensures forall u :: u in items ==> u in s
  {
    items := [];
    var rest := s;
    while rest != {} && |items| < n
      invariant rest <= s
      invariant forall u :: u in items ==> u in s && u !in rest
      invariant forall i, j :: 0 <= i < j < |items| ==> items[i] != items[j]
      invariant |items| + |rest| == |s|
      invariant |items| <= n
      decreases |rest|
    {
      var u :| u in rest;
      items := items + [u];
      rest := rest - {u};
    }
  }

  /** When no region or category name occurs in the query, only the three global
      sources can be chosen (their URLs are `GlobalKeysUrls`). */
  lemma HeuristicDefaultsToGlobal(query: string)
    requires !AnyFires(RegionWebsites, Lower(query), false)
    requires !AnyFires(WebsiteSelectionCriteria, Lower(query), true)
    ensures HeuristicSet(query) == KeysUrls(RegulatoryWebsites, GlobalKeys)
  {
    DefaultsToGlobal(RegulatoryWebsites, RegionWebsites, WebsiteSelectionCriteria, query);
  }

  lemma DefaultsToGlobal(catalog: seq<(string, string)>, regions: seq<(string, seq<string>)>,
                         criteria: seq<(string, seq<string>)>, query: string)
    requires !AnyFires(regions, Lower(query), false)
    requires !AnyFires(criteria, Lower(query), true)
    ensures HeuristicFrom(catalog, regions, criteria, query) == KeysUrls(catalog, GlobalKeys)
  {
    var q := Lower(query);
    NothingFires(catalog, regions, q, false, |regions|);
    NothingFires(catalog, criteria, q, true, |criteria|);
  }

  /** Some entry of the table fires on the query */
  predicate AnyFires(table: seq<(string, seq<string>)>, q: string, spaced: bool) {
    exists i :: 0 <= i < |table| && EntryFires(table[i].0, q, spaced)
  }

  lemma {:induction false} NothingFires(catalog: seq<(string, string)>, table: seq<(string, seq<string>)>, q: string, spaced: bool, n: nat)
    requires n <= |table|
    requires !AnyFires(table, q, spaced)
    ensures TableUrls(catalog, table, q, spaced, n) == {}
  {
    if n > 0 {
      NothingFires(catalog, table, q, spaced, n - 1);
      assert !EntryFires(table[n - 1].0, q, spaced);
    }
  }

  /** The URLs of three keys of the catalog */
  lemma KeysUrlsOfThree(catalog: seq<(string, string)>, a: string, b: string, c: string)
    requires a in Keys(catalog) && b in Keys(catalog) && c in Keys(catalog)
    ensures LookupFrom(catalog, a).Some? && LookupFrom(catalog, b).Some? && LookupFrom(catalog, c).Some?
    ensures KeysUrls(catalog, [a, b, c]) == {LookupFrom(catalog, a).value, LookupFrom(catalog, b).value, LookupFrom(catalog, c).value}
  {
    LookupFromMembers(catalog, a);
    LookupFromMembers(catalog, b);
    LookupFromMembers(catalog, c);
    KeysUrlsSnoc(catalog, [], a);
    KeysUrlsSnoc(catalog, [a], b);
    KeysUrlsSnoc(catalog, [a, b], c);
    assert [] + [a] == [a] && [a] + [b] == [a, b] && [a, b] + [c] == [a, b, c];
  }

  /** Adding one key adds its value, if it has one */
  lemma KeysUrlsSnoc(catalog: seq<(string, string)>, keys: seq<string>, k: string)
    ensures KeysUrls(catalog, keys + [k]) == KeysUrls(catalog, keys) + (if LookupFrom(catalog, k).Some? then {LookupFrom(catalog, k).value} else {})
  {
    assert (keys + [k])[..|keys|] == keys;
  }

  /** The three global sources' URLs */
  lemma GlobalKeysUrls()
    ensures KeysUrls(RegulatoryWebsites, GlobalKeys) == {CatalogUrl("UNECE").value, CatalogUrl("EU_COMMISSION").value, CatalogUrl("US_EPA").value}
  {
    assert CatalogKeys()[3] == "UNECE" && CatalogKeys()[2] == "EU_COMMISSION" && CatalogKeys()[1] == "US_EPA";
    KeysUrlsOfThree(RegulatoryWebsites, "UNECE", "EU_COMMISSION", "US_EPA");
  }

  /** `[catalog[key] for key in keys if key in catalog]` */
  function CatalogUrlsOf(catalog: seq<(string, string)>, keys: seq<string>): (urls: seq<string>)
    ensures |urls| <= |keys|
    ensures forall u :: u in urls ==> u in Values(catalog)
    decreases |keys|
  {
    if keys == [] then []
    else
      LookupFromMembers(catalog, keys[0]);
      match LookupFrom(catalog, keys[0])
      case Some(u) => [u] + CatalogUrlsOf(catalog, keys[1..])
      case None => CatalogUrlsOf(catalog, keys[1..])
  }

  /** The keys are visited in order: listing two replies one after the other
      lists their URLs one after the other. */
  lemma {:induction false} CatalogUrlsOfAppend(catalog: seq<(string, string)>, a: seq<string>, b: seq<string>)
    ensures CatalogUrlsOf(catalog, a + b) == CatalogUrlsOf(catalog, a) + CatalogUrlsOf(catalog, b)
    decreases |a|
  {
    if a == [] {
      assert a + b == b;
    } else {
      assert (a + b)[0] == a[0];
      assert (a + b)[1..] == a[1..] + b;
      CatalogUrlsOfAppend(catalog, a[1..], b);
    }
  }

  /** A single token contributes its URL exactly when it is a catalog key, so
      anything else in the reply is dropped. */
  lemma CatalogUrlsOfOne(k: string)
    ensures IsCatalogKey(k) ==> CatalogUrl(k).Some? && CatalogUrlsOf(RegulatoryWebsites, [k]) == [CatalogUrl(k).value]
    ensures !IsCatalogKey(k) ==> CatalogUrlsOf(RegulatoryWebsites, [k]) == []
  {
    LookupFromMembers(RegulatoryWebsites, k);
    assert [k][1..] == [];
  }

  /** `[key.strip() for key in content.split(',')]` */
  function ReplyKeys(reply: string): (keys: seq<string>)
    ensures |keys| == |Split(reply, ",")|
    ensures forall i :: 0 <= i < |keys| ==> keys[i] == Strip(Split(reply, ",")[i])
  {
    var pieces := Split(reply, ",");
    seq(|pieces|, i requires 0 <= i < |pieces| => Strip(pieces[i]))
  }

  /** The websites named by an LLM reply, before truncation */
  function ParseLlmReply(reply: string): seq<string> {
    CatalogUrlsOf(RegulatoryWebsites, ReplyKeys(reply))
  }

  /** `select_websites_with_llm`. `reply` is the model's text, or `None` when the
      client or the call raised; both an exception and a reply naming no catalog
      key fall back to the heuristic. */
  method SelectWebsitesWithLlm(query: string, reply: Option<string>) returns (sites: seq<string>)
    ensures 1 <= |sites| <= MaxSitesPerQuery
    ensures forall u :: u in sites ==> u in CatalogUrls()
    ensures reply.Some? && ParseLlmReply(reply.value) != [] ==>
              sites == ParseLlmReply(reply.value)[..Min(MaxSitesPerQuery, |ParseLlmReply(reply.value)|)]
    ensures (reply.None? || ParseLlmReply(reply.value) == []) ==>
              |sites| == Min(MaxSitesPerQuery, |HeuristicSet(query)|) && forall u :: u in sites ==> u in HeuristicSet(query)
  {
    if reply.Some? {
      var selected := ParseLlmReply(reply.value);
      if selected != [] {
        sites := selected[..Min(MaxSitesPerQuery, |selected|)];
        return;
      }
    }
    sites := SelectWebsitesHeuristic(query);
  }
}
