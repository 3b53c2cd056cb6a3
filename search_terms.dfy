/** `prepare_search_terms`: the lower-cased words of the query minus a stop list,
    together with a fixed vocabulary and the regulation codes written in the
    query. The source removes duplicates by going through a `set`, so the order of
    the list it returns is unspecified; the model returns the set. */
module SearchTerms {
  import opened PyText
  import opened Patterns

  const CommonWords: seq<string> := ["what", "is", "are", "the", "for", "a", "an", "in", "on", "about", "how", "can", "do", "does"]
  const RegulationTerms: seq<string> := ["regulation", "standard", "directive", "requirement", "law", "homologation", "type approval"]
  const RegionTerms: seq<string> := ["eu", "european", "us", "united states", "uk", "japan", "china", "global", "international"]

  /** `[term for term in terms if term not in common_words]` */
  function DropCommonWords(terms: seq<string>): (kept: seq<string>)
    ensures forall t :: t in kept <==> t in terms && t !in CommonWords
    ensures |kept| <= |terms|
  {
    if terms == [] then []
    else if terms[0] in CommonWords then DropCommonWords(terms[1..])
    else [terms[0]] + DropCommonWords(terms[1..])
  }

  /** `set(xs)` */
  function Elements(xs: seq<string>): (r: set<string>)
    ensures forall t :: t in r <==> t in xs
  {
    set t | t in xs
  }

  function PrepareSearchTerms(query: string): (terms: set<string>)
    ensures forall t :: t in terms <==>
              (t in SplitWs(Lower(query)) && t !in CommonWords) ||
              t in RegulationTerms || t in RegionTerms || t in FindAll(RegCode, query)
  {
    Elements(DropCommonWords(SplitWs(Lower(query)))) + Elements(RegulationTerms)
      + Elements(RegionTerms) + Elements(FindAll(RegCode, query))
  }

  /** The 16 fixed terms are always present, so the result is never empty. */
  lemma SearchTermsHaveVocabulary(query: string)
    ensures forall t :: t in RegulationTerms || t in RegionTerms ==> t in PrepareSearchTerms(query)
    ensures PrepareSearchTerms(query) != {}
  {
    assert "regulation" in RegulationTerms;
  }

  lemma StopWordsNotVocabulary()
    ensures forall w :: w in CommonWords ==> w !in RegulationTerms && w !in RegionTerms
  {
    forall i, j | 0 <= i < |CommonWords| && 0 <= j < |RegulationTerms|
      ensures CommonWords[i] != RegulationTerms[j]
    {
      assert |CommonWords[i]| != |RegulationTerms[j]| || CommonWords[i][0] != RegulationTerms[j][0];
    }
    forall i, j | 0 <= i < |CommonWords| && 0 <= j < |RegionTerms|
      ensures CommonWords[i] != RegionTerms[j]
    {
      assert |CommonWords[i]| != |RegionTerms[j]| || CommonWords[i][0] != RegionTerms[j][0];
    }
  }

  lemma RegCodeNotCommon(x: string)
    requires RegCodeShape(x)
    ensures x !in CommonWords
  {
    var r :| 1 <= r <= 5 && r < |x| && AllUpper(x[..r]) && x[r] == '-' && 1 <= |x| - r - 1 <= 4 && AllDigits(x[r + 1..]);
    assert x[..r][0] == x[0];
    assert IsUpper(x[0]);
  }

  /** Every query word that is not a stop word is kept verbatim, and no stop word
      is ever a search term. */
  lemma SearchTermsFilterStopWords(query: string)
    ensures forall t :: t in SplitWs(Lower(query)) && t !in CommonWords ==> t in PrepareSearchTerms(query)
    ensures forall w :: w in CommonWords ==> w !in PrepareSearchTerms(query)
  {
    StopWordsNotVocabulary();
    FindAllItems(RegCode, query);
    forall x | x in FindAll(RegCode, query)
      ensures x !in CommonWords
    {
      RegCodeNotCommon(x);
    }
  }

  /** No search term is the empty string, so a term only ever occurs in a
      non-empty text. */
  lemma SearchTermsNonEmpty(query: string)
    ensures forall t :: t in PrepareSearchTerms(query) ==> t != []
  {
    SplitWsTokens(Lower(query));
    FindAllItems(RegCode, query);
  }
}
