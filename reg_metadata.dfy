/** `extract_regulation_metadata` and `extract_regulation_requirements` of
    utils/regulation_utils.py (regulation-utils.py is an identical copy). */
module RegulationMetadata {
  import opened PyText
  import opened Patterns

  /** The four lists of the metadata dictionary */
  datatype Metadata = Metadata(regulationNumbers: seq<string>, dates: seq<string>,
                               regions: seq<string>, categories: seq<string>)

  /** A name and the literal patterns that signal it */
  type NameTable = seq<(string, seq<string>)>

  const RegionPatterns: NameTable := [
    ("European Union", ["EU", "European Union", "Europe", "UNECE", "ECE"]),
    ("United States", ["US", "USA", "United States", "FMVSS", "NHTSA", "EPA"]),
    ("China", ["China", "Chinese"]),
    ("Japan", ["Japan", "Japanese", "TRIAS"]),
    ("Global", ["Global", "International", "Worldwide", "UN"]),
    ("United Kingdom", ["UK", "United Kingdom", "Britain", "British"]),
    ("India", ["India", "Indian", "ARAI"]),
    ("Brazil", ["Brazil", "Brazilian"]),
    ("Russia", ["Russia", "Russian"]),
    ("Australia", ["Australia", "Australian"])
  ]

  const CategoryPatterns: NameTable := [
    ("Emissions", ["emission", "exhaust", "CO2", "carbon dioxide", "pollutant"]),
    ("Safety", ["safety", "crash", "collision", "protection", "restraint"]),
    ("Homologation", ["homologation", "type approval", "certification"]),
    ("Electric Vehicles", ["electric", "EV", "battery", "charging"]),
    ("Autonomous", ["autonomous", "self-driving", "automated", "driver assistance"]),
    ("Noise", ["noise", "sound", "acoustic"]),
    ("Lighting", ["light", "lamp", "illumination"]),
    ("Fuel Efficiency", ["fuel", "consumption", "efficiency", "economy"]),
    ("Tires", ["tyre", "tire", "wheel"])
  ]

  /** Region patterns are searched as whole words (`\b…\b`), category patterns
      as word starts (`\b…[a-z]*\b`), both ignoring case. */
  predicate PatternFound(text: string, pattern: string, wordStart: bool) {
    if wordStart then WordPrefixSearch(text, pattern) else WordSearch(text, pattern)
  }

  /** Some pattern among the first `j` of a row is found */
  predicate FoundAmong(text: string, patterns: seq<string>, j: nat, wordStart: bool)
    requires j <= |patterns|
  {
    exists k :: 0 <= k < j && PatternFound(text, patterns[k], wordStart)
  }

  /** The names collected after the first `n` rows: a row's name is appended when
      one of its patterns is found and the name is not yet present. */
  function NamesFound(table: NameTable, text: string, wordStart: bool, n: nat): (names: seq<string>)
    requires n <= |table|
    decreases n
  {
    if n == 0 then []
    else
      var before := NamesFound(table, text, wordStart, n - 1);
      var row := table[n - 1];
      if FoundAmong(text, row.1, |row.1|, wordStart) && row.0 !in before then before + [row.0] else before
  }

  /** `[num for num in re.findall(…) if num]` */
  function NonEmpty(xs: seq<string>): (r: seq<string>)
    ensures forall x :: x in r <==> x in xs && x != []
    decreases |xs|
  {
    if xs == [] then []
    else if xs[0] == [] then NonEmpty(xs[1..])
    else [xs[0]] + NonEmpty(xs[1..])
  }

  function RegulationNumbers(text: string): seq<string> {
    NonEmpty(FindAll(RegNumber, text))
  }

  const DatePatterns: seq<Pattern> := [NumericDate, IsoDate, MonthDate]

  /** The dates found by the first `n` date patterns, pattern by pattern */
  function DatesFound(text: string, n: nat): seq<string>
    requires n <= |DatePatterns|
  {
    if n == 0 then [] else DatesFound(text, n - 1) + FindAll(DatePatterns[n - 1], text)
  }

  /** The pattern tables the extraction uses: region and category names with
      their patterns, and the words that mark a requirement */
  datatype Vocabulary = Vocabulary(regions: NameTable, categories: NameTable, indicators: seq<string>)

  /** The tables of utils/regulation_utils.py */
  function Standard(): Vocabulary {
    Vocabulary(RegionPatterns, CategoryPatterns, RequirementIndicators)
  }

  /** The metadata found in `text` with the tables of `v` */
  function MetadataIn(v: Vocabulary, text: string): Metadata {
    Metadata(RegulationNumbers(text), DatesFound(text, |DatePatterns|),
             NamesFound(v.regions, text, false, |v.regions|),
             NamesFound(v.categories, text, true, |v.categories|))
  }

  function MetadataOf(text: string): Metadata {
    MetadataIn(Standard(), text)
  }

  /** The nested loop over a pattern table */
  method CollectNames(table: NameTable, text: string, wordStart: bool) returns (names: seq<string>)
    ensures names == NamesFound(table, text, wordStart, |table|)
  {
    names := [];
    for i := 0 to |table|
      invariant names == NamesFound(table, text, wordStart, i)
    {
      var (name, patterns) := table[i];
      names := AddIfFound(names, name, patterns, text, wordStart);
    }
  }

  /** The inner loop: the name is appended once one of its patterns is found,
      unless it is already present. */
  method AddIfFound(before: seq<string>, name: string, patterns: seq<string>, text: string, wordStart: bool)
    returns (names: seq<string>)
    ensures names == if FoundAmong(text, patterns, |patterns|, wordStart) && name !in before then before + [name] else before
  {
    names := before;
    for j := 0 to |patterns|
      invariant names == if FoundAmong(text, patterns, j, wordStart) && name !in before then before + [name] else before
    {
      if PatternFound(text, patterns[j], wordStart) {
        if name !in names {
          names := names + [name];
        }
      }
    }
  }

  /** The body of `extract_regulation_metadata`, for the tables of `v` */
  method CollectMetadata(v: Vocabulary, text: string) returns (m: Metadata)
    ensures m == MetadataIn(v, text)
  {
    var numbers := NonEmpty(FindAll(RegNumber, text));
    var dates: seq<string> := [];
    for k := 0 to |DatePatterns|
      invariant dates == DatesFound(text, k)
    {
      dates := dates + FindAll(DatePatterns[k], text);
    }
    var regions := CollectNames(v.regions, text, false);
    var categories := CollectNames(v.categories, text, true);
    m := Metadata(numbers, dates, regions, categories);
  }

  /** `extract_regulation_metadata` */
  method ExtractRegulationMetadata(text: string) returns (m: Metadata)
    ensures m == MetadataOf(text)
  {
    m := CollectMetadata(Standard(), text);
  }

  /** The names of the first `n` rows whose patterns are found, in table order */
  function RowsFound(table: NameTable, text: string, wordStart: bool, n: nat): seq<string>
    requires n <= |table|
    decreases n
  {
    if n == 0 then []
    else
      var row := table[n - 1];
      RowsFound(table, text, wordStart, n - 1) + if FoundAmong(text, row.1, |row.1|, wordStart) then [row.0] else []
  }

  predicate NoDuplicates(xs: seq<string>) {
    forall i, j :: 0 <= i < j < |xs| ==> xs[i] != xs[j]
  }

  predicate NamesDistinct(table: NameTable) {
    forall i, j :: 0 <= i < j < |table| ==> table[i].0 != table[j].0
  }

  lemma {:induction false} RowsFoundNames(table: NameTable, text: string, wordStart: bool, n: nat)
    requires n <= |table|
    ensures forall x :: x in RowsFound(table, text, wordStart, n) ==> exists k :: 0 <= k < n && table[k].0 == x
    decreases n
  {
    if n > 0 {
      RowsFoundNames(table, text, wordStart, n - 1);
    }
  }

  /** With distinct names the `not in` test never rejects a name: the collected
      names are exactly the names of the rows found, in table order. */
  lemma {:induction false} NamesFoundAreRows(table: NameTable, text: string, wordStart: bool, n: nat)
    requires n <= |table| && NamesDistinct(table)
    ensures NamesFound(table, text, wordStart, n) == RowsFound(table, text, wordStart, n)
    decreases n
  {
    if n > 0 {
      NamesFoundAreRows(table, text, wordStart, n - 1);
      RowsFoundNames(table, text, wordStart, n - 1);
    }
  }

  /** The rows found, listed once each in table order: `RowsFound` has no
      duplicate when the names are distinct. */
  lemma {:induction false} RowsFoundDistinct(table: NameTable, text: string, wordStart: bool, n: nat)
    requires n <= |table| && NamesDistinct(table)
    ensures NoDuplicates(RowsFound(table, text, wordStart, n))
    decreases n
  {
    if n > 0 {
      RowsFoundDistinct(table, text, wordStart, n - 1);
      RowsFoundNames(table, text, wordStart, n - 1);
      var before := RowsFound(table, text, wordStart, n - 1);
      var r := RowsFound(table, text, wordStart, n);
      forall i, j | 0 <= i < j < |r|
        ensures r[i] != r[j]
      {
        if j < |before| {
          assert r[i] == before[i] && r[j] == before[j];
        } else {
          assert r == before + [table[n - 1].0];
          assert j == |before| && r[j] == table[n - 1].0;
          assert r[i] == before[i] && before[i] in before;
          var k :| 0 <= k < n - 1 && table[k].0 == before[i];
          assert table[k].0 != table[n - 1].0;
        }
      }
    }
  }

  lemma {:induction false} RowsFoundMembers(table: NameTable, text: string, wordStart: bool, n: nat)
    requires n <= |table|
    ensures forall k :: 0 <= k < n && FoundAmong(text, table[k].1, |table[k].1|, wordStart) ==>
              table[k].0 in RowsFound(table, text, wordStart, n)
    decreases n
  {
    if n > 0 {
      RowsFoundMembers(table, text, wordStart, n - 1);
    }
  }

  lemma RegionNamesDistinct()
    ensures NamesDistinct(RegionPatterns)
  {
    var t := RegionPatterns;
    forall i, j | 0 <= i < j < |t|
      ensures t[i].0 != t[j].0
    {
      assert |t[i].0| != |t[j].0| || t[i].0[0] != t[j].0[0];
    }
  }

  lemma CategoryNamesDistinct()
    ensures NamesDistinct(CategoryPatterns)
  {
    var t := CategoryPatterns;
    forall i, j | 0 <= i < j < |t|
      ensures t[i].0 != t[j].0
    {
      assert |t[i].0| != |t[j].0| || t[i].0[0] != t[j].0[0];
    }
  }

  /** `regions` lists, once each and in table order, exactly the regions one of
      whose patterns occurs as a whole word; `categories` likewise for the
      categories whose patterns start a word. */
  lemma MetadataNames(text: string)
    ensures MetadataOf(text).regions == RowsFound(RegionPatterns, text, false, |RegionPatterns|)
    ensures MetadataOf(text).categories == RowsFound(CategoryPatterns, text, true, |CategoryPatterns|)
    ensures NoDuplicates(MetadataOf(text).regions) && NoDuplicates(MetadataOf(text).categories)
    ensures forall k :: 0 <= k < |RegionPatterns| ==>
              (RegionPatterns[k].0 in MetadataOf(text).regions <==>
               FoundAmong(text, RegionPatterns[k].1, |RegionPatterns[k].1|, false))
    ensures forall k :: 0 <= k < |CategoryPatterns| ==>
              (CategoryPatterns[k].0 in MetadataOf(text).categories <==>
               FoundAmong(text, CategoryPatterns[k].1, |CategoryPatterns[k].1|, true))
  {
    RegionNamesDistinct();
    CategoryNamesDistinct();
    NamesFoundAreRows(RegionPatterns, text, false, |RegionPatterns|);
    NamesFoundAreRows(CategoryPatterns, text, true, |CategoryPatterns|);
    RowsFoundDistinct(RegionPatterns, text, false, |RegionPatterns|);
    RowsFoundDistinct(CategoryPatterns, text, true, |CategoryPatterns|);
    RowsFoundMembers(RegionPatterns, text, false, |RegionPatterns|);
    RowsFoundMembers(CategoryPatterns, text, true, |CategoryPatterns|);
    RowsFoundOnlyFound(RegionPatterns, text, false, |RegionPatterns|);
    RowsFoundOnlyFound(CategoryPatterns, text, true, |CategoryPatterns|);
  }

  lemma {:induction false} RowsFoundOnlyFound(table: NameTable, text: string, wordStart: bool, n: nat)
    requires n <= |table| && NamesDistinct(table)
    ensures forall k :: 0 <= k < |table| && table[k].0 in RowsFound(table, text, wordStart, n) ==>
              k < n && FoundAmong(text, table[k].1, |table[k].1|, wordStart)
    decreases n
  {
    if n > 0 {
      RowsFoundOnlyFound(table, text, wordStart, n - 1);
    }
  }

  /** Every regulation number is a non-empty run of digits captured from
      "Regulation [No.] N": codes such as `ECE-R100` are reported as `''` by
      findall and dropped. */
  lemma RegulationNumbersAreDigits(text: string)
    ensures forall x :: x in MetadataOf(text).regulationNumbers ==> x != [] && AllDigits(x) && Contains(text, x)
  {
    FindAllItems(RegNumber, text);
  }

  lemma RegulationNumbersExamples()
    ensures RegulationNumbers("ECE-R100") == []
    ensures RegulationNumbers(RegulationNo48) == ["48"]
  {
    RegNumberCodeYieldsEmpty();
    RegNumberCapturesDigits();
  }

  /** The ten words that mark a requirement */
  const RequirementIndicators: seq<string> :=
    ["shall", "must", "required", "mandatory", "minimum", "maximum", "limit", "not exceed", "comply with", "requirement"]

  /** One requirement entry (`type` is the first category found, else "General") */
  datatype Requirement = Requirement(text: string, kind: string, regions: seq<string>, regulationNumbers: seq<string>)

  predicate HasIndicatorIn(v: Vocabulary, paragraph: string) {
    exists k :: 0 <= k < |v.indicators| && WordSearch(paragraph, v.indicators[k])
  }

  predicate HasIndicator(paragraph: string) {
    HasIndicatorIn(Standard(), paragraph)
  }

  function RequirementIn(v: Vocabulary, paragraph: string): Requirement {
    var m := MetadataIn(v, paragraph);
    Requirement(paragraph, if m.categories == [] then "General" else m.categories[0], m.regions, m.regulationNumbers)
  }

  function RequirementOf(paragraph: string): Requirement {
    RequirementIn(Standard(), paragraph)
  }

  /** `[f(x) for x in xs[:n] if keep(x)]` */
  function FilterMap<T>(xs: seq<string>, n: nat, keep: string -> bool, f: string -> T): seq<T>
    requires n <= |xs|
  {
    if n == 0 then []
    else FilterMap(xs, n - 1, keep, f) + if keep(xs[n - 1]) then [f(xs[n - 1])] else []
  }

  /** The entries for the first `n` paragraphs */
  function RequirementsIn(v: Vocabulary, paragraphs: seq<string>, n: nat): seq<Requirement>
    requires n <= |paragraphs|
  {
    FilterMap(paragraphs, n, p => HasIndicatorIn(v, p), p => RequirementIn(v, p))
  }

  function Requirements(paragraphs: seq<string>): seq<Requirement> {
    RequirementsIn(Standard(), paragraphs, |paragraphs|)
  }

  /** `extract_regulation_requirements` */
  method ExtractRegulationRequirements(text: string) returns (reqs: seq<Requirement>)
    ensures reqs == Requirements(Split(text, "\n\n"))
  {
    reqs := CollectRequirements(Standard(), text);
  }

  /** Its body, for the tables of `v` */
  method CollectRequirements(v: Vocabulary, text: string) returns (reqs: seq<Requirement>)
    ensures reqs == RequirementsIn(v, Split(text, "\n\n"), |Split(text, "\n\n")|)
  {
    var paragraphs := Split(text, "\n\n");
    reqs := [];
    for i := 0 to |paragraphs|
      invariant reqs == RequirementsIn(v, paragraphs, i)
    {
      var paragraph := paragraphs[i];
      var indicated := AnyIndicator(v, paragraph);
      if indicated {
        var m := CollectMetadata(v, paragraph);
        var kind := "General";
        if |m.categories| > 0 {
          kind := m.categories[0];
        }
        reqs := reqs + [Requirement(paragraph, kind, m.regions, m.regulationNumbers)];
      }
    }
  }

  /** `any(re.search(…) for indicator in requirement_indicators)` */
  method AnyIndicator(v: Vocabulary, paragraph: string) returns (indicated: bool)
    ensures indicated == HasIndicatorIn(v, paragraph)
  {
    indicated := false;
    for k := 0 to |v.indicators|
      invariant indicated <==> exists k' :: 0 <= k' < k && WordSearch(paragraph, v.indicators[k'])
    {
      indicated := indicated || WordSearch(paragraph, v.indicators[k]);
    }
  }

  /** The type of an entry is the first category found in its paragraph, or
      "General" when none is. */
  lemma RequirementKind(paragraph: string)
    ensures var kind := RequirementOf(paragraph).kind;
            kind == "General" || exists k :: 0 <= k < |CategoryPatterns| && kind == CategoryPatterns[k].0
    ensures RequirementOf(paragraph).kind == "General" <==>
              forall k :: 0 <= k < |CategoryPatterns| ==> !FoundAmong(paragraph, CategoryPatterns[k].1, |CategoryPatterns[k].1|, true)
  {
    CategoryNamesDistinct();
    NoGeneralCategory();
    KindIn(Standard(), paragraph);
  }

  lemma NoGeneralCategory()
    ensures forall k :: 0 <= k < |CategoryPatterns| ==> CategoryPatterns[k].0 != "General"
  {
    forall k | 0 <= k < |CategoryPatterns|
      ensures CategoryPatterns[k].0 != "General"
    {
      assert CategoryPatterns[k].0[0] != 'G';
    }
  }

  /** `RequirementKind` for any tables whose category names are distinct and
      differ from "General" */
  lemma KindIn(v: Vocabulary, paragraph: string)
    requires NamesDistinct(v.categories)
    requires forall k :: 0 <= k < |v.categories| ==> v.categories[k].0 != "General"
    ensures var kind := RequirementIn(v, paragraph).kind;
            kind == "General" || exists k :: 0 <= k < |v.categories| && kind == v.categories[k].0
    ensures RequirementIn(v, paragraph).kind == "General" <==>
              forall k :: 0 <= k < |v.categories| ==> !FoundAmong(paragraph, v.categories[k].1, |v.categories[k].1|, true)
  {
    var t := v.categories;
    var cats := NamesFound(t, paragraph, true, |t|);
    NamesFoundAreRows(t, paragraph, true, |t|);
    RowsFoundNames(t, paragraph, true, |t|);
    RowsFoundMembers(t, paragraph, true, |t|);
    RowsFoundOnlyFound(t, paragraph, true, |t|);
    if cats != [] {
      assert cats[0] in cats;
    }
  }

  /** Every entry comes from a paragraph bearing an indicator word and carries
      that paragraph as its text, and every such paragraph yields its entry. */
  lemma RequirementsShape(paragraphs: seq<string>)
    ensures |Requirements(paragraphs)| <= |paragraphs|
    ensures forall r :: r in Requirements(paragraphs) ==> r.text in paragraphs && HasIndicator(r.text) && r == RequirementOf(r.text)
    ensures forall p :: p in paragraphs && HasIndicator(p) ==> RequirementOf(p) in Requirements(paragraphs)
  {
    RequirementsInShape(Standard(), paragraphs, |paragraphs|);
    assert paragraphs[..|paragraphs|] == paragraphs;
  }

  lemma RequirementsInShape(v: Vocabulary, paragraphs: seq<string>, n: nat)
    requires n <= |paragraphs|
    ensures |RequirementsIn(v, paragraphs, n)| <= n
    ensures forall r :: r in RequirementsIn(v, paragraphs, n) ==>
              r.text in paragraphs[..n] && HasIndicatorIn(v, r.text) && r == RequirementIn(v, r.text)
    ensures forall i :: 0 <= i < n && HasIndicatorIn(v, paragraphs[i]) ==> RequirementIn(v, paragraphs[i]) in RequirementsIn(v, paragraphs, n)
  {
    var keep := p => HasIndicatorIn(v, p);
    var f := p => RequirementIn(v, p);
    FilterMapSound(paragraphs, n, keep, f);
    forall r | r in RequirementsIn(v, paragraphs, n)
      ensures r.text in paragraphs[..n] && HasIndicatorIn(v, r.text) && r == RequirementIn(v, r.text)
    {
      var x :| x in paragraphs[..n] && keep(x) && r == f(x);
      assert r.text == x;
    }
    forall i | 0 <= i < n && HasIndicatorIn(v, paragraphs[i])
      ensures RequirementIn(v, paragraphs[i]) in RequirementsIn(v, paragraphs, n)
    {
      FilterMapComplete(paragraphs, n, keep, f, i);
    }
  }

  /** Every element comes from a kept item, and there are at most `n` */
  lemma {:induction false} FilterMapSound<T>(xs: seq<string>, n: nat, keep: string -> bool, f: string -> T)
    requires n <= |xs|
    ensures |FilterMap(xs, n, keep, f)| <= n
    ensures forall y :: y in FilterMap(xs, n, keep, f) ==> exists x :: x in xs[..n] && keep(x) && y == f(x)
    decreases n
  {
    if n > 0 {
      FilterMapSound(xs, n - 1, keep, f);
      assert xs[..n - 1] <= xs[..n];
      assert xs[n - 1] in xs[..n];
    }
  }

  /** Every kept item contributes its image */
  lemma {:induction false} FilterMapComplete<T>(xs: seq<string>, n: nat, keep: string -> bool, f: string -> T, i: nat)
    requires i < n <= |xs| && keep(xs[i])
    ensures f(xs[i]) in FilterMap(xs, n, keep, f)
    decreases n
  {
    if i < n - 1 {
      FilterMapComplete(xs, n - 1, keep, f, i);
    }
  }
}
