/** The keyword classifiers: an `if`/`elif` chain whose branches each test
    `any(term in text for term in terms)`, so the first branch in listed order
    that has a term occurring in the text gives the label, and a default stands
    for the final `else`. `extract_region_from_query` and
    `extract_category_from_query` are two instances. */
module Classify {
  import opened Wrappers
  import opened PyText

  datatype Branch = Branch(name: string, terms: seq<string>)

  /** Some term of the branch occurs in one of the texts */
  predicate BranchMatches(b: Branch, texts: seq<string>) {
    exists t, x :: t in b.terms && x in texts && Contains(x, t)
  }

  function FirstMatchFrom(branches: seq<Branch>, texts: seq<string>, k: nat): (r: Option<nat>)
    requires k <= |branches|
    ensures r.Some? ==> k <= r.value < |branches| && BranchMatches(branches[r.value], texts)
    ensures r.Some? ==> forall j :: k <= j < r.value ==> !BranchMatches(branches[j], texts)
    ensures r.None? ==> forall j :: k <= j < |branches| ==> !BranchMatches(branches[j], texts)
    decreases |branches| - k
  {
    if k == |branches| then None
    else if BranchMatches(branches[k], texts) then Some(k)
    else FirstMatchFrom(branches, texts, k + 1)
  }

  /** Index of the first matching branch, if any */
  function FirstMatch(branches: seq<Branch>, texts: seq<string>): (r: Option<nat>)
    ensures r.Some? ==> r.value < |branches| && BranchMatches(branches[r.value], texts)
    ensures r.Some? ==> forall j :: 0 <= j < r.value ==> !BranchMatches(branches[j], texts)
    ensures r.None? ==> forall j :: 0 <= j < |branches| ==> !BranchMatches(branches[j], texts)
  {
    FirstMatchFrom(branches, texts, 0)
  }

  /** The label of the first matching branch, else the default */
  function Classify(branches: seq<Branch>, texts: seq<string>, default: string): (name: string)
    ensures (exists i :: 0 <= i < |branches| && name == branches[i].name && BranchMatches(branches[i], texts)
               && forall j :: 0 <= j < i ==> !BranchMatches(branches[j], texts))
            || (name == default && forall j :: 0 <= j < |branches| ==> !BranchMatches(branches[j], texts))
  {
    match FirstMatch(branches, texts)
    case Some(i) => branches[i].name
    case None => default
  }

  const RegionBranches: seq<Branch> := [
    Branch("US", ["us", "usa", "united states", "america"]),
    Branch("EU", ["eu", "europe", "european"]),
    Branch("Japan", ["japan"]),
    Branch("China", ["china"]),
    Branch("UK", ["uk", "britain", "british"]),
    Branch("India", ["india"]),
    Branch("Australia", ["australia"])
  ]

  const CategoryBranches: seq<Branch> := [
    Branch("Emissions", ["emission", "exhaust", "co2", "pollution"]),
    Branch("Safety", ["safety", "crash", "protection"]),
    Branch("Homologation", ["homologation", "type approval", "certification"]),
    Branch("Electric Vehicles", ["electric", "ev", "battery"]),
    Branch("Fuel", ["fuel", "gasoline", "diesel"]),
    Branch("Noise", ["noise", "sound"]),
    Branch("Lighting", ["light", "lamp", "illumination"])
  ]

  /** `extract_region_from_query` */
  function ExtractRegion(query: string): string {
    Classify(RegionBranches, [Lower(query)], "Global")
  }

  /** `extract_category_from_query` */
  function ExtractCategory(query: string): string {
    Classify(CategoryBranches, [Lower(query)], "General")
  }

  /** The region is one of the eight fixed labels; it is "Global" exactly when no
      region term occurs in the lower-cased query. */
  lemma RegionIsALabel(query: string)
    ensures ExtractRegion(query) in ["US", "EU", "Japan", "China", "UK", "India", "Australia", "Global"]
    ensures ExtractRegion(query) == "Global" <==>
              forall j :: 0 <= j < |RegionBranches| ==> !BranchMatches(RegionBranches[j], [Lower(query)])
  {
  }

  /** The category is one of the eight fixed labels; it is "General" exactly when
      no category term occurs in the lower-cased query. */
  lemma CategoryIsALabel(query: string)
    ensures ExtractCategory(query) in ["Emissions", "Safety", "Homologation", "Electric Vehicles", "Fuel", "Noise", "Lighting", "General"]
    ensures ExtractCategory(query) == "General" <==>
              forall j :: 0 <= j < |CategoryBranches| ==> !BranchMatches(CategoryBranches[j], [Lower(query)])
  {
  }

  /** The "US" branch is tested first with the bare substring `us`, so any query
      containing those two letters ("focus", "bus", "use") is classified as US. */
  lemma RegionUsFirst(query: string)
    requires Contains(Lower(query), "us")
    ensures ExtractRegion(query) == "US"
  {
    assert BranchMatches(RegionBranches[0], [Lower(query)]);
  }

  /** "australia" contains "us", so the "Australia" branch is unreachable: a query
      naming Australia is classified as US. */
  lemma RegionNeverAustralia(query: string)
    ensures ExtractRegion(query) != "Australia"
  {
    var q := Lower(query);
    match FirstMatch(RegionBranches, [q])
    case None =>
    case Some(i) =>
      if i == 6 {
        var t, x :| t in RegionBranches[6].terms && x in [q] && Contains(x, t);
        assert "australia"[1..3] == "us";
        ContainsAt("australia", "us", 1);
        ContainsTransitive(q, "australia", "us");
        assert false;
      }
  }
}
