/** The regular expressions of the core, each written as a scanner with the
    semantics Python's `re` gives it:

    - `re.findall(pattern, s)` returns the leftmost, non-overlapping matches; when
      the pattern has exactly one capturing group it returns that group's text,
      which is `''` for a match in which the group did not take part;
    - `re.search(r'\b' + p + r'\b', s, re.IGNORECASE)` and its variant with a
      `[a-z]*` suffix are word-boundary searches.

    Backtracking is resolved by hand for each pattern: every scanner below picks
    the match the backtracking engine finds first. */
module Patterns {
  import opened Wrappers
  import opened PyText

  /** The findall patterns of the core:
      RegCode     `[A-Z]{1,5}[-]\d{1,4}`                                  (search terms)
      RegNumber   `[A-Z]{1,5}[-/]?[A-Z]?\d{1,4}|Regulation\s+(?:No\.\s+)?(\d+)`
      NumericDate `\d{1,2}[/-]\d{1,2}[/-]\d{2,4}`
      IsoDate     `\d{4}[/-]\d{1,2}[/-]\d{1,2}`
      MonthDate   `(?:Jan|Feb|…|Dec)[a-z]* \d{1,2},? \d{4}` */
  datatype Pattern = RegCode | RegNumber | NumericDate | IsoDate | MonthDate

  predicate IsDateSep(c: char) { c == '/' || c == '-' }

  predicate AllDigits(s: string) { forall k :: 0 <= k < |s| ==> IsDigit(s[k]) }
  predicate AllUpper(s: string) { forall k :: 0 <= k < |s| ==> IsUpper(s[k]) }

  /** Length of the run of characters of class `f` starting at `p` */
  function Run(s: string, p: nat, f: char -> bool): (n: nat)
    requires p <= |s|
    ensures p + n <= |s|
    ensures forall k :: p <= k < p + n ==> f(s[k])
    ensures p + n < |s| ==> !f(s[p + n])
    decreases |s| - p
  {
    if p < |s| && f(s[p]) then 1 + Run(s, p + 1, f) else 0
  }

  /** `[A-Z]{1,5}[-]\d{1,4}` at `i`: the upper-case run must end on the dash,
      since a shorter run leaves a letter where `-` is required. */
  function RegCodeAt(s: string, i: nat): (e: Option<nat>)
    requires i < |s|
    ensures e.Some? ==> i < e.value <= |s|
  {
    var r := Run(s, i, IsUpper);
    if 1 <= r <= 5 && i + r < |s| && s[i + r] == '-' then
      var d := Run(s, i + r + 1, IsDigit);
      if d >= 1 then Some(i + r + 1 + Min(d, 4)) else None
    else None
  }

  /** `\d{1,4}` at `q`, greedy */
  function DigitsAt(s: string, q: nat): (e: Option<nat>)
    requires q <= |s|
    ensures e.Some? ==> q < e.value <= |s|
  {
    var d := Run(s, q, IsDigit);
    if d >= 1 then Some(q + Min(d, 4)) else None
  }

  /** `[A-Z]?\d{1,4}` at `q`: the letter is taken first, then left out */
  function AfterLetter(s: string, q: nat): (e: Option<nat>)
    requires q <= |s|
    ensures e.Some? ==> q < e.value <= |s|
  {
    if q < |s| && IsUpper(s[q]) && DigitsAt(s, q + 1).Some? then DigitsAt(s, q + 1)
    else DigitsAt(s, q)
  }

  /** `[-/]?[A-Z]?\d{1,4}` at `p`: the separator is taken first, then left out */
  function AfterSep(s: string, p: nat): (e: Option<nat>)
    requires p <= |s|
    ensures e.Some? ==> p < e.value <= |s|
  {
    if p < |s| && IsDateSep(s[p]) && AfterLetter(s, p + 1).Some? then AfterLetter(s, p + 1)
    else AfterLetter(s, p)
  }

  /** `[A-Z]{k}` for `k` from the longest allowed run down to 1, then the rest */
  function FirstAltFrom(s: string, i: nat, k: nat): (e: Option<nat>)
    requires i + k <= |s|
    ensures e.Some? ==> i < e.value <= |s|
    decreases k
  {
    if k == 0 then None
    else if AfterSep(s, i + k).Some? then AfterSep(s, i + k)
    else FirstAltFrom(s, i, k - 1)
  }

  /** First alternative `[A-Z]{1,5}[-/]?[A-Z]?\d{1,4}` at `i` */
  function FirstAlt(s: string, i: nat): (e: Option<nat>)
    requires i < |s|
    ensures e.Some? ==> i < e.value <= |s|
  {
    FirstAltFrom(s, i, Min(Run(s, i, IsUpper), 5))
  }

  /** `(\d+)` at `q`: where the greedy run ends and the captured digits */
  function DigitCapture(s: string, q: nat): (m: Option<(nat, string)>)
    requires q <= |s|
    ensures m.Some? ==> q < m.value.0 <= |s| && m.value.1 == s[q..m.value.0] && AllDigits(m.value.1)
  {
    var d := Run(s, q, IsDigit);
    if d >= 1 then Some((q + d, s[q..q + d])) else None
  }

  /** Second alternative `Regulation\s+(?:No\.\s+)?(\d+)` at `i`: the end of the
      match and the captured digits */
  function SecondAlt(s: string, i: nat): (m: Option<(nat, string)>)
    requires i <= |s|
    ensures m.Some? ==> i < m.value.0 <= |s| && m.value.1 != [] && AllDigits(m.value.1)
    ensures m.Some? ==> |m.value.1| <= m.value.0 && m.value.1 == s[m.value.0 - |m.value.1|..m.value.0]
  {
    if !StartsWith(s[i..], "Regulation") then None
    else
      var w := Run(s, i + 10, IsSpace);
      if w == 0 then None
      else
        var q := i + 10 + w;
        var afterNo := if StartsWith(s[q..], "No.") then Run(s, q + 3, IsSpace) else 0;
        var numbered := if afterNo >= 1 then DigitCapture(s, q + 3 + afterNo) else None;
        if numbered.Some? then numbered else DigitCapture(s, q)
  }

  /** `\d{1,2}[/-]\d{1,2}[/-]\d{2,4}` at `i`: a run of three or more digits
      cannot be followed by a separator after one or two of them. */
  function NumericDateAt(s: string, i: nat): (e: Option<nat>)
    requires i < |s|
    ensures e.Some? ==> i < e.value <= |s|
  {
    var a := Run(s, i, IsDigit);
    if 1 <= a <= 2 && i + a < |s| && IsDateSep(s[i + a]) then
      var b := Run(s, i + a + 1, IsDigit);
      if 1 <= b <= 2 && i + a + 1 + b < |s| && IsDateSep(s[i + a + 1 + b]) then
        var c := Run(s, i + a + b + 2, IsDigit);
        if c >= 2 then Some(i + a + b + 2 + Min(c, 4)) else None
      else None
    else None
  }

  /** `\d{4}[/-]\d{1,2}[/-]\d{1,2}` at `i` */
  function IsoDateAt(s: string, i: nat): (e: Option<nat>)
    requires i < |s|
    ensures e.Some? ==> i < e.value <= |s|
  {
    if Run(s, i, IsDigit) >= 4 && i + 4 < |s| && IsDateSep(s[i + 4]) then
      var b := Run(s, i + 5, IsDigit);
      if 1 <= b <= 2 && i + 5 + b < |s| && IsDateSep(s[i + 5 + b]) then
        var c := Run(s, i + b + 6, IsDigit);
        if c >= 1 then Some(i + b + 6 + Min(c, 2)) else None
      else None
    else None
  }

  const Months: seq<string> := ["Jan", "Feb", "Mar", "Apr", "May", "Jun", "Jul", "Aug", "Sep", "Oct", "Nov", "Dec"]

  /** `(?:Jan|…|Dec)[a-z]* \d{1,2},? \d{4}` at `i` */
  function MonthDateAt(s: string, i: nat): (e: Option<nat>)
    requires i < |s|
    ensures e.Some? ==> i < e.value <= |s|
  {
    if i + 3 <= |s| && s[i..i + 3] in Months then
      var p := i + 3 + Run(s, i + 3, IsLowerLetter);
      if p < |s| && s[p] == ' ' then
        var d := Run(s, p + 1, IsDigit);
        if 1 <= d <= 2 then
          var x := p + 1 + d;
          var y := if x + 1 < |s| && s[x] == ',' && s[x + 1] == ' ' then x + 2
                   else if x < |s| && s[x] == ' ' then x + 1
                   else 0;
          if y > 0 && Run(s, y, IsDigit) >= 4 then Some(y + 4) else None
        else None
      else None
    else None
  }

  /** Shape of a text matched by `[A-Z]{1,5}[-]\d{1,4}` */
  predicate RegCodeShape(x: string) {
    exists r :: 1 <= r <= 5 && r < |x| && AllUpper(x[..r]) && x[r] == '-' && 1 <= |x| - r - 1 <= 4 && AllDigits(x[r + 1..])
  }

  /** The match of `p` at `i`, if any: where it ends and what findall reports */
  function MatchAt(p: Pattern, s: string, i: nat): (m: Option<(nat, string)>)
    requires i < |s|
    ensures m.Some? ==> i < m.value.0 <= |s|
    ensures m.Some? && p != RegNumber ==> m.value.1 == s[i..m.value.0]
    ensures m.Some? && p == RegCode ==> RegCodeShape(m.value.1)
    ensures m.Some? && p == RegNumber ==>
              m.value.1 == [] || (AllDigits(m.value.1) && |m.value.1| <= m.value.0 &&
                                  m.value.1 == s[m.value.0 - |m.value.1|..m.value.0])
  {
    match p
    case RegCode =>
      var e := RegCodeAt(s, i);
      if e.Some? then
        var r := Run(s, i, IsUpper);
        var x := s[i..e.value];
        assert x[..r] == s[i..i + r];
        assert x[r + 1..] == s[i + r + 1..e.value];
        assert RegCodeShape(x);
        Some((e.value, x))
      else None
    case RegNumber =>
      var e := FirstAlt(s, i);
      if e.Some? then Some((e.value, "")) else SecondAlt(s, i)
    case NumericDate =>
      var e := NumericDateAt(s, i);
      if e.Some? then Some((e.value, s[i..e.value])) else None
    case IsoDate =>
      var e := IsoDateAt(s, i);
      if e.Some? then Some((e.value, s[i..e.value])) else None
    case MonthDate =>
      var e := MonthDateAt(s, i);
      if e.Some? then Some((e.value, s[i..e.value])) else None
  }

  function FindAllFrom(p: Pattern, s: string, i: nat): seq<string>
    decreases |s| - i
  {
    if i >= |s| then []
    else
      match MatchAt(p, s, i)
      case None => FindAllFrom(p, s, i + 1)
      case Some(m) => [m.1] + FindAllFrom(p, s, m.0)
  }

  /** `re.findall(pattern, s)` */
  function FindAll(p: Pattern, s: string): seq<string> {
    FindAllFrom(p, s, 0)
  }

  /** What findall may report for pattern `p` on `s` */
  predicate ItemOk(p: Pattern, s: string, x: string) {
    && (p != RegNumber ==> x != [] && Contains(s, x))
    && (p == RegCode ==> RegCodeShape(x))
    && (p == RegNumber ==> x == [] || (AllDigits(x) && Contains(s, x)))
  }

  lemma MatchItemOk(p: Pattern, s: string, i: nat)
    requires i < |s| && MatchAt(p, s, i).Some?
    ensures ItemOk(p, s, MatchAt(p, s, i).value.1)
  {
    var m := MatchAt(p, s, i).value;
    if p != RegNumber {
      ContainsAt(s, m.1, i);
    } else if m.1 != [] {
      ContainsAt(s, m.1, m.0 - |m.1|);
    }
  }

  lemma {:induction false} FindAllFromItems(p: Pattern, s: string, i: nat)
    ensures forall x :: x in FindAllFrom(p, s, i) ==> ItemOk(p, s, x)
    decreases |s| - i
  {
    if i < |s| {
      var m := MatchAt(p, s, i);
      if m.None? {
        FindAllFromItems(p, s, i + 1);
      } else {
        FindAllFromItems(p, s, m.value.0);
        MatchItemOk(p, s, i);
        assert FindAllFrom(p, s, i) == [m.value.1] + FindAllFrom(p, s, m.value.0);
      }
    }
  }

  /** Every findall result is a non-empty piece of the text, except that
      `RegNumber` reports `""` for each match of its first alternative and the
      captured digits for each match of its second. */
  lemma FindAllItems(p: Pattern, s: string)
    ensures forall x :: x in FindAll(p, s) && p != RegNumber ==> x != [] && Contains(s, x)
    ensures forall x :: x in FindAll(p, s) && p == RegCode ==> RegCodeShape(x)
    ensures forall x :: x in FindAll(p, s) && p == RegNumber ==> x == [] || (AllDigits(x) && Contains(s, x))
  {
    FindAllFromItems(p, s, 0);
  }

  /** A code such as `ECE-R100` matches the first alternative of `RegNumber`,
      so findall reports it as `""`. */
  lemma RegNumberCodeYieldsEmpty()
    ensures FindAll(RegNumber, "ECE-R100") == [""]
  {
    var s := "ECE-R100";
    assert Run(s, 8, IsDigit) == 0;
    assert Run(s, 5, IsDigit) == 3;
    assert Run(s, 3, IsUpper) == 0;
    assert Run(s, 0, IsUpper) == 3;
    assert AfterSep(s, 3) == Some(8);
    assert FirstAlt(s, 0) == Some(8);
    assert FindAllFrom(RegNumber, s, 8) == [];
  }

  const RegulationNo48: string := "Regulation No. 48"

  lemma RegulationNo48NoCode()
    ensures FirstAlt(RegulationNo48, 0) == None
  {
    var s := RegulationNo48;
    assert Run(s, 1, IsUpper) == 0;
    assert Run(s, 0, IsUpper) == 1;
    assert Run(s, 1, IsDigit) == 0;
    assert Run(s, 2, IsDigit) == 0;
    assert AfterLetter(s, 1) == None;
    assert AfterSep(s, 1) == None;
  }

  lemma RegulationNo48Capture()
    ensures SecondAlt(RegulationNo48, 0) == Some((17, "48"))
  {
    var s := RegulationNo48;
    assert s[0..][..10] == "Regulation";
    assert Run(s, 11, IsSpace) == 0;
    assert Run(s, 10, IsSpace) == 1;
    assert s[11..][..3] == "No.";
    assert Run(s, 15, IsSpace) == 0;
    assert Run(s, 14, IsSpace) == 1;
    assert Run(s, 17, IsDigit) == 0;
    assert Run(s, 16, IsDigit) == 1;
    assert Run(s, 15, IsDigit) == 2;
    assert s[15..17] == "48";
  }

  /** `Regulation No. 48` is reported as its number. */
  lemma RegNumberCapturesDigits()
    ensures FindAll(RegNumber, RegulationNo48) == ["48"]
  {
    RegulationNo48NoCode();
    RegulationNo48Capture();
    assert MatchAt(RegNumber, RegulationNo48, 0) == Some((17, "48"));
    assert FindAllFrom(RegNumber, RegulationNo48, 17) == [];
  }

  /** `\b` at position `k` of `t` */
  predicate BoundaryAt(t: string, k: nat)
    requires k <= |t|
  {
    (k > 0 && IsWordChar(t[k - 1])) != (k < |t| && IsWordChar(t[k]))
  }

  /** `p` occurs at `j` of `t`, ignoring case */
  predicate OccursAtIgnoreCase(t: string, p: string, j: nat) {
    j + |p| <= |t| && Lower(t[j..j + |p|]) == Lower(p)
  }

  /** `re.search(r'\b' + p + r'\b', t, re.IGNORECASE)` for a literal `p` */
  predicate WordSearch(t: string, p: string) {
    exists j: nat :: j <= |t| && OccursAtIgnoreCase(t, p, j) && BoundaryAt(t, j) && BoundaryAt(t, j + |p|)
  }

  /** `[a-z]` under IGNORECASE */
  predicate IsLetter(c: char) { IsUpper(c) || IsLowerLetter(c) }

  /** `[a-z]*\b` from `k`: some run of letters starting at `k` ends on a boundary */
  predicate LettersThenBoundary(t: string, k: nat)
    requires k <= |t|
  {
    exists e: nat :: k <= e <= |t| && BoundaryAt(t, e) && (forall m :: k <= m < e ==> IsLetter(t[m]))
  }

  /** `re.search(r'\b' + p + r'[a-z]*\b', t, re.IGNORECASE)` for a literal `p` */
  predicate WordPrefixSearch(t: string, p: string) {
    exists j: nat :: j <= |t| && OccursAtIgnoreCase(t, p, j) && BoundaryAt(t, j) && LettersThenBoundary(t, j + |p|)
  }

  /** A whole-word occurrence is also an occurrence followed by no extra letters. */
  lemma WordSearchImpliesPrefixSearch(t: string, p: string)
    requires WordSearch(t, p)
    ensures WordPrefixSearch(t, p)
  {
    var j: nat :| j <= |t| && OccursAtIgnoreCase(t, p, j) && BoundaryAt(t, j) && BoundaryAt(t, j + |p|);
    var e := j + |p|;
    assert e <= |t|;
    assert LettersThenBoundary(t, e);
  }
}
