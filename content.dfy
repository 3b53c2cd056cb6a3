/** `extract_relevant_content`, in its two versions: the paragraphs (pieces
    between blank lines) that mention a search term, widened with the sentences
    that mention one when fewer than two paragraphs did; the newer version returns
    `""` for empty content and falls back to the first three paragraphs, the older
    one has neither. Matching is case-insensitive substring search. */
module Content {
  import opened PyText

  /** `any(term.lower() in text.lower() for term in search_terms)` */
  predicate Mentions(text: string, terms: set<string>) {
    exists t :: t in terms && Contains(Lower(text), Lower(t))
  }

  function Paragraphs(content: string): (ps: seq<string>)
    ensures |ps| >= 1
  {
    Split(content, "\n\n")
  }

  /** `content.replace('\n', ' ').split('. ')` */
  function Sentences(content: string): (ss: seq<string>)
    ensures |ss| >= 1
  {
    Split(ReplaceChar(content, '\n', ' '), ". ")
  }

  /** The paragraphs that mention a term, in their order */
  function Matching(ps: seq<string>, terms: set<string>): (kept: seq<string>)
    ensures |kept| <= |ps|
    ensures forall p :: p in kept <==> p in ps && Mentions(p, terms)
    decreases |ps|
  {
    if ps == [] then []
    else
      var tail := Matching(ps[1..], terms);
      if Mentions(ps[0], terms) then [ps[0]] + tail else tail
  }

  lemma {:induction false} MatchingAppend(ps: seq<string>, p: string, terms: set<string>)
    ensures Matching(ps + [p], terms) == Matching(ps, terms) + (if Mentions(p, terms) then [p] else [])
    decreases |ps|
  {
    if ps == [] {
      assert [p][1..] == [];
    } else {
      assert (ps + [p])[0] == ps[0];
      assert (ps + [p])[1..] == ps[1..] + [p];
      MatchingAppend(ps[1..], p, terms);
    }
  }

  /** The chosen texts after the first `n` sentences: a mentioning sentence is
      added, with a full stop, unless it already occurs in the space-joined texts
      chosen so far. */
  function Widen(sentences: seq<string>, n: nat, rel: seq<string>, terms: set<string>): (r: seq<string>)
    requires n <= |sentences|
    ensures |rel| <= |r|
    ensures r[..|rel|] == rel
    ensures forall k :: |rel| <= k < |r| ==> exists j :: 0 <= j < n && Mentions(sentences[j], terms) && r[k] == sentences[j] + "."
    decreases n
  {
    if n == 0 then rel
    else
      var before := Widen(sentences, n - 1, rel, terms);
      var s := sentences[n - 1];
      if Mentions(s, terms) && !Contains(Join(" ", before), s) then
        var r := before + [s + "."];
        assert forall k :: 0 <= k < |before| ==> r[k] == before[k];
        assert r[..|rel|] == before[..|rel|];
        r
      else before
  }

  /** What both versions have chosen before the fallback */
  function Chosen(content: string, terms: set<string>): seq<string> {
    var matched := Matching(Paragraphs(content), terms);
    if |matched| < 2 then Widen(Sentences(content), |Sentences(content)|, matched, terms) else matched
  }

  /** The newer `extract_relevant_content` (utils/firecrawl_utils.py) */
  function RelevantContent(content: string, terms: set<string>): string {
    if content == [] then ""
    else
      var chosen := Chosen(content, terms);
      var ps := Paragraphs(content);
      Join("\n\n", if chosen == [] then ps[..Min(3, |ps|)] else chosen)
  }

  /** The older `extract_relevant_content` (utils/firecrawl-utils.py) */
  function RelevantContentLegacy(content: string, terms: set<string>): string {
    var chosen := Chosen(content, terms);
    if chosen == [] then "" else Join("\n\n", chosen)
  }

  /** The paragraph loop */
  method MatchParagraphs(ps: seq<string>, terms: set<string>) returns (kept: seq<string>)
    ensures kept == Matching(ps, terms)
  {
    kept := [];
    for i := 0 to |ps|
      invariant kept == Matching(ps[..i], terms)
    {
      MatchingAppend(ps[..i], ps[i], terms);
      assert ps[..i + 1] == ps[..i] + [ps[i]];
      if Mentions(ps[i], terms) {
        kept := kept + [ps[i]];
      }
    }
    assert ps[..|ps|] == ps;
  }

  /** The sentence loop, run when fewer than two paragraphs matched */
  method WidenWithSentences(content: string, matched: seq<string>, terms: set<string>) returns (rel: seq<string>)
    ensures rel == (if |matched| < 2 then Widen(Sentences(content), |Sentences(content)|, matched, terms) else matched)
  {
    rel := matched;
    if |rel| < 2 {
      var sentences := Sentences(content);
      for i := 0 to |sentences|
        invariant rel == Widen(sentences, i, matched, terms)
      {
        var s := sentences[i];
        if Mentions(s, terms) && !Contains(Join(" ", rel), s) {
          rel := rel + [s + "."];
        }
      }
    }
  }

  method ExtractRelevantContent(content: string, terms: set<string>) returns (r: string)
    ensures r == RelevantContent(content, terms)
  {
    if content == [] {
      return "";
    }
    var paragraphs := Paragraphs(content);
    var matched := MatchParagraphs(paragraphs, terms);
    var rel := WidenWithSentences(content, matched, terms);
    if rel == [] {
      rel := paragraphs[..Min(3, |paragraphs|)];
    }
    r := Join("\n\n", rel);
  }

  method ExtractRelevantContentLegacy(content: string, terms: set<string>) returns (r: string)
    ensures r == RelevantContentLegacy(content, terms)
  {
    var paragraphs := Paragraphs(content);
    var matched := MatchParagraphs(paragraphs, terms);
    var rel := WidenWithSentences(content, matched, terms);
    if rel != [] {
      return Join("\n\n", rel);
    }
    return "";
  }

  lemma JoinLong(sep: string, parts: seq<string>)
    requires sep != [] && |parts| >= 2
    ensures Join(sep, parts) != []
  {
    assert |Join(sep, parts)| >= |sep|;
  }

  /** A paragraph of non-empty content that is empty comes from a blank-line
      separator, so there are at least two paragraphs. */
  lemma EmptyParagraphMeansSeveral(content: string, p: string)
    requires content != [] && p in Paragraphs(content) && p == []
    ensures |Paragraphs(content)| >= 2
  {
    JoinSplit(content, "\n\n");
  }

  /** A text mentions the empty term only when some term is empty, and then every
      text mentions it. */
  lemma EmptyMentioned(terms: set<string>, x: string)
    requires Mentions([], terms)
    ensures Mentions(x, terms)
  {
    var t :| t in terms && Contains(Lower([]), Lower(t));
    assert |Lower(t)| == 0;
    assert Lower(x)[0..0] == Lower(t);
    ContainsAt(Lower(x), Lower(t), 0);
  }

  lemma {:induction false} MatchingAll(ps: seq<string>, terms: set<string>)
    requires forall p :: p in ps ==> Mentions(p, terms)
    ensures Matching(ps, terms) == ps
    decreases |ps|
  {
    if ps != [] {
      MatchingAll(ps[1..], terms);
    }
  }

  /** The newer version returns `""` exactly for empty content: whatever is
      chosen, or the fallback, joins to a non-empty text. */
  lemma RelevantContentEmptyIff(content: string, terms: set<string>)
    ensures RelevantContent(content, terms) == [] <==> content == []
  {
    if content != [] {
      var ps := Paragraphs(content);
      var matched := Matching(ps, terms);
      var chosen := Chosen(content, terms);
      var parts := if chosen == [] then ps[..Min(3, |ps|)] else chosen;
      if |parts| >= 2 {
        JoinLong("\n\n", parts);
      } else if chosen == [] {
        assert |ps| == 1;
        JoinSplit(content, "\n\n");
      } else {
        var x := parts[0];
        if |matched| >= 2 {
          assert false;
        }
        if x == [] {
          // x is not a widened sentence, which ends with a full stop
          assert chosen[..|matched|] == matched;
          if |matched| == 0 {
            assert false;
          }
          assert x in ps && Mentions(x, terms);
          EmptyParagraphMeansSeveral(content, x);
          forall p | p in ps
            ensures Mentions(p, terms)
          {
            EmptyMentioned(terms, p);
          }
          MatchingAll(ps, terms);
          assert false;
        }
      }
    }
  }

  /** With two or more mentioning paragraphs, the answer is exactly those
      paragraphs, in order, separated by blank lines. */
  lemma ParagraphsSuffice(content: string, terms: set<string>)
    requires content != [] && |Matching(Paragraphs(content), terms)| >= 2
    ensures RelevantContent(content, terms) == Join("\n\n", Matching(Paragraphs(content), terms))
    ensures RelevantContentLegacy(content, terms) == RelevantContent(content, terms)
  {
  }

  /** Every chosen text is a mentioning paragraph or a mentioning sentence with a
      full stop added. */
  lemma ChosenMention(content: string, terms: set<string>)
    ensures forall x :: x in Chosen(content, terms) ==>
              (x in Paragraphs(content) && Mentions(x, terms)) ||
              exists s :: s in Sentences(content) && Mentions(s, terms) && x == s + "."
    ensures Chosen(content, terms) != [] ==>
              (exists p :: p in Paragraphs(content) && Mentions(p, terms)) ||
              (exists s :: s in Sentences(content) && Mentions(s, terms))
  {
    var matched := Matching(Paragraphs(content), terms);
    var ss := Sentences(content);
    if |matched| < 2 {
      var chosen := Widen(ss, |ss|, matched, terms);
      assert ss[..|ss|] == ss;
      forall x | x in chosen
        ensures (x in Paragraphs(content) && Mentions(x, terms)) ||
                exists s :: s in ss && Mentions(s, terms) && x == s + "."
      {
        var k :| 0 <= k < |chosen| && chosen[k] == x;
        if k < |matched| {
          assert chosen[..|matched|][k] == x;
        } else {
          var j :| 0 <= j < |ss| && Mentions(ss[j], terms) && chosen[k] == ss[j] + ".";
          assert ss[j] in ss;
        }
      }
    }
    var chosen := Chosen(content, terms);
    if chosen != [] {
      assert chosen[0] in chosen;
    }
  }

  /** With no mentioning paragraph and no mentioning sentence, the newer version
      falls back to the first three paragraphs and the older one returns `""`. */
  lemma NothingMentioned(content: string, terms: set<string>)
    requires forall p :: p in Paragraphs(content) ==> !Mentions(p, terms)
    requires forall s :: s in Sentences(content) ==> !Mentions(s, terms)
    ensures content != [] ==>
              RelevantContent(content, terms) == Join("\n\n", Paragraphs(content)[..Min(3, |Paragraphs(content)|)])
    ensures RelevantContentLegacy(content, terms) == []
  {
    ChosenMention(content, terms);
  }
}
