/** `extract_relevant_regulations` (utils/regulation_utils.py, and its copy
    regulation-utils.py): the snippets reordered by descending similarity to the
    query. The TF-IDF similarity is abstract here: `score` gives the similarity of
    the snippet at each position, or is `None` when vectorising raised, in which
    case the input comes back unchanged. */
module Ranking {
  import opened Wrappers
  import opened Sorting

  /** `range(n)[::-1]`: the positions from last to first */
  function Countdown(n: nat): (r: seq<nat>)
    ensures |r| == n
    ensures forall k :: 0 <= k < n ==> r[k] == n - 1 - k
    decreases n
  {
    if n == 0 then [] else [n - 1] + Countdown(n - 1)
  }

  /** Positions in strictly decreasing order */
  predicate Decreasing(xs: seq<nat>) {
    forall i, j :: 0 <= i < j < |xs| ==> xs[i] > xs[j]
  }

  /** Every index in `idx` is a position of a sequence of length `n` */
  predicate InRange(idx: seq<nat>, n: nat) {
    forall k :: 0 <= k < |idx| ==> idx[k] < n
  }

  /** A permutation of in-range indices is in range */
  lemma InRangePermutation(a: seq<nat>, b: seq<nat>, n: nat)
    requires InRange(a, n) && multiset(a) == multiset(b)
    ensures InRange(b, n)
  {
    forall k | 0 <= k < |b|
      ensures b[k] < n
    {
      assert b[k] in multiset(a);
      var m :| 0 <= m < |a| && a[m] == b[k];
    }
  }

  /** `[data[i] for i in idx]` */
  function Pick(data: seq<string>, idx: seq<nat>): (r: seq<string>)
    requires InRange(idx, |data|)
    ensures |r| == |idx|
    decreases |idx|
  {
    if idx == [] then [] else [data[idx[0]]] + Pick(data, idx[1..])
  }

  lemma {:induction false} PickAt(data: seq<string>, idx: seq<nat>)
    requires InRange(idx, |data|)
    ensures forall k :: 0 <= k < |idx| ==> Pick(data, idx)[k] == data[idx[k]]
    decreases |idx|
  {
    if idx != [] {
      PickAt(data, idx[1..]);
    }
  }

  /** `np.argsort(similarities)[::-1]`: the positions of the snippets, most
      similar first. On arrays this short numpy's argsort is an insertion sort,
      which lists equal similarities by ascending position; the reversal then
      lists them by descending position. That is the stable descending sort of
      the positions taken from last to first. */
  function RankedIndices(n: nat, score: nat -> int): (r: seq<nat>)
    ensures |r| == n && multiset(r) == multiset(Countdown(n))
    ensures InRange(r, n)
    ensures SortedDesc(r, score)
    ensures forall i, j :: 0 <= i < j < n && score(r[i]) == score(r[j]) ==> r[i] > r[j]
  {
    var r := SortDesc<nat>(Countdown(n), score);
    InRangePermutation(Countdown(n), r, n);
    SortDescSorted<nat>(Countdown(n), score);
    TiesByDescendingPosition(n, score, r);
    r
  }

  /** Equal similarities are ranked later position first. */
  lemma TiesByDescendingPosition(n: nat, score: nat -> int, r: seq<nat>)
    requires r == SortDesc<nat>(Countdown(n), score)
    ensures forall i, j :: 0 <= i < j < n && score(r[i]) == score(r[j]) ==> r[i] > r[j]
  {
    forall i, j | 0 <= i < j < n && score(r[i]) == score(r[j])
      ensures r[i] > r[j]
    {
      TieOrder(n, score, i, j);
    }
  }

  lemma TieOrder(n: nat, score: nat -> int, i: nat, j: nat)
    requires var r := SortDesc<nat>(Countdown(n), score);
             i < j < n && score(r[i]) == score(r[j])
    ensures SortDesc<nat>(Countdown(n), score)[i] > SortDesc<nat>(Countdown(n), score)[j]
  {
    assert Decreasing(Countdown(n));
    SortedTieOrder(Countdown(n), score, i, j);
  }

  /** Sorting positions given in decreasing order keeps equal scores in
      decreasing order. */
  lemma SortedTieOrder(down: seq<nat>, score: nat -> int, i: nat, j: nat)
    requires Decreasing(down)
    requires var r := SortDesc<nat>(down, score);
             i < j < |r| && score(r[i]) == score(r[j])
    ensures SortDesc<nat>(down, score)[i] > SortDesc<nat>(down, score)[j]
  {
    var r := SortDesc<nat>(down, score);
    var c := score(r[i]);
    WithKeyRank<nat>(r, score, i, j);
    SortDescStable<nat>(down, score, c);
    WithKeyDecreasing(down, score, c);
  }

  /** Keeping only the positions of one score keeps them decreasing. */
  lemma {:induction false} WithKeyDecreasing(xs: seq<nat>, score: nat -> int, c: int)
    requires Decreasing(xs)
    ensures Decreasing(WithKey<nat>(xs, score, c))
    decreases |xs|
  {
    if xs != [] {
      var rest := xs[1..];
      DecreasingTail(xs);
      WithKeyDecreasing(rest, score, c);
      WithKeyMembers<nat>(rest, score, c);
      WithKeyCons<nat>(xs[0], rest, score, c);
      assert [xs[0]] + rest == xs;
      if score(xs[0]) == c {
        DecreasingCons(xs[0], WithKey<nat>(rest, score, c));
      }
    }
  }

  lemma DecreasingTail(xs: seq<nat>)
    requires xs != [] && Decreasing(xs)
    ensures Decreasing(xs[1..])
    ensures forall x :: x in xs[1..] ==> x < xs[0]
  {
    var rest := xs[1..];
    forall i, j | 0 <= i < j < |rest|
      ensures rest[i] > rest[j]
    {
      assert rest[i] == xs[i + 1] && rest[j] == xs[j + 1];
    }
    forall x | x in rest
      ensures x < xs[0]
    {
      var m :| 0 <= m < |rest| && rest[m] == x;
      assert xs[m + 1] == x;
    }
  }

  lemma DecreasingCons(a: nat, w: seq<nat>)
    requires Decreasing(w) && forall x :: x in w ==> x < a
    ensures Decreasing([a] + w)
  {
    var all := [a] + w;
    forall i, j | 0 <= i < j < |all|
      ensures all[i] > all[j]
    {
      assert all[j] == w[j - 1] && w[j - 1] in w;
      if i > 0 {
        assert all[i] == w[i - 1];
      }
    }
  }

  function ExtractRelevantRegulations(data: seq<string>, score: Option<nat -> int>): (r: seq<string>)
    ensures |r| == |data|
  {
    if data == [] then []
    else
      match score
      case None => data
      case Some(f) => Pick(data, RankedIndices(|data|, f))
  }

  lemma {:induction false} PickInsert(data: seq<string>, i: nat, idx: seq<nat>, key: nat -> int)
    requires i < |data| && InRange(idx, |data|)
    ensures InRange(Insert<nat>(i, idx, key), |data|)
    ensures multiset(Pick(data, Insert<nat>(i, idx, key))) == multiset(Pick(data, idx)) + multiset{data[i]}
    decreases |idx|
  {
    var r := Insert<nat>(i, idx, key);
    InsertInRange(i, idx, key, |data|);
    if idx != [] && key(i) < key(idx[0]) {
      var tail := Insert<nat>(i, idx[1..], key);
      PickInsert(data, i, idx[1..], key);
      assert r == [idx[0]] + tail;
      PickCons(data, idx[0], tail);
      PickCons(data, idx[0], idx[1..]);
      Shuffle(data[idx[0]], data[i], multiset(Pick(data, idx[1..])), multiset(Pick(data, tail)));
      assert [idx[0]] + idx[1..] == idx;
    } else {
      assert r == [i] + idx;
      PickCons(data, i, idx);
    }
  }

  lemma Shuffle(a: string, b: string, p: multiset<string>, q: multiset<string>)
    requires q == p + multiset{b}
    ensures multiset{a} + q == (multiset{a} + p) + multiset{b}
  {
  }

  lemma InsertInRange(i: nat, idx: seq<nat>, key: nat -> int, n: nat)
    requires i < n && InRange(idx, n)
    ensures InRange(Insert<nat>(i, idx, key), n)
  {
    InRangePermutation([i] + idx, Insert<nat>(i, idx, key), n);
  }

  lemma PickCons(data: seq<string>, i: nat, idx: seq<nat>)
    requires i < |data| && InRange(idx, |data|)
    ensures InRange([i] + idx, |data|)
    ensures multiset(Pick(data, [i] + idx)) == multiset{data[i]} + multiset(Pick(data, idx))
  {
    assert ([i] + idx)[1..] == idx;
  }

  lemma {:induction false} PickSort(data: seq<string>, idx: seq<nat>, key: nat -> int)
    requires InRange(idx, |data|)
    ensures InRange(SortDesc<nat>(idx, key), |data|)
    ensures multiset(Pick(data, SortDesc<nat>(idx, key))) == multiset(Pick(data, idx))
    decreases |idx|
  {
    InRangePermutation(idx, SortDesc<nat>(idx, key), |data|);
    if idx != [] {
      PickSort(data, idx[1..], key);
      PickInsert(data, idx[0], SortDesc<nat>(idx[1..], key), key);
      assert Pick(data, idx) == [data[idx[0]]] + Pick(data, idx[1..]);
    }
  }

  /** `[]` for no data; otherwise a permutation of the input — the same snippets,
      each as often — and the input itself when ranking raised. */
  lemma RankingIsPermutation(data: seq<string>, score: Option<nat -> int>)
    ensures data == [] ==> ExtractRelevantRegulations(data, score) == []
    ensures multiset(ExtractRelevantRegulations(data, score)) == multiset(data)
    ensures score.None? ==> ExtractRelevantRegulations(data, score) == data
  {
    if data != [] && score.Some? {
      var n := |data|;
      PickCountdown(data, n);
      PickSort(data, Countdown(n), score.value);
      assert data[..n] == data;
    }
  }

  /** Picking the first `m` positions from last to first picks each of the
      first `m` snippets once. */
  lemma {:induction false} PickCountdown(data: seq<string>, m: nat)
    requires m <= |data|
    ensures InRange(Countdown(m), |data|)
    ensures multiset(Pick(data, Countdown(m))) == multiset(data[..m])
    decreases m
  {
    if m > 0 {
      PickCountdown(data, m - 1);
      assert Countdown(m)[1..] == Countdown(m - 1);
      assert data[..m] == data[..m - 1] + [data[m - 1]];
    }
  }

  /** The snippets come out by descending score: position `k` holds the snippet
      at `RankedIndices[k]`, those positions' scores never increase, and of two
      equally similar snippets the later one in the input comes first. */
  lemma RankingOrdersByScore(data: seq<string>, f: nat -> int)
    requires data != []
    ensures var ranked := RankedIndices(|data|, f);
            && (forall k :: 0 <= k < |data| ==> ExtractRelevantRegulations(data, Some(f))[k] == data[ranked[k]])
            && (forall i, j :: 0 <= i < j < |data| ==> f(ranked[i]) >= f(ranked[j]))
            && (forall i, j :: 0 <= i < j < |data| && f(ranked[i]) == f(ranked[j]) ==> ranked[i] > ranked[j])
  {
    PickAt(data, RankedIndices(|data|, f));
  }

  /** Two snippets of equal similarity (none shares a term with the query,
      say) come back in reverse order. */
  lemma TiedSnippetsReversed(a: string, b: string)
    ensures ExtractRelevantRegulations([a, b], Some((i: nat) => 0)) == [b, a]
  {
    var f := (i: nat) => 0;
    var r := RankedIndices(2, f);
    assert r[0] > r[1];
    assert r == [1, 0];
    PickAt([a, b], r);
  }
}
