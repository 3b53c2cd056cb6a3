/** `sorted(xs, key=key, reverse=True)`: Python's sort is stable, so elements with
    equal keys keep their input order, and `reverse=True` keeps that stability.
    It is written here as an insertion sort: the head of the list goes before
    every element whose key is not larger. */
module Sorting {

  predicate SortedDesc<T>(xs: seq<T>, key: T -> int) {
    forall i, j :: 0 <= i < j < |xs| ==> key(xs[i]) >= key(xs[j])
  }

  function Insert<T>(x: T, xs: seq<T>, key: T -> int): (r: seq<T>)
    ensures |r| == |xs| + 1
    ensures multiset(r) == multiset(xs) + multiset{x}
    decreases |xs|
  {
    if xs == [] || key(x) >= key(xs[0]) then [x] + xs
    else
      assert xs == [xs[0]] + xs[1..];
      [xs[0]] + Insert(x, xs[1..], key)
  }

  lemma {:induction false} InsertSorted<T>(x: T, xs: seq<T>, key: T -> int)
    requires SortedDesc(xs, key)
    ensures SortedDesc(Insert(x, xs, key), key)
    decreases |xs|
  {
    if xs != [] && key(x) < key(xs[0]) {
      InsertSorted(x, xs[1..], key);
      var r := Insert(x, xs, key);
      var tail := Insert(x, xs[1..], key);
      assert r == [xs[0]] + tail;
      forall k | 0 <= k < |tail|
        ensures key(xs[0]) >= key(tail[k])
      {
        assert tail[k] in multiset(xs[1..]) + multiset{x};
        if tail[k] in multiset(xs[1..]) {
          var m :| 0 <= m < |xs[1..]| && xs[1..][m] == tail[k];
          assert xs[m + 1] == tail[k];
        }
      }
    }
  }

  /** The stable descending sort */
  function SortDesc<T>(xs: seq<T>, key: T -> int): (r: seq<T>)
    ensures |r| == |xs|
    ensures multiset(r) == multiset(xs)
    decreases |xs|
  {
    if xs == [] then []
    else
      assert xs == [xs[0]] + xs[1..];
      Insert(xs[0], SortDesc(xs[1..], key), key)
  }

  /** The result is ordered by descending key. */
  lemma {:induction false} SortDescSorted<T>(xs: seq<T>, key: T -> int)
    ensures SortedDesc(SortDesc(xs, key), key)
    decreases |xs|
  {
    if xs != [] {
      SortDescSorted(xs[1..], key);
      InsertSorted(xs[0], SortDesc(xs[1..], key), key);
    }
  }

  /** An input already in descending order — in particular one whose keys are all
      equal — comes back unchanged: equal keys keep their input order. */
  lemma {:induction false} SortDescOfSorted<T>(xs: seq<T>, key: T -> int)
    requires SortedDesc(xs, key)
    ensures SortDesc(xs, key) == xs
    decreases |xs|
  {
    if xs != [] {
      assert SortedDesc(xs[1..], key) by {
        forall i, j | 0 <= i < j < |xs[1..]|
          ensures key(xs[1..][i]) >= key(xs[1..][j])
        {
          assert xs[1..][i] == xs[i + 1] && xs[1..][j] == xs[j + 1];
        }
      }
      SortDescOfSorted(xs[1..], key);
      if |xs| > 1 {
        assert key(xs[0]) >= key(xs[1]);
        assert xs[1..][0] == xs[1];
      }
      assert [xs[0]] + xs[1..] == xs;
    }
  }

  /** With every key equal the sort is the identity. */
  lemma SortDescConstant<T>(xs: seq<T>, key: T -> int, c: int)
    requires forall x :: x in xs ==> key(x) == c
    ensures SortDesc(xs, key) == xs
  {
    assert SortedDesc(xs, key) by {
      forall i, j | 0 <= i < j < |xs|
        ensures key(xs[i]) >= key(xs[j])
      {
        assert xs[i] in xs && xs[j] in xs;
      }
    }
    SortDescOfSorted(xs, key);
  }

  /** The elements whose key is `c`, in their order in `xs` */
  function WithKey<T>(xs: seq<T>, key: T -> int, c: int): (r: seq<T>)
    ensures |r| <= |xs|
    decreases |xs|
  {
    if xs == [] then []
    else if key(xs[0]) == c then [xs[0]] + WithKey(xs[1..], key, c)
    else WithKey(xs[1..], key, c)
  }

  /** The selected elements are elements of the input with key `c`, and every
      element with key `c` is selected. */
  lemma {:induction false} WithKeyMembers<T>(xs: seq<T>, key: T -> int, c: int)
    ensures forall x :: x in WithKey(xs, key, c) <==> x in xs && key(x) == c
    decreases |xs|
  {
    if xs != [] {
      WithKeyMembers(xs[1..], key, c);
      assert xs == [xs[0]] + xs[1..];
    }
  }

  lemma {:induction false} WithKeyAppend<T>(a: seq<T>, b: seq<T>, key: T -> int, c: int)
    ensures WithKey(a + b, key, c) == WithKey(a, key, c) + WithKey(b, key, c)
    decreases |a|
  {
    if a != [] {
      assert (a + b)[1..] == a[1..] + b;
      WithKeyAppend(a[1..], b, key, c);
    } else {
      assert a + b == b;
    }
  }

  lemma WithKeyCons<T>(a: T, ys: seq<T>, key: T -> int, c: int)
    ensures WithKey([a] + ys, key, c) == if key(a) == c then [a] + WithKey(ys, key, c) else WithKey(ys, key, c)
  {
    assert ([a] + ys)[0] == a && ([a] + ys)[1..] == ys;
  }

  /** Inserting `x` puts it, among the elements with its key, before all the
      others: every element it passes has a larger key. */
  lemma {:induction false} WithKeyInsert<T>(x: T, xs: seq<T>, key: T -> int, c: int)
    ensures WithKey(Insert(x, xs, key), key, c) == if key(x) == c then [x] + WithKey(xs, key, c) else WithKey(xs, key, c)
    decreases |xs|
  {
    if xs == [] || key(x) >= key(xs[0]) {
      assert Insert(x, xs, key) == [x] + xs;
      WithKeyCons(x, xs, key, c);
    } else {
      WithKeyInsert(x, xs[1..], key, c);
      WithKeyPass(x, xs, key, c);
    }
  }

  /** The step of `WithKeyInsert` where `x` passes the head of the list */
  lemma WithKeyPass<T>(x: T, xs: seq<T>, key: T -> int, c: int)
    requires xs != [] && key(x) < key(xs[0])
    requires WithKey(Insert(x, xs[1..], key), key, c) ==
               if key(x) == c then [x] + WithKey(xs[1..], key, c) else WithKey(xs[1..], key, c)
    ensures WithKey(Insert(x, xs, key), key, c) == if key(x) == c then [x] + WithKey(xs, key, c) else WithKey(xs, key, c)
  {
    var tail := Insert(x, xs[1..], key);
    assert Insert(x, xs, key) == [xs[0]] + tail;
    WithKeyCons(xs[0], tail, key, c);
    WithKeyCons(xs[0], xs[1..], key, c);
    assert [xs[0]] + xs[1..] == xs;
  }

  /** Stability: for every key, the elements with that key come out of the sort
      in their input order. */
  lemma {:induction false} SortDescStable<T>(xs: seq<T>, key: T -> int, c: int)
    ensures WithKey(SortDesc(xs, key), key, c) == WithKey(xs, key, c)
    decreases |xs|
  {
    if xs != [] {
      SortDescStable(xs[1..], key, c);
      WithKeyInsert(xs[0], SortDesc(xs[1..], key), key, c);
    }
  }

  /** Where `xs[i]` sits among the elements with its key: after those of them
      before position `i`. Two positions with equal keys keep their order. */
  lemma WithKeyRank<T>(xs: seq<T>, key: T -> int, i: nat, j: nat)
    requires i < j < |xs| && key(xs[i]) == key(xs[j])
    ensures var c := key(xs[i]);
            var w := WithKey(xs, key, c);
            && |WithKey(xs[..i], key, c)| < |WithKey(xs[..j], key, c)| < |w|
            && w[|WithKey(xs[..i], key, c)|] == xs[i]
            && w[|WithKey(xs[..j], key, c)|] == xs[j]
  {
    var c := key(xs[i]);
    WithKeyAt(xs, key, i);
    WithKeyAt(xs, key, j);
    assert xs[..j] == xs[..i] + [xs[i]] + xs[i + 1..j];
    WithKeyAppend(xs[..i] + [xs[i]], xs[i + 1..j], key, c);
    WithKeyAppend(xs[..i], [xs[i]], key, c);
    assert [xs[i]][1..] == [];
  }

  lemma WithKeyAt<T>(xs: seq<T>, key: T -> int, i: nat)
    requires i < |xs|
    ensures var c := key(xs[i]);
            && |WithKey(xs[..i], key, c)| < |WithKey(xs, key, c)|
            && WithKey(xs, key, c)[|WithKey(xs[..i], key, c)|] == xs[i]
  {
    var c := key(xs[i]);
    assert xs == xs[..i] + ([xs[i]] + xs[i + 1..]);
    WithKeyAppend(xs[..i], [xs[i]] + xs[i + 1..], key, c);
    assert ([xs[i]] + xs[i + 1..])[1..] == xs[i + 1..];
  }
}
