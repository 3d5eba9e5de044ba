/**
 * Sequence combinators standing for the Swift standard-library calls the
 * models use: `filter`, `flatMap`, `max(by:)`, `sorted(by:)` and `prefix`.
 */
module Seqs {

  /** Swift's `filter`: the elements of `s` satisfying `f`, in order. */
  function Filter<T>(s: seq<T>, f: T -> bool): (r: seq<T>)
    ensures |r| <= |s|
  {
    if s == [] then [] else (if f(s[0]) then [s[0]] else []) + Filter(s[1..], f)
  }

  /** The filter keeps exactly the elements satisfying `f`. */
  lemma {:induction false} FilterMembers<T>(s: seq<T>, f: T -> bool)
    ensures forall i :: 0 <= i < |Filter(s, f)| ==> Filter(s, f)[i] in s && f(Filter(s, f)[i])
    ensures forall i :: 0 <= i < |s| && f(s[i]) ==> s[i] in Filter(s, f)
  {
    if s != [] {
      FilterMembers(s[1..], f);
      assert s == [s[0]] + s[1..];
      var head := if f(s[0]) then [s[0]] else [];
      assert Filter(s, f) == head + Filter(s[1..], f);
      forall i | 0 <= i < |s| && f(s[i]) ensures s[i] in Filter(s, f) {
        if i > 0 {
          assert s[i] == s[1..][i - 1];
        }
      }
    }
  }

  lemma {:induction false} FilterConcat<T>(a: seq<T>, b: seq<T>, f: T -> bool)
    ensures Filter(a + b, f) == Filter(a, f) + Filter(b, f)
  {
    if a == [] {
      assert a + b == b;
    } else {
      var ab := a + b;
      assert ab[0] == a[0];
      assert ab[1..] == a[1..] + b;
      FilterConcat(a[1..], b, f);
      var head := if f(a[0]) then [a[0]] else [];
      assert Filter(ab, f) == head + Filter(a[1..] + b, f);
      assert Filter(a, f) == head + Filter(a[1..], f);
      assert head + (Filter(a[1..], f) + Filter(b, f)) == (head + Filter(a[1..], f)) + Filter(b, f);
    }
  }

  /** Filtering the one-element sequence. */
  lemma FilterSingleton<T>(x: T, f: T -> bool)
    ensures Filter([x], f) == if f(x) then [x] else []
  {
    assert [x][1..] == [];
  }

  /** Filtering a sequence extended by one element at its end. */
  lemma FilterSnoc<T>(s: seq<T>, x: T, f: T -> bool)
    ensures Filter(s + [x], f) == Filter(s, f) + (if f(x) then [x] else [])
  {
    FilterConcat(s, [x], f);
    FilterSingleton(x, f);
  }

  /**
   * When `f` holds exactly where one of the exclusive `g`, `h` holds, the
   * elements kept by `f` are those kept by `g` plus those kept by `h`.
   */
  lemma {:induction false} FilterSplit<T>(s: seq<T>, f: T -> bool, g: T -> bool, h: T -> bool)
    requires forall x :: f(x) <==> g(x) || h(x)
    requires forall x :: !(g(x) && h(x))
    ensures |Filter(s, f)| == |Filter(s, g)| + |Filter(s, h)|
  {
    if s != [] {
      FilterSplit(s[1..], f, g, h);
    }
  }

  /** Two predicates that disagree everywhere split `s` between them. */
  lemma {:induction false} FilterPartition<T>(s: seq<T>, g: T -> bool, h: T -> bool)
    requires forall x :: g(x) != h(x)
    ensures |Filter(s, g)| + |Filter(s, h)| == |s|
  {
    if s != [] {
      FilterPartition(s[1..], g, h);
    }
  }

  /** Filtering by two predicates that agree on every element gives the same result. */
  lemma {:induction false} FilterCongruent<T>(s: seq<T>, f: T -> bool, g: T -> bool)
    requires forall x :: x in s ==> (f(x) <==> g(x))
    ensures Filter(s, f) == Filter(s, g)
  {
    if s != [] {
      FilterCongruent(s[1..], f, g);
    }
  }

  /** An element that is present and kept makes the filter non-empty. */
  lemma FilterNonEmpty<T>(s: seq<T>, f: T -> bool, x: T)
    requires x in s && f(x)
    ensures |Filter(s, f)| > 0
  {
    FilterMembers(s, f);
    var i :| 0 <= i < |s| && s[i] == x;
    assert s[i] in Filter(s, f);
  }

  /** The number of kept elements depends only on the multiset of `s`. */
  lemma {:induction false} FilterPermutation<T>(a: seq<T>, b: seq<T>, f: T -> bool)
    requires multiset(a) == multiset(b)
    ensures |Filter(a, f)| == |Filter(b, f)|
  {
    if a == [] {
      assert |b| == |multiset(b)| == 0;
    } else {
      assert a[0] in multiset(b);
      var k :| 0 <= k < |b| && b[k] == a[0];
      RemoveOne(a, b, k);
      FilterPermutation(a[1..], b[..k] + b[k + 1..], f);
      assert a == [a[0]] + a[1..];
      FilterConcat([a[0]], a[1..], f);
      FilterWithout(b, k, f);
    }
  }

  /** Taking the same element out of two permutations of each other leaves permutations. */
  lemma RemoveOne<T>(a: seq<T>, b: seq<T>, k: nat)
    requires a != [] && k < |b| && b[k] == a[0] && multiset(a) == multiset(b)
    ensures multiset(a[1..]) == multiset(b[..k] + b[k + 1..])
  {
    assert a == [a[0]] + a[1..];
    assert b == b[..k] + [b[k]] + b[k + 1..];
    assert multiset(a) == multiset{a[0]} + multiset(a[1..]);
    assert multiset(b) == multiset(b[..k]) + multiset{b[k]} + multiset(b[k + 1..]);
    assert multiset(b[..k] + b[k + 1..]) == multiset(b[..k]) + multiset(b[k + 1..]);
    assert multiset(a[1..]) == multiset(a) - multiset{a[0]};
  }

  /** Filtering a sequence counts its k-th element once, if it passes, plus the others. */
  lemma FilterWithout<T>(b: seq<T>, k: nat, f: T -> bool)
    requires k < |b|
    ensures |Filter(b, f)| == |Filter(b[..k] + b[k + 1..], f)| + (if f(b[k]) then 1 else 0)
  {
    assert b == b[..k] + [b[k]] + b[k + 1..];
    FilterConcat(b[..k], b[k + 1..], f);
    FilterConcat(b[..k] + [b[k]], b[k + 1..], f);
    FilterConcat(b[..k], [b[k]], f);
  }

  /** Swift's `flatMap { $0 }`: the sequences of `ss` concatenated in order. */
  function Flatten<T>(ss: seq<seq<T>>): seq<T> {
    if ss == [] then [] else ss[0] + Flatten(ss[1..])
  }

  /** Swift's `reduce(0) { $0 + $1.count }`: the total length of the sequences of `ss`. */
  function TotalLength<T>(ss: seq<seq<T>>): nat
  {
    if ss == [] then 0 else |ss[0]| + TotalLength(ss[1..])
  }

  lemma {:induction false} FlattenLength<T>(ss: seq<seq<T>>)
    ensures |Flatten(ss)| == TotalLength(ss)
  {
    if ss != [] {
      FlattenLength(ss[1..]);
    }
  }

  /** Filtering a concatenation of sequences filters each of them. */
  lemma {:induction false} FilterFlatten<T>(ss: seq<seq<T>>, f: T -> bool)
    ensures Filter(Flatten(ss), f) == Flatten(seq(|ss|, i requires 0 <= i < |ss| => Filter(ss[i], f)))
  {
    var mapped := seq(|ss|, i requires 0 <= i < |ss| => Filter(ss[i], f));
    if ss != [] {
      FilterConcat(ss[0], Flatten(ss[1..]), f);
      FilterFlatten(ss[1..], f);
      assert mapped[1..] == seq(|ss[1..]|, i requires 0 <= i < |ss[1..]| => Filter(ss[1..][i], f));
    }
  }

  /**
   * Swift's `max(by: { $0 < $1 })` over a non-empty sequence, by index: it
   * keeps the current candidate unless a later element is strictly larger,
   * so the result is the FIRST position holding the maximum.
   */
  function FirstMaxIndex(counts: seq<int>): (k: nat)
    requires |counts| > 0
    ensures k < |counts|
    ensures forall j :: 0 <= j < |counts| ==> counts[j] <= counts[k]
    ensures forall j :: 0 <= j < k ==> counts[j] < counts[k]
  {
    if |counts| == 1 then 0
    else
      var k := FirstMaxIndex(counts[..|counts| - 1]);
      if counts[k] < counts[|counts| - 1] then |counts| - 1 else k
  }

  ghost predicate SortedBy<T>(s: seq<T>, key: T -> int) {
    forall i, j :: 0 <= i < j < |s| ==> key(s[i]) <= key(s[j])
  }

  ghost predicate Distinct<T>(s: seq<T>) {
    forall i, j :: 0 <= i < j < |s| ==> s[i] != s[j]
  }

  /** Puts `x` before the first element whose key is not smaller than its own. */
  function Insert<T>(x: T, s: seq<T>, key: T -> int): (r: seq<T>)
    ensures multiset(r) == multiset(s) + multiset{x}
    ensures SortedBy(s, key) ==> SortedBy(r, key)
  {
    if s == [] || key(x) <= key(s[0]) then
      InsertFrontSorted(x, s, key);
      [x] + s
    else
      var rest := Insert(x, s[1..], key);
      assert s == [s[0]] + s[1..];
      InsertBehindSorted(x, s, rest, key);
      [s[0]] + rest
  }

  lemma InsertFrontSorted<T>(x: T, s: seq<T>, key: T -> int)
    requires s == [] || key(x) <= key(s[0])
    ensures SortedBy(s, key) ==> SortedBy([x] + s, key)
  {
    if SortedBy(s, key) {
      var r := [x] + s;
      forall i, j | 0 <= i < j < |r| ensures key(r[i]) <= key(r[j]) {
        if i == 0 && j > 1 {
          assert key(s[0]) <= key(s[j - 1]);
        }
      }
    }
  }

  lemma InsertBehindSorted<T>(x: T, s: seq<T>, rest: seq<T>, key: T -> int)
    requires s != [] && key(s[0]) < key(x)
    requires multiset(rest) == multiset(s[1..]) + multiset{x}
    requires SortedBy(s[1..], key) ==> SortedBy(rest, key)
    ensures SortedBy(s, key) ==> SortedBy([s[0]] + rest, key)
  {
    if SortedBy(s, key) {
      assert SortedBy(s[1..], key);
      var r := [s[0]] + rest;
      forall i, j | 0 <= i < j < |r| ensures key(r[i]) <= key(r[j]) {
        if i == 0 {
          var y := rest[j - 1];
          assert y in multiset(rest);
          if y != x {
            assert y in multiset(s[1..]);
            var k :| 0 <= k < |s[1..]| && s[1..][k] == y;
            assert s[k + 1] == y;
          }
        } else {
          assert r[i] == rest[i - 1] && r[j] == rest[j - 1];
        }
      }
    }
  }

  /**
   * Swift's `sorted(by: { key($0) < key($1) })`, taken to be stable: an
   * insertion sort that keeps elements with equal keys in their input order.
   */
  function SortBy<T>(s: seq<T>, key: T -> int): (r: seq<T>)
    ensures |r| == |s|
    ensures multiset(r) == multiset(s)
    ensures SortedBy(r, key)
  {
    if s == [] then []
    else
      assert s == [s[0]] + s[1..];
      var r := Insert(s[0], SortBy(s[1..], key), key);
      assert |r| == |multiset(r)|;
      r
  }

  lemma {:induction false} SortOfSorted<T>(s: seq<T>, key: T -> int)
    requires SortedBy(s, key)
    ensures SortBy(s, key) == s
  {
    if s != [] {
      SortOfSorted(s[1..], key);
      assert s == [s[0]] + s[1..];
    }
  }

  ghost predicate StrictlySortedBy<T>(s: seq<T>, key: T -> int) {
    forall i, j :: 0 <= i < j < |s| ==> key(s[i]) < key(s[j])
  }

  /**
   * A sorted permutation of a sequence whose keys strictly ascend is that
   * sequence: with distinct keys there is only one sorted order.
   */
  lemma {:induction false} SortedPermutationUnique<T>(a: seq<T>, b: seq<T>, key: T -> int)
    requires SortedBy(a, key) && StrictlySortedBy(b, key)
    requires multiset(a) == multiset(b)
    ensures a == b
    decreases |b|
  {
    assert |a| == |multiset(a)| == |b|;
    if b != [] {
      SameFirst(a, b, key);
      RemoveOne(a, b, 0);
      assert b[..0] + b[1..] == b[1..];
      SortedTails(a, b, key);
      SortedPermutationUnique(a[1..], b[1..], key);
      assert a == [a[0]] + a[1..] && b == [b[0]] + b[1..];
    }
  }

  lemma SameFirst<T>(a: seq<T>, b: seq<T>, key: T -> int)
    requires a != [] && b != []
    requires SortedBy(a, key) && StrictlySortedBy(b, key)
    requires multiset(a) == multiset(b)
    ensures a[0] == b[0]
  {
    assert b[0] in multiset(a);
    var k :| 0 <= k < |a| && a[k] == b[0];
    assert key(a[0]) <= key(b[0]);
    assert a[0] in multiset(b);
    var j :| 0 <= j < |b| && b[j] == a[0];
    assert key(b[j]) <= key(b[0]);
  }

  lemma SortedTails<T>(a: seq<T>, b: seq<T>, key: T -> int)
    requires a != [] && b != []
    requires SortedBy(a, key) && StrictlySortedBy(b, key)
    ensures SortedBy(a[1..], key) && StrictlySortedBy(b[1..], key)
  {
    forall i, j | 0 <= i < j < |a[1..]| ensures key(a[1..][i]) <= key(a[1..][j]) {
      assert a[1..][i] == a[i + 1] && a[1..][j] == a[j + 1];
    }
    forall i, j | 0 <= i < j < |b[1..]| ensures key(b[1..][i]) < key(b[1..][j]) {
      assert b[1..][i] == b[i + 1] && b[1..][j] == b[j + 1];
    }
  }

  lemma {:induction false} InsertDistinct<T>(x: T, s: seq<T>, key: T -> int)
    requires Distinct(s) && x !in s
    ensures Distinct(Insert(x, s, key))
  {
    var r := Insert(x, s, key);
    if s == [] || key(x) <= key(s[0]) {
    } else {
      InsertDistinct(x, s[1..], key);
      var rest := Insert(x, s[1..], key);
      assert r == [s[0]] + rest;
      assert s[0] !in rest by {
        assert s[0] != x;
        assert s[0] !in s[1..];
        assert multiset(rest) == multiset(s[1..]) + multiset{x};
        assert s[0] !in multiset(rest);
      }
    }
  }

  lemma {:induction false} SortDistinct<T>(s: seq<T>, key: T -> int)
    requires Distinct(s)
    ensures Distinct(SortBy(s, key))
  {
    if s != [] {
      SortDistinct(s[1..], key);
      assert s[0] !in SortBy(s[1..], key) by {
        assert s[0] !in multiset(s[1..]);
      }
      InsertDistinct(s[0], SortBy(s[1..], key), key);
    }
  }

  lemma {:induction false} FilterDistinct<T>(s: seq<T>, f: T -> bool)
    requires Distinct(s)
    ensures Distinct(Filter(s, f))
  {
    if s != [] {
      FilterDistinct(s[1..], f);
      FilterMembers(s[1..], f);
      assert s[0] !in s[1..];
      assert s[0] !in Filter(s[1..], f);
    }
  }

  /** Swift's `prefix(n)`. */
  function Prefix<T>(s: seq<T>, n: nat): (r: seq<T>)
    ensures |r| == if |s| < n then |s| else n
    ensures r == s[..|r|]
  {
    if |s| < n then s else s[..n]
  }

  /** The elements of `s` with a positive count, highest count first, ties in the order of `s`. */
  function RankByCount<T>(s: seq<T>, count: T -> int): seq<T> {
    SortBy(Filter(s, (x: T) => count(x) > 0), (x: T) => -count(x))
  }

  /** Ranking a list without repeats gives a list without repeats. */
  lemma RankDistinct<T>(s: seq<T>, count: T -> int)
    requires Distinct(s)
    ensures Distinct(RankByCount(s, count))
  {
    var f := (x: T) => count(x) > 0;
    FilterDistinct(s, f);
    SortDistinct(Filter(s, f), (x: T) => -count(x));
  }

  /** Every ranked element has a positive count, and the counts never go up. */
  lemma RankOrdered<T>(s: seq<T>, count: T -> int)
    ensures var r := RankByCount(s, count);
      && (forall i :: 0 <= i < |r| ==> count(r[i]) > 0)
      && (forall i, j :: 0 <= i < j < |r| ==> count(r[i]) >= count(r[j]))
  {
    var f := (x: T) => count(x) > 0;
    var key := (x: T) => -count(x);
    var q := Filter(s, f);
    var r := RankByCount(s, count);
    FilterMembers(s, f);
    forall i | 0 <= i < |r| ensures count(r[i]) > 0 {
      assert r[i] in multiset(q);
      var k :| 0 <= k < |q| && q[k] == r[i];
    }
    forall i, j | 0 <= i < j < |r| ensures count(r[i]) >= count(r[j]) {
      assert key(r[i]) <= key(r[j]);
    }
  }

  /** Every element of `s` with a positive count is ranked. */
  lemma RankComplete<T>(s: seq<T>, count: T -> int)
    ensures forall x :: x in s && count(x) > 0 ==> x in RankByCount(s, count)
  {
    var f := (x: T) => count(x) > 0;
    var r := RankByCount(s, count);
    FilterMembers(s, f);
    forall x | x in s && count(x) > 0 ensures x in r {
      var k :| 0 <= k < |s| && s[k] == x;
      assert x in Filter(s, f);
      assert x in multiset(r);
    }
  }

  /** `s` lists every value of its type exactly once. */
  ghost predicate Enumerates<T(!new)>(s: seq<T>) {
    Distinct(s) && forall x: T :: x in s
  }

  /**
   * `r` is a top-`n` ranking by `count` of the values with a positive
   * count: at most `n` of them, no repeats, each with a positive count,
   * highest count first, and a value with a positive count is missing
   * only when `n` values with at least its count were kept.
   */
  ghost predicate TopRanked<T(!new)>(r: seq<T>, count: T -> int, n: nat) {
    && |r| <= n
    && Distinct(r)
    && (forall i :: 0 <= i < |r| ==> count(r[i]) > 0)
    && (forall i, j :: 0 <= i < j < |r| ==> count(r[i]) >= count(r[j]))
    && (forall x :: count(x) > 0 && x !in r ==>
          |r| == n && forall i :: 0 <= i < |r| ==> count(r[i]) >= count(x))
  }

  /**
   * The first `n` elements of `RankByCount(s, count)`, for a list `s` that
   * holds every value of its type once.
   */
  function TopOfAll<T(!new)>(s: seq<T>, count: T -> int, n: nat): (r: seq<T>)
    requires Enumerates(s)
    ensures TopRanked(r, count, n)
  {
    var ranked := RankByCount(s, count);
    RankDistinct(s, count);
    RankOrdered(s, count);
    RankComplete(s, count);
    PrefixKeepsOrder(ranked, count, n);
    PrefixLeavesOutLess(ranked, count, n);
    Prefix(ranked, n)
  }

  /** A prefix of a list without repeats and with non-increasing positive counts keeps all three. */
  lemma PrefixKeepsOrder<T>(ranked: seq<T>, count: T -> int, n: nat)
    requires Distinct(ranked)
    requires forall i :: 0 <= i < |ranked| ==> count(ranked[i]) > 0
    requires forall i, j :: 0 <= i < j < |ranked| ==> count(ranked[i]) >= count(ranked[j])
    ensures var r := Prefix(ranked, n);
      && Distinct(r)
      && (forall i :: 0 <= i < |r| ==> count(r[i]) > 0)
      && (forall i, j :: 0 <= i < j < |r| ==> count(r[i]) >= count(r[j]))
  {
    var r := Prefix(ranked, n);
    assert forall i :: 0 <= i < |r| ==> r[i] == ranked[i];
  }

  /** What a prefix of a non-increasing list leaves out counts no more than what it keeps. */
  lemma PrefixLeavesOutLess<T>(ranked: seq<T>, count: T -> int, n: nat)
    requires forall i, j :: 0 <= i < j < |ranked| ==> count(ranked[i]) >= count(ranked[j])
    ensures var r := Prefix(ranked, n);
      forall x :: x in ranked && x !in r ==>
        |r| == n && forall i :: 0 <= i < |r| ==> count(r[i]) >= count(x)
  {
    var r := Prefix(ranked, n);
    forall x | x in ranked && x !in r
      ensures |r| == n && forall i :: 0 <= i < |r| ==> count(r[i]) >= count(x)
    {
      var m :| 0 <= m < |ranked| && ranked[m] == x;
      assert m >= |r|;
      forall i | 0 <= i < |r| ensures count(r[i]) >= count(x) {
        assert r[i] == ranked[i];
      }
    }
  }

  /** Filtering keeps everything when every element passes. */
  lemma {:induction false} FilterAll<T>(s: seq<T>, f: T -> bool)
    requires forall i :: 0 <= i < |s| ==> f(s[i])
    ensures Filter(s, f) == s
  {
    if s != [] {
      FilterAll(s[1..], f);
    }
  }

  /** When `f` keeps more elements than `g`, some element passes `f` and fails `g`. */
  lemma {:induction false} FilterCountGap<T>(s: seq<T>, f: T -> bool, g: T -> bool)
    requires |Filter(s, f)| > |Filter(s, g)|
    ensures exists i :: 0 <= i < |s| && f(s[i]) && !g(s[i])
  {
    if f(s[0]) && !g(s[0]) {
    } else {
      FilterCountGap(s[1..], f, g);
      var i :| 0 <= i < |s[1..]| && f(s[1..][i]) && !g(s[1..][i]);
      assert s[i + 1] == s[1..][i];
    }
  }

  /** Filtering twice is filtering once by the conjunction. */
  lemma {:induction false} FilterFilter<T>(s: seq<T>, f: T -> bool, g: T -> bool, h: T -> bool)
    requires forall x :: h(x) <==> f(x) && g(x)
    ensures Filter(Filter(s, f), g) == Filter(s, h)
  {
    if s != [] {
      FilterFilter(s[1..], f, g, h);
      var once := Filter(s, f);
      assert h(s[0]) <==> f(s[0]) && g(s[0]);
      if f(s[0]) {
        assert once == [s[0]] + Filter(s[1..], f);
        assert once[0] == s[0] && once[1..] == Filter(s[1..], f);
        assert Filter(once, g) == (if g(s[0]) then [s[0]] else []) + Filter(Filter(s[1..], f), g);
      } else {
        assert once == Filter(s[1..], f);
      }
    }
  }

  lemma {:induction false} FlattenConcat<T>(a: seq<seq<T>>, b: seq<seq<T>>)
    ensures Flatten(a + b) == Flatten(a) + Flatten(b)
  {
    if a != [] {
      assert (a + b)[0] == a[0];
      assert (a + b)[1..] == a[1..] + b;
      FlattenConcat(a[1..], b);
      assert Flatten(a + b) == a[0] + Flatten(a[1..] + b);
      assert Flatten(a) == a[0] + Flatten(a[1..]);
      assert a[0] + (Flatten(a[1..]) + Flatten(b)) == (a[0] + Flatten(a[1..])) + Flatten(b);
    } else {
      assert a + b == b;
    }
  }

  /** Sequences that agree pointwise on two predicates have equally many passing elements. */
  lemma {:induction false} FilterCountsAgree<A, B>(a: seq<A>, b: seq<B>, f: A -> bool, g: B -> bool)
    requires |a| == |b|
    requires forall i :: 0 <= i < |a| ==> f(a[i]) == g(b[i])
    ensures |Filter(a, f)| == |Filter(b, g)|
  {
    if a != [] {
      FilterCountsAgree(a[1..], b[1..], f, g);
    }
  }
}
