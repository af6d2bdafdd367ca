/** Sequence helpers: first-occurrence de-duplication and the first maximum. */
module Seqs {

  predicate NoDuplicates<T(==)>(s: seq<T>) {
    forall i, j :: 0 <= i < j < |s| ==> s[i] != s[j]
  }

  /** The distinct elements of `s` in order of first appearance. */
  function Dedup<T(==)>(s: seq<T>): (r: seq<T>)
    ensures NoDuplicates(r)
    ensures forall i :: 0 <= i < |r| ==> r[i] in s
    ensures forall i :: 0 <= i < |s| ==> s[i] in r
    ensures |r| <= |s|
    decreases |s|
  {
    if |s| == 0 then []
    else
      var d := Dedup(s[..|s| - 1]);
      var x := s[|s| - 1];
      assert forall i :: 0 <= i < |s| - 1 ==> s[i] == s[..|s| - 1][i];
      if x in d then d else d + [x]
  }

  /** De-duplicating a prefix gives a prefix of the de-duplicated whole. */
  lemma {:induction false} DedupPrefix<T>(s: seq<T>, i: nat)
    requires i <= |s|
    ensures |Dedup(s[..i])| <= |Dedup(s)|
    ensures Dedup(s[..i]) == Dedup(s)[..|Dedup(s[..i])|]
    decreases |s| - i
  {
    if i == |s| {
      assert s[..i] == s;
    } else {
      DedupPrefix(s, i + 1);
      DedupPrefixStep(s, i);
    }
  }

  lemma DedupPrefixStep<T>(s: seq<T>, i: nat)
    requires i < |s|
    requires |Dedup(s[..i + 1])| <= |Dedup(s)| && Dedup(s[..i + 1]) == Dedup(s)[..|Dedup(s[..i + 1])|]
    ensures |Dedup(s[..i])| <= |Dedup(s)| && Dedup(s[..i]) == Dedup(s)[..|Dedup(s[..i])|]
  {
    DedupSnoc(s, i);
    PrefixStep(Dedup(s[..i]), Dedup(s[..i + 1]), Dedup(s), s[i]);
  }

  /** A sequence one element shorter than a prefix of `f` is itself a prefix of `f`. */
  lemma PrefixStep<T>(d: seq<T>, e: seq<T>, f: seq<T>, x: T)
    requires e == d || e == d + [x]
    requires |e| <= |f| && e == f[..|e|]
    ensures |d| <= |f| && d == f[..|d|]
  {
    assert d == e[..|d|];
  }

  /** Extending the input by one element adds it to the de-duplicated sequence unless already there. */
  lemma DedupSnoc<T>(s: seq<T>, i: nat)
    requires i < |s|
    ensures Dedup(s[..i + 1]) == if s[i] in Dedup(s[..i]) then Dedup(s[..i]) else Dedup(s[..i]) + [s[i]]
  {
    assert s[..i + 1][..i] == s[..i];
  }

  /** The first position holding the largest value: the head of a stable descending sort. */
  function BestIndex(scores: seq<int>): (b: nat)
    requires |scores| > 0
    ensures b < |scores|
    ensures forall k :: 0 <= k < |scores| ==> scores[k] <= scores[b]
    ensures forall k :: 0 <= k < b ==> scores[k] < scores[b]
    decreases |scores|
  {
    if |scores| == 1 then 0
    else
      var b := BestIndex(scores[1..]) + 1;
      assert forall k :: 1 <= k < |scores| ==> scores[k] == scores[1..][k - 1];
      if scores[0] >= scores[b] then 0 else b
  }

  /** `s.filter(p)`: the elements that satisfy `p`, in order. */
  function Filter<T>(s: seq<T>, p: T -> bool): (r: seq<T>)
    ensures |r| <= |s|
    ensures forall k :: 0 <= k < |r| ==> p(r[k])
    decreases |s|
  {
    if |s| == 0 then []
    else (if p(s[0]) then [s[0]] else []) + Filter(s[1..], p)
  }

  /** The filter keeps every occurrence of a satisfying element and nothing else. */
  lemma {:induction false} FilterCounts<T>(s: seq<T>, p: T -> bool)
    ensures forall x :: multiset(Filter(s, p))[x] == if p(x) then multiset(s)[x] else 0
    decreases |s|
  {
    if |s| > 0 {
      FilterCounts(s[1..], p);
      assert s == [s[0]] + s[1..];
      assert multiset(s) == multiset([s[0]]) + multiset(s[1..]);
    }
  }

  /** Two tests that agree on every element keep the same elements. */
  lemma {:induction false} FilterSame<T>(s: seq<T>, p: T -> bool, q: T -> bool)
    requires forall x :: p(x) == q(x)
    ensures Filter(s, p) == Filter(s, q)
    decreases |s|
  {
    if |s| > 0 {
      FilterSame(s[1..], p, q);
    }
  }
}
