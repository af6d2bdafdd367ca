/**
 * Insertion sort, newest first: descending by a string key under JavaScript's
 * string order. Both the entry store (`loadLogs`) and the server's log query
 * sort this way.
 */
module Sorting {
  import opened Text

  /** No element is ordered before a larger key. */
  predicate SortedDesc<T>(s: seq<T>, key: T -> string) {
    forall i, j :: 0 <= i < j < |s| ==> !Less(key(s[i]), key(s[j]))
  }

  function Insert<T>(x: T, s: seq<T>, key: T -> string): (r: seq<T>)
    requires SortedDesc(s, key)
    ensures SortedDesc(r, key)
    ensures multiset(r) == multiset(s) + multiset{x}
    ensures |r| == |s| + 1
    decreases |s|
  {
    if |s| == 0 then [x]
    else if !Less(key(x), key(s[0])) then
      InsertFront(x, s, key);
      [x] + s
    else
      var rest := Insert(x, s[1..], key);
      assert s == [s[0]] + s[1..];
      InsertBehind(x, s, rest, key);
      [s[0]] + rest
  }

  lemma InsertFront<T>(x: T, s: seq<T>, key: T -> string)
    requires |s| > 0 && SortedDesc(s, key) && !Less(key(x), key(s[0]))
    ensures SortedDesc([x] + s, key)
  {
    var r := [x] + s;
    forall i, j | 0 <= i < j < |r|
      ensures !Less(key(r[i]), key(r[j]))
    {
      if i == 0 {
        if j > 1 {
          NotLessTransitive(key(x), key(s[0]), key(s[j - 1]));
        }
      }
    }
  }

  lemma InsertBehind<T>(x: T, s: seq<T>, rest: seq<T>, key: T -> string)
    requires |s| > 0 && SortedDesc(s, key) && Less(key(x), key(s[0]))
    requires SortedDesc(rest, key) && multiset(rest) == multiset(s[1..]) + multiset{x}
    ensures SortedDesc([s[0]] + rest, key)
  {
    var r := [s[0]] + rest;
    forall i, j | 0 <= i < j < |r|
      ensures !Less(key(r[i]), key(r[j]))
    {
      if i == 0 {
        var y := rest[j - 1];
        assert y in multiset(rest);
        if y == x {
          LessAsymmetric(key(x), key(s[0]));
        } else {
          assert y in multiset(s[1..]);
          var k :| 0 <= k < |s[1..]| && s[1..][k] == y;
          assert s[k + 1] == y;
        }
      }
    }
  }

  /** Sorts newest first; equal keys keep their original order. */
  function SortDesc<T>(s: seq<T>, key: T -> string): (r: seq<T>)
    ensures SortedDesc(r, key)
    ensures multiset(r) == multiset(s)
    ensures |r| == |s|
    decreases |s|
  {
    if |s| == 0 then []
    else
      assert s == [s[0]] + s[1..];
      Insert(s[0], SortDesc(s[1..], key), key)
  }

  /**
   * The first `m` elements of the sorted sequence are the newest: an element
   * of the input whose key is greater than one of them is among them.
   */
  lemma NewestFirst<T>(s: seq<T>, key: T -> string, m: nat)
    requires m <= |s|
    ensures forall k, i :: 0 <= k < m && 0 <= i < |s| && Less(key(SortDesc(s, key)[k]), key(s[i])) ==>
      s[i] in SortDesc(s, key)[..m]
  {
    var sorted := SortDesc(s, key);
    forall k, i | 0 <= k < m && 0 <= i < |s| && Less(key(sorted[k]), key(s[i]))
      ensures s[i] in sorted[..m]
    {
      assert s[i] in multiset(sorted);
      var j :| 0 <= j < |sorted| && sorted[j] == s[i];
      assert Less(key(sorted[k]), key(sorted[j]));
      assert j < m;
      assert sorted[..m][j] == s[i];
    }
  }

  /** A prefix holds no more of any element than the whole sequence. */
  lemma PrefixMultiset<T>(s: seq<T>, m: nat)
    requires m <= |s|
    ensures multiset(s[..m]) <= multiset(s)
  {
    assert s == s[..m] + s[m..];
  }
}
