/** The Array operations the screens build on: `filter`, `findIndex`, and a `map`
    that rewrites only the elements a test selects. */
module Seqs {

  /** `r` is `s` with zero or more elements deleted, the rest in their order. */
  ghost predicate Subsequence<T>(r: seq<T>, s: seq<T>)
    decreases |s|
  {
    if s == [] then r == []
    else (r != [] && r[0] == s[0] && Subsequence(r[1..], s[1..])) || Subsequence(r, s[1..])
  }

  /** How many elements of `s` pass `keep`. */
  function CountWhere<T>(s: seq<T>, keep: T -> bool): nat {
    if s == [] then 0 else (if keep(s[0]) then 1 else 0) + CountWhere(s[1..], keep)
  }

  /** `s.filter(keep)`. */
  function Filter<T>(s: seq<T>, keep: T -> bool): (r: seq<T>)
    ensures |r| == CountWhere(s, keep) <= |s|
    ensures forall i :: 0 <= i < |r| ==> keep(r[i]) && r[i] in s
    ensures forall i :: 0 <= i < |s| && keep(s[i]) ==> s[i] in r
    ensures Subsequence(r, s)
  {
    if s == [] then []
    else if keep(s[0]) then [s[0]] + Filter(s[1..], keep)
    else
      var r := Filter(s[1..], keep);
      assert r != [] ==> r[0] in r;
      r
  }

  /** Filtering a list whose every element passes changes nothing. */
  lemma {:induction false} FilterKeepsAll<T>(s: seq<T>, keep: T -> bool)
    ensures (forall i :: 0 <= i < |s| ==> keep(s[i])) ==> Filter(s, keep) == s
  {
    if s != [] {
      FilterKeepsAll(s[1..], keep);
    }
  }

  /** Filtering twice is filtering once. */
  lemma {:induction false} FilterIdempotent<T>(s: seq<T>, keep: T -> bool)
    ensures Filter(Filter(s, keep), keep) == Filter(s, keep)
  {
    var r := Filter(s, keep);
    FilterKeepsAll(r, keep);
  }

  /** When exactly one element fails the test, filtering removes exactly one. */
  lemma {:induction false} FilterDropsOne<T>(s: seq<T>, keep: T -> bool, k: nat)
    requires k < |s| && !keep(s[k])
    requires forall i :: 0 <= i < |s| && i != k ==> keep(s[i])
    ensures |Filter(s, keep)| == |s| - 1
  {
    if k == 0 {
      FilterKeepsAll(s[1..], keep);
    } else {
      FilterDropsOne(s[1..], keep, k - 1);
    }
  }

  /** `filter` keeps every occurrence of each passing element, and nothing else. */
  lemma {:induction false} FilterMultiset<T>(s: seq<T>, keep: T -> bool)
    ensures forall x :: multiset(Filter(s, keep))[x] == if keep(x) then multiset(s)[x] else 0
  {
    if s != [] {
      FilterMultiset(s[1..], keep);
      assert s == [s[0]] + s[1..];
    }
  }

  /** A subsequence made only of passing elements has at most as many as pass. */
  lemma {:induction false} KeptSubsequenceBound<T>(r: seq<T>, s: seq<T>, keep: T -> bool)
    requires Subsequence(r, s) && forall i :: 0 <= i < |r| ==> keep(r[i])
    ensures |r| <= CountWhere(s, keep)
    decreases |s|
  {
    if s != [] {
      if r != [] && r[0] == s[0] && Subsequence(r[1..], s[1..]) {
        assert forall i :: 0 <= i < |r[1..]| ==> r[1..][i] == r[i + 1];
        KeptSubsequenceBound(r[1..], s[1..], keep);
      } else {
        KeptSubsequenceBound(r, s[1..], keep);
      }
    }
  }

  /** The contract of `Filter` pins its result down: a subsequence of `s`
      whose elements all pass and which has as many elements as pass is the
      filter of `s`. */
  lemma {:induction false} FilterDetermined<T>(r: seq<T>, s: seq<T>, keep: T -> bool)
    requires Subsequence(r, s) && forall i :: 0 <= i < |r| ==> keep(r[i])
    requires |r| == CountWhere(s, keep)
    ensures r == Filter(s, keep)
    decreases |s|
  {
    if s != [] {
      if r != [] && r[0] == s[0] && Subsequence(r[1..], s[1..]) {
        assert forall i :: 0 <= i < |r[1..]| ==> r[1..][i] == r[i + 1];
        FilterDetermined(r[1..], s[1..], keep);
        assert r == [r[0]] + r[1..];
      } else {
        KeptSubsequenceBound(r, s[1..], keep);
        FilterDetermined(r, s[1..], keep);
      }
    }
  }

  /** `s.findIndex(p)`: the first index whose element satisfies `p`, or -1. */
  function FindIndex<T>(s: seq<T>, p: T -> bool): (r: int)
    ensures -1 <= r < |s|
    ensures r == -1 <==> forall i :: 0 <= i < |s| ==> !p(s[i])
    ensures 0 <= r ==> p(s[r]) && forall i :: 0 <= i < r ==> !p(s[i])
  {
    if s == [] then -1
    else if p(s[0]) then 0
    else
      var k := FindIndex(s[1..], p);
      if k == -1 then -1 else k + 1
  }

  /** `s.map(x => selected(x) ? change(x) : x)`. */
  function MapWhere<T>(s: seq<T>, selected: T -> bool, change: T -> T): (r: seq<T>)
    ensures |r| == |s|
    ensures forall i :: 0 <= i < |s| && selected(s[i]) ==> r[i] == change(s[i])
    ensures forall i :: 0 <= i < |s| && !selected(s[i]) ==> r[i] == s[i]
  {
    if s == [] then []
    else [if selected(s[0]) then change(s[0]) else s[0]] + MapWhere(s[1..], selected, change)
  }

  /** No two elements of `s` share a key. */
  ghost predicate UniqueBy<T, K>(s: seq<T>, key: T -> K) {
    forall i, j :: 0 <= i < j < |s| ==> key(s[i]) != key(s[j])
  }

  /** Every element of a subsequence is an element of the whole. */
  lemma {:induction false} SubsequenceMembers<T>(r: seq<T>, s: seq<T>)
    requires Subsequence(r, s)
    ensures forall i :: 0 <= i < |r| ==> r[i] in s
    decreases |s|
  {
    if s != [] {
      if r != [] && r[0] == s[0] && Subsequence(r[1..], s[1..]) {
        SubsequenceMembers(r[1..], s[1..]);
        assert forall i :: 0 < i < |r| ==> r[i] == r[1..][i - 1];
      } else {
        SubsequenceMembers(r, s[1..]);
      }
    }
  }

  /** Deleting elements cannot make two keys equal. */
  lemma {:induction false} SubsequenceUniqueBy<T, K>(r: seq<T>, s: seq<T>, key: T -> K)
    requires Subsequence(r, s)
    ensures UniqueBy(s, key) ==> UniqueBy(r, key)
    decreases |s|
  {
    if s != [] && UniqueBy(s, key) {
      if r != [] && r[0] == s[0] && Subsequence(r[1..], s[1..]) {
        SubsequenceUniqueBy(r[1..], s[1..], key);
        SubsequenceMembers(r[1..], s[1..]);
        forall j | 0 < j < |r| ensures key(r[0]) != key(r[j]) {
          assert r[j] == r[1..][j - 1];
          var k :| 0 <= k < |s[1..]| && s[1..][k] == r[j];
          assert s[k + 1] == r[j];
        }
        forall i, j | 0 < i < j < |r| ensures key(r[i]) != key(r[j]) {
          assert r[i] == r[1..][i - 1] && r[j] == r[1..][j - 1];
        }
      } else {
        SubsequenceUniqueBy(r, s[1..], key);
      }
    }
  }

  /** Every earlier element of `s` stands in `rel` to every later one. */
  ghost predicate Pairwise<T>(s: seq<T>, rel: (T, T) -> bool) {
    forall i, j :: 0 <= i < j < |s| ==> rel(s[i], s[j])
  }

  /** Deleting elements keeps a relation that held between every earlier and
      every later element. */
  lemma {:induction false} SubsequencePairwise<T>(r: seq<T>, s: seq<T>, rel: (T, T) -> bool)
    requires Subsequence(r, s)
    ensures Pairwise(s, rel) ==> Pairwise(r, rel)
    decreases |s|
  {
    if s != [] && Pairwise(s, rel) {
      if r != [] && r[0] == s[0] && Subsequence(r[1..], s[1..]) {
        SubsequencePairwise(r[1..], s[1..], rel);
        SubsequenceMembers(r[1..], s[1..]);
        forall j | 0 < j < |r| ensures rel(r[0], r[j]) {
          assert r[j] == r[1..][j - 1];
          var k :| 0 <= k < |s[1..]| && s[1..][k] == r[j];
          assert s[k + 1] == r[j];
        }
        forall i, j | 0 < i < j < |r| ensures rel(r[i], r[j]) {
          assert r[i] == r[1..][i - 1] && r[j] == r[1..][j - 1];
        }
      } else {
        SubsequencePairwise(r, s[1..], rel);
      }
    }
  }
}
