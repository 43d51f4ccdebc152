/** The percentile rule of `verify_readonly_evidence`: sort, then read index ceil(19n/20) - 1. */
module Percentile {

  function Insert(x: real, s: seq<real>): (r: seq<real>) {
    if s == [] then [x] else if x <= s[0] then [x] + s else [s[0]] + Insert(x, s[1..])
  }

  function Sort(s: seq<real>): (r: seq<real>) {
    if s == [] then [] else Insert(s[|s| - 1], Sort(s[..|s| - 1]))
  }

  ghost predicate Ordered(s: seq<real>) {
    forall i, j :: 0 <= i < j < |s| ==> s[i] <= s[j]
  }

  lemma {:induction false} InsertAdds(x: real, s: seq<real>)
    ensures multiset(Insert(x, s)) == multiset(s) + multiset{x}
  {
    if s != [] {
      assert s == [s[0]] + s[1..];
      if x > s[0] {
        InsertAdds(x, s[1..]);
      }
    }
  }

  lemma InsertMembers(x: real, s: seq<real>, y: real)
    requires y in Insert(x, s)
    ensures y == x || y in s
  {
    InsertAdds(x, s);
    assert y in multiset(Insert(x, s));
  }

  lemma {:induction false} InsertOrdered(x: real, s: seq<real>)
    requires Ordered(s)
    ensures Ordered(Insert(x, s))
  {
    if s != [] && x > s[0] {
      var rest := Insert(x, s[1..]);
      InsertOrdered(x, s[1..]);
      forall i | 0 <= i < |rest|
        ensures s[0] <= rest[i]
      {
        InsertMembers(x, s[1..], rest[i]);
      }
    }
  }

  lemma {:induction false} SortOrders(s: seq<real>)
    ensures Ordered(Sort(s)) && multiset(Sort(s)) == multiset(s) && |Sort(s)| == |s|
  {
    if s != [] {
      SortOrders(s[..|s| - 1]);
      InsertOrdered(s[|s| - 1], Sort(s[..|s| - 1]));
      InsertAdds(s[|s| - 1], Sort(s[..|s| - 1]));
      assert s == s[..|s| - 1] + [s[|s| - 1]];
    }
    assert |Sort(s)| == |multiset(Sort(s))| && |s| == |multiset(s)|;
  }

  /** Counted over the multiset's underlying list, so the order does not matter. */
  function CountAbove(s: seq<real>, limit: real): (n: nat)
    ensures n <= |s|
  {
    if s == [] then 0 else CountAbove(s[..|s| - 1], limit) + if s[|s| - 1] > limit then 1 else 0
  }

  lemma {:induction false} CountFirst(s: seq<real>, limit: real)
    requires s != []
    ensures CountAbove(s, limit) == CountAbove(s[1..], limit) + if s[0] > limit then 1 else 0
    decreases |s|
  {
    if |s| > 1 {
      CountFirst(s[..|s| - 1], limit);
      assert s[..|s| - 1][1..] == s[1..][..|s| - 2];
    }
  }

  lemma {:induction false} CountInsert(x: real, s: seq<real>, limit: real)
    ensures CountAbove(Insert(x, s), limit) == CountAbove(s, limit) + if x > limit then 1 else 0
  {
    CountFirst(Insert(x, s), limit);
    if s != [] {
      CountFirst(s, limit);
      if x > s[0] {
        assert Insert(x, s)[1..] == Insert(x, s[1..]);
        CountInsert(x, s[1..], limit);
      } else {
        assert Insert(x, s)[1..] == s;
      }
    }
  }

  lemma {:induction false} CountSort(s: seq<real>, limit: real)
    ensures CountAbove(Sort(s), limit) == CountAbove(s, limit)
  {
    if s != [] {
      CountSort(s[..|s| - 1], limit);
      CountInsert(s[|s| - 1], Sort(s[..|s| - 1]), limit);
    }
  }

  /** In an ordered list the values above the limit are a suffix. */
  lemma {:induction false} CountOrdered(s: seq<real>, limit: real, k: nat)
    requires Ordered(s) && k < |s|
    ensures s[k] <= limit <==> CountAbove(s, limit) <= |s| - 1 - k
    decreases |s|
  {
    var n := |s| - 1;
    if k < n {
      assert s[k] <= s[n];
      CountOrdered(s[..n], limit, k);
      if s[n] <= limit {
        AllBelow(s[..n], limit);
      }
    } else if s[n] <= limit {
      AllBelow(s[..n], limit);
    }
  }

  lemma {:induction false} AllBelow(s: seq<real>, limit: real)
    requires forall i :: 0 <= i < |s| ==> s[i] <= limit
    ensures CountAbove(s, limit) == 0
  {
    if s != [] {
      AllBelow(s[..|s| - 1], limit);
    }
  }

  /** ceil(0.95 n) - 1 */
  function Rank(n: nat): (k: nat)
    requires n > 0
    ensures k < n
  {
    (19 * n + 19) / 20 - 1
  }

  function P95(values: seq<real>): (p: real)
    requires values != []
  {
    SortOrders(values);
    Sort(values)[Rank(|values|)]
  }

  /** The percentile is within the limit exactly when at most one twentieth of the values exceed it. */
  lemma P95MeansOneTwentieth(values: seq<real>, limit: real)
    requires values != []
    ensures P95(values) <= limit <==> 20 * CountAbove(values, limit) <= |values|
  {
    SortOrders(values);
    CountSort(values, limit);
    CountOrdered(Sort(values), limit, Rank(|values|));
  }
}
