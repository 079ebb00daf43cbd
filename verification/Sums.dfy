/** Finite sums over maps and sequences of natural numbers. */
module Sums {

  /** The sum of all values of a finite map. */
  ghost function SumMap<K>(m: map<K, nat>): (s: nat)
  {
    if m == map[] then 0
    else
      var k :| k in m;
      m[k] + SumMap(m - {k})
  }

  /** Any key may be taken out first: the sum does not depend on the order. */
  lemma {:induction false} SumMapRemove<K>(m: map<K, nat>, k: K)
    requires k in m
    ensures SumMap(m) == m[k] + SumMap(m - {k})
    decreases |m|
  {
    var j :| j in m && SumMap(m) == m[j] + SumMap(m - {j});
    if j != k {
      assert (m - {j}).Keys == m.Keys - {j};
      SumMapRemove(m - {j}, k);
      assert (m - {k}).Keys == m.Keys - {k};
      SumMapRemove(m - {k}, j);
      assert m - {j} - {k} == m - {k} - {j};
    }
  }

  lemma SumMapUpdate<K>(m: map<K, nat>, k: K, v: nat)
    ensures SumMap(m[k := v]) == (if k in m then SumMap(m) - m[k] else SumMap(m)) + v
  {
    SumMapRemove(m[k := v], k);
    if k in m {
      SumMapRemove(m, k);
      assert m[k := v] - {k} == m - {k};
    } else {
      assert m[k := v] - {k} == m;
    }
  }

  lemma {:induction false} SumMapMonotone<K>(m: map<K, nat>, n: map<K, nat>)
    requires m.Keys == n.Keys
    requires forall k :: k in m ==> m[k] <= n[k]
    ensures SumMap(m) <= SumMap(n)
    decreases |m|
  {
    if m == map[] {
      assert n == map[];
    } else {
      var k :| k in m;
      SumMapRemove(m, k);
      SumMapRemove(n, k);
      assert (m - {k}).Keys == m.Keys - {k};
      SumMapMonotone(m - {k}, n - {k});
    }
  }

  lemma SumMapAtLeast<K>(m: map<K, nat>, k: K)
    requires k in m
    ensures m[k] <= SumMap(m)
  {
    SumMapRemove(m, k);
  }

  /** The sum of a sequence. */
  function SumSeq(s: seq<nat>): (r: nat)
  {
    if s == [] then 0 else SumSeq(s[..|s| - 1]) + s[|s| - 1]
  }

  lemma {:induction false} SumSeqUpdate(s: seq<nat>, i: nat, v: nat)
    requires i < |s|
    ensures SumSeq(s[i := v]) == SumSeq(s) - s[i] + v
  {
    var t := s[i := v];
    if i == |s| - 1 {
      assert t[..|s| - 1] == s[..|s| - 1];
    } else {
      SumSeqUpdate(s[..|s| - 1], i, v);
      assert t[..|s| - 1] == s[..|s| - 1][i := v];
    }
  }

  lemma {:induction false} SumSeqAppend(s: seq<nat>, t: seq<nat>)
    ensures SumSeq(s + t) == SumSeq(s) + SumSeq(t)
  {
    if t == [] {
      assert s + t == s;
    } else {
      SumSeqAppend(s, t[..|t| - 1]);
      assert (s + t)[..|s + t| - 1] == s + t[..|t| - 1];
    }
  }

  lemma {:induction false} SumSeqMonotone(s: seq<nat>, t: seq<nat>)
    requires |s| == |t|
    requires forall i :: 0 <= i < |s| ==> s[i] <= t[i]
    ensures SumSeq(s) <= SumSeq(t)
    ensures SumSeq(s) == SumSeq(t) ==> s == t
  {
    if s != [] {
      SumSeqMonotone(s[..|s| - 1], t[..|t| - 1]);
    }
  }

  lemma SumSeqExtend(s: seq<nat>, i: nat)
    requires i < |s|
    ensures SumSeq(s[..i + 1]) == SumSeq(s[..i]) + s[i]
    ensures SumSeq(s[i..]) == s[i] + SumSeq(s[i + 1..])
  {
    assert s[..i + 1][..i] == s[..i];
    assert s[i..] == [s[i]] + s[i + 1..];
    SumSeqAppend([s[i]], s[i + 1..]);
  }

  /** How many of the first n shards are full. */
  function FullCount(used: seq<nat>, reserve: seq<nat>, n: nat): (c: nat)
    requires n <= |used| == |reserve|
    ensures c <= n
  {
    if n == 0 then 0 else FullCount(used, reserve, n - 1) + (if used[n - 1] == reserve[n - 1] then 1 else 0)
  }
}
