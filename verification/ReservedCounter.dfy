/** The sharded counter on its own: the split of a reservation, greedy seeding, the exhaustion
    flags. The races between its compare-and-swap loops are the business of the engine modules. */
module ReservedCounter {
  import opened CounterTypes
  import opened Sums

  /** Shares of base each, one more for the first few. */
  function Shares(base: nat, remainder: nat, count: nat): (shares: seq<nat>)
    ensures |shares| == count
  {
    seq(count, i requires 0 <= i < count => base + (if i < remainder then 1 else 0))
  }

  /** The reserves of the shards. */
  function Split(limit: nat, count: nat): (reserves: seq<nat>)
    requires count > 0
    ensures |reserves| == count
  {
    Shares(limit / count, limit % count, count)
  }

  lemma Next(k: nat, base: nat)
    ensures (k + 1) * base == k * base + base
  {
  }

  lemma {:induction false} SharesUpTo(base: nat, remainder: nat, count: nat)
    requires remainder <= count
    ensures SumSeq(Shares(base, remainder, count)) == count * base + remainder
  {
    if count > 0 {
      var s := Shares(base, remainder, count);
      var k := count - 1;
      Next(k, base);
      if remainder == count {
        assert s[..k] == Shares(base, k, k);
        SharesUpTo(base, k, k);
      } else {
        assert s[..k] == Shares(base, remainder, k);
        SharesUpTo(base, remainder, k);
      }
    }
  }

  lemma DivideFully(limit: nat, count: nat)
    requires count > 0
    ensures limit == count * (limit / count) + limit % count && limit % count < count
  {
  }

  /** No capacity is lost or invented by the split, for any limit and any number of shards. */
  lemma SplitSumsToTheLimit(limit: nat, count: nat)
    requires count > 0
    ensures SumSeq(Split(limit, count)) == limit
  {
    DivideFully(limit, count);
    SharesUpTo(limit / count, limit % count, count);
  }

  /** No two shards differ by more than one, and the larger ones come first. */
  predicate Fair(reserves: seq<nat>)
  {
    forall i, j :: 0 <= i < j < |reserves| ==> reserves[j] <= reserves[i] <= reserves[j] + 1
  }

  lemma SplitIsFair(limit: nat, count: nat)
    requires count > 0
    ensures Fair(Split(limit, count))
  {
  }

  /** Of two fair splits, one has nowhere more than the other. */
  lemma FairSplitsCompare(s: seq<nat>, t: seq<nat>)
    requires |s| == |t| && Fair(s) && Fair(t)
    ensures (forall i :: 0 <= i < |s| ==> s[i] <= t[i]) || (forall i :: 0 <= i < |s| ==> t[i] <= s[i])
  {
  }

  /** The split is the only fair one that hands out the whole limit. */
  lemma SplitIsTheOnlyFairOne(limit: nat, count: nat, reserves: seq<nat>)
    requires count > 0 && |reserves| == count
    ensures Fair(reserves) && SumSeq(reserves) == limit <==> reserves == Split(limit, count)
  {
    SplitIsFair(limit, count);
    SplitSumsToTheLimit(limit, count);
    hide Split, SumSeq;
    if Fair(reserves) && SumSeq(reserves) == limit {
      FairSplitsCompare(reserves, Split(limit, count));
      hide Fair;
      if forall i :: 0 <= i < count ==> reserves[i] <= Split(limit, count)[i] {
        SumSeqMonotone(reserves, Split(limit, count));
      } else {
        SumSeqMonotone(Split(limit, count), reserves);
      }
    }
  }

  /** Greedy filling: the shards before a partly filled one are full, those behind it empty. */
  function Filled(reserves: seq<nat>, value: nat): (used: seq<nat>)
    ensures |used| == |reserves|
  {
    seq(|reserves|, i requires 0 <= i < |reserves| =>
      if value < SumSeq(reserves[..i]) then 0
      else Min(value - SumSeq(reserves[..i]), reserves[i]))
  }

  lemma FilledPrefix(reserves: seq<nat>, value: nat)
    requires reserves != []
    ensures Filled(reserves, value)[..|reserves| - 1] == Filled(reserves[..|reserves| - 1], value)
  {
    hide SumSeq;
    var n := |reserves|;
    forall i | 0 <= i < n - 1
      ensures Filled(reserves, value)[i] == Filled(reserves[..n - 1], value)[i]
    {
      assert reserves[..n - 1][..i] == reserves[..i];
    }
  }

  lemma {:induction false} FillingIsExact(reserves: seq<nat>, value: nat)
    ensures SumSeq(Filled(reserves, value)) == Min(value, SumSeq(reserves))
    ensures forall i :: 0 <= i < |reserves| ==> Filled(reserves, value)[i] <= reserves[i]
  {
    var n := |reserves|;
    if n > 0 {
      FillingIsExact(reserves[..n - 1], value);
      FilledPrefix(reserves, value);
    }
  }

  lemma {:induction false} PrefixesGrow(s: seq<nat>, i: nat, j: nat)
    requires i <= j <= |s|
    ensures SumSeq(s[..i]) <= SumSeq(s[..j])
    decreases j - i
  {
    if i < j {
      PrefixesGrow(s, i, j - 1);
      SumSeqExtend(s, j - 1);
    }
  }

  /** Filling is greedy: nothing goes into a shard while one before it has room. */
  lemma FillingIsGreedy(reserves: seq<nat>, value: nat, i: nat, j: nat)
    requires i < j < |reserves| && Filled(reserves, value)[j] > 0
    ensures Filled(reserves, value)[i] == reserves[i]
  {
    PrefixesGrow(reserves, i + 1, j);
    SumSeqExtend(reserves, i);
  }

  lemma {:induction false} FullUpTo(used: seq<nat>, reserves: seq<nat>, n: nat)
    requires n <= |used| == |reserves|
    ensures FullCount(used, reserves, n) == n <==> used[..n] == reserves[..n]
  {
    if n > 0 {
      FullUpTo(used, reserves, n - 1);
      assert used[..n] == used[..n - 1] + [used[n - 1]] && reserves[..n] == reserves[..n - 1] + [reserves[n - 1]];
    }
  }

  /** Every shard is exhausted exactly when the whole reservation is spent, empty shards included. */
  lemma ExhaustionIsTheLimit(used: seq<nat>, reserves: seq<nat>)
    requires |used| == |reserves|
    requires forall i :: 0 <= i < |used| ==> used[i] <= reserves[i]
    ensures FullCount(used, reserves, |used|) == |used| <==> SumSeq(used) == SumSeq(reserves)
  {
    FullUpTo(used, reserves, |used|);
    assert used[..|used|] == used && reserves[..|used|] == reserves;
    SumSeqMonotone(used, reserves);
  }

  /** The value left after the shards before i were filled. */
  function Left(reserves: seq<nat>, value: nat, i: nat): (left: nat)
    requires i <= |reserves|
  {
    var before := SumSeq(reserves[..i]);
    if value < before then 0 else value - before
  }

  lemma LeftStep(reserves: seq<nat>, value: nat, i: nat)
    requires i < |reserves|
    ensures Filled(reserves, value)[i] == Min(Left(reserves, value, i), reserves[i])
    ensures Left(reserves, value, i + 1) == Left(reserves, value, i) - Filled(reserves, value)[i]
  {
    SumSeqExtend(reserves, i);
  }

  lemma LeftEnds(reserves: seq<nat>, value: nat)
    ensures Left(reserves, value, 0) == value
    ensures value <= SumSeq(reserves) ==> Left(reserves, value, |reserves|) == 0
  {
    assert reserves[..|reserves|] == reserves;
  }

  class Counter {
    const limit: nat
    const reserve: array<nat>
    const used: array<nat>
    const announced: array<bool>

    ghost predicate Valid()
      reads used, announced, reserve
    {
      && used != reserve
      && reserve.Length == used.Length == announced.Length > 0
      && reserve[..] == Split(limit, reserve.Length)
      && forall i :: 0 <= i < used.Length ==> used[i] <= reserve[i]
    }

    constructor (limit: nat, count: nat)
      requires count > 0
      ensures Valid() && fresh(used) && fresh(announced) && fresh(reserve)
      ensures this.limit == limit && used.Length == count
      ensures forall i :: 0 <= i < count ==> used[i] == 0 && !announced[i]
    {
      this.limit := limit;
      var base, remainder := limit / count, limit % count;
      var shares := new nat[count](i => base + (if i < remainder then 1 else 0));
      reserve := shares;
      used := new nat[count](i => 0);
      announced := new bool[count](i => false);
      new;
      assert reserve[..] == Split(limit, count);
    }

    method Total() returns (total: nat)
      requires Valid()
      ensures total == SumSeq(used[..]) <= limit
    {
      total := 0;
      for i := 0 to used.Length
        invariant total == SumSeq(used[..][..i])
      {
        SumSeqExtend(used[..], i);
        total := total + used[i];
      }
      assert used[..][..used.Length] == used[..];
      SumSeqMonotone(used[..], reserve[..]);
      SplitSumsToTheLimit(limit, used.Length);
    }

    /** Accepts exactly what the selected shard still has room for; other shards are not asked. */
    method Apply(id: nat, delta: nat) returns (decision: Decision, observed: nat)
      requires Valid()
      modifies used
      ensures Valid()
      ensures var i := id % used.Length;
        && (decision == Accepted <==> delta <= reserve[i] - old(used[i]))
        && (decision == Accepted ==> used[..] == old(used[..])[i := observed] && observed == old(used[i]) + delta)
        && (decision != Accepted ==> decision == Rejected && used[..] == old(used[..]) && observed == used[i])
      ensures SumSeq(used[..]) == SumSeq(old(used[..])) + (if decision == Accepted then delta else 0)
    {
      var selected := id % used.Length;
      var current := used[selected];
      if current > reserve[selected] || delta > reserve[selected] - current {
        return Rejected, current;
      }
      SumSeqUpdate(used[..], selected, current + delta);
      used[selected] := current + delta;
      return Accepted, current + delta;
    }

    /** True once for a shard: when it is full and nobody has said so. */
    method MarkExhaustionIfNew(id: nat) returns (isNew: bool)
      requires Valid()
      modifies announced
      ensures Valid()
      ensures var i := id % used.Length;
        && (isNew <==> used[i] == reserve[i] && !old(announced[i]))
        && announced[..] == if isNew then old(announced[..])[i := true] else old(announced[..])
    {
      var selected := id % used.Length;
      if used[selected] != reserve[selected] { return false; }
      if announced[selected] { return false; }
      announced[selected] := true;
      return true;
    }

    /** All shards are reported exhausted exactly when the limit is reached. */
    method ExhaustedShards() returns (exhausted: nat)
      requires Valid()
      ensures exhausted == FullCount(used[..], reserve[..], used.Length)
      ensures exhausted == used.Length <==> SumSeq(used[..]) == limit
    {
      exhausted := 0;
      for i := 0 to used.Length
        invariant exhausted == FullCount(used[..], reserve[..], i)
      {
        if used[i] == reserve[i] { exhausted := exhausted + 1; }
      }
      ExhaustionIsTheLimit(used[..], reserve[..]);
      SplitSumsToTheLimit(limit, used.Length);
    }

    /** Installs a value: the total is then exactly that value and exactly the full shards are flagged. */
    method SeedTotal(value: nat) returns (ok: bool)
      requires Valid()
      modifies used, announced
      ensures Valid()
      ensures ok <==> value <= limit
      ensures ok ==> SumSeq(used[..]) == value && forall i, j :: 0 <= i < j < used.Length && used[j] > 0 ==> used[i] == reserve[i]
      ensures ok ==> forall i :: 0 <= i < used.Length ==> (announced[i] <==> used[i] == reserve[i])
      ensures !ok ==> used[..] == old(used[..]) && announced[..] == old(announced[..])
    {
      if value > limit { return false; }
      hide SumSeq, Filled, Left, Split;
      ghost var shares := reserve[..];
      var remaining := Seed(value);
      SplitSumsToTheLimit(limit, used.Length);
      FillingIsExact(shares, value);
      LeftEnds(shares, value);
      forall i | 0 <= i < used.Length
        ensures used[i] <= reserve[i]
      {
        assert used[..][i] <= shares[i];
      }
      forall i, j | 0 <= i < j < used.Length && used[j] > 0
        ensures used[i] == reserve[i]
      {
        FillingIsGreedy(shares, value, i, j);
        assert used[..][i] == shares[i];
      }
      return remaining == 0;
    }

    /** The seeding loop. */
    method Seed(value: nat) returns (remaining: nat)
      requires reserve.Length == used.Length == announced.Length && used != reserve
      modifies used, announced
      ensures used[..] == Filled(reserve[..], value) && remaining == Left(reserve[..], value, reserve.Length)
      ensures forall i :: 0 <= i < used.Length ==> (announced[i] <==> used[i] == reserve[i])
    {
      hide SumSeq, Filled, Left;
      ghost var shares := reserve[..];
      ghost var goal := Filled(shares, value);
      LeftEnds(shares, value);
      remaining := value;
      for i := 0 to used.Length
        invariant remaining == Left(shares, value, i)
        invariant forall j :: 0 <= j < i ==> used[j] == goal[j]
        invariant forall j :: 0 <= j < i ==> (announced[j] <==> used[j] == reserve[j])
      {
        LeftStep(shares, value, i);
        var portion := if remaining < reserve[i] then remaining else reserve[i];
        used[i] := portion;
        announced[i] := portion == reserve[i];
        remaining := remaining - portion;
      }
      assert used[..] == goal;
    }
  }

  /** The constructor's own check on the number of shards. */
  method Create(limit: nat, count: nat) returns (c: Counter?)
    ensures c == null <==> count == 0
    ensures c != null ==> fresh(c) && c.Valid() && c.limit == limit && c.used.Length == count
  {
    if count == 0 { return null; }
    c := new Counter(limit, count);
  }
}
