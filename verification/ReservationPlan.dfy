/** The cluster-wide escrow plan: validated once, then searched by component id. */
module ReservationPlan {
  import opened CounterTypes
  import opened Sums
  import HandoffProtocol
  import HandoffCluster

  type Amount = n: nat | n <= U64_MAX

  datatype Reservation = Reservation(id: nat, capacity: Amount)

  datatype PlanError = DuplicateComponent | TotalOverflow | ExceedsLimit

  datatype Plan = Plan(globalLimit: Amount, allocatedTotal: Amount, components: seq<Reservation>)

  datatype Result = Ok(plan: Plan) | Err(error: PlanError)

  function Capacities(s: seq<Reservation>): (c: seq<nat>)
    ensures |c| == |s|
  {
    seq(|s|, i requires 0 <= i < |s| => s[i].capacity)
  }

  function Total(s: seq<Reservation>): (t: nat) { SumSeq(Capacities(s)) }

  ghost predicate DistinctIds(s: seq<Reservation>)
  {
    forall i, j :: 0 <= i < j < |s| ==> s[i].id != s[j].id
  }

  predicate Sorted(s: seq<Reservation>)
  {
    forall i, j :: 0 <= i < j < |s| ==> s[i].id <= s[j].id
  }

  // ---- sorting: any algorithm will do, the constructor uses the standard library's

  /** Behind every element whose id is not above the given one. */
  function Position(s: seq<Reservation>, id: nat): (k: nat)
    requires Sorted(s)
    ensures k <= |s|
    ensures forall i :: 0 <= i < k ==> s[i].id <= id
    ensures forall i :: k <= i < |s| ==> s[i].id > id
  {
    if s == [] then 0
    else if s[|s| - 1].id <= id then |s|
    else Position(s[..|s| - 1], id)
  }

  function Insert(s: seq<Reservation>, x: Reservation): (r: seq<Reservation>)
    requires Sorted(s)
    ensures Sorted(r)
    ensures multiset(r) == multiset(s) + multiset{x}
  {
    var k := Position(s, x.id);
    assert s == s[..k] + s[k..];
    s[..k] + [x] + s[k..]
  }

  lemma TotalConcat(s: seq<Reservation>, t: seq<Reservation>)
    ensures Total(s + t) == Total(s) + Total(t)
  {
    assert Capacities(s + t) == Capacities(s) + Capacities(t);
    SumSeqAppend(Capacities(s), Capacities(t));
  }

  lemma InsertTotal(s: seq<Reservation>, x: Reservation)
    requires Sorted(s)
    ensures Total(Insert(s, x)) == Total(s) + x.capacity
  {
    hide Total;
    var k := Position(s, x.id);
    assert s == s[..k] + s[k..];
    TotalConcat(s[..k], s[k..]);
    TotalAppend(s[..k], x);
    TotalConcat(s[..k] + [x], s[k..]);
  }

  function Sort(s: seq<Reservation>): (r: seq<Reservation>)
    ensures Sorted(r)
    ensures multiset(r) == multiset(s)
  {
    if s == [] then []
    else
      assert s == s[..|s| - 1] + [s[|s| - 1]];
      Insert(Sort(s[..|s| - 1]), s[|s| - 1])
  }

  /** Sorting loses no capacity. */
  lemma {:induction false} SortTotal(s: seq<Reservation>)
    ensures Total(Sort(s)) == Total(s)
  {
    if s != [] {
      var front, last := s[..|s| - 1], s[|s| - 1];
      hide Total;
      assert s == front + [last];
      SortTotal(front);
      InsertTotal(Sort(front), last);
      TotalAppend(front, last);
    }
  }

  lemma TotalAppend(s: seq<Reservation>, x: Reservation)
    ensures Total(s + [x]) == Total(s) + x.capacity
  {
    assert Capacities(s + [x])[..|s|] == Capacities(s);
  }

  /** Distinctness survives any rearrangement. */
  lemma DistinctnessIsOrderFree(s: seq<Reservation>, t: seq<Reservation>)
    requires multiset(s) == multiset(t) && DistinctIds(s)
    ensures DistinctIds(t)
  {
    forall i, j | 0 <= i < j < |t|
      ensures t[i].id != t[j].id
    {
      if t[i].id == t[j].id {
        assert t[i] in multiset(s) && t[j] in multiset(s);
        var a :| 0 <= a < |s| && s[a] == t[i];
        var b :| 0 <= b < |s| && s[b] == t[j];
        assert a == b;
        TwiceIn(t, i, j);
        OnceIn(s, a);
      }
    }
  }

  lemma TwiceIn(t: seq<Reservation>, i: nat, j: nat)
    requires i < j < |t| && t[i] == t[j]
    ensures multiset(t)[t[i]] >= 2
  {
    assert t == t[..j] + [t[j]] + t[j + 1..];
    assert t[i] == t[..j][i];
  }

  lemma OnceIn(s: seq<Reservation>, a: nat)
    requires a < |s| && DistinctIds(s)
    ensures multiset(s)[s[a]] == 1
  {
    assert s == s[..a] + [s[a]] + s[a + 1..];
    assert forall i :: 0 <= i < |s| && i != a ==> s[i] != s[a];
    assert s[a] !in s[..a] && s[a] !in s[a + 1..];
  }

  // ---- the constructor

  /** What the constructor reports. */
  method Build(globalLimit: Amount, components: seq<Reservation>) returns (result: Result)
    ensures result.Ok? <==> DistinctIds(components) && Total(components) <= globalLimit
    ensures result.Ok? ==>
      && result.plan.globalLimit == globalLimit && result.plan.allocatedTotal == Total(components)
      && Sorted(result.plan.components) && DistinctIds(result.plan.components)
      && multiset(result.plan.components) == multiset(components)
    ensures result.Err? && result.error == ExceedsLimit <==> DistinctIds(components) && globalLimit < Total(components) <= U64_MAX
    ensures result.Err? && result.error == TotalOverflow ==> Total(components) > U64_MAX
    ensures result.Err? && result.error == DuplicateComponent ==> !DistinctIds(components)
  {
    hide Total, Sort, DistinctIds, Ascending;
    var sorted := Sort(components);
    SortTotal(components);
    var total: Amount := 0;
    NothingYet(sorted);
    for index := 0 to |sorted|
      invariant total == Total(sorted[..index]) && Ascending(sorted[..index])
    {
      PartialTotal(sorted, index);
      if index != 0 && sorted[index - 1].id == sorted[index].id {
        AdjacentDuplicate(components, sorted, index);
        return Err(DuplicateComponent);
      }
      AscendingExtend(sorted, index);
      if sorted[index].capacity > U64_MAX - total { return Err(TotalOverflow); }
      total := total + sorted[index].capacity;
    }
    assert sorted[..|sorted|] == sorted;
    AscendingIsDistinct(sorted);
    DistinctnessIsOrderFree(sorted, components);
    if total > globalLimit { return Err(ExceedsLimit); }
    return Ok(Plan(globalLimit, total, sorted));
  }

  lemma NothingYet(s: seq<Reservation>)
    ensures Total(s[..0]) == 0 && Ascending(s[..0])
  {
  }

  ghost predicate Ascending(s: seq<Reservation>)
  {
    forall i, j :: 0 <= i < j < |s| ==> s[i].id < s[j].id
  }

  lemma AscendingIsDistinct(s: seq<Reservation>)
    requires Ascending(s)
    ensures DistinctIds(s)
  {
  }

  lemma AscendingExtend(s: seq<Reservation>, k: nat)
    requires k < |s| && Sorted(s) && Ascending(s[..k]) && (k != 0 ==> s[k - 1].id != s[k].id)
    ensures Ascending(s[..k + 1])
  {
    forall i | 0 <= i < k
      ensures s[i].id < s[k].id
    {
      assert s[i].id <= s[k - 1].id <= s[k].id;
    }
    assert forall i, j :: 0 <= i < j < k ==> s[..k][i].id < s[..k][j].id;
    assert forall i, j :: 0 <= i < j < k + 1 ==> s[i].id < s[j].id;
  }

  lemma AdjacentDuplicate(components: seq<Reservation>, sorted: seq<Reservation>, index: nat)
    requires 0 < index < |sorted| && sorted[index - 1].id == sorted[index].id
    requires multiset(sorted) == multiset(components)
    ensures !DistinctIds(components)
  {
    if DistinctIds(components) {
      DistinctnessIsOrderFree(components, sorted);
    }
  }

  /** A partial sum grows element by element and never exceeds the whole. */
  lemma PartialTotal(s: seq<Reservation>, k: nat)
    requires k < |s|
    ensures Total(s[..k + 1]) == Total(s[..k]) + s[k].capacity <= Total(s)
  {
    assert s[..k + 1] == s[..k] + [s[k]];
    TotalAppend(s[..k], s[k]);
    assert Capacities(s) == Capacities(s[..k + 1]) + Capacities(s[k + 1..]);
    SumSeqAppend(Capacities(s[..k + 1]), Capacities(s[k + 1..]));
  }

  // ---- lookup

  /** The linear search through a list of reservations. */
  function Lookup(s: seq<Reservation>, id: nat): (r: Option<Amount>)
    ensures r == None <==> forall x :: x in s ==> x.id != id
  {
    if s == [] then None
    else if s[|s| - 1].id == id then Some(s[|s| - 1].capacity)
    else
      assert s == s[..|s| - 1] + [s[|s| - 1]];
      Lookup(s[..|s| - 1], id)
  }

  lemma {:induction false} LookupFinds(s: seq<Reservation>, x: Reservation)
    requires DistinctIds(s) && x in s
    ensures Lookup(s, x.id) == Some(x.capacity)
  {
    var k := |s| - 1;
    assert s == s[..k] + [s[k]];
    if s[k].id != x.id {
      LookupFinds(s[..k], x);
    } else {
      var i :| 0 <= i < |s| && s[i] == x;
      assert i == k;
    }
  }

  /** The index of the first element that is not below the id. */
  method LowerBound(s: seq<Reservation>, id: nat) returns (index: nat)
    requires Sorted(s)
    ensures index <= |s|
    ensures forall i :: 0 <= i < index ==> s[i].id < id
    ensures forall i :: index <= i < |s| ==> s[i].id >= id
  {
    index := 0;
    var count := |s|;
    while count > 0
      invariant 0 <= count && index + count <= |s|
      invariant forall i :: 0 <= i < index ==> s[i].id < id
      invariant forall i :: index + count <= i < |s| ==> s[i].id >= id
    {
      var half := count / 2;
      if s[index + half].id < id {
        index := index + half + 1;
        count := count - half - 1;
      } else {
        count := half;
      }
    }
  }

  method CapacityFor(plan: Plan, id: nat, ghost input: seq<Reservation>) returns (capacity: Amount)
    requires Sorted(plan.components) && DistinctIds(plan.components) && multiset(plan.components) == multiset(input)
    ensures capacity == match Lookup(input, id) case None => 0 case Some(c) => c
  {
    var found := LowerBound(plan.components, id);
    LookupAt(plan.components, input, id, found);
    if found != |plan.components| && plan.components[found].id == id {
      return plan.components[found].capacity;
    }
    return 0;
  }

  method HasComponent(plan: Plan, id: nat, ghost input: seq<Reservation>) returns (has: bool)
    requires Sorted(plan.components) && DistinctIds(plan.components) && multiset(plan.components) == multiset(input)
    ensures has <==> Lookup(input, id).Some?
  {
    var found := LowerBound(plan.components, id);
    LookupAt(plan.components, input, id, found);
    return found != |plan.components| && plan.components[found].id == id;
  }

  /** The search position decides the linear lookup in the unsorted input. */
  lemma LookupAt(sorted: seq<Reservation>, input: seq<Reservation>, id: nat, found: nat)
    requires DistinctIds(sorted) && multiset(sorted) == multiset(input) && found <= |sorted|
    requires forall i :: 0 <= i < found ==> sorted[i].id < id
    requires forall i :: found <= i < |sorted| ==> sorted[i].id >= id
    requires Sorted(sorted)
    ensures Lookup(input, id) == if found < |sorted| && sorted[found].id == id then Some(sorted[found].capacity) else None
  {
    DistinctnessIsOrderFree(sorted, input);
    forall x
      ensures x in input <==> x in sorted
    {
      assert x in multiset(input) <==> x in multiset(sorted);
    }
    if found < |sorted| && sorted[found].id == id {
      LookupFinds(input, sorted[found]);
    } else {
      forall x | x in input
        ensures x.id != id
      {
        var i :| 0 <= i < |sorted| && sorted[i] == x;
        if found < |sorted| { assert i >= found ==> sorted[i].id >= sorted[found].id; }
      }
    }
  }

  // ---- what the handoff needs of a plan

  function Reserves(s: seq<Reservation>): (m: map<HandoffProtocol.NodeId, nat>)
  {
    if s == [] then map[] else Reserves(s[..|s| - 1])[s[|s| - 1].id := s[|s| - 1].capacity]
  }

  lemma {:induction false} ReservesSum(s: seq<Reservation>)
    requires DistinctIds(s)
    ensures SumMap<HandoffProtocol.NodeId>(Reserves(s)) == Total(s)
    ensures forall i :: i in Reserves(s) <==> exists x :: x in s && x.id == i
    ensures forall x :: x in s ==> x.id in Reserves(s) && Reserves(s)[x.id] == x.capacity
    ensures |Reserves(s)| == |s|
  {
    if s != [] {
      var k := |s| - 1;
      var front, last := s[..k], s[k];
      assert s == front + [last];
      ReservesSum(front);
      TotalAppend(front, last);
      SumMapUpdate<HandoffProtocol.NodeId>(Reserves(front), last.id, last.capacity);
    }
  }

  /** An accepted plan for at least two members, none of them without capacity, is a valid cluster. */
  lemma AcceptedPlanIsAValidCluster(limit: Amount, components: seq<Reservation>, leader: nat, owner: nat, danger: nat)
    requires DistinctIds(components) && Total(components) <= limit && |components| >= 2
    requires forall x :: x in components ==> x.capacity > 0
    requires leader in Reserves(components) && owner in Reserves(components)
    ensures HandoffCluster.ValidConfig(HandoffProtocol.Config(Reserves(components).Keys, leader, owner, limit, Reserves(components), danger))
  {
    ReservesSum(components);
    assert |Reserves(components).Keys| == |Reserves(components)|;
  }
}
