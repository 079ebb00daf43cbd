/** The replicated view of a counter: one maximum per component, merged by addition. */
module ReplicaMerge {
  import opened CounterTypes
  import opened Sums

  datatype ComponentKey = ComponentKey(counter: nat, epoch: nat, component: nat)

  /** A cumulative value of one component. */
  datatype Sample = Sample(key: ComponentKey, value: nat)

  type View = map<ComponentKey, nat>

  /** An absent entry starts from zero. */
  function Observe(view: View, s: Sample): (view': View)
  {
    view[s.key := Max(if s.key in view then view[s.key] else 0, s.value)]
  }

  function ObserveAll(samples: seq<Sample>): (view: View)
  {
    if samples == [] then map[] else Observe(ObserveAll(samples[..|samples| - 1]), samples[|samples| - 1])
  }

  predicate Shows(view: View, key: ComponentKey, value: nat)
  {
    key in view && view[key] == value
  }

  lemma ObserveOne(samples: seq<Sample>, s: Sample)
    ensures ObserveAll(samples + [s]) == Observe(ObserveAll(samples), s)
  {
    assert (samples + [s])[..|samples|] == samples;
  }

  ghost predicate IsGreatest(samples: seq<Sample>, key: ComponentKey, value: nat)
  {
    Sample(key, value) in samples && forall v: nat :: Sample(key, v) in samples ==> v <= value
  }

  /** The view holds exactly the delivered keys, each with the greatest delivered value. */
  lemma {:induction false} EntriesAreGreatest(samples: seq<Sample>)
    ensures forall k, v :: Shows(ObserveAll(samples), k, v) <==> IsGreatest(samples, k, v)
  {
    var view := ObserveAll(samples);
    if samples != [] {
      var before, last := samples[..|samples| - 1], samples[|samples| - 1];
      EntriesAreGreatest(before);
      assert samples == before + [last];
      forall k, v
        ensures Shows(view, k, v) <==> IsGreatest(samples, k, v)
      {
        OneMore(before, last, k, v);
      }
    }
  }

  lemma OneMore(before: seq<Sample>, last: Sample, k: ComponentKey, v: nat)
    requires forall k, v :: Shows(ObserveAll(before), k, v) <==> IsGreatest(before, k, v)
    ensures Shows(Observe(ObserveAll(before), last), k, v) <==> IsGreatest(before + [last], k, v)
  {
    var view := ObserveAll(before);
    var all := before + [last];
    assert forall s :: s in all <==> s in before || s == last;
    forall w: nat | Sample(k, w) in before
      ensures k in view
    {
      var top := Greatest(before, k, w);
      assert Shows(view, k, top);
    }
    if k != last.key {
      assert IsGreatest(all, k, v) <==> IsGreatest(before, k, v);
    } else if k in view {
      assert Shows(view, k, view[k]);
      assert IsGreatest(all, k, Max(view[k], last.value));
    } else {
      assert IsGreatest(all, k, last.value);
    }
  }

  lemma {:induction false} Greatest(samples: seq<Sample>, k: ComponentKey, w: nat) returns (top: nat)
    requires Sample(k, w) in samples
    ensures IsGreatest(samples, k, top)
    decreases |samples|
  {
    var before, last := samples[..|samples| - 1], samples[|samples| - 1];
    assert forall s :: s in samples <==> s in before || s == last;
    if u: nat :| Sample(k, u) in before {
      top := Greatest(before, k, u);
      if last.key == k && last.value > top {
        top := last.value;
      }
    } else {
      top := w;
    }
  }

  /** Duplicates, losses that were retried and reordering leave no trace: only the set of samples matters. */
  lemma ViewDependsOnTheSetOnly(a: seq<Sample>, b: seq<Sample>)
    requires forall s :: s in a <==> s in b
    ensures ObserveAll(a) == ObserveAll(b)
  {
    EntriesAreGreatest(a);
    EntriesAreGreatest(b);
    var x, y := ObserveAll(a), ObserveAll(b);
    forall k, v
      ensures Shows(x, k, v) <==> Shows(y, k, v)
    {
      assert IsGreatest(a, k, v) <==> IsGreatest(b, k, v);
    }
    forall k
      ensures k in x <==> k in y
      ensures k in x ==> x[k] == y[k]
    {
      if k in x { assert Shows(x, k, x[k]); }
      if k in y { assert Shows(y, k, y[k]); }
    }
  }

  /** The entries that one logical total adds up. */
  function Relevant(view: View, counter: nat, epoch: nat): (r: View)
  {
    map k | k in view && k.counter == counter && k.epoch == epoch :: view[k]
  }

  /** The part of a view that belongs to one counter in one epoch. */
  ghost predicate IsPart(m: View, view: View, counter: nat, epoch: nat)
  {
    && (forall k :: k in m <==> k in view && k.counter == counter && k.epoch == epoch)
    && (forall k :: k in m ==> m[k] == view[k])
  }

  lemma RelevantIsThePart(m: View, view: View, counter: nat, epoch: nat)
    ensures IsPart(m, view, counter, epoch) <==> m == Relevant(view, counter, epoch)
  {
  }

  /** Adds the entries up in whatever order the hash map yields them. */
  method MergedTotal(view: View, counter: nat, epoch: nat) returns (total: nat)
    ensures exists m: View :: IsPart(m, view, counter, epoch) && total == Min(SumMap<ComponentKey>(m), U64_MAX)
  {
    RelevantIsThePart(Relevant(view, counter, epoch), view, counter, epoch);
    hide IsPart, SumMap;
    total := 0;
    var rest := view;
    while rest != map[]
      invariant total <= U64_MAX
      invariant total + SumMap<ComponentKey>(Relevant(rest, counter, epoch)) == SumMap<ComponentKey>(Relevant(view, counter, epoch))
      decreases |rest|
    {
      var key: ComponentKey :| key in rest;
      var value := rest[key];
      assert (rest - {key}).Keys == rest.Keys - {key};
      if key.counter != counter || key.epoch != epoch {
        RelevantWithout(rest, key, counter, epoch);
        rest := rest - {key};
        continue;
      }
      RelevantWithout(rest, key, counter, epoch);
      if value > U64_MAX - total {
        return U64_MAX;
      }
      total := total + value;
      rest := rest - {key};
    }
    NothingRelevant(counter, epoch);
  }

  lemma RelevantWithout(view: View, key: ComponentKey, counter: nat, epoch: nat)
    requires key in view
    ensures
      var part, left := Relevant(view, counter, epoch), Relevant(view - {key}, counter, epoch);
      if key.counter == counter && key.epoch == epoch then SumMap<ComponentKey>(part) == view[key] + SumMap<ComponentKey>(left)
      else part == left
  {
    if key.counter == counter && key.epoch == epoch {
      SumMapRemove<ComponentKey>(Relevant(view, counter, epoch), key);
      assert Relevant(view - {key}, counter, epoch) == Relevant(view, counter, epoch) - {key};
    } else {
      assert Relevant(view - {key}, counter, epoch) == Relevant(view, counter, epoch);
    }
  }

  lemma NothingRelevant(counter: nat, epoch: nat)
    ensures Relevant(map[], counter, epoch) == map[] && SumMap<ComponentKey>(map[]) == 0
  {
  }

  /** A later view never shows a smaller total. */
  lemma TotalsNeverShrink(samples: seq<Sample>, more: seq<Sample>, counter: nat, epoch: nat)
    ensures SumMap<ComponentKey>(Relevant(ObserveAll(samples), counter, epoch))
         <= SumMap<ComponentKey>(Relevant(ObserveAll(samples + more), counter, epoch))
    decreases |more|
  {
    if more == [] {
      assert samples + more == samples;
    } else {
      var fewer, last := more[..|more| - 1], more[|more| - 1];
      TotalsNeverShrink(samples, fewer, counter, epoch);
      assert (samples + more)[..|samples + more| - 1] == samples + fewer;
      var view := Relevant(ObserveAll(samples + fewer), counter, epoch);
      var view' := Relevant(ObserveAll(samples + more), counter, epoch);
      if last.key.counter == counter && last.key.epoch == epoch {
        assert view' == view[last.key := ObserveAll(samples + more)[last.key]];
        SumMapUpdate<ComponentKey>(view, last.key, ObserveAll(samples + more)[last.key]);
      } else {
        assert view' == view;
      }
    }
  }
}
