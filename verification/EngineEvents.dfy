/** The LIMIT_REACHED event and the exhaustion cache, over every atomic step. */
module EngineEvents {
  import opened CounterTypes
  import opened EngineSteps
  import opened EngineInvariant
  import Sums

  /** Threads that have announced a shard but not yet counted it. */
  function Counting(threads: map<Tid, Thread>): (c: set<Tid>)
  {
    set t | t in threads && threads[t].pc == AddExhausted
  }

  function Announced(announced: seq<bool>): (a: set<nat>)
  {
    set i | 0 <= i < |announced| && announced[i]
  }

  /** On its way to announcing shard i. */
  predicate Announcing(s: State, th: Thread, i: nat)
    requires Shaped(s)
  {
    ShardOf(s, th.req) == i && (th.pc.Remember? || th.pc == LoadUsed || th.pc == CasAnnounce)
  }

  /** On its way to publishing the event: it has seen the count reach the limit. */
  predicate Publishing(s: State, th: Thread)
  {
    th.pc == CasCache || (th.pc.Remember? && th.pc.mode != ReservedPeak && th.pc.observed == s.limit)
  }

  predicate SomeoneAnnounces(s: State, i: nat)
    requires Shaped(s)
  {
    exists t :: t in s.threads && Announcing(s, s.threads[t], i)
  }

  predicate SomeonePublishes(s: State)
  {
    exists t :: t in s.threads && Publishing(s, s.threads[t])
  }

  /** A component that owns the whole limit, in peak mode, with its shard counts in place. */
  predicate FullPeak(s: State)
  {
    s.mode == ReservedPeak && s.reservation == s.limit && !s.control.CountFull? && !s.control.StoreFull?
  }

  /** Only full shards are announced, and the count of announcements is exact. */
  predicate AnnouncedOk(s: State)
    requires Shaped(s)
  {
    FullPeak(s) ==>
      && (forall i :: 0 <= i < |s.used| && s.announced[i] ==> s.used[i] == s.reserve[i])
      && s.exhausted + |Counting(s.threads)| == |Announced(s.announced)|
      && (forall i :: 0 <= i < |s.used| && s.used[i] == s.reserve[i] && !s.announced[i] ==> SomeoneAnnounces(s, i))
      && (s.limit > 0 && s.exhausted == |s.used| ==> s.cache || SomeonePublishes(s))
  }

  predicate Settling(c: Control)
  {
    c.CommitReset? || c.CommitEpoch? || c.CommitCache?
  }

  /** The event is published once at most, only at the limit, and never forgotten. With a
      limit of zero the count is at the limit before anybody could have noticed. */
  predicate CacheOk(s: State)
    requires Shaped(s)
  {
    && s.events <= 1 && (s.events == 1 ==> s.cache)
    && (s.cache ==> Value(s) == s.limit)
    && (s.cache && s.mode != RemoteStrict ==> s.events == 1)
    && (s.limit > 0 && s.mode != ReservedPeak && s.strict == s.limit && !Settling(s.control) ==>
          s.cache || SomeonePublishes(s))
    && (s.control.CountFull? || s.control.StoreFull? ==> (s.limit > 0 && Sums.SumSeq(s.used) == s.limit ==> s.cache))
  }

  predicate EventOk(s: State)
    requires Shaped(s)
  {
    AnnouncedOk(s) && CacheOk(s)
  }

  // ---------------------------------------------------------------- counting

  lemma CountingUpdate(threads: map<Tid, Thread>, t: Tid, th: Thread)
    ensures |Counting(threads[t := th])|
            == |Counting(threads)| - One(t in threads && threads[t].pc == AddExhausted) + One(th.pc == AddExhausted)
  {
    OneMember(Counting(threads), Counting(threads[t := th]), t);
  }

  lemma AnnouncedUpdate(announced: seq<bool>, i: nat)
    requires i < |announced| && !announced[i]
    ensures |Announced(announced[i := true])| == |Announced(announced)| + 1
  {
    assert Announced(announced[i := true]) == Announced(announced) + {i};
  }

  /** All n announcements made means every index is announced. */
  lemma {:induction false} AllAnnounced(announced: seq<bool>)
    ensures |Announced(announced)| <= |announced|
    ensures |Announced(announced)| == |announced| ==> forall i :: 0 <= i < |announced| ==> announced[i]
    ensures (forall i :: 0 <= i < |announced| ==> announced[i]) ==> |Announced(announced)| == |announced|
  {
    if announced == [] {
      assert Announced(announced) == {};
    } else {
      var n := |announced| - 1;
      var front := announced[..n];
      AllAnnounced(front);
      if announced[n] {
        assert Announced(announced) == Announced(front) + {n};
      } else {
        assert Announced(announced) == Announced(front);
      }
    }
  }

  /** Counting the full shards one by one agrees with the announcements. */
  lemma {:induction false} FullCountIsAnnounced(used: seq<nat>, reserve: seq<nat>, announced: seq<bool>, n: nat)
    requires n <= |used| == |reserve| == |announced|
    requires Flagged(used, reserve, announced, n)
    ensures Sums.FullCount(used, reserve, n) == |Announced(announced[..n])|
  {
    if n == 0 {
      assert Announced(announced[..0]) == {};
    } else {
      FullCountIsAnnounced(used, reserve, announced, n - 1);
      if announced[n - 1] {
        assert Announced(announced[..n]) == Announced(announced[..n - 1]) + {n - 1};
      } else {
        assert Announced(announced[..n]) == Announced(announced[..n - 1]);
      }
    }
  }

  /** The last announcement to be counted finds the whole limit used. */
  lemma LastAnnouncement(s: State, t: Tid)
    requires GateOk(s) && CountOk(s) && EventOk(s) && t in s.threads
    ensures EventsArePeakExact(s, s.threads[t])
  {
    assert ThreadOk(s, s.threads[t]);
    if s.threads[t].pc == AddExhausted && s.exhausted + 1 == |s.used| {
      assert FullPeak(s);
      assert Counting(s.threads) == (Counting(s.threads) - {t}) + {t};
      AllAnnounced(s.announced);
      assert s.used == s.reserve;
    }
  }

  // ---------------------------------------------------------------- request threads

  /** Whoever was about to announce a full shard still is, or has done so. */
  lemma AnnouncerMoves(s: State, t: Tid, spurious: bool, i: nat)
    requires CountOk(s) && t in s.threads && i < |s.used| && s.used[i] == s.reserve[i]
    requires s.mode == ReservedPeak && s.reservation == s.limit
    requires SomeoneAnnounces(s, i)
    ensures Shaped(RunThread(s, t, spurious))
    ensures SomeoneAnnounces(RunThread(s, t, spurious), i) || RunThread(s, t, spurious).announced[i]
  {
    var s' := RunThread(s, t, spurious);
    ThreadGrows(s, s.threads[t], spurious);
    var o :| o in s.threads && Announcing(s, s.threads[o], i);
    if o == t {
      assert ThreadOk(s, s.threads[t]);
      assert s'.announced[i] || Announcing(s', s'.threads[t], i);
    } else {
      assert Announcing(s', s'.threads[o], i);
    }
  }

  /** Whoever was about to publish still is, or the cache is set. */
  lemma PublisherMoves(s: State, t: Tid, spurious: bool)
    requires CountOk(s) && t in s.threads && SomeonePublishes(s)
    ensures SomeonePublishes(RunThread(s, t, spurious)) || RunThread(s, t, spurious).cache
  {
    var s' := RunThread(s, t, spurious);
    var o :| o in s.threads && Publishing(s, s.threads[o]);
    if o == t {
      assert ThreadOk(s, s.threads[t]);
      assert s'.cache || Publishing(s', s'.threads[t]);
    } else {
      ThreadGrows(s, s.threads[t], spurious);
      assert Publishing(s', s'.threads[o]);
    }
  }

  /** What one instruction does to the announcements. */
  lemma ThreadAnnounces(s: State, th: Thread, spurious: bool)
    requires CountOk(s) && ThreadOk(s, th)
    ensures
      var m := MoveThread(s, th, spurious);
      var i := ShardOf(s, th.req);
      && |m.shared.announced| == |s.announced|
      && m.shared.exhausted + One(m.pc == AddExhausted) - One(th.pc == AddExhausted) - s.exhausted
         == (if th.pc == CasAnnounce && !s.announced[i] then 1 else 0)
      && m.shared.announced == (if th.pc == CasAnnounce && !s.announced[i] then s.announced[i := true] else s.announced)
      && (th.pc == CasAnnounce ==> s.used[i] == s.reserve[i])
      && (s.cache ==> m.shared.cache)
  {
  }

  lemma AnnouncedCountThread(s: State, t: Tid, spurious: bool)
    requires CountOk(s) && AnnouncedOk(s) && t in s.threads && FullPeak(s)
    requires CountOk(RunThread(s, t, spurious))
    ensures
      var s' := RunThread(s, t, spurious);
      && (forall i :: 0 <= i < |s'.used| && s'.announced[i] ==> s'.used[i] == s'.reserve[i])
      && s'.exhausted + |Counting(s'.threads)| == |Announced(s'.announced)|
      && s'.limit == s.limit
  {
    hide Counting, SomeoneAnnounces, SomeonePublishes;
    var th := s.threads[t];
    var m := MoveThread(s, th, spurious);
    ThreadGrows(s, th, spurious);
    ThreadAnnounces(s, th, spurious);
    CountingUpdate(s.threads, t, th.(pc := m.pc));
    if th.pc == CasAnnounce && !s.announced[ShardOf(s, th.req)] {
      AnnouncedUpdate(s.announced, ShardOf(s, th.req));
    }
  }

  lemma AnnouncerThread(s: State, t: Tid, spurious: bool, i: nat)
    requires CountOk(s) && AnnouncedOk(s) && t in s.threads && FullPeak(s)
    requires CountOk(RunThread(s, t, spurious)) && i < |RunThread(s, t, spurious).used|
    requires RunThread(s, t, spurious).used[i] == RunThread(s, t, spurious).reserve[i] && !RunThread(s, t, spurious).announced[i]
    ensures SomeoneAnnounces(RunThread(s, t, spurious), i)
  {
    hide Counting, SomeoneAnnounces, SomeonePublishes;
    ThreadGrows(s, s.threads[t], spurious);
    ThreadAnnounces(s, s.threads[t], spurious);
    if s.used[i] == s.reserve[i] {
      AnnouncerMoves(s, t, spurious, i);
    } else {
      ShardFilled(s, t, spurious, i);
    }
  }

  lemma PublisherThread(s: State, t: Tid, spurious: bool)
    requires CountOk(s) && AnnouncedOk(s) && t in s.threads && FullPeak(s)
    requires CountOk(RunThread(s, t, spurious))
    requires s.limit > 0 && RunThread(s, t, spurious).exhausted == |RunThread(s, t, spurious).used|
    ensures RunThread(s, t, spurious).cache || SomeonePublishes(RunThread(s, t, spurious))
  {
    hide Counting, SomeoneAnnounces;
    var s' := RunThread(s, t, spurious);
    ThreadAnnounces(s, s.threads[t], spurious);
    if s.exhausted == |s.used| && !s.cache {
      PublisherMoves(s, t, spurious);
    } else if !s.cache {
      assert Publishing(s', s'.threads[t]);
    }
  }

  lemma AnnouncedThread(s: State, t: Tid, spurious: bool)
    requires GateOk(s) && CountOk(s) && EventOk(s) && t in s.threads && FullPeak(s)
    requires CountOk(RunThread(s, t, spurious))
    ensures AnnouncedOk(RunThread(s, t, spurious))
  {
    hide Counting, SomeoneAnnounces, SomeonePublishes, RunThread, ThreadOk, CacheOk;
    var s' := RunThread(s, t, spurious);
    AnnouncedCountThread(s, t, spurious);
    forall i: nat | i < |s'.used| && s'.used[i] == s'.reserve[i] && !s'.announced[i]
      ensures SomeoneAnnounces(s', i)
    {
      AnnouncerThread(s, t, spurious, i);
    }
    if s.limit > 0 && s'.exhausted == |s'.used| {
      PublisherThread(s, t, spurious);
    }
  }

  /** The request that fills a shard goes on to announce it. */
  lemma ShardFilled(s: State, t: Tid, spurious: bool, i: nat)
    requires CountOk(s) && t in s.threads && i < |s.used| && s.used[i] != s.reserve[i] && FullPeak(s)
    requires Shaped(RunThread(s, t, spurious)) && i < |RunThread(s, t, spurious).used|
    requires RunThread(s, t, spurious).used[i] == s.reserve[i]
    ensures SomeoneAnnounces(RunThread(s, t, spurious), i)
  {
    var s' := RunThread(s, t, spurious);
    assert ThreadOk(s, s.threads[t]);
    if !s.threads[t].pc.CasShard? && !s.threads[t].pc.CasStrict? {
      OnlyCasMoves(s, s.threads[t], spurious);
    }
    assert Announcing(s', s'.threads[t], i);
  }

  lemma CacheThread(s: State, t: Tid, spurious: bool)
    requires GateOk(s) && CountOk(s) && EventOk(s) && t in s.threads
    requires CountOk(RunThread(s, t, spurious))
    ensures CacheOk(RunThread(s, t, spurious))
  {
    var th := s.threads[t];
    var s' := RunThread(s, t, spurious);
    assert ThreadOk(s, th);
    ThreadGrows(s, th, spurious);
    ThreadAnnounces(s, th, spurious);
    ValueGrows(s, s');
    ValueFits(s');
    if s.limit > 0 && s'.mode != ReservedPeak && s'.strict == s'.limit && !s.cache && !Settling(s.control) {
      if s.strict == s.limit {
        PublisherMoves(s, t, spurious);
      } else {
        LimitReached(s, t, spurious);
      }
    }
    CacheFlips(s, th, spurious);
  }

  /** The cache is flipped by one thread, once, and only when the count is at the limit. */
  lemma CacheFlips(s: State, th: Thread, spurious: bool)
    requires CountOk(s) && ThreadOk(s, th)
    ensures
      var m := MoveThread(s, th, spurious).shared;
      && ((m.cache == s.cache && m.events == s.events)
          || (!s.cache && m.cache && m.events == s.events + 1 && th.pc == CasCache && Value(s) == s.limit && Value(m) == s.limit))
  {
  }

  /** The request that brings the strict counter to the limit goes on to publish. */
  lemma LimitReached(s: State, t: Tid, spurious: bool)
    requires CountOk(s) && t in s.threads && s.strict != s.limit && s.mode != ReservedPeak
    requires RunThread(s, t, spurious).strict == s.limit
    ensures SomeonePublishes(RunThread(s, t, spurious))
  {
    var s' := RunThread(s, t, spurious);
    assert ThreadOk(s, s.threads[t]);
    if !s.threads[t].pc.CasShard? && !s.threads[t].pc.CasStrict? {
      OnlyCasMoves(s, s.threads[t], spurious);
    }
    assert Publishing(s', s'.threads[t]);
  }

  lemma EventThread(s: State, t: Tid, spurious: bool)
    requires GateOk(s) && CountOk(s) && EventOk(s) && t in s.threads
    requires CountOk(RunThread(s, t, spurious))
    ensures EventOk(RunThread(s, t, spurious))
  {
    ThreadGrows(s, s.threads[t], spurious);
    if FullPeak(s) {
      AnnouncedThread(s, t, spurious);
    }
    CacheThread(s, t, spurious);
  }

  // ---------------------------------------------------------------- the control thread

  lemma NobodyAnnouncesOrPublishes(s: State)
    requires Shaped(s) && NobodyInside(s)
    ensures !SomeonePublishes(s) && |Counting(s.threads)| == 0
    ensures forall i :: 0 <= i < |s.used| ==> !SomeoneAnnounces(s, i)
  {
    assert Counting(s.threads) == {};
  }

  /** At a drained point in peak mode, a count at the limit is known to the cache. */
  lemma DrainedPeakKnowsLimit(s: State)
    requires GateOk(s) && CountOk(s) && EventOk(s) && NobodyInside(s) && FullPeak(s)
    requires Sums.SumSeq(s.used) == s.limit > 0
    ensures s.cache
  {
    NobodyAnnouncesOrPublishes(s);
    Sums.SumSeqMonotone(s.used, s.reserve);
    AllAnnounced(s.announced);
  }

  lemma StoreFullIsExact(s: State)
    requires GateOk(s) && CountOk(s) && EventOk(s) && s.control.StoreFull?
    ensures EventOk(RunControl(s))
  {
    NobodyAnnouncesOrPublishes(s);
    FullCountIsAnnounced(s.used, s.reserve, s.announced, |s.used|);
    assert s.announced[..|s.used|] == s.announced;
    AllAnnounced(s.announced);
    if |Announced(s.announced)| == |s.used| {
      assert s.used == s.reserve;
    }
    assert NobodyInside(RunControl(s));
    NobodyAnnouncesOrPublishes(RunControl(s));
  }

  lemma PublishModeKeepsEvents(s: State)
    requires GateOk(s) && CountOk(s) && EventOk(s)
    requires s.control == ReservedPublish || s.control == DangerPublish || s.control.CommitPublish?
    ensures EventOk(RunControl(s))
  {
    NobodyAnnouncesOrPublishes(s);
    ValueFits(s);
    if s.control == DangerPublish && Sums.SumSeq(s.used) == s.limit > 0 {
      DrainedPeakKnowsLimit(s);
    }
  }

  lemma CommitCacheKeepsEvents(s: State)
    requires GateOk(s) && CountOk(s) && EventOk(s) && s.control.CommitCache?
    ensures EventOk(RunControl(s))
  {
    NobodyAnnouncesOrPublishes(s);
  }

  /** Every other control step leaves what the events depend on alone. */
  predicate PlainStep(c: Control)
  {
    !c.StoreFull? && c != ReservedPublish && c != DangerPublish && !c.CommitPublish? && !c.CommitCache?
  }

  lemma PlainStepShared(s: State)
    requires Shaped(s) && ControlReady(s) && PlainStep(s.control)
    ensures
      var s' := RunControl(s);
      && s'.threads == s.threads && s'.cache == s.cache && s'.events == s.events && s'.mode == s.mode
      && s'.limit == s.limit && s'.reservation == s.reservation && s'.reserve == s.reserve
  {
  }

  lemma PlainStepPhases(s: State)
    requires Shaped(s) && ControlReady(s) && PlainStep(s.control)
    ensures Settling(s.control) ==> Settling(RunControl(s).control)
    ensures RunControl(s).control.CountFull? || RunControl(s).control.StoreFull? <==> s.control.CountFull?
  {
    if !Settling(s.control) && !s.control.CountFull? {
      assert !RunControl(s).control.CountFull? && !RunControl(s).control.StoreFull?;
    }
  }

  lemma PlainStepCount(s: State)
    requires Shaped(s) && ControlReady(s) && ControlOk(s) && PlainStep(s.control)
    ensures s.mode != ReservedPeak ==> RunControl(s).strict == s.strict
    ensures s.mode == ReservedPeak && s.control != ResetFull ==>
              RunControl(s).used == s.used && RunControl(s).announced == s.announced
  {
    hide ControlReady;
  }

  lemma PlainStepExhausted(s: State)
    requires Shaped(s) && ControlReady(s) && ControlOk(s) && PlainStep(s.control)
    ensures s.mode == ReservedPeak ==> RunControl(s).exhausted == s.exhausted && s.control != ResetFull
  {
  }

  lemma OtherControlKeepsEvents(s: State)
    requires GateOk(s) && CountOk(s) && EventOk(s) && ControlReady(s) && CountOk(RunControl(s))
    requires PlainStep(s.control)
    ensures EventOk(RunControl(s))
  {
    PlainStepShared(s);
    PlainStepPhases(s);
    PlainStepCount(s);
    PlainStepExhausted(s);
    SameEvents(s, RunControl(s));
  }

  lemma SameEvents(s: State, s': State)
    requires Shaped(s) && Shaped(s') && EventOk(s) && |s'.used| == |s.used|
    requires s'.threads == s.threads && s'.cache == s.cache && s'.events == s.events && s'.mode == s.mode
    requires s'.limit == s.limit && s'.reservation == s.reservation && s'.reserve == s.reserve
    requires s.mode != ReservedPeak ==> s'.strict == s.strict
    requires s.mode == ReservedPeak ==> s'.used == s.used && s'.announced == s.announced && s'.exhausted == s.exhausted
    requires FullPeak(s') ==> FullPeak(s)
    requires Settling(s.control) ==> Settling(s'.control)
    requires s'.control.CountFull? || s'.control.StoreFull? ==> s.control.CountFull? && s.mode == ReservedPeak
    ensures EventOk(s')
  {
    if FullPeak(s') {
      forall i | 0 <= i < |s.used| && SomeoneAnnounces(s, i) ensures SomeoneAnnounces(s', i) {
        var o :| o in s.threads && Announcing(s, s.threads[o], i);
        assert Announcing(s', s'.threads[o], i);
      }
    }
    if SomeonePublishes(s) {
      var o :| o in s.threads && Publishing(s, s.threads[o]);
      assert Publishing(s', s'.threads[o]);
    }
  }

  lemma EventControl(s: State)
    requires GateOk(s) && CountOk(s) && EventOk(s) && ControlReady(s) && CountOk(RunControl(s))
    ensures EventOk(RunControl(s))
  {
    if s.control.StoreFull? {
      StoreFullIsExact(s);
    } else if s.control == ReservedPublish || s.control == DangerPublish || s.control.CommitPublish? {
      PublishModeKeepsEvents(s);
    } else if s.control.CommitCache? {
      CommitCacheKeepsEvents(s);
    } else {
      OtherControlKeepsEvents(s);
    }
  }

  /** A change that touches neither the count nor any witness keeps the events in order. */
  lemma EventFrame(s: State, s': State)
    requires Shaped(s) && EventOk(s)
    requires s' == s.(control := s'.control, threads := s'.threads)
    requires Counting(s'.threads) == Counting(s.threads)
    requires forall t :: t in s.threads && Guarded(s.threads[t].pc) ==> t in s'.threads && s'.threads[t] == s.threads[t]
    requires s'.control.CountFull? ==> s.control.CountFull?
    requires s'.control.StoreFull? <==> s.control.StoreFull?
    requires s.control.CountFull? ==> s'.control.CountFull?
    requires Settling(s.control) ==> Settling(s'.control)
    ensures EventOk(s')
  {
    forall i | 0 <= i < |s.used| && SomeoneAnnounces(s, i) ensures SomeoneAnnounces(s', i) {
      var o :| o in s.threads && Announcing(s, s.threads[o], i);
      assert Announcing(s', s'.threads[o], i);
    }
    if SomeonePublishes(s) {
      var o :| o in s.threads && Publishing(s, s.threads[o]);
      assert Publishing(s', s'.threads[o]);
    }
  }

  // ---------------------------------------------------------------- every step

  ghost predicate Inv(s: State)
  {
    GateOk(s) && CountOk(s) && EventOk(s)
  }

  lemma InitHolds(s: State)
    requires Init(s)
    ensures Inv(s)
  {
    ZeroSum(s.used);
    assert Flying(s.threads) == {};
  }

  lemma {:induction false} ZeroSum(u: seq<nat>)
    requires forall i :: 0 <= i < |u| ==> u[i] == 0
    ensures Sums.SumSeq(u) == 0
  {
    if u != [] {
      ZeroSum(u[..|u| - 1]);
    }
  }

  lemma ArriveKeepsInv(s: State, t: Tid, req: Request)
    requires Inv(s) && Finished(s, t)
    ensures Inv(s.(threads := s.threads[t := Thread(ReadCache, req)]))
  {
    var s' := s.(threads := s.threads[t := Thread(ReadCache, req)]);
    GateArrive(s, t, req);
    CountArrive(s, t, req);
    assert Counting(s'.threads) == Counting(s.threads);
    EventFrame(s, s');
  }

  lemma RunKeepsInv(s: State, t: Tid, spurious: bool)
    requires Inv(s) && t in s.threads
    ensures Inv(RunThread(s, t, spurious))
  {
    GateThread(s, t, spurious);
    LastAnnouncement(s, t);
    CountThread(s, t, spurious);
    EventThread(s, t, spurious);
  }

  lemma BeginKeepsInv(s: State, call: Call)
    requires Inv(s) && IncludesOwnPart(s, call)
    ensures Inv(Begin(s, call))
  {
    GateBegin(s, call);
    BeginControl(s, call);
    CountBegin(s, call);
    EventFrame(s, Begin(s, call));
  }

  lemma DriveKeepsInv(s: State)
    requires Inv(s) && ControlReady(s)
    ensures Inv(RunControl(s))
  {
    GateControl(s);
    CountControl(s);
    EventControl(s);
  }

  lemma StepKeepsInv(s: State, step: Step, s': State)
    requires Inv(s) && Next(s, step, s')
    ensures Inv(s')
  {
    match step
    case Arrive(t, req) => ArriveKeepsInv(s, t, req);
    case Run(t, spurious) => RunKeepsInv(s, t, spurious);
    case Invoke(call) => BeginKeepsInv(s, call);
    case Drive => DriveKeepsInv(s);
  }

  lemma {:induction false} Reachable(run: seq<State>, steps: seq<Step>, k: nat)
    requires IsRun(run, steps) && k < |run|
    ensures Inv(run[k])
  {
    if k == 0 {
      InitHolds(run[0]);
    } else {
      Reachable(run, steps, k - 1);
      var j := k - 1;
      assert StepAt(run, steps, j);
      StepKeepsInv(run[j], steps[j], run[j + 1]);
    }
  }
}
