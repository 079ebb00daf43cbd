/** What the engine promises in every state of every interleaving. */
module EngineTheorems {
  import opened CounterTypes
  import opened EngineSteps
  import opened EngineInvariant
  import opened EngineEvents
  import Handoff = HandoffProtocol
  import Sums

  lemma At(run: seq<State>, steps: seq<Step>, k: nat)
    requires IsRun(run, steps) && k < |steps|
    ensures Inv(run[k]) && Inv(run[k + 1]) && Next(run[k], steps[k], run[k + 1])
  {
    Reachable(run, steps, k);
    Reachable(run, steps, k + 1);
    assert StepAt(run, steps, k);
  }

  // ---------------------------------------------------------------- quiescence

  /** Once the closer has seen nobody in flight, nobody is inside until the gate is opened
      again, and what was drained stays put, although late threads may still be counted. */
  lemma DrainedIsQuiescent(run: seq<State>, steps: seq<Step>, k: nat)
    requires IsRun(run, steps) && k < |steps| && DrainedBy(run[k].control)
    ensures !run[k].open && NobodyInside(run[k])
    ensures steps[k].Run? || steps[k].Arrive? ==>
              && NobodyInside(run[k + 1])
              && run[k + 1] == run[k].(threads := run[k + 1].threads, inFlight := run[k + 1].inFlight)
  {
    At(run, steps, k);
    if steps[k].Run? {
      LateThread(run[k], run[k].threads[steps[k].t], steps[k].spurious);
      ThreadAtGate(run[k], run[k].threads[steps[k].t], steps[k].spurious);
    }
  }

  lemma LateThread(s: State, th: Thread, spurious: bool)
    requires Shaped(s) && !Guarded(th.pc)
    ensures MoveThread(s, th, spurious).shared == s.(inFlight := MoveThread(s, th, spurious).shared.inFlight)
  {
  }

  // ---------------------------------------------------------------- conservation

  /** In every state the count, wherever it lives, is what was imported plus what was
      accepted, and it is within the limit. */
  lemma CountIsConserved(run: seq<State>, steps: seq<Step>, k: nat)
    requires IsRun(run, steps) && k < |run|
    ensures Value(run[k]) == run[k].imported + run[k].accepted
    ensures Value(run[k]) <= run[k].limit
  {
    Reachable(run, steps, k);
    ValueFits(run[k]);
  }

  predicate Committing(c: Control)
  {
    c.CommitSeed? || c.CommitPublish? || c.CommitReset? || c.CommitEpoch? || c.CommitCache?
  }

  /** Without a distributed commit nothing is ever imported: through any number of local
      mode changes the count is exactly the sum of the accepted deltas. */
  lemma {:induction false} LocalModeChangesConserve(run: seq<State>, steps: seq<Step>, k: nat)
    requires IsRun(run, steps) && k < |run|
    requires forall j :: 0 <= j < k ==> !(steps[j].Invoke? && steps[j].call.CommitBarrier?)
    ensures run[k].imported == 0 && run[k].mode != RemoteStrict && !Committing(run[k].control)
    ensures Value(run[k]) == run[k].accepted <= run[k].limit
  {
    if k > 0 {
      LocalModeChangesConserve(run, steps, k - 1);
      LocalStep(run, steps, k - 1);
    }
    if run[k].mode != RemoteStrict {
      CountIsConserved(run, steps, k);
    }
  }

  lemma LocalStep(run: seq<State>, steps: seq<Step>, k: nat)
    requires IsRun(run, steps) && k < |steps|
    requires !(steps[k].Invoke? && steps[k].call.CommitBarrier?)
    requires run[k].imported == 0 && run[k].mode != RemoteStrict && !Committing(run[k].control)
    ensures run[k + 1].imported == 0 && run[k + 1].mode != RemoteStrict && !Committing(run[k + 1].control)
  {
    hide GateOk, EventOk, ControlOk, ThreadOk;
    At(run, steps, k);
    match steps[k]
    case Arrive(_, _) =>
    case Run(t, spurious) => ThreadGrows(run[k], run[k].threads[t], spurious);
    case Invoke(_) =>
    case Drive => LocalDrive(run[k]);
  }

  lemma LocalDrive(s: State)
    requires Shaped(s) && ControlReady(s) && !Committing(s.control) && s.mode != RemoteStrict
    ensures RunControl(s).imported == s.imported && RunControl(s).mode != RemoteStrict && !Committing(RunControl(s).control)
  {
    ControlHistory(s);
    OnlyCommitsGoRemote(s);
    OnlyCommitsCommit(s);
  }

  lemma OnlyCommitsGoRemote(s: State)
    requires Shaped(s) && ControlReady(s) && !s.control.CommitPublish? && s.mode != RemoteStrict
    ensures RunControl(s).mode != RemoteStrict
  {
  }

  lemma OnlyCommitsCommit(s: State)
    requires Shaped(s) && ControlReady(s) && !Committing(s.control)
    ensures !Committing(RunControl(s).control)
  {
  }

  // ---------------------------------------------------------------- decisions

  /** A strict decision is exact at the moment it is made: accepted if and only if the delta
      fits, and rejected only if it does not fit the value of that very moment. */
  lemma StrictDecidesExactly(run: seq<State>, steps: seq<Step>, k: nat)
    requires IsRun(run, steps) && k < |steps| && steps[k].Run? && steps[k].t in run[k].threads
    requires run[k].threads[steps[k].t].pc.CasStrict?
    ensures steps[k].t in run[k + 1].threads
    ensures
      var s, s' := run[k], run[k + 1];
      var delta, pc' := s.threads[steps[k].t].req.delta, s'.threads[steps[k].t].pc;
      && s.mode != ReservedPeak && s.mode != RemoteStrict
      && (pc'.Remember? ==> s.strict + delta <= s.limit && s'.strict == s.strict + delta == pc'.observed && s'.accepted == s.accepted + delta)
      && (pc' == Leave(Rejected) ==> s.strict + delta > s.limit && s'.strict == s.strict && s'.accepted == s.accepted)
      && (pc'.CasStrict? ==> s'.strict == s.strict && s'.accepted == s.accepted)
      && (pc'.Remember? || pc' == Leave(Rejected) || pc'.CasStrict?)
  {
    At(run, steps, k);
    assert Shaped(run[k]) && ThreadOk(run[k], run[k].threads[steps[k].t]);
    hide Inv, IsRun;
  }

  /** Peak mode can only err by rejecting: what it accepts fits the whole reservation, and
      it rejects only because the chosen shard is too full. */
  lemma PeakErrsOnlyByRejecting(run: seq<State>, steps: seq<Step>, k: nat)
    requires IsRun(run, steps) && k < |steps| && steps[k].Run? && steps[k].t in run[k].threads
    requires run[k].threads[steps[k].t].pc.CasShard?
    ensures Shaped(run[k]) && Shaped(run[k + 1]) && steps[k].t in run[k + 1].threads
    ensures
      var s, s' := run[k], run[k + 1];
      var th, pc' := s.threads[steps[k].t], s'.threads[steps[k].t].pc;
      var i := ShardOf(s, th.req);
      && s.mode == ReservedPeak && i < |s.reserve|
      && (pc'.Remember? ==> Value(s') == Value(s) + th.req.delta <= s.reservation && s'.accepted == s.accepted + th.req.delta)
      && (pc' == Leave(Rejected) ==> s.used[i] + th.req.delta > s.reserve[i] && s'.used == s.used && s'.accepted == s.accepted)
      && (pc'.Remember? || pc' == Leave(Rejected) || (pc'.CasShard? && s'.used == s.used))
  {
    At(run, steps, k);
    var s := run[k];
    var th := s.threads[steps[k].t];
    assert ThreadOk(s, th);
    ShardCas(s, th, steps[k].spurious);
    ValueFits(run[k + 1]);
  }

  // ---------------------------------------------------------------- the limit event

  predicate AtRest(s: State)
  {
    s.control == Free && NobodyInside(s)
  }

  /** LIMIT_REACHED is published at most once in a whole run, and whoever publishes it does
      so while the count is exactly the limit. */
  lemma PublishedOnceAndOnlyAtTheLimit(run: seq<State>, steps: seq<Step>, k: nat)
    requires IsRun(run, steps) && k < |steps|
    ensures run[k + 1].events <= 1
    ensures run[k].events <= run[k + 1].events
    ensures run[k + 1].events > run[k].events ==>
              run[k].mode != RemoteStrict && Value(run[k]) == run[k].limit && Value(run[k + 1]) == run[k + 1].limit
  {
    hide GateOk, Init;
    At(run, steps, k);
    var s := run[k];
    match steps[k]
    case Arrive(_, _) =>
    case Run(t, spurious) =>
      assert ThreadOk(s, s.threads[t]);
      CacheFlips(s, s.threads[t], spurious);
    case Invoke(_) =>
    case Drive => ControlPublishes(s);
  }

  lemma ControlPublishes(s: State)
    requires CountOk(s) && ControlReady(s)
    ensures RunControl(s).events == s.events || (s.control.CommitCache? && RunControl(s).events == s.events + 1)
    ensures RunControl(s).events > s.events ==>
              s.mode != RemoteStrict && Value(s) == s.limit && Value(RunControl(s)) == RunControl(s).limit
  {
    if s.control.CommitCache? {
      CommitAnnounces(s);
    }
  }

  /** At rest the cache knows the limit if and only if the count is there, and outside
      remote mode the event has been published if and only if the cache knows. */
  lemma EventIffLimit(run: seq<State>, steps: seq<Step>, k: nat)
    requires IsRun(run, steps) && k < |run| && AtRest(run[k])
    ensures run[k].cache ==> Value(run[k]) == run[k].limit
    ensures run[k].limit > 0 ==> (run[k].cache <==> Value(run[k]) == run[k].limit)
    ensures run[k].mode != RemoteStrict ==> run[k].events == (if run[k].cache then 1 else 0)
  {
    Reachable(run, steps, k);
    var s := run[k];
    NobodyAnnouncesOrPublishes(s);
    ValueFits(s);
    if s.mode == ReservedPeak && Value(s) == s.limit > 0 {
      DrainedPeakKnowsLimit(s);
    }
  }

  lemma {:induction false} LimitIsFixed(run: seq<State>, steps: seq<Step>, k: nat)
    requires IsRun(run, steps) && k < |run|
    ensures run[k].limit == run[0].limit
  {
    if k > 0 {
      LimitIsFixed(run, steps, k - 1);
      assert StepAt(run, steps, k - 1);
      hide Next, Init;
      LimitStays(run[k - 1], steps[k - 1], run[k]);
    }
  }

  lemma LimitStays(s: State, step: Step, s': State)
    requires Next(s, step, s')
    ensures s'.limit == s.limit
  {
    hide Stored, NextControl, MoveThread, ControlReady, Shaped;
    match step
    case Arrive(_, _) =>
    case Run(t, spurious) => KeepsFrame(s, s.threads[t], spurious);
    case Invoke(_) =>
    case Drive => StoredShared(s);
  }

  /** No instruction of the control thread touches the bounds, the history or the counter. */
  lemma StoredShared(s: State)
    requires Shaped(s) && ControlReady(s)
    ensures Stored(s).limit == s.limit && Stored(s).reservation == s.reservation
    ensures Stored(s).accepted == s.accepted && Stored(s).counter == s.counter
  {
    hide Shaped;
  }

  /** From a given start, the cache tells the truth in every state of rest if and only if
      the limit is not zero: a limit of zero is reached before anybody can publish it. */
  lemma RestTellsTheLimitIffItIsPositive(start: State)
    requires Init(start)
    ensures (forall run: seq<State>, steps: seq<Step>, k: nat ::
               IsRun(run, steps) && k < |run| && run[0] == start && AtRest(run[k]) ==>
                 (run[k].cache <==> Value(run[k]) == run[k].limit))
            <==> start.limit > 0
  {
    if start.limit > 0 {
      forall run: seq<State>, steps: seq<Step>, k: nat | IsRun(run, steps) && k < |run| && run[0] == start && AtRest(run[k])
        ensures run[k].cache <==> Value(run[k]) == run[k].limit
      {
        LimitIsFixed(run, steps, k);
        EventIffLimit(run, steps, k);
      }
    } else {
      var run: seq<State>, steps: seq<Step> := [start], [];
      assert forall k: nat :: StepAt(run, steps, k);
      assert IsRun(run, steps) && AtRest(run[0]);
    }
  }

  /** At rest in full-reservation peak mode, the announced count is the number of full
      shards, zero-capacity shards and seeded starts included: it reaches the number of
      shards exactly when every shard is full. */
  lemma AnnouncedCountIsExact(run: seq<State>, steps: seq<Step>, k: nat)
    requires IsRun(run, steps) && k < |run| && AtRest(run[k])
    requires run[k].mode == ReservedPeak && run[k].reservation == run[k].limit
    ensures Shaped(run[k])
    ensures run[k].exhausted == Sums.FullCount(run[k].used, run[k].reserve, |run[k].used|)
    ensures run[k].exhausted == |run[k].used| <==> run[k].used == run[k].reserve
  {
    Reachable(run, steps, k);
    var s := run[k];
    NobodyAnnouncesOrPublishes(s);
    FullCountIsAnnounced(s.used, s.reserve, s.announced, |s.used|);
    assert s.announced[..|s.used|] == s.announced;
    AllAnnounced(s.announced);
  }

  // ---------------------------------------------------------------- retries

  /** A request meets a changed value at most limit - first times: every such failure means
      that the counter has strictly grown since the thread last looked. */
  lemma RetriesAreBounded(run: seq<State>, steps: seq<Step>, k: nat, t: Tid)
    requires IsRun(run, steps) && k < |run| && t in run[k].threads
    ensures Shaped(run[k])
    ensures run[k].threads[t].pc.CasStrict? ==>
              run[k].threads[t].pc.first + run[k].threads[t].pc.failures <= run[k].threads[t].pc.cur <= run[k].strict <= run[k].limit
    ensures run[k].threads[t].pc.CasShard? ==>
              var i := ShardOf(run[k], run[k].threads[t].req);
              run[k].threads[t].pc.first + run[k].threads[t].pc.failures <= run[k].threads[t].pc.cur
              <= run[k].used[i] <= run[k].reserve[i]
  {
    Reachable(run, steps, k);
    assert ThreadOk(run[k], run[k].threads[t]);
  }

  /** A non-spurious failure: the counter had grown. A request of delta zero never causes one. */
  lemma FailureMeansGrowth(run: seq<State>, steps: seq<Step>, k: nat)
    requires IsRun(run, steps) && k < |steps| && steps[k].Run? && steps[k].t in run[k].threads
    requires run[k].threads[steps[k].t].pc.CasStrict?
    ensures steps[k].t in run[k + 1].threads
    ensures
      var pc, pc' := run[k].threads[steps[k].t].pc, run[k + 1].threads[steps[k].t].pc;
      && (pc'.CasStrict? && pc'.failures > pc.failures ==> pc'.failures == pc.failures + 1 && pc'.cur == run[k].strict > pc.cur)
      && (run[k].threads[steps[k].t].req.delta == 0 ==> run[k + 1].strict == run[k].strict)
  {
    At(run, steps, k);
    assert ThreadOk(run[k], run[k].threads[steps[k].t]);
  }

  /** The same for the compare-and-swap loop of a shard. */
  lemma ShardFailureMeansGrowth(run: seq<State>, steps: seq<Step>, k: nat)
    requires IsRun(run, steps) && k < |steps| && steps[k].Run? && steps[k].t in run[k].threads
    requires run[k].threads[steps[k].t].pc.CasShard?
    ensures Shaped(run[k]) && steps[k].t in run[k + 1].threads
    ensures
      var th, pc' := run[k].threads[steps[k].t], run[k + 1].threads[steps[k].t].pc;
      && (pc'.CasShard? && pc'.failures > th.pc.failures ==>
            pc'.failures == th.pc.failures + 1 && pc'.cur == run[k].used[ShardOf(run[k], th.req)] > th.pc.cur)
      && (th.req.delta == 0 ==> run[k + 1].used == run[k].used)
  {
    At(run, steps, k);
    var th := run[k].threads[steps[k].t];
    assert ThreadOk(run[k], th);
    hide Inv;
    ShardRetry(run[k], th, steps[k].spurious);
  }

  lemma ShardRetry(s: State, th: Thread, spurious: bool)
    requires Shaped(s) && th.pc.CasShard? && th.pc.cur <= s.used[ShardOf(s, th.req)]
    ensures
      var m := MoveThread(s, th, spurious);
      && (m.pc.CasShard? && m.pc.failures > th.pc.failures ==>
            m.pc.failures == th.pc.failures + 1 && m.pc.cur == s.used[ShardOf(s, th.req)] > th.pc.cur)
      && (th.req.delta == 0 ==> m.shared.used == s.used)
  {
  }

  // ---------------------------------------------------------------- concurrent scans

  /** While a scan runs beside requests its recorded start stays what it was. */
  lemma {:induction false} SampleKeepsStart(run: seq<State>, steps: seq<Step>, j: nat, k: nat)
    requires IsRun(run, steps) && j < k < |run|
    requires run[j].control == Free && steps[j] == Invoke(Sample)
    requires forall i :: j < i <= k ==> run[i].control.SampleScan?
    ensures run[k].control.atStart == Sums.SumSeq(run[j].used)
  {
    if k == j + 1 {
      At(run, steps, j);
    } else {
      SampleKeepsStart(run, steps, j, k - 1);
      SampleStep(run, steps, k - 1);
    }
  }

  lemma SampleStep(run: seq<State>, steps: seq<Step>, k: nat)
    requires IsRun(run, steps) && k < |steps| && run[k].control.SampleScan? && run[k + 1].control.SampleScan?
    ensures run[k + 1].control.atStart == run[k].control.atStart
  {
    hide Inv, CacheOk, CountOk;
    At(run, steps, k);
    if steps[k].Run? {
      ThreadKeepsGate(run[k], run[k].threads[steps[k].t], steps[k].spurious);
    }
  }

  /** A total read shard by shard while requests go on lies between the true totals at its
      start and at its end: it cannot overflow, and the reservation minus it cannot underflow. */
  lemma ScanLiesBetween(run: seq<State>, steps: seq<Step>, j: nat, k: nat)
    requires IsRun(run, steps) && j < k < |run|
    requires run[j].control == Free && steps[j] == Invoke(Sample)
    requires forall i :: j < i <= k ==> run[i].control.SampleScan?
    requires run[k].control.i == |run[k].used|
    ensures Sums.SumSeq(run[j].used) <= run[k].control.acc <= Sums.SumSeq(run[k].used) <= run[k].reservation
  {
    SampleKeepsStart(run, steps, j, k);
    Reachable(run, steps, k);
    var s := run[k];
    assert s.used[..|s.used|] == s.used && s.used[|s.used|..] == [];
    ValueFits(s);
  }

  // ---------------------------------------------------------------- refinement

  /** The barrier of a distributed handoff is in force: drained and not yet decided. */
  predicate BarrierHeld(c: Control)
  {
    c.HandoffScan? || c.Held? || c.CommitSeed? || c.CommitPublish?
  }

  /** The mode is published but its epoch is not yet counted. */
  predicate EpochPending(c: Control)
  {
    c.CountFull? || c.StoreFull? || c == BumpEpoch || c == ResetFull || c.CommitReset? || c.CommitEpoch?
  }

  /** The engine of the cluster protocol as an abstraction of the atomic one. */
  predicate Matches(s: State, e: Handoff.Engine)
  {
    && e.limit == s.limit && e.reservation == s.reservation && e.mode == s.mode
    && (s.mode == ReservedPeak ==> e.peakTotal == Sums.SumSeq(s.used))
    && (s.mode != ReservedPeak ==> e.strictValue == s.strict)
    && e.accepted == s.accepted && e.counter == s.counter
    && e.epoch == s.epoch + (if EpochPending(s.control) then 1 else 0)
    && e.gateOpen == !BarrierHeld(s.control) && e.handoffActive == BarrierHeld(s.control)
  }

  /** One step of the abstract engine, or none. */
  ghost predicate AbstractStep(e: Handoff.Engine, e': Handoff.Engine)
  {
    || e' == e
    || (exists delta: nat, counter: nat :: Handoff.AcceptAllowed(e, delta) && e' == Handoff.Accept(e, delta, counter))
    || e' == Handoff.BeginHandoff(e).engine
    || e' == Handoff.AbortHandoff(e)
    || (exists total: nat, owner: bool :: Handoff.CommitAllowed(e, total) && e' == Handoff.CommitHandoff(e, total, owner))
    || e' == Handoff.LocalDanger(e)
    || e' == Handoff.LocalReserved(e)
  }

  predicate SameFrame(s: State, s': State)
  {
    && s'.limit == s.limit && s'.reservation == s.reservation && s'.mode == s.mode
    && s'.epoch == s.epoch && s'.control == s.control
  }

  /** A successful CAS is one admission of the abstract engine. */
  lemma CasRefines(s: State, s': State, e: Handoff.Engine, delta: nat)
    requires Matches(s, e) && SameFrame(s, s') && s'.counter == s.counter
    requires s.mode != RemoteStrict && !BarrierHeld(s.control)
    requires Value(s') == Value(s) + delta && s'.accepted == s.accepted + delta
    requires Value(s') <= (if s.mode == ReservedPeak then s.reservation else s.limit)
    ensures Handoff.AcceptAllowed(e, delta) && Matches(s', Handoff.Accept(e, delta, e.counter))
  {
  }

  lemma IdleRefines(s: State, s': State, e: Handoff.Engine)
    requires Matches(s, e) && SameFrame(s, s') && s'.counter == s.counter
    requires s'.used == s.used && s'.strict == s.strict && s'.accepted == s.accepted
    ensures Matches(s', e)
  {
  }

  /** Noting the counter after an admission is an admission of nothing. */
  lemma RememberRefines(s: State, s': State, e: Handoff.Engine)
    requires Matches(s, e) && SameFrame(s, s') && SharesOk(s) && s.mode != RemoteStrict && !BarrierHeld(s.control)
    requires s'.used == s.used && s'.strict == s.strict && s'.accepted == s.accepted
    ensures Handoff.AcceptAllowed(e, 0) && Matches(s', Handoff.Accept(e, 0, s'.counter))
  {
    ValueFits(s);
  }

  lemma KeepsCounter(s: State, th: Thread, spurious: bool)
    requires Shaped(s) && !th.pc.Remember?
    ensures MoveThread(s, th, spurious).shared.counter == s.counter
  {
  }

  lemma KeepsFrame(s: State, th: Thread, spurious: bool)
    requires Shaped(s)
    ensures SameFrame(s, MoveThread(s, th, spurious).shared)
  {
  }

  /** A compare-and-swap: one admission, of nothing if it fails. */
  lemma CasThreadRefines(s: State, t: Tid, spurious: bool, e: Handoff.Engine) returns (e': Handoff.Engine)
    requires Inv(s) && t in s.threads && Matches(s, e) && SharesOk(RunThread(s, t, spurious))
    requires s.threads[t].pc.CasStrict? || s.threads[t].pc.CasShard?
    ensures Matches(RunThread(s, t, spurious), e') && AbstractStep(e, e')
  {
    hide MoveThread;
    var th := s.threads[t];
    var s' := RunThread(s, t, spurious);
    assert ThreadOk(s, th);
    KeepsFrame(s, th, spurious);
    ThreadGrows(s, th, spurious);
    ValueGrows(s, s');
    ValueFits(s');
    KeepsCounter(s, th, spurious);
    var delta: nat := Value(s') - Value(s);
    CasRefines(s, s', e, delta);
    e' := Handoff.Accept(e, delta, e.counter);
  }

  /** An instruction of a request: nothing, or one admission. */
  lemma ThreadRefines(s: State, t: Tid, spurious: bool, e: Handoff.Engine) returns (e': Handoff.Engine)
    requires Inv(s) && t in s.threads && Matches(s, e) && SharesOk(RunThread(s, t, spurious))
    ensures Matches(RunThread(s, t, spurious), e') && AbstractStep(e, e')
  {
    hide MoveThread;
    var th := s.threads[t];
    var s' := RunThread(s, t, spurious);
    e' := e;
    if th.pc.CasStrict? || th.pc.CasShard? {
      e' := CasThreadRefines(s, t, spurious, e);
    } else {
      assert ThreadOk(s, th);
      KeepsFrame(s, th, spurious);
      OnlyCasMoves(s, th, spurious);
      if th.pc.Remember? {
        RememberRefines(s, s', e);
        e' := Handoff.Accept(e, 0, s'.counter);
        assert Handoff.AcceptAllowed(e, 0);
      } else {
        KeepsCounter(s, th, spurious);
        IdleRefines(s, s', e);
      }
    }
  }

  // ---- the control thread

  lemma BarrierRefines(s: State, e: Handoff.Engine)
    requires CountOk(s) && Matches(s, e) && s.control == HandoffDrain && s.inFlight == 0
    ensures Matches(RunControl(s), Handoff.BeginHandoff(e).engine)
  {
  }

  lemma CommitRefines(s: State, e: Handoff.Engine)
    requires CountOk(s) && Matches(s, e) && s.control.CommitPublish?
    ensures Handoff.CommitAllowed(e, s.control.total)
    ensures Matches(RunControl(s), Handoff.CommitHandoff(e, s.control.total, s.control.owner))
  {
  }

  lemma DangerRefines(s: State, e: Handoff.Engine)
    requires CountOk(s) && Matches(s, e) && s.control == DangerPublish
    ensures Matches(RunControl(s), Handoff.LocalDanger(e))
  {
    ValueFits(s);
  }

  lemma ReservedRefines(s: State, e: Handoff.Engine)
    requires CountOk(s) && Matches(s, e) && s.control == ReservedPublish
    ensures Matches(RunControl(s), Handoff.LocalReserved(e))
  {
    ValueFits(s);
  }

  /** The control steps that publish nothing. */
  predicate Internal(s: State)
  {
    s.control != ReservedPublish && s.control != DangerPublish && !s.control.CommitPublish?
    && !(s.control == HandoffDrain && s.inFlight == 0)
  }

  lemma InternalMode(s: State)
    requires Shaped(s) && ControlReady(s) && Internal(s)
    ensures RunControl(s).mode == s.mode
  {
    hide NextControl;
  }

  lemma InternalCount(s: State)
    requires CountOk(s) && ControlReady(s) && Internal(s)
    ensures s.mode == ReservedPeak ==> RunControl(s).used == s.used
    ensures s.mode != ReservedPeak ==> RunControl(s).strict == s.strict
  {
    hide NextControl;
  }

  lemma InternalPhases(s: State)
    requires Shaped(s) && ControlReady(s) && Internal(s)
    ensures RunControl(s).epoch + (if EpochPending(RunControl(s).control) then 1 else 0)
            == s.epoch + (if EpochPending(s.control) then 1 else 0)
  {
    if BarrierHeld(s.control) {
    } else if EpochPending(s.control) {
    } else {
    }
  }

  lemma InternalBarrier(s: State)
    requires Shaped(s) && ControlReady(s) && Internal(s)
    ensures BarrierHeld(RunControl(s).control) <==> BarrierHeld(s.control)
  {
    hide Stored;
  }

  lemma InternalRefines(s: State, e: Handoff.Engine)
    requires CountOk(s) && ControlReady(s) && Matches(s, e) && Internal(s)
    ensures Matches(RunControl(s), e)
  {
    StoredShared(s);
    InternalMode(s);
    InternalCount(s);
    InternalPhases(s);
    InternalBarrier(s);
  }

  lemma DriveRefines(s: State, e: Handoff.Engine) returns (e': Handoff.Engine)
    requires Inv(s) && ControlReady(s) && Matches(s, e)
    ensures Matches(RunControl(s), e') && AbstractStep(e, e')
  {
    if s.control == HandoffDrain && s.inFlight == 0 {
      BarrierRefines(s, e);
      e' := Handoff.BeginHandoff(e).engine;
    } else if s.control.CommitPublish? {
      CommitRefines(s, e);
      e' := Handoff.CommitHandoff(e, s.control.total, s.control.owner);
    } else if s.control == DangerPublish {
      DangerRefines(s, e);
      e' := Handoff.LocalDanger(e);
    } else if s.control == ReservedPublish {
      ReservedRefines(s, e);
      e' := Handoff.LocalReserved(e);
    } else {
      InternalRefines(s, e);
      e' := e;
    }
  }

  lemma CallRefines(s: State, call: Call, e: Handoff.Engine) returns (e': Handoff.Engine)
    requires Inv(s) && Matches(s, e)
    ensures Matches(Begin(s, call), e') && AbstractStep(e, e')
  {
    hide GateOk, EventOk, ThreadOk;
    e' := if call.AbortBarrier? && s.control.Held? then Handoff.AbortHandoff(e) else e;
  }

  /** Every atomic step of the engine is a step of the abstract engine of the cluster
      protocol, or invisible to it: the protocol may treat closing and draining as one. */
  lemma EngineRefinesProtocolEngine(run: seq<State>, steps: seq<Step>, k: nat, e: Handoff.Engine) returns (e': Handoff.Engine)
    requires IsRun(run, steps) && k < |steps| && Matches(run[k], e)
    ensures Matches(run[k + 1], e') && AbstractStep(e, e')
  {
    At(run, steps, k);
    var s := run[k];
    match steps[k]
    case Arrive(_, _) => e' := e;
    case Run(t, spurious) => e' := ThreadRefines(s, t, spurious, e);
    case Invoke(call) => e' := CallRefines(s, call, e);
    case Drive => e' := DriveRefines(s, e);
  }

  lemma StartMatches(s: State)
    requires Init(s)
    ensures Matches(s, Handoff.Engine(s.limit, s.reservation, Strict, true, false, 0, 0, s.counter, s.epoch, 0))
  {
  }

  ghost predicate TrackedAt(run: seq<State>, es: seq<Handoff.Engine>, j: nat)
  {
    j < |es| && j < |run| ==> Matches(run[j], es[j]) && (j > 0 ==> AbstractStep(es[j - 1], es[j]))
  }

  lemma TrackedLonger(run: seq<State>, es: seq<Handoff.Engine>, e: Handoff.Engine, j: nat)
    requires TrackedAt(run, es, j) && j < |es|
    ensures TrackedAt(run, es + [e], j)
  {
  }

  lemma TrackedLast(run: seq<State>, steps: seq<Step>, k: nat, es: seq<Handoff.Engine>) returns (e: Handoff.Engine)
    requires IsRun(run, steps) && 0 < k < |run| && |es| == k && TrackedAt(run, es, k - 1)
    ensures TrackedAt(run, es + [e], k)
  {
    e := EngineRefinesProtocolEngine(run, steps, k - 1, es[k - 1]);
  }

  /** Hence every run of the atomic engine is a run of the abstract one. */
  lemma {:induction false} RunRefines(run: seq<State>, steps: seq<Step>, k: nat) returns (es: seq<Handoff.Engine>)
    requires IsRun(run, steps) && k < |run|
    ensures |es| == k + 1
    ensures forall j: nat :: j <= k ==> TrackedAt(run, es, j)
  {
    if k == 0 {
      StartMatches(run[0]);
      es := [Handoff.Engine(run[0].limit, run[0].reservation, Strict, true, false, 0, 0, run[0].counter, run[0].epoch, 0)];
    } else {
      var before := RunRefines(run, steps, k - 1);
      var e := TrackedLast(run, steps, k, before);
      es := before + [e];
      forall j: nat | j < k ensures TrackedAt(run, es, j) {
        TrackedLonger(run, before, e, j);
      }
    }
  }

  /** While a handoff is held, its drained total is the exact peak total of the abstract
      engine and of everything accepted, and no request can move it. */
  lemma HeldTotalIsExact(run: seq<State>, steps: seq<Step>, k: nat, e: Handoff.Engine)
    requires IsRun(run, steps) && k < |steps| && run[k].control.Held? && Matches(run[k], e)
    ensures run[k].control.total == e.peakTotal == run[k].imported + run[k].accepted
    ensures e.handoffActive && !e.gateOpen
    ensures steps[k].Run? ==> run[k + 1].used == run[k].used && run[k + 1].accepted == run[k].accepted && run[k + 1].control == run[k].control
  {
    Reachable(run, steps, k);
    DrainedIsQuiescent(run, steps, k);
  }
}
