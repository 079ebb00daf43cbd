/** What every atomic step of the engine keeps. */
module EngineInvariant {
  import opened CounterTypes
  import opened EngineSteps
  import Sums

  // ---------------------------------------------------------------- the gate

  /** Between a successful entry and the matching leave. */
  predicate Guarded(pc: Pc)
  {
    match pc
    case ReadCache => false
    case ReadGate => false
    case Count => false
    case RecheckGate => false
    case Uncount => false
    case Done(_) => false
    case _ => true
  }

  /** Counted in `inFlight`, including threads that will find the gate closed. */
  predicate Flies(pc: Pc)
  {
    pc == RecheckGate || pc == Uncount || Guarded(pc)
  }

  function Flying(threads: map<Tid, Thread>): (f: set<Tid>)
  {
    set t | t in threads && Flies(threads[t].pc)
  }

  predicate ShutBy(c: Control)
  {
    match c
    case Free => false
    case ReservedClose => false
    case DangerClose => false
    case HandoffClose => false
    case SampleScan(_, _, _) => false
    case _ => true
  }

  predicate DrainedBy(c: Control)
  {
    ShutBy(c) && c != ReservedDrain && c != DangerDrain && c != HandoffDrain
  }

  predicate NobodyInside(s: State)
  {
    forall t :: t in s.threads ==> !Guarded(s.threads[t].pc)
  }

  predicate GateOk(s: State)
  {
    && s.open == !ShutBy(s.control)
    && s.inFlight == |Flying(s.threads)|
    && (DrainedBy(s.control) ==> NobodyInside(s))
  }

  function One(b: bool): (n: int)
  {
    if b then 1 else 0
  }

  lemma OneMember(before: set<Tid>, after: set<Tid>, t: Tid)
    requires after - {t} == before - {t}
    ensures |after| == |before| - One(t in before) + One(t in after)
  {
    assert t in before ==> before == (before - {t}) + {t};
    assert t !in before ==> before == before - {t};
    assert t in after ==> after == (after - {t}) + {t};
    assert t !in after ==> after == after - {t};
  }

  /** Moving one thread changes the number of counted threads by what it does itself. */
  lemma FlyingUpdate(threads: map<Tid, Thread>, t: Tid, th: Thread)
    ensures |Flying(threads[t := th])| == |Flying(threads)| - One(t in threads && Flies(threads[t].pc)) + One(Flies(th.pc))
  {
    OneMember(Flying(threads), Flying(threads[t := th]), t);
  }

  /** The thread's own view of the gate in one step. */
  lemma ThreadKeepsGate(s: State, th: Thread, spurious: bool)
    requires Shaped(s)
    ensures MoveThread(s, th, spurious).shared.open == s.open && MoveThread(s, th, spurious).shared.control == s.control
  {
  }

  /** A thread is counted while it flies, and gets inside only through an open gate. */
  lemma ThreadAtGate(s: State, th: Thread, spurious: bool)
    requires Shaped(s)
    ensures
      var m := MoveThread(s, th, spurious);
      && m.shared.inFlight == s.inFlight - One(Flies(th.pc)) + One(Flies(m.pc))
      && (Guarded(m.pc) ==> Guarded(th.pc) || s.open)
  {
  }

  lemma GateThread(s: State, t: Tid, spurious: bool)
    requires GateOk(s) && Shaped(s) && t in s.threads
    ensures GateOk(RunThread(s, t, spurious))
  {
    ThreadKeepsGate(s, s.threads[t], spurious);
    ThreadAtGate(s, s.threads[t], spurious);
    FlyingUpdate(s.threads, t, s.threads[t].(pc := MoveThread(s, s.threads[t], spurious).pc));
  }

  lemma GateControl(s: State)
    requires GateOk(s) && Shaped(s) && ControlReady(s)
    ensures GateOk(RunControl(s))
  {
    var s' := RunControl(s);
    if s.inFlight == 0 {
      assert Flying(s.threads) == {};
      forall t | t in s.threads ensures !Guarded(s.threads[t].pc) {
        assert t !in Flying(s.threads);
      }
    }
  }

  lemma GateArrive(s: State, t: Tid, req: Request)
    requires GateOk(s) && Finished(s, t)
    ensures GateOk(s.(threads := s.threads[t := Thread(ReadCache, req)]))
  {
    FlyingUpdate(s.threads, t, Thread(ReadCache, req));
  }

  lemma GateBegin(s: State, call: Call)
    requires GateOk(s)
    ensures GateOk(Begin(s, call))
  {
  }

  // ---------------------------------------------------------------- the count

  /** Where the count lives in each mode. */
  function Value(s: State): (v: nat)
  {
    if s.mode == ReservedPeak then Sums.SumSeq(s.used) else s.strict
  }

  predicate Flagged(used: seq<nat>, reserve: seq<nat>, announced: seq<bool>, n: nat)
    requires n <= |used| == |reserve| == |announced|
  {
    forall j :: 0 <= j < n ==> (announced[j] <==> used[j] == reserve[j])
  }

  predicate Greedy(used: seq<nat>, reserve: seq<nat>, n: nat, left: nat)
    requires n <= |used| == |reserve|
  {
    left == 0 || forall j :: 0 <= j < n ==> used[j] == reserve[j]
  }

  /** How far the control thread has got, and that what it has read is exact. */
  predicate ControlOk(s: State)
    requires Shaped(s)
  {
    match s.control
    case Free => true
    case ReservedClose => s.mode == Strict
    case ReservedDrain => s.mode == Strict
    case ReservedCheck => s.mode == Strict
    case ReservedLoad => s.mode == Strict
    case SeedUsed(i, left) =>
      && s.mode == Strict && i <= |s.used| && Sums.SumSeq(s.used[..i]) + left == s.strict <= s.reservation
      && Greedy(s.used, s.reserve, i, left) && Flagged(s.used, s.reserve, s.announced, i)
    case SeedFlag(i, left, filled) =>
      && s.mode == Strict && i < |s.used| && Sums.SumSeq(s.used[..i + 1]) + left == s.strict <= s.reservation
      && Greedy(s.used, s.reserve, i + 1, left) && Flagged(s.used, s.reserve, s.announced, i) && filled == (s.used[i] == s.reserve[i])
    case ReservedPublish => s.mode == Strict && Sums.SumSeq(s.used) == s.strict && Flagged(s.used, s.reserve, s.announced, |s.used|)
    case CountFull(i, full) =>
      s.mode == ReservedPeak && i <= |s.used| && full == Sums.FullCount(s.used, s.reserve, i) && Flagged(s.used, s.reserve, s.announced, |s.used|)
    case StoreFull(full) =>
      s.mode == ReservedPeak && full == Sums.FullCount(s.used, s.reserve, |s.used|) && Flagged(s.used, s.reserve, s.announced, |s.used|)
    case BumpEpoch => true
    case DangerClose => s.mode == ReservedPeak && s.reservation == s.limit
    case DangerDrain => s.mode == ReservedPeak && s.reservation == s.limit
    case DangerScan(i, acc) =>
      s.mode == ReservedPeak && s.reservation == s.limit && i <= |s.used| && acc == Sums.SumSeq(s.used[..i])
    case DangerSeed(total) => s.mode == ReservedPeak && s.reservation == s.limit && total == Sums.SumSeq(s.used)
    case DangerPublish => s.mode == ReservedPeak && s.reservation == s.limit && s.strict == Sums.SumSeq(s.used)
    case ResetFull => s.mode == DangerStrict
    case HandoffClose => s.mode == ReservedPeak
    case HandoffDrain => s.mode == ReservedPeak
    case HandoffScan(i, acc) => s.mode == ReservedPeak && i <= |s.used| && acc == Sums.SumSeq(s.used[..i])
    case Held(total) => s.mode == ReservedPeak && total == Sums.SumSeq(s.used)
    case CommitSeed(g, owner) => s.mode == ReservedPeak && Sums.SumSeq(s.used) <= g <= s.limit
    case CommitPublish(g, owner) => s.mode == ReservedPeak && Sums.SumSeq(s.used) <= g == s.strict
    case CommitReset(g, owner) => s.mode == (if owner then DangerStrict else RemoteStrict) && g == s.strict
    case CommitEpoch(g, owner) => s.mode == (if owner then DangerStrict else RemoteStrict) && g == s.strict
    case CommitCache(g, owner) => s.mode == (if owner then DangerStrict else RemoteStrict) && g == s.strict
    case Open => true
    case SampleScan(i, acc, atStart) =>
      && s.mode == ReservedPeak && i <= |s.used|
      && acc <= Sums.SumSeq(s.used[..i]) && atStart <= acc + Sums.SumSeq(s.used[i..])
  }

  /** What a thread has seen is still a lower bound, and its mode is still the mode. */
  predicate ThreadOk(s: State, th: Thread)
    requires Shaped(s)
  {
    var i := ShardOf(s, th.req);
    match th.pc
    case LoadStrict(m) => m == s.mode && (m == Strict || m == DangerStrict)
    case CasStrict(m, cur, first, failures) =>
      m == s.mode && (m == Strict || m == DangerStrict) && first + failures <= cur <= s.strict
    case LoadShard => s.mode == ReservedPeak
    case CasShard(cur, first, failures) => s.mode == ReservedPeak && first + failures <= cur <= s.used[i]
    case LoadRemote => s.mode == RemoteStrict
    case Remember(m, observed) => m == s.mode && m != RemoteStrict && (m != ReservedPeak ==> observed <= s.strict)
    case LoadUsed => s.mode == ReservedPeak && s.reservation == s.limit
    case CasAnnounce => s.mode == ReservedPeak && s.reservation == s.limit && s.used[i] == s.reserve[i]
    case AddExhausted => s.mode == ReservedPeak && s.reservation == s.limit
    case CasCache => s.mode != RemoteStrict && Value(s) == s.limit
    case _ => true
  }

  predicate SharesOk(s: State)
  {
    && Shaped(s)
    && Sums.SumSeq(s.reserve) == s.reservation <= s.limit
    && s.strict <= s.limit
    && forall i :: 0 <= i < |s.used| ==> s.used[i] <= s.reserve[i]
  }

  predicate CountOk(s: State)
  {
    && SharesOk(s)
    && Value(s) == s.imported + s.accepted
    && ControlOk(s)
    && forall t :: t in s.threads ==> ThreadOk(s, s.threads[t])
  }

  /** The count never exceeds the limit, in whatever mode it lives. */
  lemma ValueFits(s: State)
    requires SharesOk(s)
    ensures Value(s) <= s.limit && Sums.SumSeq(s.used) <= s.reservation
  {
    Sums.SumSeqMonotone(s.used, s.reserve);
  }

  /** Two states of one period: nothing moved down, nothing changed its meaning. */
  predicate Grows(s: State, s': State)
    requires Shaped(s)
  {
    && Shaped(s') && |s'.used| == |s.used|
    && s'.limit == s.limit && s'.reservation == s.reservation && s'.reserve == s.reserve
    && s'.mode == s.mode && s'.control == s.control && s'.imported == s.imported
    && s.strict <= s'.strict
    && (forall i :: 0 <= i < |s.used| ==> s.used[i] <= s'.used[i])
  }

  /** Only a successful CAS on a counter moves the count. */
  lemma OnlyCasMoves(s: State, th: Thread, spurious: bool)
    requires Shaped(s) && !th.pc.CasStrict? && !th.pc.CasShard?
    ensures
      var m := MoveThread(s, th, spurious).shared;
      && m.strict == s.strict && m.used == s.used && m.accepted == s.accepted
      && m.limit == s.limit && m.reservation == s.reservation && m.reserve == s.reserve
      && m.mode == s.mode && m.control == s.control && m.imported == s.imported && m.threads == s.threads
      && |m.announced| == |s.announced|
      && (!Guarded(th.pc) ==> m.announced == s.announced)
  {
  }

  lemma StrictCas(s: State, th: Thread, spurious: bool)
    requires CountOk(s) && ThreadOk(s, th) && th.pc.CasStrict?
    ensures
      var m := MoveThread(s, th, spurious).shared;
      && m == s.(strict := m.strict, accepted := m.accepted)
      && s.strict <= m.strict <= s.limit && m.strict - s.strict == m.accepted - s.accepted
  {
  }

  lemma ShardCas(s: State, th: Thread, spurious: bool)
    requires CountOk(s) && ThreadOk(s, th) && th.pc.CasShard?
    ensures
      var m := MoveThread(s, th, spurious).shared;
      var i := ShardOf(s, th.req);
      && (m == s || m == s.(used := s.used[i := m.used[i]], accepted := m.accepted))
      && |m.used| == |s.used| && s.used[i] <= m.used[i] <= s.reserve[i]
      && m.used[i] - s.used[i] == m.accepted - s.accepted
      && Sums.SumSeq(m.used) - Sums.SumSeq(s.used) == m.accepted - s.accepted
  {
    Sums.SumSeqUpdate(s.used, ShardOf(s, th.req), th.pc.cur + th.req.delta);
  }

  /** One instruction of a thread: what is accepted is what the count grows by. */
  lemma ThreadGrows(s: State, th: Thread, spurious: bool)
    requires CountOk(s) && ThreadOk(s, th)
    ensures
      var m := MoveThread(s, th, spurious);
      && Grows(s, m.shared) && SharesOk(m.shared)
      && m.shared.threads == s.threads
      && Value(m.shared) - Value(s) == m.shared.accepted - s.accepted
      && (!Guarded(th.pc) ==> m.shared.strict == s.strict && m.shared.used == s.used && m.shared.announced == s.announced)
  {
    if th.pc.CasStrict? {
      StrictCas(s, th, spurious);
    } else if th.pc.CasShard? {
      ShardCas(s, th, spurious);
    } else {
      OnlyCasMoves(s, th, spurious);
    }
  }

  lemma SumGrows(s: State, s': State, a: nat, b: nat)
    requires Shaped(s) && Grows(s, s') && a <= b <= |s.used|
    ensures Sums.SumSeq(s.used[a..b]) <= Sums.SumSeq(s'.used[a..b])
  {
    Sums.SumSeqMonotone(s.used[a..b], s'.used[a..b]);
  }

  lemma ValueGrows(s: State, s': State)
    requires Shaped(s) && Grows(s, s')
    ensures Value(s) <= Value(s')
  {
    Sums.SumSeqMonotone(s.used, s'.used);
  }

  /** Whatever a waiting thread has seen stays true while others move. */
  lemma OthersKeep(s: State, s': State, th: Thread)
    requires SharesOk(s) && SharesOk(s') && Grows(s, s') && ThreadOk(s, th)
    ensures ThreadOk(s', th)
  {
    if th.pc == CasCache {
      ValueGrows(s, s');
      ValueFits(s');
    }
  }

  lemma ThreadContinues(s: State, th: Thread, spurious: bool)
    requires CountOk(s) && ThreadOk(s, th)
    requires EventsArePeakExact(s, th)
    ensures
      var m := MoveThread(s, th, spurious);
      Shaped(m.shared) ==> ThreadOk(m.shared, th.(pc := m.pc))
  {
    hide MarkExhausted, SharesOk;
    if th.pc.Remember? {
      ValueFits(s);
    }
  }

  /** The last shard to be announced finds every shard full. */
  predicate EventsArePeakExact(s: State, th: Thread)
  {
    th.pc == AddExhausted && s.exhausted + 1 == |s.used| ==> s.mode == ReservedPeak && Value(s) == s.limit
  }

  /** While the gate is drained the control thread's readings cannot go stale. */
  lemma DrainedControlUnmoved(s: State, s': State)
    requires Shaped(s) && Shaped(s') && ControlOk(s) && !s.control.SampleScan?
    requires s'.control == s.control && s'.mode == s.mode && s'.limit == s.limit && s'.reservation == s.reservation
    requires s'.reserve == s.reserve && s'.strict == s.strict && s'.used == s.used && s'.announced == s.announced
    ensures ControlOk(s')
  {
  }

  /** A scan that runs beside requests stays between the total at its start and the total now. */
  lemma SampleUnmoved(s: State, s': State)
    requires SharesOk(s) && SharesOk(s') && Grows(s, s') && ControlOk(s) && s.control.SampleScan?
    ensures ControlOk(s')
  {
    var i := s.control.i;
    SumGrows(s, s', 0, i);
    assert s.used[0..i] == s.used[..i] && s'.used[0..i] == s'.used[..i];
    SumGrows(s, s', i, |s.used|);
    assert s.used[i..|s.used|] == s.used[i..] && s'.used[i..|s.used|] == s'.used[i..];
  }

  lemma ControlUnmoved(s: State, s': State)
    requires SharesOk(s) && SharesOk(s') && Grows(s, s') && ControlOk(s)
    requires DrainedBy(s.control) ==> s'.strict == s.strict && s'.used == s.used && s'.announced == s.announced
    ensures ControlOk(s')
  {
    if s.control.SampleScan? {
      SampleUnmoved(s, s');
    } else if DrainedBy(s.control) {
      DrainedControlUnmoved(s, s');
    }
  }

  lemma CountThread(s: State, t: Tid, spurious: bool)
    requires GateOk(s) && CountOk(s) && t in s.threads
    requires EventsArePeakExact(s, s.threads[t])
    ensures CountOk(RunThread(s, t, spurious))
  {
    var th := s.threads[t];
    var m := MoveThread(s, th, spurious);
    var s' := RunThread(s, t, spurious);
    ThreadGrows(s, th, spurious);
    ThreadContinues(s, th, spurious);
    ThreadAtGate(s, th, spurious);
    ControlUnmoved(s, s');
    forall o | o in s'.threads ensures ThreadOk(s', s'.threads[o]) {
      if o != t {
        OthersKeep(s, s', s.threads[o]);
      }
    }
  }

  // ---------------------------------------------------------------- control steps and the count

  /** The rest of the count invariant, once the shares and the control thread are known. */
  lemma ThreadsSurviveControl(s: State, s': State)
    requires GateOk(s) && CountOk(s) && SharesOk(s') && s'.threads == s.threads && |s'.used| == |s.used|
    requires DrainedBy(s.control) || (s'.used == s.used && s'.strict == s.strict && s'.mode == s.mode
                                      && s'.limit == s.limit && s'.reservation == s.reservation && s'.reserve == s.reserve)
    ensures forall t :: t in s'.threads ==> ThreadOk(s', s'.threads[t])
  {
    forall t | t in s'.threads ensures ThreadOk(s', s'.threads[t]) {
      assert ThreadOk(s, s.threads[t]);
    }
  }

  lemma SeedOneShard(s: State)
    requires CountOk(s) && s.control.SeedUsed? && s.control.i < |s.used|
    ensures SharesOk(RunControl(s)) && ControlOk(RunControl(s))
  {
    var i, left := s.control.i, s.control.left;
    var s' := RunControl(s);
    assert s'.used[..i] == s.used[..i];
    Sums.SumSeqExtend(s'.used, i);
  }

  /** Greedy seeding places any value that fits, to the last unit. */
  lemma SeedingCompletes(s: State)
    requires CountOk(s) && s.control.SeedUsed? && s.control.i == |s.used|
    ensures s.control.left == 0 && Sums.SumSeq(s.used) == s.strict
  {
    assert s.used[..|s.used|] == s.used;
    assert s.control.left > 0 ==> s.used == s.reserve;
  }

  /** Entering peak mode: the shards receive exactly the strict value. */
  lemma ReservedControl(s: State)
    requires CountOk(s)
    requires s.control.SeedUsed? || s.control.SeedFlag? || s.control == ReservedPublish || s.control.CountFull? || s.control.StoreFull?
             || s.control == ReservedLoad || s.control == ReservedCheck
    ensures SharesOk(RunControl(s)) && ControlOk(RunControl(s))
    ensures Value(RunControl(s)) == Value(s)
  {
    hide ThreadOk;
    if s.control.SeedUsed? {
      if s.control.i < |s.used| {
        SeedOneShard(s);
      } else {
        SeedingCompletes(s);
      }
    } else if s.control == ReservedLoad {
      assert s.used[..0] == [];
    }
  }

  /** Collapsing to strict mode, or draining for a handoff: the scan is exact. */
  lemma ScanPrefix(s: State, i: nat)
    requires Shaped(s) && i <= |s.used|
    ensures i == |s.used| ==> Sums.SumSeq(s.used[..i]) == Sums.SumSeq(s.used)
    ensures i < |s.used| ==> Sums.SumSeq(s.used[..i + 1]) == Sums.SumSeq(s.used[..i]) + s.used[i]
  {
    if i < |s.used| {
      Sums.SumSeqExtend(s.used, i);
    } else {
      assert s.used[..i] == s.used;
    }
  }

  lemma DangerScanStep(s: State)
    requires CountOk(s) && s.control.DangerScan?
    ensures SharesOk(RunControl(s)) && ControlOk(RunControl(s)) && Value(RunControl(s)) == Value(s)
  {
    ScanPrefix(s, s.control.i);
  }

  lemma HandoffScanStep(s: State)
    requires CountOk(s) && s.control.HandoffScan?
    ensures SharesOk(RunControl(s)) && ControlOk(RunControl(s)) && Value(RunControl(s)) == Value(s)
  {
    ScanPrefix(s, s.control.i);
  }

  lemma ScanControl(s: State)
    requires CountOk(s)
    requires s.control.DangerSeed? || s.control == DangerPublish || s.control == DangerDrain || s.control == HandoffDrain
    ensures SharesOk(RunControl(s)) && ControlOk(RunControl(s)) && Value(RunControl(s)) == Value(s)
  {
    hide ThreadOk;
    if s.control.DangerSeed? {
      ValueFits(s);
    } else {
      assert s.used[..0] == [];
    }
  }

  lemma SampleStaysBetween(s: State)
    requires SharesOk(s) && ControlOk(s) && s.control.SampleScan?
    ensures ControlOk(RunControl(s))
  {
    if s.control.i < |s.used| {
      Sums.SumSeqExtend(s.used, s.control.i);
    }
  }

  lemma SampleControl(s: State)
    requires CountOk(s) && s.control.SampleScan?
    ensures SharesOk(RunControl(s)) && ControlOk(RunControl(s)) && Value(RunControl(s)) == Value(s)
  {
    hide ThreadOk, ControlOk;
    SampleStaysBetween(s);
  }

  /** Installing a committed total: the count becomes that total. */
  lemma CommitSeeds(s: State)
    requires CountOk(s) && (s.control.CommitSeed? || s.control.CommitPublish?)
    ensures SharesOk(RunControl(s)) && ControlOk(RunControl(s))
    ensures Value(RunControl(s)) == RunControl(s).imported + RunControl(s).accepted
  {
    hide ThreadOk, Flagged, Greedy, Sums.FullCount;
    if s.control.CommitSeed? {
    } else {
    }
  }

  lemma CommitFinishes(s: State)
    requires CountOk(s) && (s.control.CommitReset? || s.control.CommitEpoch?)
    ensures SharesOk(RunControl(s)) && ControlOk(RunControl(s)) && Value(RunControl(s)) == Value(s)
  {
    hide ThreadOk, Flagged, Greedy, Sums.FullCount;
    if s.control.CommitReset? {
    } else {
    }
  }

  lemma CommitAnnounces(s: State)
    requires CountOk(s) && s.control.CommitCache?
    ensures SharesOk(RunControl(s)) && ControlOk(RunControl(s)) && Value(RunControl(s)) == Value(s)
  {
    hide ThreadOk, Flagged, Greedy, Sums.FullCount;
  }

  lemma PlainControl(s: State)
    requires CountOk(s)
    requires s.control == Free || s.control == ReservedClose || s.control == ReservedDrain || s.control == BumpEpoch
             || s.control == DangerClose || s.control == ResetFull || s.control == HandoffClose || s.control.Held? || s.control == Open
    ensures SharesOk(RunControl(s)) && ControlOk(RunControl(s)) && Value(RunControl(s)) == Value(s)
  {
  }

  /** Of the history only a commit changes anything, and it moves `imported` alone. */
  lemma ControlHistory(s: State)
    requires Shaped(s) && ControlReady(s)
    ensures
      var s' := RunControl(s);
      s'.threads == s.threads && s'.accepted == s.accepted && (!s.control.CommitPublish? ==> s'.imported == s.imported)
  {
    hide NextControl;
  }

  lemma ControlKeepsShards(s: State)
    requires Shaped(s) && ControlReady(s)
    ensures |RunControl(s).used| == |s.used|
  {
    hide NextControl;
  }

  /** Before the drain the control thread moves nothing that requests depend on. */
  lemma UndrainedControl(s: State)
    requires Shaped(s) && ControlReady(s) && !DrainedBy(s.control)
    ensures
      var s' := RunControl(s);
      && s'.used == s.used && s'.strict == s.strict && s'.mode == s.mode
      && s'.limit == s.limit && s'.reservation == s.reservation && s'.reserve == s.reserve
  {
    hide NextControl;
  }

  lemma ControlKeepsCount(s: State)
    requires CountOk(s) && ControlReady(s)
    ensures SharesOk(RunControl(s)) && ControlOk(RunControl(s))
    ensures Value(RunControl(s)) == RunControl(s).imported + RunControl(s).accepted
  {
    hide ThreadOk, Value;
    ControlHistory(s);
    match s.control {
      case SampleScan(_, _, _) => SampleControl(s);
      case CommitSeed(_, _) => CommitSeeds(s);
      case CommitPublish(_, _) => CommitSeeds(s);
      case CommitReset(_, _) => CommitFinishes(s);
      case CommitEpoch(_, _) => CommitFinishes(s);
      case CommitCache(_, _) => CommitAnnounces(s);
      case DangerScan(_, _) => DangerScanStep(s);
      case HandoffScan(_, _) => HandoffScanStep(s);
      case DangerSeed(_) => ScanControl(s);
      case DangerPublish => ScanControl(s);
      case DangerDrain => ScanControl(s);
      case HandoffDrain => ScanControl(s);
      case ReservedCheck => ReservedControl(s);
      case ReservedLoad => ReservedControl(s);
      case SeedUsed(_, _) => ReservedControl(s);
      case SeedFlag(_, _, _) => ReservedControl(s);
      case ReservedPublish => ReservedControl(s);
      case CountFull(_, _) => ReservedControl(s);
      case StoreFull(_) => ReservedControl(s);
      case _ => PlainControl(s);
    }
  }

  lemma CountControl(s: State)
    requires GateOk(s) && CountOk(s) && ControlReady(s)
    ensures CountOk(RunControl(s))
  {
    ControlHistory(s);
    ControlKeepsCount(s);
    ControlKeepsShards(s);
    if !DrainedBy(s.control) { UndrainedControl(s); }
    ThreadsSurviveControl(s, RunControl(s));
  }

  lemma BeginControl(s: State, call: Call)
    requires CountOk(s) && IncludesOwnPart(s, call)
    ensures ControlOk(Begin(s, call)) && Begin(s, call) == s.(control := Begin(s, call).control)
  {
    hide ThreadOk, Flagged, Greedy, Sums.FullCount;
    assert s.used[..0] == [] && s.used[0..] == s.used;
    match call
    case EnterReserved =>
    case EnterDanger =>
    case BeginBarrier =>
    case AbortBarrier =>
    case CommitBarrier(_, _) =>
    case Sample =>
  }

  lemma CountBegin(s: State, call: Call)
    requires CountOk(s) && IncludesOwnPart(s, call)
    ensures CountOk(Begin(s, call))
  {
    var s' := Begin(s, call);
    BeginControl(s, call);
    forall t | t in s'.threads ensures ThreadOk(s', s'.threads[t]) {
      assert ThreadOk(s, s.threads[t]);
    }
  }

  lemma CountArrive(s: State, t: Tid, req: Request)
    requires CountOk(s)
    ensures CountOk(s.(threads := s.threads[t := Thread(ReadCache, req)]))
  {
    var s' := s.(threads := s.threads[t := Thread(ReadCache, req)]);
    forall o | o in s'.threads ensures ThreadOk(s', s'.threads[o]) {
      if o != t {
        assert ThreadOk(s, s.threads[o]);
      }
    }
    if s.control.SampleScan? {
      assert Grows(s, s');
      SampleUnmoved(s, s');
    } else {
      DrainedControlUnmoved(s, s');
    }
  }
}
