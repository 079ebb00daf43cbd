/** What the control operations accomplish when every request has left and none arrives. */
module EngineTransitions {
  import opened CounterTypes
  import opened EngineSteps
  import opened EngineInvariant
  import opened EngineEvents
  import Sums

  lemma InvariantIsReady(s: State)
    requires CountOk(s)
    ensures ControlReady(s)
  {
  }

  /** The engine after n more instructions of the control thread. */
  ghost function Driven(s: State, n: nat): (s': State)
    requires Inv(s)
    ensures Inv(s') && s'.inFlight == s.inFlight
    decreases n
  {
    if n == 0 then s
    else
      InvariantIsReady(s);
      DriveKeepsInv(s);
      InFlightStays(s);
      Driven(RunControl(s), n - 1)
  }

  lemma OneInstruction(s: State, n: nat)
    requires Inv(s) && n > 0
    ensures CountOk(s) && ControlReady(s) && Inv(RunControl(s)) && CountOk(RunControl(s)) && ControlReady(RunControl(s))
    ensures RunControl(s).inFlight == s.inFlight && Driven(s, n) == Driven(RunControl(s), n - 1)
  {
    InvariantIsReady(s);
    DriveKeepsInv(s);
    InvariantIsReady(RunControl(s));
    InFlightStays(s);
    hide Inv, RunControl, ControlReady;
  }

  lemma InFlightStays(s: State)
    requires Shaped(s) && ControlReady(s)
    ensures RunControl(s).inFlight == s.inFlight
  {
    hide NextControl;
  }

  // ---------------------------------------------------------------- every operation ends

  predicate Stopped(c: Control)
  {
    c == Free || c.Held?
  }

  /** How many instructions the control thread still needs at most, once nobody is inside. */
  function Remaining(s: State): (n: nat)
    requires Shaped(s) && ControlReady(s)
    ensures n <= 3 * |s.used| + 10 && (n == 0 <==> Stopped(s.control))
  {
    var shards := |s.used|;
    match s.control
    case Free => 0
    case Held(_) => 0
    case ReservedClose => 3 * shards + 10
    case ReservedDrain => 3 * shards + 9
    case ReservedCheck => 3 * shards + 8
    case ReservedLoad => 3 * shards + 7
    case SeedUsed(i, _) => shards + 6 + 2 * (shards - i)
    case SeedFlag(i, _, _) => shards + 5 + 2 * (shards - i)
    case ReservedPublish => shards + 5
    case CountFull(i, _) => shards - i + 4
    case StoreFull(_) => 3
    case BumpEpoch => 2
    case DangerClose => shards + 8
    case DangerDrain => shards + 7
    case DangerScan(i, _) => shards - i + 6
    case DangerSeed(_) => 5
    case DangerPublish => 4
    case ResetFull => 3
    case HandoffClose => shards + 3
    case HandoffDrain => shards + 2
    case HandoffScan(i, _) => shards - i + 1
    case CommitSeed(_, _) => 6
    case CommitPublish(_, _) => 5
    case CommitReset(_, _) => 4
    case CommitEpoch(_, _) => 3
    case CommitCache(_, _) => 2
    case Open => 1
    case SampleScan(i, _, _) => shards - i + 1
  }

  lemma EachInstructionCounts(s: State)
    requires Shaped(s) && ControlReady(s) && s.inFlight == 0 && !Stopped(s.control)
    ensures Shaped(RunControl(s)) && ControlReady(RunControl(s)) && Remaining(RunControl(s)) < Remaining(s)
  {
    if Commits(s.control) {
      CommitCounts(s);
    } else {
      OthersCount(s);
    }
  }

  predicate Commits(c: Control)
  {
    c.CommitSeed? || c.CommitPublish? || c.CommitReset? || c.CommitEpoch? || c.CommitCache?
  }

  lemma CommitCounts(s: State)
    requires Shaped(s) && ControlReady(s) && Commits(s.control)
    ensures Shaped(RunControl(s)) && ControlReady(RunControl(s)) && Remaining(RunControl(s)) < Remaining(s)
  {
  }

  lemma OthersCount(s: State)
    requires Shaped(s) && ControlReady(s) && s.inFlight == 0 && !Stopped(s.control) && !Commits(s.control)
    ensures Shaped(RunControl(s)) && ControlReady(RunControl(s)) && Remaining(RunControl(s)) < Remaining(s)
  {
    hide MarkExhausted;
  }

  lemma StoppedStays(s: State)
    requires Shaped(s) && ControlReady(s) && Stopped(s.control)
    ensures RunControl(s).control == s.control
  {
  }

  /** Once nobody is inside, every control operation ends. */
  lemma {:induction false} EndsAlone(s: State, n: nat)
    requires Inv(s) && s.inFlight == 0 && ControlReady(s) && n >= Remaining(s)
    ensures Stopped(Driven(s, n).control)
    decreases n
  {
    if n > 0 {
      OneInstruction(s, n);
      if Stopped(s.control) {
        StoppedStays(s);
      } else {
        EachInstructionCounts(s);
      }
      hide Inv, CountOk, ControlReady, RunControl, Remaining, Driven;
      EndsAlone(RunControl(s), n - 1);
    }
  }

  // ---------------------------------------------------------------- the way of each operation

  /** What no control operation touches. */
  predicate Kept(s: State, s': State)
  {
    && s'.limit == s.limit && s'.reservation == s.reservation && s'.reserve == s.reserve && s'.inFlight == s.inFlight
    && s'.threads == s.threads && s'.accepted == s.accepted && s'.counter == s.counter
  }

  /** The state but for gate and control. */
  predicate Unmoved(s: State, s': State)
  {
    s' == s.(open := s'.open, control := s'.control)
  }

  /** Entering peak mode: all of the strict count goes into the shards, or nothing changes. */
  predicate Reserving(s: State, s': State)
  {
    && Kept(s, s') && s'.strict == s.strict && s'.imported == s.imported && s'.events == s.events && s'.cache == s.cache
    && match s'.control
       case ReservedClose => s'.mode == Strict && s'.epoch == s.epoch
       case ReservedDrain => s'.mode == Strict && s'.epoch == s.epoch
       case ReservedCheck => s'.mode == Strict && s'.epoch == s.epoch
       case ReservedLoad => s'.mode == Strict && s'.epoch == s.epoch && s.strict <= s.reservation
       case SeedUsed(_, _) => s'.mode == Strict && s'.epoch == s.epoch && s.strict <= s.reservation
       case SeedFlag(_, _, _) => s'.mode == Strict && s'.epoch == s.epoch && s.strict <= s.reservation
       case ReservedPublish => s'.mode == Strict && s'.epoch == s.epoch && s.strict <= s.reservation
       case CountFull(_, _) => InShards(s, s') && s'.epoch == s.epoch
       case StoreFull(_) => InShards(s, s') && s'.epoch == s.epoch
       case BumpEpoch => InShards(s, s') && s'.epoch == s.epoch
       case Open => Reserved(s, s')
       case Free => Reserved(s, s') && s'.open
       case _ => false
  }

  predicate InShards(s: State, s': State)
  {
    s'.mode == ReservedPeak && Sums.SumSeq(s'.used) == s.strict <= s.reservation
  }

  predicate Reserved(s: State, s': State)
  {
    if s.strict <= s.reservation then InShards(s, s') && s'.epoch == s.epoch + 1
    else s'.mode == Strict && s'.epoch == s.epoch
  }

  lemma ReservingStep(s: State, s': State)
    requires CountOk(s') && ControlReady(s') && Reserving(s, s')
    ensures Reserving(s, RunControl(s'))
  {
    hide ThreadOk;
    if s'.control.SeedUsed? {
      assert s'.used[..|s'.used|] == s'.used;
      if s'.control.i == |s'.used| {
        SeedingCompletes(s');
      }
    }
  }

  /** Collapsing into one strict counter: it takes over the sum of the shards. */
  predicate Collapsing(s: State, s': State)
  {
    && Kept(s, s') && s'.used == s.used && s'.announced == s.announced && s'.imported == s.imported && s'.events == s.events && s'.cache == s.cache
    && match s'.control
       case DangerClose => s'.mode == ReservedPeak && s'.epoch == s.epoch
       case DangerDrain => s'.mode == ReservedPeak && s'.epoch == s.epoch
       case DangerScan(_, _) => s'.mode == ReservedPeak && s'.epoch == s.epoch
       case DangerSeed(_) => s'.mode == ReservedPeak && s'.epoch == s.epoch
       case DangerPublish => s'.mode == ReservedPeak && s'.epoch == s.epoch
       case ResetFull => s'.mode == DangerStrict && s'.epoch == s.epoch && s'.strict == Sums.SumSeq(s.used)
       case BumpEpoch => s'.mode == DangerStrict && s'.epoch == s.epoch && s'.strict == Sums.SumSeq(s.used)
       case Open => s'.mode == DangerStrict && s'.epoch == s.epoch + 1 && s'.strict == Sums.SumSeq(s.used)
       case Free => s'.mode == DangerStrict && s'.epoch == s.epoch + 1 && s'.strict == Sums.SumSeq(s.used) && s'.open
       case _ => false
  }

  lemma CollapsingStep(s: State, s': State)
    requires CountOk(s') && ControlReady(s') && Collapsing(s, s')
    ensures Collapsing(s, RunControl(s'))
  {
    ValueFits(s');
    hide ThreadOk, Sums.SumSeq, MarkExhausted;
  }

  /** Closing for a handoff: nothing moves, and what is held is the sum of the shards. */
  predicate Holding(s: State, s': State)
  {
    && Unmoved(s, s')
    && match s'.control
       case HandoffClose => true
       case HandoffDrain => !s'.open
       case HandoffScan(_, _) => !s'.open
       case Held(total) => !s'.open && total == Sums.SumSeq(s.used)
       case _ => false
  }

  lemma HoldingStep(s: State, s': State)
    requires CountOk(s') && ControlReady(s') && Holding(s, s')
    ensures Holding(s, RunControl(s'))
  {
    hide ThreadOk;
    if s'.control.HandoffScan? {
      assert s'.used[..|s'.used|] == s'.used;
    }
  }

  predicate Reopening(s: State, s': State)
  {
    Unmoved(s, s') && (s'.control == Open || (s'.control == Free && s'.open))
  }

  /** Installing a committed total. */
  predicate Installing(s: State, total: nat, owner: bool, s': State)
  {
    var mode := if owner then DangerStrict else RemoteStrict;
    && Kept(s, s') && s'.used == s.used && s'.announced == s.announced
    && match s'.control
       case CommitSeed(g, o) => Unmoved(s, s') && g == total && o == owner
       case CommitPublish(g, o) => g == total && o == owner && Unmoved(s.(strict := total), s')
       case CommitReset(g, o) =>
         g == total && o == owner && s'.strict == total && s'.mode == mode && s'.epoch == s.epoch && s'.cache == s.cache && s'.events == s.events
       case CommitEpoch(g, o) =>
         g == total && o == owner && s'.strict == total && s'.mode == mode && s'.epoch == s.epoch && s'.cache == s.cache && s'.events == s.events
       case CommitCache(g, o) =>
         g == total && o == owner && s'.strict == total && s'.mode == mode && s'.epoch == s.epoch + 1 && s'.cache == s.cache && s'.events == s.events
       case Open => CommitInstalled(s, total, owner, s')
       case Free => CommitInstalled(s, total, owner, s') && s'.open
       case _ => false
  }

  /** The limit is announced by the owner if the total is the limit, and only remembered elsewhere. */
  predicate CommitInstalled(s: State, total: nat, owner: bool, s': State)
  {
    && s'.strict == total && s'.mode == (if owner then DangerStrict else RemoteStrict) && s'.epoch == s.epoch + 1
    && s'.cache == (s.cache || total == s.limit)
    && s'.events == s.events + (if owner && total == s.limit && !s.cache then 1 else 0)
  }

  /** Where operation call, begun in s, can be. */
  predicate OnTheWay(s: State, call: Call, s': State)
  {
    match call
    case EnterReserved => Reserving(s, s')
    case EnterDanger => Collapsing(s, s')
    case BeginBarrier => Holding(s, s')
    case AbortBarrier => Reopening(s, s')
    case CommitBarrier(total, owner) => Installing(s, total, owner, s')
    case Sample => false
  }

  lemma OneStepOnTheWay(s: State, call: Call, s': State)
    requires CountOk(s') && ControlReady(s') && OnTheWay(s, call, s')
    ensures OnTheWay(s, call, RunControl(s'))
  {
    match call
    case EnterReserved => ReservingStep(s, s');
    case EnterDanger => CollapsingStep(s, s');
    case BeginBarrier => HoldingStep(s, s');
    case AbortBarrier =>
    case CommitBarrier(total, owner) => InstallingStep(s, total, owner, s');
    case Sample =>
  }

  lemma InstallingStep(s: State, total: nat, owner: bool, s': State)
    requires Shaped(s') && ControlReady(s') && Installing(s, total, owner, s')
    ensures Installing(s, total, owner, RunControl(s'))
  {
    hide CommitInstalled;
    if s'.control == Open || s'.control.CommitCache? || s'.control == Free {
      LastStepsOfCommit(s, total, owner, s');
    }
  }

  lemma LastStepsOfCommit(s: State, total: nat, owner: bool, s': State)
    requires Shaped(s') && ControlReady(s') && Installing(s, total, owner, s')
    requires s'.control == Open || s'.control.CommitCache? || s'.control == Free
    ensures Installing(s, total, owner, RunControl(s'))
  {
  }

  lemma {:induction false} StaysOnTheWay(s: State, call: Call, s': State, n: nat)
    requires Inv(s') && OnTheWay(s, call, s')
    ensures OnTheWay(s, call, Driven(s', n))
    decreases n
  {
    if n > 0 {
      OneInstruction(s', n);
      hide Inv, OnTheWay, RunControl, CountOk, ControlReady, Driven;
      OneStepOnTheWay(s, call, s');
      StaysOnTheWay(s, call, RunControl(s'), n - 1);
    }
  }

  // ---------------------------------------------------------------- what each operation accomplishes

  /** The operation is not refused. */
  predicate MayBegin(s: State, call: Call)
  {
    match call
    case EnterReserved => s.control == Free && s.mode == Strict
    case EnterDanger => s.control == Free && s.mode == ReservedPeak && s.reservation == s.limit
    case BeginBarrier => s.control == Free && s.mode == ReservedPeak
    case AbortBarrier => s.control.Held?
    case CommitBarrier(total, _) => s.control.Held? && s.control.total <= total <= s.limit
    case Sample => false
  }

  lemma Begins(s: State, call: Call)
    requires Shaped(s) && s.inFlight == 0 && MayBegin(s, call)
    ensures Begin(s, call).inFlight == 0 && Begin(s, call).used == s.used && OnTheWay(s, call, Begin(s, call))
    ensures IncludesOwnPart(s, call)
  {
  }

  lemma DrivenToTheEnd(s: State, call: Call, n: nat)
    requires Inv(s) && s.inFlight == 0 && MayBegin(s, call) && n >= 3 * |s.used| + 10
    ensures Inv(Begin(s, call))
    ensures Stopped(Driven(Begin(s, call), n).control) && OnTheWay(s, call, Driven(Begin(s, call), n))
  {
    Begins(s, call);
    BeginKeepsInv(s, call);
    assert CountOk(Begin(s, call));
    InvariantIsReady(Begin(s, call));
    hide Inv, OnTheWay, Begin, Driven, ControlReady, CountOk, MayBegin, Stopped;
    EndsAlone(Begin(s, call), n);
    StaysOnTheWay(s, call, Begin(s, call), n);
  }

  /** The state an operation leaves behind. */
  predicate Accomplished(s: State, call: Call, s': State)
  {
    match call
    case EnterReserved =>
      && s'.control == Free && s'.open && Value(s') == Value(s)
      && (if s.strict <= s.reservation then s'.mode == ReservedPeak && s'.epoch == s.epoch + 1
          else s'.mode == Strict && s'.epoch == s.epoch)
    case EnterDanger =>
      s'.control == Free && s'.open && s'.mode == DangerStrict && s'.epoch == s.epoch + 1 && Value(s') == Value(s)
    case BeginBarrier => s' == s.(open := false, control := Held(Value(s)))
    case AbortBarrier => s' == s.(open := true, control := Free)
    case CommitBarrier(total, owner) =>
      && s'.control == Free && s'.open && s'.mode == (if owner then DangerStrict else RemoteStrict)
      && s'.strict == total && s'.epoch == s.epoch + 1 && s'.used == s.used && s'.accepted == s.accepted
      && s'.cache == (s.cache || total == s.limit)
      && s'.events == s.events + (if owner && total == s.limit && !s.cache then 1 else 0)
    case Sample => false
  }

  lemma TheWayEnds(s: State, call: Call, s': State)
    requires MayBegin(s, call) && OnTheWay(s, call, s') && Stopped(s'.control)
    ensures Accomplished(s, call, s')
  {
  }

  /** In every reachable state in which nobody is inside, each control operation does the whole of
      what it is for: entering peak mode moves the strict count into the shards if the reservation
      can hold it; the collapse moves it back; the barrier holds the exact drained total and the
      abort reopens on it; the commit seeds the role's strict mode. The gate is open at the end of
      all but the barrier. */
  lemma OperationsAccomplish(run: seq<State>, steps: seq<Step>, k: nat, call: Call)
    requires IsRun(run, steps) && k < |run| && run[k].inFlight == 0 && !call.Sample? && IncludesOwnPart(run[k], call)
    ensures Inv(Begin(run[k], call))
    ensures MayBegin(run[k], call) ==> Accomplished(run[k], call, Driven(Begin(run[k], call), 3 * |run[k].used| + 10))
    ensures !MayBegin(run[k], call) ==> Begin(run[k], call) == run[k]
  {
    Reachable(run, steps, k);
    hide Driven, IsRun, Inv, Begin, Accomplished, MayBegin, OnTheWay, Stopped;
    if MayBegin(run[k], call) {
      DrivenToTheEnd(run[k], call, 3 * |run[k].used| + 10);
      TheWayEnds(run[k], call, Driven(Begin(run[k], call), 3 * |run[k].used| + 10));
    } else {
      RefusedOtherwise(run[k], call);
    }
  }

  lemma RefusedOtherwise(s: State, call: Call)
    requires !call.Sample? && IncludesOwnPart(s, call) && !MayBegin(s, call)
    ensures Begin(s, call) == s
  {
  }
}
