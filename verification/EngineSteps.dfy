/** One engine at the granularity of single atomic instructions: any number of request
    threads inside `apply`, interleaved with the one control thread that closes the gate,
    drains, moves the count, publishes a mode and reopens. Atomics are read as sequentially
    consistent. */
module EngineSteps {
  import opened CounterTypes
  import Modulo
  import Sums

  type Tid = nat

  datatype Request = Request(counter: nat, delta: nat, shard: nat)

  /** The next atomic instruction of a request thread. `cur` is the value its CAS expects,
      `first` the value it loaded first, `failures` how often the CAS met another value. */
  datatype Pc =
    | ReadCache
    | ReadGate
    | Count
    | RecheckGate
    | Uncount
    | ReadMode
    | LoadStrict(mode: Mode)
    | CasStrict(mode: Mode, cur: nat, first: nat, failures: nat)
    | LoadShard
    | CasShard(cur: nat, first: nat, failures: nat)
    | LoadRemote
    | Remember(mode: Mode, observed: nat)
    | LoadUsed
    | CasAnnounce
    | AddExhausted
    | CasCache
    | Leave(decision: Decision)
    | Done(decision: Decision)

  datatype Thread = Thread(pc: Pc, req: Request)

  /** The next atomic instruction of the control thread. */
  datatype Control =
    | Free
    | ReservedClose | ReservedDrain | ReservedCheck | ReservedLoad
    | SeedUsed(i: nat, left: nat) | SeedFlag(i: nat, left: nat, filled: bool)
    | ReservedPublish | CountFull(i: nat, full: nat) | StoreFull(full: nat) | BumpEpoch
    | DangerClose | DangerDrain | DangerScan(i: nat, acc: nat) | DangerSeed(total: nat) | DangerPublish
    | ResetFull
    | HandoffClose | HandoffDrain | HandoffScan(i: nat, acc: nat) | Held(total: nat)
    | CommitSeed(total: nat, owner: bool) | CommitPublish(total: nat, owner: bool)
    | CommitReset(total: nat, owner: bool) | CommitEpoch(total: nat, owner: bool) | CommitCache(total: nat, owner: bool)
    | Open
    | SampleScan(i: nat, acc: nat, atStart: nat)

  datatype State = State(
    limit: nat, reservation: nat, reserve: seq<nat>,
    open: bool, inFlight: int, mode: Mode, strict: nat, used: seq<nat>, announced: seq<bool>,
    exhausted: nat, cache: bool, counter: nat, epoch: nat,
    control: Control, threads: map<Tid, Thread>,
    accepted: nat, imported: int, events: nat)

  datatype Call = EnterReserved | EnterDanger | BeginBarrier | AbortBarrier | CommitBarrier(total: nat, owner: bool) | Sample

  datatype Step =
    | Arrive(t: Tid, req: Request)
    | Run(t: Tid, spurious: bool)
    | Invoke(call: Call)
    | Drive

  // ---------------------------------------------------------------- request threads

  function ShardOf(s: State, r: Request): (i: nat)
    requires |s.used| > 0
    ensures i < |s.used|
  {
    Modulo.Select(r.shard, |s.used|)
  }

  /** What one instruction does to the shared state, and where its thread continues. */
  datatype Move = Move(shared: State, pc: Pc)

  function RunStrict(s: State, pc: Pc, delta: nat, spurious: bool): (m: Move)
    requires pc.CasStrict?
  {
    if pc.cur > s.limit || delta > s.limit - pc.cur then Move(s, Leave(Rejected))
    else if spurious then Move(s, pc)
    else if s.strict != pc.cur then Move(s, CasStrict(pc.mode, s.strict, pc.first, pc.failures + 1))
    else Move(s.(strict := pc.cur + delta, accepted := s.accepted + delta), Remember(pc.mode, pc.cur + delta))
  }

  function RunShard(s: State, pc: Pc, i: nat, delta: nat, spurious: bool): (m: Move)
    requires pc.CasShard? && i < |s.used| == |s.reserve|
  {
    if pc.cur > s.reserve[i] || delta > s.reserve[i] - pc.cur then Move(s, Leave(Rejected))
    else if spurious then Move(s, pc)
    else if s.used[i] != pc.cur then Move(s, CasShard(s.used[i], pc.first, pc.failures + 1))
    else
      Move(s.(used := s.used[i := pc.cur + delta], accepted := s.accepted + delta), Remember(ReservedPeak, pc.cur + delta))
  }

  /** Publishing the event: only the thread that flips the cache publishes. */
  function MarkExhausted(s: State): (s': State)
  {
    if s.cache then s else s.(cache := true, events := s.events + 1)
  }

  predicate Shaped(s: State)
  {
    && |s.used| == |s.reserve| == |s.announced| && |s.used| > 0
  }

  function MoveThread(s: State, th: Thread, spurious: bool): (m: Move)
    requires Shaped(s)
  {
    var i := ShardOf(s, th.req);
    match th.pc
    case ReadCache => Move(s, if s.cache then Done(Rejected) else ReadGate)
    case ReadGate => Move(s, if s.open then Count else Done(Rejected))
    case Count => Move(s.(inFlight := s.inFlight + 1), RecheckGate)
    case RecheckGate => Move(s, if s.open then ReadMode else Uncount)
    case Uncount => Move(s.(inFlight := s.inFlight - 1), Done(Rejected))
    case ReadMode =>
      Move(s, match s.mode
              case Strict => LoadStrict(s.mode)
              case DangerStrict => LoadStrict(s.mode)
              case ReservedPeak => LoadShard
              case RemoteStrict => LoadRemote)
    case LoadStrict(m) => Move(s, CasStrict(m, s.strict, s.strict, 0))
    case CasStrict(_, _, _, _) => RunStrict(s, th.pc, th.req.delta, spurious)
    case LoadShard => Move(s, CasShard(s.used[i], s.used[i], 0))
    case CasShard(_, _, _) => RunShard(s, th.pc, i, th.req.delta, spurious)
    case LoadRemote => Move(s, Leave(Moved))
    case Remember(m, observed) =>
      Move(s.(counter := th.req.counter),
           if m != ReservedPeak && observed == s.limit then CasCache
           else if m == ReservedPeak && s.reservation == s.limit then LoadUsed
           else Leave(Accepted))
    case LoadUsed => Move(s, if s.used[i] != s.reserve[i] then Leave(Accepted) else CasAnnounce)
    case CasAnnounce =>
      if s.announced[i] then Move(s, Leave(Accepted))
      else Move(s.(announced := s.announced[i := true]), AddExhausted)
    case AddExhausted =>
      Move(s.(exhausted := s.exhausted + 1), if s.exhausted + 1 == |s.used| then CasCache else Leave(Accepted))
    case CasCache => Move(MarkExhausted(s), Leave(Accepted))
    case Leave(d) => Move(s.(inFlight := s.inFlight - 1), Done(d))
    case Done(_) => Move(s, th.pc)
  }

  /** One atomic instruction of thread t. */
  function RunThread(s: State, t: Tid, spurious: bool): (s': State)
    requires Shaped(s) && t in s.threads
  {
    var m := MoveThread(s, s.threads[t], spurious);
    m.shared.(threads := s.threads[t := s.threads[t].(pc := m.pc)])
  }

  // ---------------------------------------------------------------- the control thread

  predicate ControlReady(s: State)
  {
    match s.control
    case SeedUsed(i, left) => i <= |s.used|
    case SeedFlag(i, left, filled) => i < |s.used|
    case CountFull(i, full) => i <= |s.used|
    case DangerScan(i, acc) => i <= |s.used|
    case HandoffScan(i, acc) => i <= |s.used|
    case SampleScan(i, acc, atStart) => i <= |s.used|
    case _ => true
  }

  /** What the control thread's instruction stores. */
  function Stored(s: State): (s': State)
    requires Shaped(s) && ControlReady(s)
    ensures s'.control == s.control
  {
    match s.control
    case ReservedClose => s.(open := false)
    case SeedUsed(i, left) => if i == |s.used| then s else s.(used := s.used[i := Min(left, s.reserve[i])])
    case SeedFlag(i, left, filled) => s.(announced := s.announced[i := filled])
    case ReservedPublish => s.(mode := ReservedPeak)
    case StoreFull(full) => s.(exhausted := full)
    case BumpEpoch => s.(epoch := s.epoch + 1)
    case DangerClose => s.(open := false)
    case DangerSeed(total) => if total > s.limit then s else s.(strict := total)
    case DangerPublish => s.(mode := DangerStrict)
    case ResetFull => s.(exhausted := 0)
    case HandoffClose => s.(open := false)
    case CommitSeed(g, _) => s.(strict := g)
    case CommitPublish(g, owner) => s.(mode := if owner then DangerStrict else RemoteStrict, imported := g - s.accepted)
    case CommitReset(_, _) => s.(exhausted := 0)
    case CommitEpoch(_, _) => s.(epoch := s.epoch + 1)
    case CommitCache(g, owner) =>
      if g != s.limit then s else if owner then MarkExhausted(s) else s.(cache := true)
    case Open => s.(open := true)
    case _ => s
  }

  /** Where the control thread goes from there. */
  function NextControl(s: State): (c: Control)
    requires Shaped(s) && ControlReady(s)
  {
    match s.control
    case Free => Free
    case ReservedClose => ReservedDrain
    case ReservedDrain => if s.inFlight == 0 then ReservedCheck else ReservedDrain
    case ReservedCheck => if s.strict > s.reservation then Open else ReservedLoad
    case ReservedLoad => if s.strict > s.reservation then Open else SeedUsed(0, s.strict)
    case SeedUsed(i, left) =>
      if i == |s.used| then (if left != 0 then Open else ReservedPublish)
      else
        var share := Min(left, s.reserve[i]);
        SeedFlag(i, left - share, share == s.reserve[i])
    case SeedFlag(i, left, _) => SeedUsed(i + 1, left)
    case ReservedPublish => CountFull(0, 0)
    case CountFull(i, full) =>
      if i == |s.used| then StoreFull(full)
      else CountFull(i + 1, if s.used[i] == s.reserve[i] then full + 1 else full)
    case StoreFull(_) => BumpEpoch
    case BumpEpoch => Open
    case DangerClose => DangerDrain
    case DangerDrain => if s.inFlight == 0 then DangerScan(0, 0) else DangerDrain
    case DangerScan(i, acc) => if i == |s.used| then DangerSeed(acc) else DangerScan(i + 1, acc + s.used[i])
    case DangerSeed(total) => if total > s.limit then Open else DangerPublish
    case DangerPublish => ResetFull
    case ResetFull => BumpEpoch
    case HandoffClose => HandoffDrain
    case HandoffDrain => if s.inFlight == 0 then HandoffScan(0, 0) else HandoffDrain
    case HandoffScan(i, acc) => if i == |s.used| then Held(acc) else HandoffScan(i + 1, acc + s.used[i])
    case Held(total) => Held(total)
    case CommitSeed(g, owner) => CommitPublish(g, owner)
    case CommitPublish(g, owner) => CommitReset(g, owner)
    case CommitReset(g, owner) => CommitEpoch(g, owner)
    case CommitEpoch(g, owner) => CommitCache(g, owner)
    case CommitCache(_, _) => Open
    case Open => Free
    case SampleScan(i, acc, atStart) => if i == |s.used| then Free else SampleScan(i + 1, acc + s.used[i], atStart)
  }

  /** One atomic instruction of whatever the control thread is doing. */
  function RunControl(s: State): (s': State)
    requires Shaped(s) && ControlReady(s)
  {
    Stored(s).(control := NextControl(s))
  }

  /** Starting a control operation: the guards read before the gate is touched. */
  function Begin(s: State, call: Call): (s': State)
  {
    match call
    case EnterReserved => if s.control == Free && s.mode == Strict then s.(control := ReservedClose) else s
    case EnterDanger =>
      if s.control == Free && s.mode == ReservedPeak && s.reservation == s.limit then s.(control := DangerClose) else s
    case BeginBarrier => if s.control == Free && s.mode == ReservedPeak then s.(control := HandoffClose) else s
    case AbortBarrier => if s.control.Held? then s.(control := Open) else s
    case CommitBarrier(g, owner) =>
      if s.control.Held? && g <= s.limit then s.(control := CommitSeed(g, owner)) else s
    case Sample => if s.control == Free && s.mode == ReservedPeak then s.(control := SampleScan(0, 0, Sums.SumSeq(s.used))) else s
  }

  // ---------------------------------------------------------------- runs

  ghost predicate Init(s: State)
  {
    && Shaped(s) && Sums.SumSeq(s.reserve) == s.reservation <= s.limit
    && s.open && s.inFlight == 0 && s.mode == Strict && s.strict == 0 && !s.cache
    && (forall i :: 0 <= i < |s.used| ==> s.used[i] == 0 && !s.announced[i])
    && s.exhausted == 0 && s.control == Free && s.threads == map[]
    && s.accepted == 0 && s.imported == 0 && s.events == 0
  }

  predicate Finished(s: State, t: Tid)
  {
    t in s.threads ==> s.threads[t].pc.Done?
  }

  /** A committed total includes this node's own drained part, as the cluster protocol
      guarantees when it decides. */
  predicate IncludesOwnPart(s: State, call: Call)
  {
    call.CommitBarrier? && s.control.Held? ==> s.control.total <= call.total
  }

  ghost predicate Next(s: State, step: Step, s': State)
  {
    && Shaped(s) && ControlReady(s)
    && match step
       case Arrive(t, req) => Finished(s, t) && s' == s.(threads := s.threads[t := Thread(ReadCache, req)])
       case Run(t, spurious) => t in s.threads && s' == RunThread(s, t, spurious)
       case Invoke(call) => IncludesOwnPart(s, call) && s' == Begin(s, call)
       case Drive => s' == RunControl(s)
  }

  ghost predicate StepAt(run: seq<State>, steps: seq<Step>, k: nat)
    requires |run| == |steps| + 1
  {
    k < |steps| ==> Next(run[k], steps[k], run[k + 1])
  }

  ghost predicate IsRun(run: seq<State>, steps: seq<Step>)
  {
    && |run| == |steps| + 1
    && Init(run[0])
    && forall k: nat :: StepAt(run, steps, k)
  }
}
