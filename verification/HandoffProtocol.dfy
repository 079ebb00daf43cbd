/** One node of the distributed handoff: the engine as its controller sees it, the
    durable journal, and the reaction of the controller to a frame or to a timer. */
module HandoffProtocol {
  import opened CounterTypes
  import Sums

  type NodeId = nat

  /** The exact state of a peak component whose gate is closed and drained. */
  datatype Drained = Drained(counter: nat, epoch: nat, total: nat)

  /** The engine between two quiescent points. `peakTotal` is the sum over its shards,
      `accepted` is history: the sum of every delta this node ever answered Accepted. */
  datatype Engine = Engine(
    limit: nat, reservation: nat, mode: Mode, gateOpen: bool, handoffActive: bool,
    peakTotal: nat, strictValue: nat, counter: nat, epoch: nat, accepted: nat)

  datatype Phase = IdleRecord | PreparedRecord | CommittedRecord

  datatype JournalRecord = JournalRecord(phase: Phase, term: nat, counter: nat, epoch: nat, total: nat, strictOwner: NodeId)

  /** Storing a record may fail before the rename, or after it when only the directory
      cannot be synced: the caller is told "failed" although the new record is in place. */
  datatype StoreOutcome = Durable | NotWritten | WrittenButFailed

  datatype State = Idle | LeaderPreparing | FollowerPrepared | FollowerCommitting | LeaderCommitBlocked | LeaderCommitting

  /** `journal` is the record in place; `older` are the records that a crash may bring back
      instead, because nothing since the last durable write is known to be on the disk. */
  datatype Node = Node(
    engine: Engine, journal: JournalRecord, older: set<JournalRecord>, fenced: bool,
    state: State, activeTerm: nat, lastCommittedTerm: nat,
    prepared: map<NodeId, Drained>, commitAcks: set<NodeId>,
    committedCounter: nat, committedEpoch: nat, committedTotal: nat)

  datatype Config = Config(
    members: set<NodeId>, leader: NodeId, owner: NodeId, limit: nat,
    capacity: map<NodeId, nat>, dangerThreshold: nat)

  datatype Kind = Trigger | Prepare | Prepared | Commit | CommitAck | Abort

  datatype Frame = Frame(kind: Kind, sender: NodeId, term: nat, counter: nat, epoch: nat, value: nat, strictOwner: NodeId)

  datatype Packet = Packet(dst: NodeId, frame: Frame)

  /** What the outside decides in one step: the clock, a possibly stale scan of the peak
      total, which timers have expired and how each kind of journal write ends. */
  datatype Env = Env(
    clock: nat, scan: nat, deadlinePassed: bool, retryDue: bool, triggerDue: bool,
    onIdle: StoreOutcome, onPrepared: StoreOutcome, onCommitted: StoreOutcome)

  datatype Outcome = Outcome(node: Node, sent: set<Packet>)

  // ---------------------------------------------------------------- engine

  datatype BeginResult = Refused(engine: Engine) | Closed(engine: Engine, state: Drained)

  function BeginHandoff(e: Engine): (r: BeginResult)
  {
    if e.handoffActive || e.mode != ReservedPeak then Refused(e)
    else
      Closed(e.(handoffActive := true, gateOpen := false), Drained(e.counter, e.epoch, e.peakTotal))
  }

  function AbortHandoff(e: Engine): (r: Engine)
  {
    if !e.handoffActive then e
    else e.(handoffActive := false, gateOpen := e.gateOpen || e.mode == ReservedPeak)
  }

  predicate CommitAllowed(e: Engine, total: nat)
  {
    e.handoffActive && e.mode == ReservedPeak && total <= e.limit
  }

  function CommitHandoff(e: Engine, total: nat, strictOwner: bool): (r: Engine)
  {
    if !CommitAllowed(e, total) then e
    else
      e.(strictValue := total, mode := if strictOwner then DangerStrict else RemoteStrict,
         epoch := e.epoch + 1, handoffActive := false, gateOpen := true)
  }

  /** A component that owns less than the limit refuses the local collapse. */
  predicate LocalDangerAllowed(e: Engine)
  {
    e.mode == ReservedPeak && e.reservation == e.limit && !e.handoffActive
  }

  function LocalDanger(e: Engine): (r: Engine)
  {
    if !LocalDangerAllowed(e) then e
    else if e.peakTotal > e.limit then e.(gateOpen := true)
    else e.(strictValue := e.peakTotal, mode := DangerStrict, epoch := e.epoch + 1, gateOpen := true)
  }

  function LocalReserved(e: Engine): (r: Engine)
  {
    if e.mode != Strict then e
    else if e.strictValue > e.reservation then e.(gateOpen := true)
    else e.(peakTotal := e.strictValue, mode := ReservedPeak, epoch := e.epoch + 1, gateOpen := true)
  }

  /** When a request of `delta` may be answered Accepted. A peak request must fit its
      shard, hence the whole reservation; rejections change nothing and are not steps. */
  predicate AcceptAllowed(e: Engine, delta: nat)
  {
    e.gateOpen &&
    match e.mode
    case Strict => e.strictValue + delta <= e.limit
    case DangerStrict => e.strictValue + delta <= e.limit
    case ReservedPeak => e.peakTotal + delta <= e.reservation
    case RemoteStrict => false
  }

  function Accept(e: Engine, delta: nat, counter: nat): (r: Engine)
  {
    if e.mode == ReservedPeak then
      e.(peakTotal := e.peakTotal + delta, accepted := e.accepted + delta, counter := counter)
    else
      e.(strictValue := e.strictValue + delta, accepted := e.accepted + delta, counter := counter)
  }

  // ---------------------------------------------------------------- controller

  function Persist(n: Node, r: JournalRecord, o: StoreOutcome): (n': Node)
  {
    match o
    case NotWritten => n
    case Durable => n.(journal := r, older := {})
    case WrittenButFailed => n.(journal := r, older := n.older + {n.journal})
  }

  function Peers(cfg: Config, self: NodeId): (p: set<NodeId>)
  {
    cfg.members - {self}
  }

  function MakeFrame(cfg: Config, self: NodeId, kind: Kind, term: nat, d: Drained): (f: Frame)
  {
    Frame(kind, self, term, d.counter, d.epoch, d.total, cfg.owner)
  }

  function SendTo(cfg: Config, self: NodeId, dst: NodeId, kind: Kind, term: nat, d: Drained): (s: set<Packet>)
  {
    if dst in Peers(cfg, self) then {Packet(dst, MakeFrame(cfg, self, kind, term, d))} else {}
  }

  function SendAll(cfg: Config, self: NodeId, dsts: set<NodeId>, kind: Kind, term: nat, d: Drained): (s: set<Packet>)
  {
    set dst | dst in dsts :: Packet(dst, MakeFrame(cfg, self, kind, term, d))
  }

  const NOTHING := Drained(0, 0, 0)

  function NextOf(term: nat): (t: nat)
  {
    if term >= U64_MAX then term else term + 1
  }

  /** A record of a prepared component. */
  function PreparedRecordOf(cfg: Config, term: nat, d: Drained): (r: JournalRecord)
  {
    JournalRecord(PreparedRecord, term, d.counter, d.epoch, d.total, cfg.owner)
  }

  function CommittedRecordOf(cfg: Config, term: nat, d: Drained, total: nat): (r: JournalRecord)
  {
    JournalRecord(CommittedRecord, term, d.counter, d.epoch, total, cfg.owner)
  }

  function BeginLeaderPrepare(cfg: Config, self: NodeId, n: Node, env: Env): (n': Node)
  {
    if self != cfg.leader || n.state != Idle then n
    else
      match BeginHandoff(n.engine)
      case Refused(_) => n
      case Closed(e, local) =>
        var term := Max(Max(NextOf(n.activeTerm), NextOf(n.lastCommittedTerm)), env.clock);
        var written := Persist(n.(engine := e, activeTerm := term), PreparedRecordOf(cfg, term, local), env.onPrepared);
        if env.onPrepared != Durable then
          written.(engine := AbortHandoff(e), activeTerm := 0)
        else
          written.(prepared := map[self := local], state := LeaderPreparing)
  }

  function AbortPrepare(cfg: Config, self: NodeId, n: Node, broadcast: bool, env: Env): (o: Outcome)
  {
    var cleared := n.(prepared := map[], state := Idle, activeTerm := 0);
    if n.state == LeaderPreparing || n.state == FollowerPrepared then
      Outcome(
        Persist(cleared.(engine := AbortHandoff(n.engine)), JournalRecord(IdleRecord, 0, 0, 0, 0, cfg.owner), env.onIdle),
        if broadcast && self == cfg.leader then SendAll(cfg, self, Peers(cfg, self), Abort, n.activeTerm, NOTHING) else {})
    else Outcome(cleared, {})
  }

  /** The leader's own drained state; the default is never used in a reachable state. */
  function OwnDrained(self: NodeId, n: Node): (d: Drained)
  {
    if self in n.prepared then n.prepared[self] else NOTHING
  }

  /** Every report carries the leader's counter and epoch. */
  predicate ReportsAgree(prepared: map<NodeId, Drained>, d: Drained)
  {
    forall i :: i in prepared ==> prepared[i].epoch == d.epoch && prepared[i].counter == d.counter
  }

  function PreparedTotals(prepared: map<NodeId, Drained>): (m: map<NodeId, nat>)
  {
    map i | i in prepared :: prepared[i].total
  }

  ghost function PreparedSum(prepared: map<NodeId, Drained>): (s: nat)
  {
    Sums.SumMap<NodeId>(PreparedTotals(prepared))
  }

  /** Every report is in and agrees: record the decision, then install it locally. */
  function Decide(cfg: Config, self: NodeId, n: Node, own: Drained, total: nat, env: Env): (n': Node)
  {
    var written := Persist(n, CommittedRecordOf(cfg, n.activeTerm, own, total), env.onCommitted);
    if env.onCommitted != Durable then written.(state := LeaderCommitBlocked)
    else
      written.(committedTotal := total, committedCounter := own.counter, committedEpoch := own.epoch,
               engine := CommitHandoff(n.engine, total, self == cfg.owner),
               commitAcks := if CommitAllowed(n.engine, total) then {self} else {},
               state := LeaderCommitting)
  }

  ghost function TryBeginCommit(cfg: Config, self: NodeId, n: Node, env: Env): (o: Outcome)
  {
    if n.state != LeaderPreparing || |n.prepared| != |cfg.members| then Outcome(n, {})
    else
      var own := OwnDrained(self, n);
      var total := PreparedSum(n.prepared);
      if !ReportsAgree(n.prepared, own) || total > U64_MAX || total > n.engine.limit then
        AbortPrepare(cfg, self, n, true, env)
      else Outcome(Decide(cfg, self, n, own, total, env), {})
  }

  /** Close, drain, record, and only then report. */
  function JoinTerm(cfg: Config, self: NodeId, n: Node, term: nat, env: Env): (o: Outcome)
  {
    match BeginHandoff(n.engine)
    case Refused(_) => Outcome(n, {})
    case Closed(e, local) =>
      var written := Persist(n.(engine := e, activeTerm := term), PreparedRecordOf(cfg, term, local), env.onPrepared);
      if env.onPrepared != Durable then
        Outcome(written.(engine := AbortHandoff(e), activeTerm := 0), {})
      else
        Outcome(written.(prepared := map[self := local], state := FollowerPrepared),
                SendTo(cfg, self, cfg.leader, Prepared, term, local))
  }

  function HandlePrepare(cfg: Config, self: NodeId, n: Node, f: Frame, env: Env): (o: Outcome)
  {
    if f.sender != cfg.leader || f.strictOwner != cfg.owner then Outcome(n, {})
    else if n.state == FollowerCommitting || n.state == LeaderCommitBlocked || n.state == LeaderCommitting then Outcome(n, {})
    else if (n.state == FollowerPrepared && f.term < n.activeTerm) || f.term < n.lastCommittedTerm then Outcome(n, {})
    else if n.state == FollowerPrepared && f.term == n.activeTerm then
      Outcome(n, SendTo(cfg, self, cfg.leader, Prepared, n.activeTerm, OwnDrained(self, n)))
    else
      JoinTerm(cfg, self, if n.state != Idle then AbortPrepare(cfg, self, n, false, env).node else n, f.term, env)
  }

  ghost function HandlePrepared(cfg: Config, self: NodeId, n: Node, f: Frame, env: Env): (o: Outcome)
  {
    if self != cfg.leader || n.state != LeaderPreparing || f.term != n.activeTerm then Outcome(n, {})
    else
      TryBeginCommit(cfg, self, n.(prepared := n.prepared[f.sender := Drained(f.counter, f.epoch, f.value)]), env)
  }

  function HandleCommit(cfg: Config, self: NodeId, n: Node, f: Frame, env: Env): (o: Outcome)
  {
    var report := Drained(f.counter, f.epoch, f.value);
    if f.sender != cfg.leader || f.strictOwner != cfg.owner then Outcome(n, {})
    else if f.term == n.lastCommittedTerm then
      Outcome(n, SendTo(cfg, self, cfg.leader, CommitAck, f.term, report))
    else if (n.state != FollowerPrepared && n.state != FollowerCommitting) || f.term != n.activeTerm then Outcome(n, {})
    else
      var written := Persist(n.(state := FollowerCommitting), CommittedRecordOf(cfg, f.term, report, f.value), env.onCommitted);
      if env.onCommitted != Durable || !CommitAllowed(n.engine, f.value) then Outcome(written, {})
      else
        Outcome(
          written.(engine := CommitHandoff(n.engine, f.value, self == cfg.owner),
                   lastCommittedTerm := f.term, state := Idle, activeTerm := 0),
          SendTo(cfg, self, cfg.leader, CommitAck, f.term, report))
  }

  function HandleCommitAck(cfg: Config, self: NodeId, n: Node, f: Frame): (o: Outcome)
  {
    if self != cfg.leader || n.state != LeaderCommitting || f.term != n.activeTerm then Outcome(n, {})
    else
      var m := n.(commitAcks := n.commitAcks + {f.sender});
      if |m.commitAcks| == |cfg.members| then
        Outcome(m.(lastCommittedTerm := m.activeTerm, state := Idle, activeTerm := 0), {})
      else Outcome(m, {})
  }

  /** The reaction to an authenticated frame that came from its claimed sender's endpoint. */
  ghost function HandleFrame(cfg: Config, self: NodeId, n: Node, f: Frame, env: Env): (o: Outcome)
  {
    if n.fenced || f.sender == self || f.sender !in cfg.members then Outcome(n, {})
    else
      match f.kind
      case Trigger =>
        Outcome(if self == cfg.leader then BeginLeaderPrepare(cfg, self, n, env) else n, {})
      case Prepare => HandlePrepare(cfg, self, n, f, env)
      case Prepared => HandlePrepared(cfg, self, n, f, env)
      case Commit => HandleCommit(cfg, self, n, f, env)
      case CommitAck => HandleCommitAck(cfg, self, n, f)
      case Abort =>
        if f.sender == cfg.leader && f.term == n.activeTerm && n.state == FollowerPrepared then
          AbortPrepare(cfg, self, n, false, env)
        else Outcome(n, {})
  }

  /** A component that is nearly out of its own reservation asks for a handoff. The
      subtraction is exact because a scan never exceeds the reservation. */
  predicate LowWater(cfg: Config, n: Node, env: Env)
  {
    && !n.fenced && n.state == Idle && n.engine.mode == ReservedPeak
    && n.engine.reservation < n.engine.limit
    && n.engine.reservation <= env.scan + cfg.dangerThreshold
  }

  function TickTrigger(cfg: Config, self: NodeId, n: Node, env: Env): (o: Outcome)
  {
    if !LowWater(cfg, n, env) then Outcome(n, {})
    else if self == cfg.leader then Outcome(BeginLeaderPrepare(cfg, self, n, env), {})
    else if env.triggerDue then Outcome(n, SendTo(cfg, self, cfg.leader, Trigger, 0, NOTHING))
    else Outcome(n, {})
  }

  function TickTimers(cfg: Config, self: NodeId, n: Node, env: Env): (o: Outcome)
  {
    match n.state
    case LeaderPreparing =>
      if env.deadlinePassed then AbortPrepare(cfg, self, n, true, env)
      else if env.retryDue then
        Outcome(n, SendAll(cfg, self, Peers(cfg, self), Prepare, n.activeTerm, OwnDrained(self, n)))
      else Outcome(n, {})
    case FollowerPrepared =>
      if env.deadlinePassed then AbortPrepare(cfg, self, n, false, env)
      else if env.retryDue then
        Outcome(n, SendTo(cfg, self, cfg.leader, Prepared, n.activeTerm, OwnDrained(self, n)))
      else Outcome(n, {})
    case LeaderCommitting =>
      if env.retryDue then
        Outcome(n, SendAll(cfg, self, Peers(cfg, self) - n.commitAcks, Commit, n.activeTerm,
                           Drained(n.committedCounter, n.committedEpoch, n.committedTotal)))
      else Outcome(n, {})
    case Idle => Outcome(n, {})
    case FollowerCommitting => Outcome(n, {})
    case LeaderCommitBlocked => Outcome(n, {})
  }

  /** One turn of the controller's timer loop. A prepare opened in this very turn has its
      deadline ahead of it and its first broadcast due at once. */
  function Tick(cfg: Config, self: NodeId, n: Node, env: Env): (o: Outcome)
  {
    var first := TickTrigger(cfg, self, n, env);
    var second := TickTimers(cfg, self, first.node,
                             if first.node.state == n.state then env else env.(deadlinePassed := false, retryDue := true));
    Outcome(second.node, first.sent + second.sent)
  }

  /** Tearing the controller down before a commit is a local abort. */
  function Stop(cfg: Config, self: NodeId, n: Node, env: Env): (o: Outcome)
  {
    if n.state == LeaderPreparing || n.state == FollowerPrepared then AbortPrepare(cfg, self, n, false, env)
    else Outcome(n, {})
  }
}
