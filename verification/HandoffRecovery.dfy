/** Starting a handoff controller on whatever its journal holds. */
module HandoffRecovery {
  import opened CounterTypes
  import opened HandoffProtocol
  import opened HandoffCluster
  import opened HandoffInvariant
  import opened HandoffTheorems

  datatype Load = Missing | Unreadable | Loaded(record: JournalRecord)

  datatype StartResult = Started(node: Node) | StartRefused

  /** A node whose process has just entered peak mode; no counter survives a crash. */
  function Rebooted(cfg: Config, reservation: nat): (n: Node)
  {
    Node(Engine(cfg.limit, reservation, ReservedPeak, true, false, 0, 0, 0, 1, 0),
         BLANK, {}, false, Idle, 0, 0, map[], {}, 0, 0, 0)
  }

  /** The record written on the very first start names owner 0, whatever the configuration. */
  const BLANK := JournalRecord(IdleRecord, 0, 0, 0, 0, 0)

  function RecoverCommitted(e: Engine, r: JournalRecord, strictOwner: bool): (e': Engine)
  {
    if r.total > e.limit then e
    else
      e.(strictValue := r.total, counter := r.counter, epoch := r.epoch,
         mode := if strictOwner then DangerStrict else RemoteStrict,
         handoffActive := false, gateOpen := true)
  }

  function Start(cfg: Config, self: NodeId, n: Node, load: Load, onBlank: StoreOutcome): (r: StartResult)
  {
    match load
    case Missing => if onBlank != Durable then StartRefused else Started(n.(journal := BLANK))
    case Unreadable => StartRefused
    case Loaded(rec) =>
      if rec.strictOwner != cfg.owner || rec.total > n.engine.limit then StartRefused
      else
        var m := n.(journal := rec);
        match rec.phase
        case IdleRecord => Started(m)
        case PreparedRecord => Started(m.(engine := m.engine.(gateOpen := false), fenced := true))
        case CommittedRecord =>
          Started(m.(engine := RecoverCommitted(m.engine, rec, self == cfg.owner), lastCommittedTerm := rec.term))
  }

  /** How a process comes up, by what its journal holds: open with the whole reservation to spend
      on a missing or an idle record, fenced and shut on a prepared one, strict on a committed one;
      not at all on an unreadable journal or one of another configuration. */
  lemma StartsByRecord(cfg: Config, self: NodeId, reservation: nat, load: Load, onBlank: StoreOutcome, delta: nat)
    ensures
      var r := Start(cfg, self, Rebooted(cfg, reservation), load, onBlank);
      && (r.Started? <==>
            || (load == Missing && onBlank == Durable)
            || (load.Loaded? && load.record.strictOwner == cfg.owner && load.record.total <= cfg.limit))
      && (r.Started? ==>
            var n, idle := r.node, load == Missing || load.record.phase == IdleRecord;
            && n.state == Idle && n.activeTerm == 0 && n.prepared == map[] && n.commitAcks == {} && n.older == {}
            && (load.Loaded? ==> n.journal == load.record)
            && (load == Missing ==> n.journal.phase == IdleRecord && n.journal.strictOwner == 0 && n.journal.term == n.journal.total == 0)
            && n.engine.limit == cfg.limit && n.engine.reservation == reservation && n.engine.peakTotal == 0 && !n.engine.handoffActive
            && (idle ==>
                  && !n.fenced && n.engine.mode == ReservedPeak && n.engine.gateOpen && n.lastCommittedTerm == 0
                  && (AcceptAllowed(n.engine, delta) <==> delta <= reservation))
            && (!idle && load.record.phase == PreparedRecord ==>
                  n.fenced && n.engine.mode == ReservedPeak && !n.engine.gateOpen && n.lastCommittedTerm == 0 && !AcceptAllowed(n.engine, delta))
            && (!idle && load.record.phase == CommittedRecord ==>
                  && !n.fenced && n.engine.gateOpen && n.lastCommittedTerm == load.record.term
                  && n.engine.strictValue == load.record.total && n.engine.counter == load.record.counter && n.engine.epoch == load.record.epoch
                  && n.engine.mode == (if self == cfg.owner then DangerStrict else RemoteStrict)
                  && (AcceptAllowed(n.engine, delta) <==> self == cfg.owner && load.record.total + delta <= cfg.limit)))
  {
  }

  // ---------------------------------------------------------------- life after the start

  /** Anything that can happen to one node, with frames of any content whatsoever. */
  datatype LocalStep =
    | Receive(f: Frame, env: Env) | Turn(env: Env) | TearDown(env: Env)
    | Admit(delta: nat, counter: nat) | Collapse | EnterPeak

  ghost function LocalEffect(cfg: Config, self: NodeId, n: Node, s: LocalStep): (n': Node)
  {
    match s
    case Receive(f, env) => HandleFrame(cfg, self, n, f, env).node
    case Turn(env) => Tick(cfg, self, n, env).node
    case TearDown(env) => Stop(cfg, self, n, env).node
    case Admit(delta, counter) =>
      if AcceptAllowed(n.engine, delta) then n.(engine := Accept(n.engine, delta, counter)) else n
    case Collapse => n.(engine := LocalDanger(n.engine))
    case EnterPeak => n.(engine := LocalReserved(n.engine))
  }

  ghost function After(cfg: Config, self: NodeId, n: Node, steps: seq<LocalStep>): (n': Node)
  {
    if steps == [] then n
    else LocalEffect(cfg, self, After(cfg, self, n, steps[..|steps| - 1]), steps[|steps| - 1])
  }

  predicate FencedOff(n: Node)
  {
    && n.fenced && n.state == Idle && n.engine.mode == ReservedPeak
    && !n.engine.gateOpen && !n.engine.handoffActive
  }

  /** A restart on a prepared record is a permanent fence for a component that owns less
      than the limit: no frame, timer or local transition ever lets a request in again. */
  lemma PreparedRestartNeverAdmits(cfg: Config, self: NodeId, reservation: nat, rec: JournalRecord, o: StoreOutcome, steps: seq<LocalStep>, delta: nat)
    requires rec.phase == PreparedRecord && reservation < cfg.limit
    ensures
      var r := Start(cfg, self, Rebooted(cfg, reservation), Loaded(rec), o);
      && (r.Started? <==> rec.strictOwner == cfg.owner && rec.total <= cfg.limit)
      && (r.Started? ==>
            && !AcceptAllowed(After(cfg, self, r.node, steps).engine, delta)
            && After(cfg, self, r.node, steps) == r.node && r.node.journal == rec)
  {
    var r := Start(cfg, self, Rebooted(cfg, reservation), Loaded(rec), o);
    if r.Started? {
      FencedForever(cfg, self, r.node, steps);
    }
  }

  lemma {:induction false} FencedForever(cfg: Config, self: NodeId, n: Node, steps: seq<LocalStep>)
    requires FencedOff(n) && n.engine.reservation < n.engine.limit
    ensures After(cfg, self, n, steps) == n
  {
    if steps != [] {
      FencedForever(cfg, self, n, steps[..|steps| - 1]);
      FencedStep(cfg, self, n, steps[|steps| - 1]);
    }
  }

  lemma FencedStep(cfg: Config, self: NodeId, n: Node, s: LocalStep)
    requires FencedOff(n) && n.engine.reservation < n.engine.limit
    ensures LocalEffect(cfg, self, n, s) == n
  {
  }

  /** The fence of a prepared restart is exactly as good as the reservation is partial: a
      node that owns the whole limit can collapse locally and reopens its gate. */
  lemma FenceHoldsIffReservationIsPartial(cfg: Config, self: NodeId, n: Node)
    requires FencedOff(n) && n.engine.reservation <= n.engine.limit
    ensures (forall s: LocalStep :: !LocalEffect(cfg, self, n, s).engine.gateOpen) <==> n.engine.reservation < n.engine.limit
  {
    if n.engine.reservation < n.engine.limit {
      forall s: LocalStep ensures !LocalEffect(cfg, self, n, s).engine.gateOpen {
        FencedStep(cfg, self, n, s);
      }
    } else {
      assert LocalEffect(cfg, self, n, Collapse).engine.gateOpen;
    }
  }

  /** A recovered strict node: nothing but accepted requests ever changes its engine. */
  predicate Recovered(cfg: Config, self: NodeId, rec: JournalRecord, n: Node)
  {
    && n.state == Idle && n.activeTerm == 0 && !n.fenced && !n.engine.handoffActive && n.engine.gateOpen
    && n.engine.mode == (if self == cfg.owner then DangerStrict else RemoteStrict)
    && n.journal == rec && n.lastCommittedTerm == rec.term
    && n.engine.strictValue == rec.total + n.engine.accepted <= n.engine.limit
    && (self != cfg.owner ==> n.engine.accepted == 0)
  }

  /** A restart on a committed record restores the role's strict mode, seeded with the
      recorded total, and keeps it through every later step: the owner spends only what the
      total left over, everyone else spends nothing. */
  lemma {:induction false} CommittedRestartStaysStrict(cfg: Config, self: NodeId, reservation: nat, rec: JournalRecord, o: StoreOutcome, steps: seq<LocalStep>)
    requires rec.phase == CommittedRecord && rec.strictOwner == cfg.owner && rec.total <= cfg.limit
    ensures Start(cfg, self, Rebooted(cfg, reservation), Loaded(rec), o).Started?
    ensures Recovered(cfg, self, rec, After(cfg, self, Start(cfg, self, Rebooted(cfg, reservation), Loaded(rec), o).node, steps))
    ensures After(cfg, self, Start(cfg, self, Rebooted(cfg, reservation), Loaded(rec), o).node, steps).engine.limit == cfg.limit
  {
    if steps != [] {
      var n := Start(cfg, self, Rebooted(cfg, reservation), Loaded(rec), o).node;
      var m := After(cfg, self, n, steps[..|steps| - 1]);
      CommittedRestartStaysStrict(cfg, self, reservation, rec, o, steps[..|steps| - 1]);
      RecoveredStep(cfg, self, rec, m, steps[|steps| - 1]);
    }
  }

  lemma RecoveredStep(cfg: Config, self: NodeId, rec: JournalRecord, n: Node, s: LocalStep)
    requires Recovered(cfg, self, rec, n)
    ensures Recovered(cfg, self, rec, LocalEffect(cfg, self, n, s)) && LocalEffect(cfg, self, n, s).engine.limit == n.engine.limit
  {
    match s
    case Receive(f, env) => RecoveredReceives(cfg, self, rec, n, f, env);
    case Turn(env) =>
    case TearDown(env) =>
    case Admit(delta, counter) =>
    case Collapse =>
    case EnterPeak =>
  }

  lemma RecoveredReceives(cfg: Config, self: NodeId, rec: JournalRecord, n: Node, f: Frame, env: Env)
    requires Recovered(cfg, self, rec, n)
    ensures HandleFrame(cfg, self, n, f, env).node == n
  {
  }

  // ---------------------------------------------------------------- crashes in the middle of a run

  /** A crash at any moment, even one that undoes a rename that was never synced: whoever owes
      the leader a report comes back fenced, strict or not at all, but never as an open peak
      component. */
  lemma CrashNeverReopensAPledge(cfg: Config, run: seq<Cluster>, steps: seq<Step>, k: nat, p: Packet, rec: JournalRecord, o: StoreOutcome)
    requires ValidConfig(cfg) && IsRun(cfg, run, steps) && k < |run|
    requires p in run[k].net && p.frame.kind == Prepared
    requires cfg.leader in run[k].nodes && Holds(run[k].nodes[cfg.leader], p.frame.term)
    requires p.frame.sender in run[k].nodes && rec in OnDisk(run[k].nodes[p.frame.sender])
    ensures p.frame.sender in cfg.capacity
    ensures
      var i := p.frame.sender;
      var r := Start(cfg, i, Rebooted(cfg, cfg.capacity[i]), Loaded(rec), o);
      r.StartRefused? || FencedOff(r.node) || r.node.engine.mode != ReservedPeak
  {
    hide ValidConfig, IsRun;
    RunKeepsInv(cfg, run, steps, k);
    PledgeIsOnDisk(cfg, run[k], p, rec);
  }

  lemma PledgeIsOnDisk(cfg: Config, c: Cluster, p: Packet, rec: JournalRecord)
    requires Inv(cfg, c) && p in c.net && p.frame.kind == Prepared && Holds(c.nodes[cfg.leader], p.frame.term)
    requires p.frame.sender in c.nodes && rec in OnDisk(c.nodes[p.frame.sender])
    ensures p.frame.sender in cfg.capacity && rec.phase != IdleRecord
  {
    hide TotalOk, AcksOk, CollectOk, FollowersOk;
    assert PacketOk(cfg, c, p);
    assert NodeOk(cfg, p.frame.sender, c.nodes[p.frame.sender]);
  }

  /** A crash of an installed node brings back its mode and the exact committed total:
      nothing but the commit can be found on its disk. */
  lemma CrashKeepsTheCommit(cfg: Config, run: seq<Cluster>, steps: seq<Step>, k: nat, i: NodeId, rec: JournalRecord, o: StoreOutcome)
    requires ValidConfig(cfg) && IsRun(cfg, run, steps) && k < |run|
    requires i in run[k].nodes && i in cfg.capacity && run[k].nodes[i].engine.mode != ReservedPeak
    requires rec in OnDisk(run[k].nodes[i])
    ensures
      var r := Start(cfg, i, Rebooted(cfg, cfg.capacity[i]), Loaded(rec), o);
      && r.Started?
      && r.node.engine.mode == run[k].nodes[i].engine.mode
      && r.node.engine.strictValue == FrozenSum(run[k])
      && r.node.lastCommittedTerm == InstalledTerm(run[k].nodes[i])
  {
    hide ValidConfig, Next, PacketOk, IsRun;
    RunKeepsInv(cfg, run, steps, k);
    StrictModeIsRecorded(cfg, run, steps, k, i);
    assert NodeOk(cfg, i, run[k].nodes[i]);
    PeakTotalsFit(cfg, run[k]);
  }

  // ---------------------------------------------------------------- the blank record

  /** What a node of a cluster within the limit can be sent: no commit above the limit. */
  predicate Bounded(cfg: Config, s: LocalStep)
  {
    s.Receive? && s.f.kind == Commit ==> s.f.value <= cfg.limit
  }

  /** Every record the controller writes itself can be started from. */
  predicate Writable(cfg: Config, n: Node)
  {
    && n.engine.reservation <= n.engine.limit == cfg.limit && n.engine.peakTotal <= n.engine.reservation
    && n.engine.mode != Strict && forall r :: r in OnDisk(n) ==> r == BLANK || (r.strictOwner == cfg.owner && r.total <= cfg.limit)
  }

  lemma AbortIsWritable(cfg: Config, self: NodeId, n: Node, broadcast: bool, env: Env)
    requires Writable(cfg, n)
    ensures Writable(cfg, AbortPrepare(cfg, self, n, broadcast, env).node)
  {
  }

  lemma JoinIsWritable(cfg: Config, self: NodeId, n: Node, term: nat, env: Env)
    requires Writable(cfg, n)
    ensures Writable(cfg, JoinTerm(cfg, self, n, term, env).node)
  {
  }

  lemma BeginIsWritable(cfg: Config, self: NodeId, n: Node, env: Env)
    requires Writable(cfg, n)
    ensures Writable(cfg, BeginLeaderPrepare(cfg, self, n, env))
  {
  }

  lemma DecideIsWritable(cfg: Config, self: NodeId, n: Node, own: Drained, total: nat, env: Env)
    requires Writable(cfg, n) && total <= cfg.limit
    ensures Writable(cfg, Decide(cfg, self, n, own, total, env))
  {
  }

  lemma CommitIsWritable(cfg: Config, self: NodeId, n: Node, f: Frame, env: Env)
    requires Writable(cfg, n) && f.value <= cfg.limit
    ensures Writable(cfg, HandleCommit(cfg, self, n, f, env).node)
  {
  }

  lemma FrameIsWritable(cfg: Config, self: NodeId, n: Node, f: Frame, env: Env)
    requires Writable(cfg, n) && (f.kind == Commit ==> f.value <= cfg.limit)
    ensures Writable(cfg, HandleFrame(cfg, self, n, f, env).node)
  {
    hide Writable, JoinTerm, AbortPrepare, BeginLeaderPrepare, Decide, HandleCommit;
    match f.kind
    case Trigger => BeginIsWritable(cfg, self, n, env);
    case Prepare => PrepareIsWritable(cfg, self, n, f, env);
    case Prepared => PreparedIsWritable(cfg, self, n, f, env);
    case Commit => CommitIsWritable(cfg, self, n, f, env);
    case CommitAck => AckIsWritable(cfg, self, n, f);
    case Abort => AbortIsWritable(cfg, self, n, false, env);
  }

  lemma PrepareIsWritable(cfg: Config, self: NodeId, n: Node, f: Frame, env: Env)
    requires Writable(cfg, n)
    ensures Writable(cfg, HandlePrepare(cfg, self, n, f, env).node)
  {
    hide Writable, JoinTerm, AbortPrepare;
    AbortIsWritable(cfg, self, n, false, env);
    JoinIsWritable(cfg, self, if n.state != Idle then AbortPrepare(cfg, self, n, false, env).node else n, f.term, env);
  }

  lemma PreparedIsWritable(cfg: Config, self: NodeId, n: Node, f: Frame, env: Env)
    requires Writable(cfg, n)
    ensures Writable(cfg, HandlePrepared(cfg, self, n, f, env).node)
  {
    var m := n.(prepared := n.prepared[f.sender := Drained(f.counter, f.epoch, f.value)]);
    assert Writable(cfg, m);
    var total := PreparedSum(m.prepared);
    AbortIsWritable(cfg, self, m, true, env);
    if total <= cfg.limit {
      DecideIsWritable(cfg, self, m, OwnDrained(self, m), total, env);
    }
    assert m.engine.limit == cfg.limit;
    hide Writable, AbortPrepare, Decide, PreparedSum;
  }

  lemma AckIsWritable(cfg: Config, self: NodeId, n: Node, f: Frame)
    requires Writable(cfg, n)
    ensures Writable(cfg, HandleCommitAck(cfg, self, n, f).node)
  {
  }

  lemma TickIsWritable(cfg: Config, self: NodeId, n: Node, env: Env)
    requires Writable(cfg, n)
    ensures Writable(cfg, Tick(cfg, self, n, env).node)
  {
    hide Writable, AbortPrepare, BeginLeaderPrepare, LowWater;
    BeginIsWritable(cfg, self, n, env);
    AbortIsWritable(cfg, self, n, true, env);
    AbortIsWritable(cfg, self, n, false, env);
    AbortIsWritable(cfg, self, BeginLeaderPrepare(cfg, self, n, env), true, env);
    AbortIsWritable(cfg, self, BeginLeaderPrepare(cfg, self, n, env), false, env);
  }

  lemma WritableStep(cfg: Config, self: NodeId, n: Node, s: LocalStep)
    requires Writable(cfg, n) && Bounded(cfg, s)
    ensures Writable(cfg, LocalEffect(cfg, self, n, s))
  {
    match s
    case Receive(f, env) => FrameIsWritable(cfg, self, n, f, env);
    case Turn(env) => TickIsWritable(cfg, self, n, env);
    case TearDown(env) => AbortIsWritable(cfg, self, n, false, env);
    case Admit(delta, counter) =>
    case Collapse =>
    case EnterPeak =>
  }

  lemma {:induction false} WritableLife(cfg: Config, self: NodeId, n: Node, steps: seq<LocalStep>)
    requires Writable(cfg, n) && forall s :: s in steps ==> Bounded(cfg, s)
    ensures Writable(cfg, After(cfg, self, n, steps))
  {
    if steps != [] {
      WritableLife(cfg, self, n, steps[..|steps| - 1]);
      WritableStep(cfg, self, After(cfg, self, n, steps[..|steps| - 1]), steps[|steps| - 1]);
    }
  }

  /** After a first start and any life whatsoever, the next start succeeds if and only if the
      disk holds a record of the controller's own, or the configured strict owner happens to
      be component 0: that is the owner the blank record of the first start names. */
  lemma RestartSucceedsIffRecordedOrOwnerIsZero(cfg: Config, self: NodeId, reservation: nat, steps: seq<LocalStep>,
                                                rec: JournalRecord, o: StoreOutcome)
    requires reservation <= cfg.limit && forall s :: s in steps ==> Bounded(cfg, s)
    ensures Start(cfg, self, Rebooted(cfg, reservation), Missing, Durable).Started?
    ensures
      var first := Start(cfg, self, Rebooted(cfg, reservation), Missing, Durable).node;
      rec in OnDisk(After(cfg, self, first, steps)) ==>
        (Start(cfg, self, Rebooted(cfg, reservation), Loaded(rec), o).Started? <==> rec != BLANK || cfg.owner == 0)
  {
    var first := Start(cfg, self, Rebooted(cfg, reservation), Missing, Durable).node;
    WritableLife(cfg, self, first, steps);
  }
}
