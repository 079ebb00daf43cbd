/** What the handoff promises, over every run of every valid cluster. */
module HandoffTheorems {
  import opened CounterTypes
  import opened HandoffProtocol
  import opened HandoffCluster
  import opened HandoffInvariant
  import Sums

  // ---------------------------------------------------------------- the hard limit

  /** Where every accepted unit is: in the frozen peak totals, plus what the strict owner
      has admitted since it was seeded. */
  lemma AcceptedIsAccounted(cfg: Config, c: Cluster)
    requires ValidConfig(cfg) && Inv(cfg, c)
    ensures AcceptedSum(c) ==
            if c.nodes[cfg.owner].engine.mode == DangerStrict then c.nodes[cfg.owner].engine.strictValue
            else FrozenSum(c)
  {
    hide NetOk, CollectOk, AcksOk;
    var owner := c.nodes[cfg.owner];
    OnlyTheOwnerDiffers(cfg, c);
    assert NodeOk(cfg, cfg.owner, owner);
    if owner.engine.mode == DangerStrict && cfg.owner != cfg.leader {
      assert FollowerOk(c, InstalledTerm(c.nodes[cfg.leader]), owner);
    }
  }

  /** Every member but the owner has accepted exactly what its peak shards hold. */
  lemma AcceptedInPeakOnly(cfg: Config, c: Cluster, i: NodeId)
    requires NodesOk(cfg, c) && i in c.nodes && i != cfg.owner
    ensures c.nodes[i].engine.accepted == c.nodes[i].engine.peakTotal
  {
    assert NodeOk(cfg, i, c.nodes[i]);
  }

  lemma OnlyTheOwnerDiffers(cfg: Config, c: Cluster)
    requires NodesOk(cfg, c) && cfg.owner in c.nodes
    ensures AcceptedSum(c) == FrozenSum(c) - c.nodes[cfg.owner].engine.peakTotal + c.nodes[cfg.owner].engine.accepted
  {
    hide NodesOk, Sums.SumMap;
    var accepted := c.nodes[cfg.owner].engine.accepted;
    forall i | i in c.nodes && i != cfg.owner
      ensures c.nodes[i].engine.accepted == c.nodes[i].engine.peakTotal
    {
      AcceptedInPeakOnly(cfg, c, i);
    }
    assert AcceptedTotals(c) == PeakTotals(c)[cfg.owner := accepted];
    Sums.SumMapUpdate<NodeId>(PeakTotals(c), cfg.owner, accepted);
  }

  lemma PeakTotalsFit(cfg: Config, c: Cluster)
    requires ValidConfig(cfg) && Inv(cfg, c)
    ensures FrozenSum(c) <= cfg.limit
  {
    forall i | i in PeakTotals(c) ensures PeakTotals(c)[i] <= cfg.capacity[i] {
      assert NodeOk(cfg, i, c.nodes[i]);
    }
    Sums.SumMapMonotone<NodeId>(PeakTotals(c), cfg.capacity);
  }

  /** The cluster never accepts more than the limit, in any state of any run. */
  lemma GlobalHardLimit(cfg: Config, run: seq<Cluster>, steps: seq<Step>, k: nat)
    requires ValidConfig(cfg) && IsRun(cfg, run, steps) && k < |run|
    ensures AcceptedSum(run[k]) <= cfg.limit
  {
    RunKeepsInv(cfg, run, steps, k);
    AcceptedIsAccounted(cfg, run[k]);
    PeakTotalsFit(cfg, run[k]);
    assert NodeOk(cfg, cfg.owner, run[k].nodes[cfg.owner]);
  }

  // ---------------------------------------------------------------- one step of one node

  /** The node that acts and what it becomes; every other node is untouched. */
  lemma OnlyTheActorMoves(cfg: Config, c: Cluster, s: Step, c': Cluster, i: NodeId)
    requires Next(cfg, c, s, c') && i in c.nodes
    ensures i in c'.nodes && c.net <= c'.net && c.issued <= c'.issued
    ensures i != Actor(s) ==> c'.nodes[i] == c.nodes[i]
  {
  }

  /** A mode installed by a handoff is kept by every step, whatever is delivered. */
  lemma StepKeepsMode(cfg: Config, c: Cluster, s: Step, c': Cluster, i: NodeId)
    requires ValidConfig(cfg) && Inv(cfg, c) && Next(cfg, c, s, c') && i in c.nodes
    ensures i in c'.nodes
    ensures c.nodes[i].engine.mode != ReservedPeak ==>
              c'.nodes[i].engine.mode == c.nodes[i].engine.mode && c'.nodes[i].engine.peakTotal == c.nodes[i].engine.peakTotal
  {
    OnlyTheActorMoves(cfg, c, s, c', i);
    var n := c.nodes[i];
    assert NodeOk(cfg, i, n);
    if i == Actor(s) && n.engine.mode != ReservedPeak {
      match s
      case Deliver(p, env) => InstalledNodeReceives(cfg, i, n, p.frame, env);
      case Turn(self, env) =>
      case TearDown(self, env) =>
      case Admit(self, delta, counter) =>
      case CollapseLocally(self) =>
      case EnterPeakLocally(self) =>
    }
  }

  /** No frame of any kind or term changes the engine or the record of an installed node. */
  lemma InstalledNodeReceives(cfg: Config, i: NodeId, n: Node, f: Frame, env: Env)
    requires i in cfg.capacity && NodeOk(cfg, i, n) && n.engine.mode != ReservedPeak
    ensures HandleFrame(cfg, i, n, f, env).node.engine == n.engine
    ensures HandleFrame(cfg, i, n, f, env).node.journal == n.journal
  {
  }

  /** What a step does to the node that takes it. */
  ghost function Act(cfg: Config, n: Node, s: Step): (o: Outcome)
  {
    match s
    case Deliver(p, env) => HandleFrame(cfg, p.dst, n, p.frame, env)
    case Turn(self, env) => Tick(cfg, self, n, env)
    case TearDown(self, env) => Stop(cfg, self, n, env)
    case Admit(self, delta, counter) => WithEngine(n, Accept(n.engine, delta, counter))
    case CollapseLocally(self) => WithEngine(n, LocalDanger(n.engine))
    case EnterPeakLocally(self) => WithEngine(n, LocalReserved(n.engine))
  }

  lemma EffectIsUpdate(cfg: Config, c: Cluster, s: Step)
    requires Actor(s) in c.nodes
    ensures Effect(cfg, c, s) == Update(cfg, c, Actor(s), Act(cfg, c.nodes[Actor(s)], s))
  {
  }

  lemma LeaderStopHolds(cfg: Config, ld: Node, env: Env, t: nat)
    requires cfg.leader in cfg.capacity && NodeOk(cfg, cfg.leader, ld)
    requires Holds(Stop(cfg, cfg.leader, ld, env).node, t)
    ensures Holds(ld, t)
  {
  }

  /** The leader takes hold of a term only by opening it with a new number. */
  lemma HoldsBackward(cfg: Config, c: Cluster, s: Step, c': Cluster, t: nat)
    requires ValidConfig(cfg) && Inv(cfg, c) && Next(cfg, c, s, c')
    requires cfg.leader in c'.nodes && Holds(c'.nodes[cfg.leader], t) && t <= c.issued
    ensures Holds(c.nodes[cfg.leader], t)
  {
    hide ValidConfig;
    var ld := c.nodes[cfg.leader];
    assert NodeOk(cfg, cfg.leader, ld) && (s.Deliver? ==> PacketOk(cfg, c, s.p));
    EffectIsUpdate(cfg, c, s);
    if Actor(s) == cfg.leader {
      var n' := Act(cfg, ld, s).node;
      assert s.Deliver? || s.Turn? ==> FreshTerm(c, s.env, ld, n');
      hide Inv, NodeOk, HandleFrame, Tick, Stop, Next, Effect;
      match s
      case Deliver(p, env) => LeaderFrameHolds(cfg, ld, p.frame, env, t);
      case Turn(self, env) => LeaderTurnHolds(cfg, ld, env, t);
      case TearDown(self, env) => LeaderStopHolds(cfg, ld, env, t);
      case Admit(self, delta, counter) =>
      case CollapseLocally(self) =>
      case EnterPeakLocally(self) =>
    }
  }

  lemma LeaderTurnHolds(cfg: Config, ld: Node, env: Env, t: nat)
    requires cfg.leader in cfg.capacity && NodeOk(cfg, cfg.leader, ld)
    requires Holds(Tick(cfg, cfg.leader, ld, env).node, t)
    ensures
      var n' := Tick(cfg, cfg.leader, ld, env).node;
      Holds(ld, t) || (ld.state == Idle && n'.state == LeaderPreparing && n'.activeTerm == t && t >= env.clock)
  {
  }

  lemma LeaderFrameHolds(cfg: Config, ld: Node, f: Frame, env: Env, t: nat)
    requires cfg.leader in cfg.capacity && NodeOk(cfg, cfg.leader, ld)
    requires f.sender != cfg.leader
    requires Holds(HandleFrame(cfg, cfg.leader, ld, f, env).node, t)
    ensures
      var n' := HandleFrame(cfg, cfg.leader, ld, f, env).node;
      Holds(ld, t) || (ld.state == Idle && n'.state == LeaderPreparing && n'.activeTerm == t && t >= env.clock)
  {
    match f.kind
    case Prepared =>
      if f.sender in cfg.members && ld.state == LeaderPreparing && f.term == ld.activeTerm {
        AttemptKeepsTerm(cfg, WithReport(ld, f), env, t);
      }
    case Trigger =>
    case CommitAck =>
    case Prepare =>
    case Commit =>
    case Abort =>
  }

  lemma AttemptKeepsTerm(cfg: Config, ld: Node, env: Env, t: nat)
    requires ld.state == LeaderPreparing && ld.lastCommittedTerm == 0
    requires Holds(TryBeginCommit(cfg, cfg.leader, ld, env).node, t)
    ensures ld.activeTerm == t
  {
  }

  /** A node's installed term is never given up or replaced. */
  lemma StepKeepsInstalled(cfg: Config, c: Cluster, s: Step, c': Cluster, i: NodeId)
    requires ValidConfig(cfg) && Inv(cfg, c) && Next(cfg, c, s, c') && i in c.nodes
    requires InstalledTerm(c.nodes[i]) > 0
    ensures i in c'.nodes && InstalledTerm(c'.nodes[i]) == InstalledTerm(c.nodes[i])
    ensures c'.nodes[i].journal == c.nodes[i].journal
  {
    OnlyTheActorMoves(cfg, c, s, c', i);
    var n := c.nodes[i];
    assert NodeOk(cfg, i, n);
    if i == Actor(s) {
      match s
      case Deliver(p, env) =>
        assert PacketOk(cfg, c, p);
        InstalledNodeReceives(cfg, i, n, p.frame, env);
        InstalledNodeKeepsTerm(cfg, i, n, p.frame, env);
      case Turn(self, env) =>
      case TearDown(self, env) =>
      case Admit(self, delta, counter) =>
      case CollapseLocally(self) =>
      case EnterPeakLocally(self) =>
    }
  }

  lemma InstalledNodeKeepsTerm(cfg: Config, i: NodeId, n: Node, f: Frame, env: Env)
    requires i in cfg.capacity && NodeOk(cfg, i, n) && InstalledTerm(n) > 0
    ensures InstalledTerm(HandleFrame(cfg, i, n, f, env).node) == InstalledTerm(n)
  {
  }

  /** No frame moves what the peak shards have used. */
  lemma FramesKeepPeak(cfg: Config, i: NodeId, n: Node, f: Frame, env: Env)
    ensures HandleFrame(cfg, i, n, f, env).node.engine.peakTotal == n.engine.peakTotal
  {
    match f.kind
    case Prepared => PreparedKeepsPeak(cfg, i, n, f, env);
    case Trigger =>
    case Prepare =>
    case Commit =>
    case CommitAck =>
    case Abort =>
  }

  lemma PreparedKeepsPeak(cfg: Config, i: NodeId, n: Node, f: Frame, env: Env)
    ensures HandlePrepared(cfg, i, n, f, env).node.engine.peakTotal == n.engine.peakTotal
  {
  }

  // ---------------------------------------------------------------- over runs

  lemma RunStep(cfg: Config, run: seq<Cluster>, steps: seq<Step>, k: nat)
    requires ValidConfig(cfg) && IsRun(cfg, run, steps) && k < |steps|
    ensures Inv(cfg, run[k]) && Inv(cfg, run[k + 1]) && Next(cfg, run[k], steps[k], run[k + 1])
  {
    RunKeepsInv(cfg, run, steps, k);
    RunKeepsInv(cfg, run, steps, k + 1);
    assert StepAt(cfg, run, steps, k);
  }

  lemma RunGrowsOnce(cfg: Config, run: seq<Cluster>, steps: seq<Step>, k: nat)
    requires ValidConfig(cfg) && IsRun(cfg, run, steps) && k < |steps|
    ensures run[k].net <= run[k + 1].net && run[k].issued <= run[k + 1].issued
  {
    RunStep(cfg, run, steps, k);
    OnlyTheActorMoves(cfg, run[k], steps[k], run[k + 1], cfg.leader);
  }

  lemma RunMembers(cfg: Config, run: seq<Cluster>, steps: seq<Step>, k: nat)
    requires ValidConfig(cfg) && IsRun(cfg, run, steps) && k < |run|
    ensures run[k].nodes.Keys == cfg.members
  {
    RunKeepsInv(cfg, run, steps, k);
  }

  lemma ModeStaysOnce(cfg: Config, run: seq<Cluster>, steps: seq<Step>, k: nat, i: NodeId)
    requires ValidConfig(cfg) && IsRun(cfg, run, steps) && k < |steps|
    requires i in run[k].nodes && run[k].nodes[i].engine.mode != ReservedPeak
    ensures i in run[k + 1].nodes && run[k + 1].nodes[i].engine.mode == run[k].nodes[i].engine.mode
    ensures run[k + 1].nodes[i].engine.peakTotal == run[k].nodes[i].engine.peakTotal
  {
    RunStep(cfg, run, steps, k);
    StepKeepsMode(cfg, run[k], steps[k], run[k + 1], i);
  }

  lemma ModeMatchesRole(cfg: Config, run: seq<Cluster>, steps: seq<Step>, k: nat, i: NodeId)
    requires ValidConfig(cfg) && IsRun(cfg, run, steps) && k < |run|
    requires i in run[k].nodes && run[k].nodes[i].engine.mode != ReservedPeak
    ensures run[k].nodes[i].engine.mode == (if i == cfg.owner then DangerStrict else RemoteStrict)
  {
    RunKeepsInv(cfg, run, steps, k);
    assert NodeOk(cfg, i, run[k].nodes[i]);
  }

  lemma InstalledTermStaysOnce(cfg: Config, run: seq<Cluster>, steps: seq<Step>, k: nat, i: NodeId)
    requires ValidConfig(cfg) && IsRun(cfg, run, steps) && k < |steps|
    requires i in run[k].nodes && InstalledTerm(run[k].nodes[i]) > 0
    ensures i in run[k + 1].nodes && InstalledTerm(run[k + 1].nodes[i]) == InstalledTerm(run[k].nodes[i])
    ensures run[k + 1].nodes[i].journal == run[k].nodes[i].journal
  {
    RunStep(cfg, run, steps, k);
    StepKeepsInstalled(cfg, run[k], steps[k], run[k + 1], i);
  }

  /** Nothing is ever taken out of the network, and nobody leaves the cluster. */
  lemma {:induction false} RunGrows(cfg: Config, run: seq<Cluster>, steps: seq<Step>, j: nat, k: nat)
    requires ValidConfig(cfg) && IsRun(cfg, run, steps) && j <= k < |run|
    ensures run[j].net <= run[k].net && run[j].issued <= run[k].issued
    ensures run[k].nodes.Keys == cfg.members
  {
    if j < k {
      RunGrows(cfg, run, steps, j, k - 1);
      RunGrowsOnce(cfg, run, steps, k - 1);
    }
    RunMembers(cfg, run, steps, k);
  }

  /** Strict modes are absorbing: once a node has left peak mode it stays in the mode its
      role calls for, through any later prepare, trigger, abort or commit. */
  lemma {:induction false} ModesAreAbsorbing(cfg: Config, run: seq<Cluster>, steps: seq<Step>, j: nat, k: nat, i: NodeId)
    requires ValidConfig(cfg) && IsRun(cfg, run, steps) && j <= k < |run| && i in cfg.members
    requires i in run[j].nodes && run[j].nodes[i].engine.mode != ReservedPeak
    ensures i in run[k].nodes
    ensures run[k].nodes[i].engine.mode == (if i == cfg.owner then DangerStrict else RemoteStrict)
    ensures run[k].nodes[i].engine.peakTotal == run[j].nodes[i].engine.peakTotal
  {
    if j < k {
      ModesAreAbsorbing(cfg, run, steps, j, k - 1, i);
      ModeStaysOnce(cfg, run, steps, k - 1, i);
    } else {
      ModeMatchesRole(cfg, run, steps, k, i);
    }
  }

  lemma {:induction false} InstalledTermStays(cfg: Config, run: seq<Cluster>, steps: seq<Step>, j: nat, k: nat, i: NodeId)
    requires ValidConfig(cfg) && IsRun(cfg, run, steps) && j <= k < |run|
    requires i in run[j].nodes && InstalledTerm(run[j].nodes[i]) > 0
    ensures i in run[k].nodes && InstalledTerm(run[k].nodes[i]) == InstalledTerm(run[j].nodes[i])
    ensures run[k].nodes[i].journal == run[j].nodes[i].journal
  {
    if j < k {
      InstalledTermStays(cfg, run, steps, j, k - 1, i);
      InstalledTermStaysOnce(cfg, run, steps, k - 1, i);
    }
  }

  /** An installed node agrees with the leader on term and total. */
  lemma InstalledAgreesWithLeader(cfg: Config, c: Cluster, i: NodeId)
    requires ValidConfig(cfg) && Inv(cfg, c) && i in c.nodes && InstalledTerm(c.nodes[i]) > 0
    ensures InstalledTerm(c.nodes[i]) == InstalledTerm(c.nodes[cfg.leader])
    ensures c.nodes[i].journal.phase == CommittedRecord && c.nodes[i].journal.term == InstalledTerm(c.nodes[i])
    ensures c.nodes[i].journal.total == c.nodes[cfg.leader].committedTotal == FrozenSum(c)
  {
    assert NodeOk(cfg, i, c.nodes[i]);
    if i != cfg.leader {
      assert FollowerOk(c, InstalledTerm(c.nodes[cfg.leader]), c.nodes[i]);
    }
  }

  /** At most one term is ever committed: any two nodes that ever install a handoff, at any
      two moments, installed the same term and the same total. */
  lemma Agreement(cfg: Config, run: seq<Cluster>, steps: seq<Step>, j: nat, k: nat, a: NodeId, b: NodeId)
    requires ValidConfig(cfg) && IsRun(cfg, run, steps) && j <= k < |run|
    requires a in run[j].nodes && b in run[k].nodes
    requires InstalledTerm(run[j].nodes[a]) > 0 && InstalledTerm(run[k].nodes[b]) > 0
    ensures InstalledTerm(run[j].nodes[a]) == InstalledTerm(run[k].nodes[b])
    ensures run[j].nodes[a].journal.total == run[k].nodes[b].journal.total
  {
    InstalledTermStays(cfg, run, steps, j, k, a);
    RunKeepsInv(cfg, run, steps, k);
    InstalledAgreesWithLeader(cfg, run[k], a);
    InstalledAgreesWithLeader(cfg, run[k], b);
  }

  /** No term is both aborted on the wire and installed anywhere, in whatever order. */
  lemma NoTermIsAbortedAndCommitted(cfg: Config, run: seq<Cluster>, steps: seq<Step>, j: nat, k: nat, p: Packet, i: NodeId)
    requires ValidConfig(cfg) && IsRun(cfg, run, steps) && j < |run| && k < |run|
    requires p in run[j].net && p.frame.kind == Abort
    requires i in run[k].nodes && InstalledTerm(run[k].nodes[i]) > 0
    ensures p.frame.term != InstalledTerm(run[k].nodes[i])
  {
    var last := if j < k then k else j;
    RunGrows(cfg, run, steps, j, last);
    InstalledTermStays(cfg, run, steps, k, last, i);
    RunKeepsInv(cfg, run, steps, last);
    InstalledAgreesWithLeader(cfg, run[last], i);
    assert PacketOk(cfg, run[last], p);
  }

  // ---------------------------------------------------------------- exact frozen totals

  /** If the leader holds a term at k that was already issued at j, it held it in between. */
  lemma {:induction false} HeldThroughout(cfg: Config, run: seq<Cluster>, steps: seq<Step>, j: nat, k: nat, t: nat)
    requires ValidConfig(cfg) && IsRun(cfg, run, steps) && j <= k < |run|
    requires cfg.leader in run[k].nodes && Holds(run[k].nodes[cfg.leader], t) && t <= run[j].issued
    ensures cfg.leader in run[j].nodes && Holds(run[j].nodes[cfg.leader], t)
    decreases k - j
  {
    if j < k {
      RunGrowsOnce(cfg, run, steps, j);
      HeldThroughout(cfg, run, steps, j + 1, k, t);
      HeldBefore(cfg, run, steps, j, t);
    }
  }

  lemma HeldBefore(cfg: Config, run: seq<Cluster>, steps: seq<Step>, k: nat, t: nat)
    requires ValidConfig(cfg) && IsRun(cfg, run, steps) && k < |steps|
    requires cfg.leader in run[k + 1].nodes && Holds(run[k + 1].nodes[cfg.leader], t) && t <= run[k].issued
    ensures cfg.leader in run[k].nodes && Holds(run[k].nodes[cfg.leader], t)
  {
    RunStep(cfg, run, steps, k);
    HoldsBackward(cfg, run[k], steps[k], run[k + 1], t);
  }

  /** From the moment a report is sent until long after its term is committed, the total it
      carries is the sender's exact total: duplicates and old prepares cannot move it. */
  lemma ReportStaysExact(cfg: Config, run: seq<Cluster>, steps: seq<Step>, j: nat, m: nat, k: nat, p: Packet)
    requires ValidConfig(cfg) && IsRun(cfg, run, steps) && j <= m <= k < |run|
    requires p in run[j].net && p.frame.kind == Prepared
    requires cfg.leader in run[k].nodes && Holds(run[k].nodes[cfg.leader], p.frame.term)
    ensures p.frame.sender in run[m].nodes
    ensures run[m].nodes[p.frame.sender].engine.peakTotal == p.frame.value
  {
    hide ValidConfig, IsRun, Inv, Holds;
    RunGrows(cfg, run, steps, j, m);
    RunKeepsInv(cfg, run, steps, j);
    TermsAreIssued(cfg, run[j], p);
    HeldThroughout(cfg, run, steps, m, k, p.frame.term);
    RunKeepsInv(cfg, run, steps, m);
    HeldReportIsExact(cfg, run[m], p);
  }

  lemma TermsAreIssued(cfg: Config, c: Cluster, p: Packet)
    requires Inv(cfg, c) && p in c.net && p.frame.kind == Prepared
    ensures 0 < p.frame.term <= c.issued
  {
    hide NodesOk, CollectOk, FollowersOk, TotalOk, AcksOk;
    assert PacketOk(cfg, c, p);
  }

  /** A report for a term the leader holds carries its sender's total of this very moment. */
  lemma HeldReportIsExact(cfg: Config, c: Cluster, p: Packet)
    requires Inv(cfg, c) && p in c.net && p.frame.kind == Prepared && Holds(c.nodes[cfg.leader], p.frame.term)
    ensures p.frame.sender in c.nodes && c.nodes[p.frame.sender].engine.peakTotal == p.frame.value
  {
    hide CollectOk, FollowersOk, TotalOk, AcksOk;
    assert PacketOk(cfg, c, p);
    assert NodeOk(cfg, p.frame.sender, c.nodes[p.frame.sender]);
  }

  /** A commit carries at least the drained part of the node it is for: what the engine
      modules assume of a committed total. */
  lemma CommitIncludesOwnPart(cfg: Config, run: seq<Cluster>, steps: seq<Step>, k: nat, p: Packet)
    requires ValidConfig(cfg) && IsRun(cfg, run, steps) && k < |run|
    requires p in run[k].net && p.frame.kind == Commit
    ensures p.dst in run[k].nodes && run[k].nodes[p.dst].engine.peakTotal <= p.frame.value <= cfg.limit
    ensures cfg.leader in run[k].nodes && run[k].nodes[cfg.leader].engine.peakTotal <= p.frame.value
  {
    hide ValidConfig, IsRun;
    RunKeepsInv(cfg, run, steps, k);
    hide CollectOk, FollowersOk, AcksOk;
    assert PacketOk(cfg, run[k], p);
    Sums.SumMapAtLeast<NodeId>(PeakTotals(run[k]), p.dst);
    Sums.SumMapAtLeast<NodeId>(PeakTotals(run[k]), cfg.leader);
  }

  /** Only a report that completes the leader's collection makes a decision. */
  lemma DecisionComesFromReport(cfg: Config, c: Cluster, s: Step, c': Cluster)
    requires ValidConfig(cfg) && Inv(cfg, c) && Next(cfg, c, s, c')
    requires InstalledTerm(c.nodes[cfg.leader]) == 0
    requires cfg.leader in c'.nodes && InstalledTerm(c'.nodes[cfg.leader]) > 0
    ensures Actor(s) == cfg.leader && s.Deliver?
    ensures c.nodes[cfg.leader].state == LeaderPreparing
    ensures c'.nodes[cfg.leader].engine.peakTotal == c.nodes[cfg.leader].engine.peakTotal
  {
    hide NodeOk, ValidConfig, CommittedRecordOf;
    var ld := c.nodes[cfg.leader];
    assert NodeOk(cfg, cfg.leader, ld);
    match s {
      case Deliver(p, env) =>
        assert PacketOk(cfg, c, p);
        FramesKeepPeak(cfg, cfg.leader, ld, p.frame, env);
        DecisionComesFromPreparing(cfg, ld, p.frame, env);
      case Turn(self, env) =>
      case TearDown(self, env) =>
      case Admit(self, delta, counter) =>
      case CollapseLocally(self) =>
      case EnterPeakLocally(self) =>
    }
  }

  lemma DecisionComesFromPreparing(cfg: Config, ld: Node, f: Frame, env: Env)
    requires cfg.leader in cfg.capacity && NodeOk(cfg, cfg.leader, ld) && f.sender != cfg.leader
    requires InstalledTerm(ld) == 0 && InstalledTerm(HandleFrame(cfg, cfg.leader, ld, f, env).node) > 0
    requires f.kind == Prepare || f.kind == Commit || f.kind == Abort ==> f.sender == cfg.leader
    ensures ld.state == LeaderPreparing
  {
  }

  lemma JoinedGateIsShut(cfg: Config, c: Cluster, c': Cluster, i: NodeId)
    requires NodesOk(cfg, c) && i in c.nodes && i != cfg.leader
    requires cfg.leader in c'.nodes && InstalledTerm(c'.nodes[cfg.leader]) > 0
    requires FollowerOk(c, 0, c.nodes[i]) && FollowerOk(c', InstalledTerm(c'.nodes[cfg.leader]), c.nodes[i])
    ensures c.nodes[i].engine.mode == ReservedPeak && !c.nodes[i].engine.gateOpen
  {
    assert NodeOk(cfg, i, c.nodes[i]);
  }

  /** Before a decision every node is in peak mode; with a decision next, every gate is shut. */
  lemma GatesAreShut(cfg: Config, c: Cluster, s: Step, c': Cluster)
    requires ValidConfig(cfg) && Inv(cfg, c) && Next(cfg, c, s, c') && Inv(cfg, c')
    requires InstalledTerm(c.nodes[cfg.leader]) == 0 && c.nodes[cfg.leader].state == LeaderPreparing
    requires InstalledTerm(c'.nodes[cfg.leader]) > 0 && Actor(s) == cfg.leader
    ensures forall i :: i in c.nodes ==> c.nodes[i].engine.mode == ReservedPeak && !c.nodes[i].engine.gateOpen
  {
    hide ValidConfig, CollectOk, TotalOk, AcksOk, NetOk, Effect, Enabled, Timely, FollowerOk;
    assert NodeOk(cfg, cfg.leader, c.nodes[cfg.leader]);
    forall i | i in c.nodes && i != cfg.leader
      ensures c.nodes[i].engine.mode == ReservedPeak && !c.nodes[i].engine.gateOpen
    {
      OnlyTheActorMoves(cfg, c, s, c', i);
      JoinedGateIsShut(cfg, c, c', i);
    }
  }

  lemma OthersKeepPeak(cfg: Config, c: Cluster, s: Step, c': Cluster)
    requires Next(cfg, c, s, c') && Actor(s) == cfg.leader
    requires cfg.leader in c'.nodes && c'.nodes[cfg.leader].engine.peakTotal == c.nodes[cfg.leader].engine.peakTotal
    ensures FrozenSum(c') == FrozenSum(c)
  {
    forall i | i in c.nodes ensures i in c'.nodes && c'.nodes[i].engine.peakTotal == c.nodes[i].engine.peakTotal {
      OnlyTheActorMoves(cfg, c, s, c', i);
    }
    SameTotals(c, c');
  }

  /** At the moment of decision every gate is closed, and the committed total is the sum of
      every delta accepted so far: nothing is lost and nothing is counted twice. */
  lemma DecisionIsExact(cfg: Config, run: seq<Cluster>, steps: seq<Step>, k: nat)
    requires ValidConfig(cfg) && IsRun(cfg, run, steps) && k < |steps|
    requires cfg.leader in run[k].nodes && InstalledTerm(run[k].nodes[cfg.leader]) == 0
    requires cfg.leader in run[k + 1].nodes && InstalledTerm(run[k + 1].nodes[cfg.leader]) > 0
    ensures run[k + 1].nodes[cfg.leader].committedTotal == AcceptedSum(run[k]) == FrozenSum(run[k])
    ensures forall i :: i in run[k].nodes ==> !run[k].nodes[i].engine.gateOpen
  {
    var c, s, c' := run[k], steps[k], run[k + 1];
    RunStep(cfg, run, steps, k);
    DecisionComesFromReport(cfg, c, s, c');
    GatesAreShut(cfg, c, s, c');
    OthersKeepPeak(cfg, c, s, c');
    AcceptedIsAccounted(cfg, c);
    assert TotalOk(cfg, c');
  }

  // ---------------------------------------------------------------- acknowledgements and retries

  lemma ClosedTermIsInstalledEverywhere(cfg: Config, c: Cluster)
    requires ValidConfig(cfg) && Inv(cfg, c)
    requires InstalledTerm(c.nodes[cfg.leader]) > 0 && c.nodes[cfg.leader].state != LeaderCommitting
    ensures forall i :: i in c.nodes ==>
              && c.nodes[i].engine.mode == (if i == cfg.owner then DangerStrict else RemoteStrict)
              && c.nodes[i].journal.phase == CommittedRecord
              && c.nodes[i].journal.term == InstalledTerm(c.nodes[cfg.leader])
              && c.nodes[i].journal.total == c.nodes[cfg.leader].committedTotal
  {
    var ld := c.nodes[cfg.leader];
    assert NodeOk(cfg, cfg.leader, ld);
    forall i | i in c.nodes ensures InstalledTerm(c.nodes[i]) == InstalledTerm(ld) && NodeOk(cfg, i, c.nodes[i]) {
      assert NodeOk(cfg, i, c.nodes[i]);
    }
    assert TotalOk(cfg, c);
  }

  /** The leader stops retrying the commit only when every member has recorded and installed it. */
  lemma LeaderStopsOnlyWhenAllInstalled(cfg: Config, run: seq<Cluster>, steps: seq<Step>, k: nat)
    requires ValidConfig(cfg) && IsRun(cfg, run, steps) && k < |steps|
    requires cfg.leader in run[k].nodes && run[k].nodes[cfg.leader].state == LeaderCommitting
    requires cfg.leader in run[k + 1].nodes && run[k + 1].nodes[cfg.leader].state != LeaderCommitting
    ensures forall i :: i in cfg.members ==>
              && i in run[k + 1].nodes
              && run[k + 1].nodes[i].engine.mode == (if i == cfg.owner then DangerStrict else RemoteStrict)
              && run[k + 1].nodes[i].journal.phase == CommittedRecord
              && run[k + 1].nodes[i].journal.term == run[k].nodes[cfg.leader].activeTerm
              && run[k + 1].nodes[i].journal.total == run[k].nodes[cfg.leader].committedTotal
  {
    RunStep(cfg, run, steps, k);
    assert NodeOk(cfg, cfg.leader, run[k].nodes[cfg.leader]);
    InstalledTermStaysOnce(cfg, run, steps, k, cfg.leader);
    ClosedTermIsInstalledEverywhere(cfg, run[k + 1]);
    InstalledAgreesWithLeader(cfg, run[k], cfg.leader);
    assert run[k].nodes[cfg.leader].journal == run[k + 1].nodes[cfg.leader].journal;
  }

  /** A commit delivered again to a node that has installed it is acknowledged and changes
      nothing: a strict counter that has accepted requests since is not seeded again. */
  lemma DuplicateCommitIsIdempotent(cfg: Config, run: seq<Cluster>, steps: seq<Step>, k: nat, p: Packet, env: Env)
    requires ValidConfig(cfg) && IsRun(cfg, run, steps) && k < |run|
    requires p in run[k].net && p.frame.kind == Commit
    requires p.dst in run[k].nodes && InstalledTerm(run[k].nodes[p.dst]) > 0
    ensures
      var o := HandleFrame(cfg, p.dst, run[k].nodes[p.dst], p.frame, env);
      && o.node == run[k].nodes[p.dst]
      && o.sent == {Packet(cfg.leader, Frame(CommitAck, p.dst, InstalledTerm(o.node), p.frame.counter, p.frame.epoch, p.frame.value, cfg.owner))}
  {
    hide ValidConfig, TotalOk, IsRun;
    var c := run[k];
    RunKeepsInv(cfg, run, steps, k);
    assert PacketOk(cfg, c, p);
    var n := c.nodes[p.dst];
    assert NodeOk(cfg, p.dst, n);
    assert FollowerOk(c, InstalledTerm(c.nodes[cfg.leader]), n);
  }

  // ---------------------------------------------------------------- write-ahead journal

  /** Whoever sends a report has the same report in its journal. */
  lemma ReportIsWrittenFirst(cfg: Config, c: Cluster, s: Step, c': Cluster, p: Packet)
    requires ValidConfig(cfg) && Inv(cfg, c) && Next(cfg, c, s, c') && Inv(cfg, c')
    requires p in c'.net && p !in c.net && p.frame.kind == Prepared
    ensures p.frame.sender in c'.nodes
    ensures c'.nodes[p.frame.sender].journal
            == PreparedRecordOf(cfg, p.frame.term, Drained(p.frame.counter, p.frame.epoch, p.frame.value))
  {
    hide ValidConfig, PacketOk, SendTo, StateOk;
    var i := Actor(s);
    var n := c.nodes[i];
    assert NodeOk(cfg, i, n) && NodeOk(cfg, i, c'.nodes[i]);
    match s
    case Deliver(q, env) => SentReport(cfg, i, n, HandleFrame(cfg, i, n, q.frame, env), q.frame, env, p);
    case Turn(self, env) => SentReportOnTurn(cfg, i, n, env, p);
    case TearDown(self, env) =>
    case Admit(self, delta, counter) =>
    case CollapseLocally(self) =>
    case EnterPeakLocally(self) =>
  }

  lemma SentReport(cfg: Config, i: NodeId, n: Node, o: Outcome, f: Frame, env: Env, p: Packet)
    requires i in cfg.capacity && NodeOk(cfg, i, n) && o == HandleFrame(cfg, i, n, f, env) && NodeOk(cfg, i, o.node)
    requires p in o.sent && p.frame.kind == Prepared
    ensures p.frame.sender == i && o.node.state == FollowerPrepared
    ensures p.frame.term == o.node.activeTerm
    ensures Drained(p.frame.counter, p.frame.epoch, p.frame.value) == Drained(o.node.engine.counter, o.node.engine.epoch, o.node.engine.peakTotal)
  {
    match f.kind
    case Prepare =>
    case Trigger =>
    case Prepared => NoReportFromLeader(cfg, i, n, f, env, p);
    case Commit =>
    case CommitAck =>
    case Abort =>
  }

  lemma NoReportFromLeader(cfg: Config, i: NodeId, n: Node, f: Frame, env: Env, p: Packet)
    requires p in HandlePrepared(cfg, i, n, f, env).sent
    ensures p.frame.kind == Abort
  {
  }

  lemma SentReportOnTurn(cfg: Config, i: NodeId, n: Node, env: Env, p: Packet)
    requires i in cfg.capacity && NodeOk(cfg, i, n) && NodeOk(cfg, i, Tick(cfg, i, n, env).node)
    requires p in Tick(cfg, i, n, env).sent && p.frame.kind == Prepared
    ensures
      var n' := Tick(cfg, i, n, env).node;
      && p.frame.sender == i && n'.state == FollowerPrepared && p.frame.term == n'.activeTerm
      && Drained(p.frame.counter, p.frame.epoch, p.frame.value) == Drained(n'.engine.counter, n'.engine.epoch, n'.engine.peakTotal)
  {
  }

  lemma ReportIsWrittenFirstAt(cfg: Config, run: seq<Cluster>, steps: seq<Step>, k: nat, p: Packet)
    requires ValidConfig(cfg) && IsRun(cfg, run, steps) && k < |steps|
    requires p in run[k + 1].net && p !in run[k].net && p.frame.kind == Prepared
    ensures Recorded(cfg, run[k + 1], p)
  {
    RunStep(cfg, run, steps, k);
    ReportIsWrittenFirst(cfg, run[k], steps[k], run[k + 1], p);
  }

  predicate Recorded(cfg: Config, c: Cluster, p: Packet)
  {
    && p.frame.sender in c.nodes
    && c.nodes[p.frame.sender].journal
       == PreparedRecordOf(cfg, p.frame.term, Drained(p.frame.counter, p.frame.epoch, p.frame.value))
  }

  /** Every report in the network was durable at its sender when it was first sent. */
  lemma {:induction false} ReportsAreWrittenAhead(cfg: Config, run: seq<Cluster>, steps: seq<Step>, k: nat, p: Packet)
    requires ValidConfig(cfg) && IsRun(cfg, run, steps) && k < |run|
    requires p in run[k].net && p.frame.kind == Prepared
    ensures exists j: nat :: 0 < j <= k && Recorded(cfg, run[j], p) && p !in run[j - 1].net
  {
    assert run[0].net == {};
    if p in run[k - 1].net {
      ReportsAreWrittenAhead(cfg, run, steps, k - 1, p);
    } else {
      ReportIsWrittenFirstAt(cfg, run, steps, k - 1, p);
    }
  }

  /** A strict mode is never without its record: a node that has left peak mode has the
      decided term and the exact frozen total of the cluster in its journal. */
  lemma StrictModeIsRecorded(cfg: Config, run: seq<Cluster>, steps: seq<Step>, k: nat, i: NodeId)
    requires ValidConfig(cfg) && IsRun(cfg, run, steps) && k < |run|
    requires i in run[k].nodes && run[k].nodes[i].engine.mode != ReservedPeak
    ensures run[k].nodes[i].journal.phase == CommittedRecord
    ensures run[k].nodes[i].journal.term == InstalledTerm(run[k].nodes[i]) > 0
    ensures run[k].nodes[i].journal.total == FrozenSum(run[k])
    ensures run[k].nodes[i].journal.strictOwner == cfg.owner
  {
    RunKeepsInv(cfg, run, steps, k);
    assert NodeOk(cfg, i, run[k].nodes[i]);
    InstalledAgreesWithLeader(cfg, run[k], i);
  }
}
