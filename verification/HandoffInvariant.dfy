/** What every step of a cluster keeps. */
module HandoffInvariant {
  import opened CounterTypes
  import opened HandoffProtocol
  import opened HandoffCluster
  import Sums

  // ---------------------------------------------------------------- the invariant

  /** The gate is closed, the total is exact and cannot move until the term is left. */
  predicate Frozen(self: NodeId, n: Node)
  {
    && n.engine.mode == ReservedPeak && n.engine.handoffActive && !n.engine.gateOpen
    && n.activeTerm > 0 && n.lastCommittedTerm == 0
    && self in n.prepared
    && n.prepared[self] == Drained(n.engine.counter, n.engine.epoch, n.engine.peakTotal)
  }

  predicate StateOk(cfg: Config, self: NodeId, n: Node)
  {
    match n.state
    case Idle => n.activeTerm == 0 && !n.engine.handoffActive && n.engine.gateOpen
    case LeaderPreparing => self == cfg.leader && Frozen(self, n) && n.prepared.Keys <= cfg.members
    case FollowerPrepared => self != cfg.leader && Frozen(self, n)
    case FollowerCommitting => self != cfg.leader && Frozen(self, n)
    case LeaderCommitBlocked => self == cfg.leader && Frozen(self, n)
    case LeaderCommitting =>
      && self == cfg.leader && n.activeTerm > 0 && n.lastCommittedTerm == 0
      && !n.engine.handoffActive && n.engine.gateOpen && n.engine.mode != ReservedPeak
      && n.commitAcks <= cfg.members
  }

  /** What a restart may find. */
  function OnDisk(n: Node): (records: set<JournalRecord>)
  {
    n.older + {n.journal}
  }

  /** No record that a restart may find is behind what the node has told anyone. */
  predicate JournalOk(cfg: Config, n: Node)
  {
    match n.state
    case Idle =>
      if n.engine.mode == ReservedPeak then forall r :: r in OnDisk(n) ==> r.phase != CommittedRecord else n.older == {}
    case LeaderPreparing => n.older == {} && n.journal == PreparedRecordOf(cfg, n.activeTerm, Drained(n.engine.counter, n.engine.epoch, n.engine.peakTotal))
    case FollowerPrepared => n.older == {} && n.journal == PreparedRecordOf(cfg, n.activeTerm, Drained(n.engine.counter, n.engine.epoch, n.engine.peakTotal))
    case FollowerCommitting => forall r :: r in OnDisk(n) ==> r.phase != IdleRecord && r.term == n.activeTerm
    case LeaderCommitBlocked => forall r :: r in OnDisk(n) ==> r.phase != IdleRecord && r.term == n.activeTerm
    case LeaderCommitting => n.older == {}
  }

  /** Which mode an installed node is in, and where its accepted deltas went. */
  predicate ModeOk(cfg: Config, self: NodeId, n: Node)
  {
    && (n.engine.mode == ReservedPeak <==> InstalledTerm(n) == 0)
    && match n.engine.mode
       case Strict => false
       case ReservedPeak => n.engine.accepted == n.engine.peakTotal
       case RemoteStrict =>
         && self != cfg.owner && n.engine.accepted == n.engine.peakTotal
         && n.journal.phase == CommittedRecord && n.journal.term == InstalledTerm(n) && n.journal.strictOwner == cfg.owner
       case DangerStrict =>
         && self == cfg.owner
         && n.journal.phase == CommittedRecord && n.journal.term == InstalledTerm(n) && n.journal.strictOwner == cfg.owner
         && n.journal.total <= n.engine.strictValue <= cfg.limit
         && n.engine.accepted == n.engine.peakTotal + (n.engine.strictValue - n.journal.total)
  }

  predicate NodeOk(cfg: Config, self: NodeId, n: Node)
    requires self in cfg.capacity
  {
    && !n.fenced
    && n.engine.limit == cfg.limit && n.engine.reservation == cfg.capacity[self]
    && n.engine.peakTotal <= n.engine.reservation
    && StateOk(cfg, self, n) && JournalOk(cfg, n) && ModeOk(cfg, self, n)
  }

  /** Follower j stands by the total it reported for term t. */
  predicate Pledged(n: Node, self: NodeId, t: nat, d: Drained)
  {
    || ((n.state == FollowerPrepared || n.state == FollowerCommitting)
        && n.activeTerm == t && self in n.prepared && n.prepared[self] == d)
    || (n.lastCommittedTerm == t && n.engine.peakTotal == d.total)
  }

  predicate PacketOk(cfg: Config, c: Cluster, p: Packet)
    requires cfg.leader in c.nodes
  {
    var ld := c.nodes[cfg.leader];
    var f := p.frame;
    && f.sender in c.nodes && p.dst in cfg.members && p.dst != f.sender && f.strictOwner == cfg.owner
    && match f.kind
       case Trigger => true
       case Prepare => f.sender == cfg.leader && 0 < f.term <= c.issued
       case Prepared =>
         && f.sender != cfg.leader && 0 < f.term <= c.issued
         && (Holds(ld, f.term) ==> Pledged(c.nodes[f.sender], f.sender, f.term, Drained(f.counter, f.epoch, f.value)))
       case Commit => f.sender == cfg.leader && f.term > 0 && InstalledTerm(ld) == f.term && f.value == ld.committedTotal
       case CommitAck => f.sender != cfg.leader && f.term > 0 && c.nodes[f.sender].lastCommittedTerm == f.term
       case Abort => f.sender == cfg.leader && 0 < f.term <= c.issued && ld.activeTerm != f.term && InstalledTerm(ld) != f.term
  }

  predicate NetOk(cfg: Config, c: Cluster)
    requires cfg.leader in c.nodes
  {
    forall p :: p in c.net ==> PacketOk(cfg, c, p)
  }

  predicate NodesOk(cfg: Config, c: Cluster)
  {
    && c.nodes.Keys == cfg.members == cfg.capacity.Keys
    && forall i :: i in c.nodes ==> NodeOk(cfg, i, c.nodes[i])
  }

  /** While the leader collects, every report it holds is still exact. */
  predicate CollectOk(cfg: Config, c: Cluster)
    requires cfg.leader in c.nodes
  {
    var ld := c.nodes[cfg.leader];
    && ld.activeTerm <= c.issued
    && (ld.state == LeaderPreparing ==>
          && ld.activeTerm == c.issued
          && forall j :: j in ld.prepared && j in c.nodes && j != cfg.leader ==>
               && c.nodes[j].state == FollowerPrepared && c.nodes[j].activeTerm == ld.activeTerm
               && j in c.nodes[j].prepared && c.nodes[j].prepared[j] == ld.prepared[j])
  }

  /** One follower's part in the decision of term t (0: no decision yet). */
  predicate FollowerOk(c: Cluster, t: nat, n: Node)
  {
    && n.activeTerm <= c.issued
    && (t == 0 ==> n.lastCommittedTerm == 0 && n.state != FollowerCommitting)
    && (t > 0 ==>
          || ((n.state == FollowerPrepared || n.state == FollowerCommitting) && n.activeTerm == t)
          || (n.lastCommittedTerm == t && n.state == Idle))
  }

  predicate FollowersOk(cfg: Config, c: Cluster)
    requires cfg.leader in c.nodes
  {
    && (InstalledTerm(c.nodes[cfg.leader]) > 0 ==> InstalledTerm(c.nodes[cfg.leader]) == c.issued)
    && forall j :: j in c.nodes && j != cfg.leader ==> FollowerOk(c, InstalledTerm(c.nodes[cfg.leader]), c.nodes[j])
  }

  /** The committed total is the sum of what every member had used, and whoever installed
      it wrote that very total down. */
  ghost predicate TotalOk(cfg: Config, c: Cluster)
    requires cfg.leader in c.nodes
  {
    var ld := c.nodes[cfg.leader];
    InstalledTerm(ld) > 0 ==>
      && ld.committedTotal == FrozenSum(c)
      && ld.committedTotal <= cfg.limit
      && forall j :: j in c.nodes && c.nodes[j].engine.mode != ReservedPeak ==>
           c.nodes[j].journal.total == ld.committedTotal
  }

  /** Every acknowledgement the leader counted is true; it stops retrying only when all are. */
  predicate AcksOk(cfg: Config, c: Cluster)
    requires cfg.leader in c.nodes
  {
    var ld := c.nodes[cfg.leader];
    && (ld.state == LeaderCommitting ==>
          forall j :: j in ld.commitAcks && j in c.nodes ==> InstalledTerm(c.nodes[j]) == ld.activeTerm)
    && (ld.state == Idle && ld.lastCommittedTerm > 0 ==>
          forall j :: j in c.nodes ==> c.nodes[j].lastCommittedTerm == ld.lastCommittedTerm)
  }

  ghost predicate Inv(cfg: Config, c: Cluster)
  {
    && NodesOk(cfg, c)
    && cfg.leader in c.nodes
    && CollectOk(cfg, c)
    && FollowersOk(cfg, c)
    && TotalOk(cfg, c)
    && AcksOk(cfg, c)
    && NetOk(cfg, c)
  }

  // ---------------------------------------------------------------- start

  lemma InitHolds(cfg: Config, c: Cluster)
    requires ValidConfig(cfg) && Init(cfg, c)
    ensures Inv(cfg, c)
  {
    forall i | i in c.nodes ensures NodeOk(cfg, i, c.nodes[i]) {
      assert FreshNode(cfg, cfg.capacity[i], c.nodes[i]);
    }
    assert FreshNode(cfg, cfg.capacity[cfg.leader], c.nodes[cfg.leader]);
  }

  /** With two members that both own something, nobody owns the whole limit. */
  lemma ReservationBelowLimit(cfg: Config, i: NodeId)
    requires ValidConfig(cfg) && i in cfg.members
    ensures cfg.capacity[i] < cfg.limit
  {
    assert cfg.members != {i};
    var j :| j in cfg.members && j != i;
    Sums.SumMapRemove<NodeId>(cfg.capacity, i);
    Sums.SumMapAtLeast<NodeId>(cfg.capacity - {i}, j);
  }

  // ---------------------------------------------------------------- frame lemmas

  /** A step that leaves the peak totals alone leaves their sum alone. */
  lemma SameTotals(c: Cluster, c': Cluster)
    requires c.nodes.Keys == c'.nodes.Keys
    requires forall i :: i in c.nodes ==> c'.nodes[i].engine.peakTotal == c.nodes[i].engine.peakTotal
    ensures FrozenSum(c') == FrozenSum(c)
  {
    assert PeakTotals(c') == PeakTotals(c);
  }

  // ---------------------------------------------------------------- follower steps

  /** What a controller step of a follower may do: a term that the leader holds is left
      only by installing it, and only a decided term is installed. */
  ghost predicate FollowerMoved(cfg: Config, c: Cluster, i: NodeId, o: Outcome)
    requires i in c.nodes && cfg.leader in c.nodes && i in cfg.capacity
  {
    var n := c.nodes[i];
    var ld := c.nodes[cfg.leader];
    && NodeOk(cfg, i, o.node)
    && o.node.engine.peakTotal == n.engine.peakTotal
    && FollowerOk(c, InstalledTerm(ld), o.node)
    && (n.lastCommittedTerm != 0 ==> o.node.lastCommittedTerm == n.lastCommittedTerm)
    && (o.node.engine.mode != ReservedPeak ==> o.node.journal.total == ld.committedTotal)
    && (Holds(ld, n.activeTerm) && (n.state == FollowerPrepared || n.state == FollowerCommitting) ==>
          || o.node.lastCommittedTerm == n.activeTerm
          || (o.node.activeTerm == n.activeTerm && o.node.prepared == n.prepared
              && (o.node.state == n.state || (o.node.state == FollowerCommitting && InstalledTerm(ld) > 0))))
    && (forall p :: p in o.sent ==> PacketOk(cfg, Update(cfg, c, i, o), p))
  }

  lemma FollowerStep(cfg: Config, c: Cluster, i: NodeId, o: Outcome)
    requires Inv(cfg, c) && i in c.nodes && i != cfg.leader && i in cfg.capacity
    requires FollowerMoved(cfg, c, i, o)
    ensures Inv(cfg, Update(cfg, c, i, o))
  {
    var c' := Update(cfg, c, i, o);
    assert NodesOk(cfg, c') by {
      forall j | j in c'.nodes ensures NodeOk(cfg, j, c'.nodes[j]) {}
    }
    FollowerStepCollect(cfg, c, i, o);
    FollowerStepTotal(cfg, c, i, o);
    FollowerStepOthers(cfg, c, i, o);
    FollowerStepNet(cfg, c, i, o);
  }

  lemma FollowerStepCollect(cfg: Config, c: Cluster, i: NodeId, o: Outcome)
    requires Inv(cfg, c) && i in c.nodes && i != cfg.leader && i in cfg.capacity
    requires FollowerMoved(cfg, c, i, o)
    ensures CollectOk(cfg, Update(cfg, c, i, o))
  {
    var c' := Update(cfg, c, i, o);
    var ld := c.nodes[cfg.leader];
    assert NodeOk(cfg, cfg.leader, ld);
    if ld.state == LeaderPreparing && i in ld.prepared {
      assert c.nodes[i].state == FollowerPrepared;
    }
  }

  lemma FollowerStepTotal(cfg: Config, c: Cluster, i: NodeId, o: Outcome)
    requires Inv(cfg, c) && i in c.nodes && i != cfg.leader && i in cfg.capacity
    requires FollowerMoved(cfg, c, i, o)
    ensures TotalOk(cfg, Update(cfg, c, i, o))
  {
    hide NodesOk, PacketOk;
    SameTotals(c, Update(cfg, c, i, o));
  }

  lemma FollowerStepOthers(cfg: Config, c: Cluster, i: NodeId, o: Outcome)
    requires Inv(cfg, c) && i in c.nodes && i != cfg.leader && i in cfg.capacity
    requires FollowerMoved(cfg, c, i, o)
    ensures FollowersOk(cfg, Update(cfg, c, i, o))
    ensures AcksOk(cfg, Update(cfg, c, i, o))
  {
    var c' := Update(cfg, c, i, o);
    assert NodeOk(cfg, i, c.nodes[i]);
    assert FollowerOk(c, InstalledTerm(c.nodes[cfg.leader]), c.nodes[i]);
    forall j | j in c'.nodes && j != cfg.leader
      ensures FollowerOk(c', InstalledTerm(c'.nodes[cfg.leader]), c'.nodes[j])
    {
      assert j != i ==> FollowerOk(c, InstalledTerm(c.nodes[cfg.leader]), c.nodes[j]);
    }
  }

  lemma FollowerStepNet(cfg: Config, c: Cluster, i: NodeId, o: Outcome)
    requires Inv(cfg, c) && i in c.nodes && i != cfg.leader && i in cfg.capacity
    requires FollowerMoved(cfg, c, i, o)
    ensures NetOk(cfg, Update(cfg, c, i, o))
  {
    var c' := Update(cfg, c, i, o);
    assert NodeOk(cfg, i, c.nodes[i]);
    forall p | p in c'.net ensures PacketOk(cfg, c', p) {
      if p in c.net {
        assert PacketOk(cfg, c, p);
      }
    }
  }

  lemma AbortKeepsNode(cfg: Config, i: NodeId, n: Node, broadcast: bool, env: Env)
    requires i in cfg.capacity && NodeOk(cfg, i, n) && (n.state == LeaderPreparing || n.state == FollowerPrepared)
    ensures
      var n' := AbortPrepare(cfg, i, n, broadcast, env).node;
      && NodeOk(cfg, i, n') && n'.state == Idle && n'.lastCommittedTerm == 0
      && n'.engine.peakTotal == n.engine.peakTotal && n'.engine.mode == ReservedPeak
  {
  }

  /** Reopening a follower is safe exactly when the leader does not hold its term. */
  lemma FollowerAborts(cfg: Config, c: Cluster, i: NodeId, broadcast: bool, env: Env)
    requires Inv(cfg, c) && i in c.nodes && i != cfg.leader && i in cfg.capacity
    requires c.nodes[i].state == FollowerPrepared && !Holds(c.nodes[cfg.leader], c.nodes[i].activeTerm)
    ensures FollowerMoved(cfg, c, i, AbortPrepare(cfg, i, c.nodes[i], broadcast, env))
  {
    assert NodeOk(cfg, i, c.nodes[i]);
    assert FollowerOk(c, InstalledTerm(c.nodes[cfg.leader]), c.nodes[i]);
  }

  lemma FollowerStays(cfg: Config, c: Cluster, i: NodeId, o: Outcome)
    requires Inv(cfg, c) && i in c.nodes && i != cfg.leader && i in cfg.capacity
    requires o.node == c.nodes[i]
    requires forall p :: p in o.sent ==> PacketOk(cfg, Update(cfg, c, i, o), p)
    ensures FollowerMoved(cfg, c, i, o)
  {
    assert NodeOk(cfg, i, c.nodes[i]);
    assert FollowerOk(c, InstalledTerm(c.nodes[cfg.leader]), c.nodes[i]);
  }

  /** Joining a term closes the gate and reports the exact total, or changes nothing that
      anyone relies on. */
  lemma JoinedNode(cfg: Config, i: NodeId, n: Node, term: nat, env: Env)
    requires i in cfg.capacity && i in cfg.members && i != cfg.leader && NodeOk(cfg, i, n)
    requires n.state == Idle && term > 0
    ensures
      var o := JoinTerm(cfg, i, n, term, env);
      && NodeOk(cfg, i, o.node)
      && o.node.engine.peakTotal == n.engine.peakTotal && o.node.lastCommittedTerm == n.lastCommittedTerm
      && (o.node == n || n.engine.mode == o.node.engine.mode == ReservedPeak)
      && (o.node.state == Idle || (o.node.state == FollowerPrepared && o.node.activeTerm == term))
      && (forall q :: q in o.sent ==>
            && o.node.state == FollowerPrepared && q.dst == cfg.leader && cfg.leader in cfg.members
            && q.frame == MakeFrame(cfg, i, Prepared, term, o.node.prepared[i]))
  {
  }

  lemma FollowerJoins(cfg: Config, c: Cluster, i: NodeId, n: Node, term: nat, env: Env)
    requires Inv(cfg, c) && i in c.nodes && i != cfg.leader && i in cfg.capacity
    requires NodeOk(cfg, i, n) && n.state == Idle && 0 < term <= c.issued
    requires n.engine.peakTotal == c.nodes[i].engine.peakTotal && n.lastCommittedTerm == c.nodes[i].lastCommittedTerm
    requires FollowerOk(c, InstalledTerm(c.nodes[cfg.leader]), n)
    requires n.engine.mode != ReservedPeak ==> n == c.nodes[i]
    requires c.nodes[i].state == FollowerPrepared || c.nodes[i].state == Idle
    requires c.nodes[i].state == FollowerPrepared ==> !Holds(c.nodes[cfg.leader], c.nodes[i].activeTerm)
    ensures FollowerMoved(cfg, c, i, JoinTerm(cfg, i, n, term, env))
  {
    JoinedNode(cfg, i, n, term, env);
    assert NodeOk(cfg, i, c.nodes[i]);
    assert TotalOk(cfg, c);
  }

  lemma FollowerGetsPrepare(cfg: Config, c: Cluster, p: Packet, env: Env)
    requires Inv(cfg, c) && p in c.net && p.frame.kind == Prepare
    requires p.dst in c.nodes && p.dst != cfg.leader && p.dst in cfg.capacity
    ensures FollowerMoved(cfg, c, p.dst, HandlePrepare(cfg, p.dst, c.nodes[p.dst], p.frame, env))
  {
    hide TotalOk, AcksOk, JoinTerm;
    var i, n, f := p.dst, c.nodes[p.dst], p.frame;
    var ld := c.nodes[cfg.leader];
    assert PacketOk(cfg, c, p);
    assert NodeOk(cfg, i, n) && NodeOk(cfg, cfg.leader, ld);
    assert FollowerOk(c, InstalledTerm(ld), n);
    var o := HandlePrepare(cfg, i, n, f, env);
    if n.state == FollowerCommitting || f.term < n.lastCommittedTerm || (n.state == FollowerPrepared && f.term <= n.activeTerm) {
      FollowerStays(cfg, c, i, o);
    } else if n.state == FollowerPrepared {
      FollowerAborts(cfg, c, i, false, env);
      FollowerJoins(cfg, c, i, AbortPrepare(cfg, i, n, false, env).node, f.term, env);
    } else {
      FollowerJoins(cfg, c, i, n, f.term, env);
    }
  }

  lemma CommitAtNode(cfg: Config, i: NodeId, n: Node, f: Frame, env: Env)
    requires i in cfg.capacity && i != cfg.leader && NodeOk(cfg, i, n)
    requires f.sender == cfg.leader && f.strictOwner == cfg.owner && f.term > 0 && f.value <= cfg.limit
    requires n.activeTerm == f.term && (n.state == FollowerPrepared || n.state == FollowerCommitting)
    ensures
      var o := HandleCommit(cfg, i, n, f, env);
      && NodeOk(cfg, i, o.node) && o.node.engine.peakTotal == n.engine.peakTotal
      && (o.node.engine.mode != ReservedPeak ==> o.node.journal.total == f.value)
      && ((o.node.lastCommittedTerm == f.term && o.node.state == Idle && o.node.activeTerm == 0)
          || (o.node.activeTerm == f.term && o.node.prepared == n.prepared && o.node.state == FollowerCommitting && o.sent == {}
              && o.node.lastCommittedTerm == n.lastCommittedTerm))
  {
  }

  /** A follower that is prepared for the decided term records and installs it, or stays
      closed; either way nothing it pledged moves. */
  lemma FollowerInstalls(cfg: Config, c: Cluster, i: NodeId, f: Frame, env: Env)
    requires Inv(cfg, c) && i in c.nodes && i != cfg.leader && i in cfg.capacity
    requires f.sender == cfg.leader && f.strictOwner == cfg.owner
    requires f.term > 0 && f.term == InstalledTerm(c.nodes[cfg.leader]) && f.value == c.nodes[cfg.leader].committedTotal
    requires c.nodes[i].activeTerm == f.term
    requires c.nodes[i].state == FollowerPrepared || c.nodes[i].state == FollowerCommitting
    ensures
      var o := HandleCommit(cfg, i, c.nodes[i], f, env);
      && NodeOk(cfg, i, o.node)
      && FollowerOk(c, f.term, o.node)
      && o.node.engine.peakTotal == c.nodes[i].engine.peakTotal
      && (o.node.engine.mode != ReservedPeak ==> o.node.journal.total == f.value)
      && (o.node.lastCommittedTerm == f.term
          || (o.node.activeTerm == f.term && o.node.prepared == c.nodes[i].prepared && o.node.state == FollowerCommitting))
      && (o.sent != {} ==> o.node.lastCommittedTerm == f.term)
  {
    assert NodeOk(cfg, i, c.nodes[i]) && FollowerOk(c, f.term, c.nodes[i]);
    CommitAtNode(cfg, i, c.nodes[i], f, env);
    hide Inv, NodeOk, HandleCommit;
  }

  lemma FollowerGetsCommit(cfg: Config, c: Cluster, p: Packet, env: Env)
    requires Inv(cfg, c) && p in c.net && p.frame.kind == Commit
    requires p.dst in c.nodes && p.dst != cfg.leader && p.dst in cfg.capacity
    ensures FollowerMoved(cfg, c, p.dst, HandleCommit(cfg, p.dst, c.nodes[p.dst], p.frame, env))
  {
    hide TotalOk, CommitHandoff;
    var i, n, f := p.dst, c.nodes[p.dst], p.frame;
    var ld := c.nodes[cfg.leader];
    assert PacketOk(cfg, c, p);
    assert NodeOk(cfg, i, n);
    assert FollowerOk(c, InstalledTerm(ld), n);
    var o := HandleCommit(cfg, i, n, f, env);
    if n.lastCommittedTerm == f.term {
      FollowerStays(cfg, c, i, o);
    } else {
      FollowerInstalls(cfg, c, i, f, env);
      forall q | q in o.sent ensures PacketOk(cfg, Update(cfg, c, i, o), q) {
        assert q.frame == MakeFrame(cfg, i, CommitAck, f.term, Drained(f.counter, f.epoch, f.value));
      }
    }
  }

  lemma FollowerReceives(cfg: Config, c: Cluster, p: Packet, env: Env)
    requires Inv(cfg, c) && p in c.net
    requires p.dst in c.nodes && p.dst != cfg.leader && p.dst in cfg.capacity
    ensures FollowerMoved(cfg, c, p.dst, HandleFrame(cfg, p.dst, c.nodes[p.dst], p.frame, env))
  {
    var i, n, f := p.dst, c.nodes[p.dst], p.frame;
    assert PacketOk(cfg, c, p);
    assert NodeOk(cfg, i, n);
    var o := HandleFrame(cfg, i, n, f, env);
    match f.kind
    case Prepare => FollowerGetsPrepare(cfg, c, p, env);
    case Commit => FollowerGetsCommit(cfg, c, p, env);
    case Abort =>
      if n.state == FollowerPrepared && f.term == n.activeTerm {
        FollowerAborts(cfg, c, i, false, env);
      } else {
        FollowerStays(cfg, c, i, o);
      }
    case Trigger => FollowerStays(cfg, c, i, o);
    case Prepared => FollowerStays(cfg, c, i, o);
    case CommitAck => FollowerStays(cfg, c, i, o);
  }

  lemma FollowerTurns(cfg: Config, c: Cluster, i: NodeId, env: Env)
    requires Inv(cfg, c) && i in c.nodes && i != cfg.leader && i in cfg.capacity
    requires env.deadlinePassed ==> MayAbandon(cfg, c, c.nodes[i])
    ensures FollowerMoved(cfg, c, i, Tick(cfg, i, c.nodes[i], env))
  {
    var n := c.nodes[i];
    assert NodeOk(cfg, i, n);
    assert FollowerOk(c, InstalledTerm(c.nodes[cfg.leader]), n);
    if n.state == FollowerPrepared && env.deadlinePassed {
      FollowerAborts(cfg, c, i, false, env);
    } else {
      FollowerStays(cfg, c, i, Tick(cfg, i, n, env));
    }
  }

  lemma FollowerTearsDown(cfg: Config, c: Cluster, i: NodeId, env: Env)
    requires Inv(cfg, c) && i in c.nodes && i != cfg.leader && i in cfg.capacity
    requires MayAbandon(cfg, c, c.nodes[i])
    ensures FollowerMoved(cfg, c, i, Stop(cfg, i, c.nodes[i], env))
  {
    assert NodeOk(cfg, i, c.nodes[i]);
    if c.nodes[i].state == FollowerPrepared {
      FollowerAborts(cfg, c, i, false, env);
    } else {
      FollowerStays(cfg, c, i, Stop(cfg, i, c.nodes[i], env));
    }
  }

  // ---------------------------------------------------------------- leader steps

  /** What a step of the leader may do to the terms others rely on: it takes hold of a term
      only when that term is new, and never lets go of a decision. */
  ghost predicate LeaderMoved(cfg: Config, c: Cluster, o: Outcome)
    requires cfg.leader in c.nodes && cfg.leader in cfg.capacity
  {
    var ld := c.nodes[cfg.leader];
    var c' := Update(cfg, c, cfg.leader, o);
    && NodeOk(cfg, cfg.leader, o.node)
    && o.node.engine.peakTotal == ld.engine.peakTotal
    && (o.node.activeTerm == 0 || o.node.activeTerm == ld.activeTerm || o.node.activeTerm > c.issued)
    && (forall t: nat :: Holds(o.node, t) ==> Holds(ld, t) || t > c.issued)
    && (InstalledTerm(ld) > 0 ==>
          InstalledTerm(o.node) == InstalledTerm(ld) && o.node.committedTotal == ld.committedTotal)
    && (InstalledTerm(o.node) > 0 ==>
          && (InstalledTerm(o.node) == InstalledTerm(ld) || InstalledTerm(o.node) == ld.activeTerm)
          && o.node.committedTotal == FrozenSum(c) <= cfg.limit
          && o.node.journal.total == o.node.committedTotal)
    && CollectOk(cfg, c') && FollowersOk(cfg, c') && AcksOk(cfg, c')
    && (forall p :: p in o.sent ==> PacketOk(cfg, c', p))
  }

  lemma LeaderStep(cfg: Config, c: Cluster, o: Outcome)
    requires Inv(cfg, c) && cfg.leader in cfg.capacity
    requires LeaderMoved(cfg, c, o)
    ensures Inv(cfg, Update(cfg, c, cfg.leader, o))
  {
    var c' := Update(cfg, c, cfg.leader, o);
    assert NodesOk(cfg, c') by {
      forall j | j in c'.nodes ensures NodeOk(cfg, j, c'.nodes[j]) {}
    }
    LeaderStepTotal(cfg, c, o);
    LeaderStepNet(cfg, c, o);
  }

  lemma LeaderStepTotal(cfg: Config, c: Cluster, o: Outcome)
    requires Inv(cfg, c) && cfg.leader in cfg.capacity
    requires LeaderMoved(cfg, c, o)
    ensures TotalOk(cfg, Update(cfg, c, cfg.leader, o))
  {
    var c' := Update(cfg, c, cfg.leader, o);
    SameTotals(c, c');
    var ld := c.nodes[cfg.leader];
    forall j | j in c'.nodes && c'.nodes[j].engine.mode != ReservedPeak && InstalledTerm(o.node) > 0
      ensures c'.nodes[j].journal.total == o.node.committedTotal
    {
      if j != cfg.leader {
        assert NodeOk(cfg, j, c.nodes[j]);
        assert FollowerOk(c, InstalledTerm(ld), c.nodes[j]);
      }
    }
  }

  lemma LeaderStepNet(cfg: Config, c: Cluster, o: Outcome)
    requires Inv(cfg, c) && cfg.leader in cfg.capacity
    requires LeaderMoved(cfg, c, o)
    ensures NetOk(cfg, Update(cfg, c, cfg.leader, o))
  {
    var c' := Update(cfg, c, cfg.leader, o);
    forall p | p in c'.net ensures PacketOk(cfg, c', p) {
      if p in c.net {
        assert PacketOk(cfg, c, p);
      }
    }
  }

  lemma LeaderStays(cfg: Config, c: Cluster, o: Outcome)
    requires Inv(cfg, c) && cfg.leader in cfg.capacity
    requires o.node == c.nodes[cfg.leader]
    requires forall p :: p in o.sent ==> PacketOk(cfg, Update(cfg, c, cfg.leader, o), p)
    ensures LeaderMoved(cfg, c, o)
  {
    hide NetOk, FrozenSum;
    var ld := c.nodes[cfg.leader];
    var c' := Update(cfg, c, cfg.leader, o);
    assert c'.nodes == c.nodes && c'.issued == c.issued;
    assert NodeOk(cfg, cfg.leader, ld);
    forall j | j in c'.nodes && j != cfg.leader
      ensures FollowerOk(c', InstalledTerm(c'.nodes[cfg.leader]), c'.nodes[j])
    {
      assert FollowerOk(c, InstalledTerm(ld), c.nodes[j]);
    }
  }

  /** A leader step that leaves no term held: every follower's promise becomes void. */
  lemma LeaderReleases(cfg: Config, c: Cluster, o: Outcome)
    requires Inv(cfg, c) && cfg.leader in cfg.capacity
    requires InstalledTerm(c.nodes[cfg.leader]) == 0
    requires NodeOk(cfg, cfg.leader, o.node) && o.node.engine.peakTotal == c.nodes[cfg.leader].engine.peakTotal
    requires InstalledTerm(o.node) == 0 && o.node.state != LeaderPreparing
    requires o.node.activeTerm == 0 || o.node.activeTerm == c.nodes[cfg.leader].activeTerm
    requires forall p :: p in o.sent ==> PacketOk(cfg, Update(cfg, c, cfg.leader, o), p)
    ensures LeaderMoved(cfg, c, o)
  {
    var ld := c.nodes[cfg.leader];
    var c' := Update(cfg, c, cfg.leader, o);
    forall j | j in c'.nodes && j != cfg.leader ensures FollowerOk(c', 0, c'.nodes[j]) {
      assert FollowerOk(c, InstalledTerm(ld), c.nodes[j]);
    }
  }

  lemma LeaderAborts(cfg: Config, c: Cluster, broadcast: bool, env: Env)
    requires Inv(cfg, c) && cfg.leader in cfg.capacity
    requires c.nodes[cfg.leader].state == LeaderPreparing
    ensures LeaderMoved(cfg, c, AbortPrepare(cfg, cfg.leader, c.nodes[cfg.leader], broadcast, env))
  {
    var ld := c.nodes[cfg.leader];
    assert NodeOk(cfg, cfg.leader, ld) && 0 < ld.activeTerm <= c.issued && InstalledTerm(ld) == 0;
    AbortKeepsNode(cfg, cfg.leader, ld, broadcast, env);
    hide Inv, NodeOk, LeaderMoved;
    LeaderReleases(cfg, c, AbortPrepare(cfg, cfg.leader, ld, broadcast, env));
  }

  lemma LeaderBegins(cfg: Config, c: Cluster, env: Env)
    requires Inv(cfg, c) && cfg.leader in cfg.capacity
    requires FreshTerm(c, env, c.nodes[cfg.leader], BeginLeaderPrepare(cfg, cfg.leader, c.nodes[cfg.leader], env))
    ensures LeaderMoved(cfg, c, Outcome(BeginLeaderPrepare(cfg, cfg.leader, c.nodes[cfg.leader], env), {}))
  {
    var ld := c.nodes[cfg.leader];
    var o := Outcome(BeginLeaderPrepare(cfg, cfg.leader, ld, env), {});
    assert NodeOk(cfg, cfg.leader, ld);
    var c' := Update(cfg, c, cfg.leader, o);
    if o.node == ld {
      LeaderStays(cfg, c, o);
    } else if o.node.state == Idle {
      LeaderReleases(cfg, c, o);
    } else {
      assert o.node.activeTerm > c.issued;
      forall j | j in c'.nodes && j != cfg.leader ensures FollowerOk(c', 0, c'.nodes[j]) {
        assert FollowerOk(c, InstalledTerm(ld), c.nodes[j]);
      }
    }
  }

  /** The leader's node once the report in f is noted. */
  function WithReport(ld: Node, f: Frame): (n: Node)
  {
    ld.(prepared := ld.prepared[f.sender := Drained(f.counter, f.epoch, f.value)])
  }

  lemma LeaderRecordsReport(cfg: Config, c: Cluster, p: Packet)
    requires Inv(cfg, c) && cfg.leader in cfg.capacity
    requires p in c.net && p.frame.kind == Prepared
    requires c.nodes[cfg.leader].state == LeaderPreparing && p.frame.term == c.nodes[cfg.leader].activeTerm
    ensures
      var ld := c.nodes[cfg.leader];
      var f := p.frame;
      LeaderMoved(cfg, c, Outcome(WithReport(ld, f), {}))
  {
    var ld := c.nodes[cfg.leader];
    var f := p.frame;
    var o := Outcome(WithReport(ld, f), {});
    var c' := Update(cfg, c, cfg.leader, o);
    assert PacketOk(cfg, c, p);
    assert NodeOk(cfg, cfg.leader, ld);
    assert FollowerOk(c, 0, c.nodes[f.sender]);
    assert o.node.prepared.Keys == ld.prepared.Keys + {f.sender};
    forall j | j in c'.nodes && j != cfg.leader ensures FollowerOk(c', 0, c'.nodes[j]) {
      assert FollowerOk(c, 0, c.nodes[j]);
    }
  }

  lemma SameSizeSubset(s: set<NodeId>, t: set<NodeId>)
    requires s <= t && |s| == |t|
    ensures s == t
  {
    assert |t - s| == 0;
  }

  /** When every report is in, their sum is the exact total of the frozen cluster. */
  lemma CompleteReportsAreExact(cfg: Config, c: Cluster)
    requires Inv(cfg, c) && cfg.leader in cfg.capacity
    requires c.nodes[cfg.leader].state == LeaderPreparing
    requires |c.nodes[cfg.leader].prepared| == |cfg.members|
    ensures c.nodes[cfg.leader].prepared.Keys == cfg.members
    ensures PreparedSum(c.nodes[cfg.leader].prepared) == FrozenSum(c)
    ensures forall j :: j in cfg.members && j != cfg.leader ==>
              c.nodes[j].state == FollowerPrepared && c.nodes[j].activeTerm == c.nodes[cfg.leader].activeTerm
  {
    var ld := c.nodes[cfg.leader];
    assert NodeOk(cfg, cfg.leader, ld);
    assert |ld.prepared.Keys| == |ld.prepared|;
    SameSizeSubset(ld.prepared.Keys, cfg.members);
    forall j | j in cfg.members ensures ld.prepared[j].total == c.nodes[j].engine.peakTotal {
      assert NodeOk(cfg, j, c.nodes[j]);
    }
    assert PreparedTotals(ld.prepared) == PeakTotals(c);
  }

  /** The node that has just decided: its record is durable, its own strict mode is on. */
  lemma DecidedNode(cfg: Config, ld: Node, env: Env)
    requires cfg.leader in cfg.capacity && cfg.leader in cfg.members && NodeOk(cfg, cfg.leader, ld)
    requires ld.state == LeaderPreparing
    requires TryBeginCommit(cfg, cfg.leader, ld, env).node.state == LeaderCommitting
    ensures
      var o := TryBeginCommit(cfg, cfg.leader, ld, env);
      && |ld.prepared| == |cfg.members|
      && NodeOk(cfg, cfg.leader, o.node) && o.sent == {}
      && o.node.engine.peakTotal == ld.engine.peakTotal
      && o.node.activeTerm == ld.activeTerm && o.node.commitAcks == {cfg.leader}
      && o.node.committedTotal == PreparedSum(ld.prepared) == o.node.journal.total
      && o.node.committedTotal <= cfg.limit
  {
  }

  lemma LeaderCommits(cfg: Config, c: Cluster, env: Env)
    requires Inv(cfg, c) && cfg.leader in cfg.capacity
    requires c.nodes[cfg.leader].state == LeaderPreparing
    requires TryBeginCommit(cfg, cfg.leader, c.nodes[cfg.leader], env).node.state == LeaderCommitting
    ensures LeaderMoved(cfg, c, TryBeginCommit(cfg, cfg.leader, c.nodes[cfg.leader], env))
  {
    var ld := c.nodes[cfg.leader];
    var o := TryBeginCommit(cfg, cfg.leader, ld, env);
    DecidedNode(cfg, ld, env);
    CompleteReportsAreExact(cfg, c);
    LeaderCommitsNode(cfg, c, o);
  }

  lemma LeaderCommitsNode(cfg: Config, c: Cluster, o: Outcome)
    requires Inv(cfg, c) && cfg.leader in cfg.capacity
    requires c.nodes[cfg.leader].state == LeaderPreparing
    requires forall j :: j in cfg.members && j != cfg.leader ==>
               c.nodes[j].state == FollowerPrepared && c.nodes[j].activeTerm == c.nodes[cfg.leader].activeTerm
    requires NodeOk(cfg, cfg.leader, o.node) && o.sent == {}
    requires o.node.state == LeaderCommitting && o.node.activeTerm == c.nodes[cfg.leader].activeTerm
    requires o.node.engine.peakTotal == c.nodes[cfg.leader].engine.peakTotal
    requires o.node.commitAcks == {cfg.leader}
    requires o.node.committedTotal == FrozenSum(c) == o.node.journal.total
    requires o.node.committedTotal <= cfg.limit
    ensures LeaderMoved(cfg, c, o)
  {
    var ld := c.nodes[cfg.leader];
    var c' := Update(cfg, c, cfg.leader, o);
    forall j | j in c'.nodes && j != cfg.leader ensures FollowerOk(c', ld.activeTerm, c'.nodes[j]) {
      assert FollowerOk(c, 0, c.nodes[j]);
    }
  }

  /** The four ways an attempt to commit can end. */
  lemma DecisionCases(cfg: Config, ld: Node, env: Env)
    requires cfg.leader in cfg.capacity && NodeOk(cfg, cfg.leader, ld) && ld.state == LeaderPreparing
    ensures
      var o := TryBeginCommit(cfg, cfg.leader, ld, env);
      || o == Outcome(ld, {})
      || o == AbortPrepare(cfg, cfg.leader, ld, true, env)
      || o.node.state == LeaderCommitting
      || (o.node.state == LeaderCommitBlocked && o.sent == {} && NodeOk(cfg, cfg.leader, o.node)
          && o.node.activeTerm == ld.activeTerm && o.node.engine == ld.engine)
  {
  }

  lemma LeaderDecides(cfg: Config, c: Cluster, env: Env)
    requires Inv(cfg, c) && cfg.leader in cfg.capacity
    requires c.nodes[cfg.leader].state == LeaderPreparing
    ensures LeaderMoved(cfg, c, TryBeginCommit(cfg, cfg.leader, c.nodes[cfg.leader], env))
  {
    var ld := c.nodes[cfg.leader];
    var o := TryBeginCommit(cfg, cfg.leader, ld, env);
    assert NodeOk(cfg, cfg.leader, ld);
    DecisionCases(cfg, ld, env);
    if o.node.state == LeaderCommitting {
      LeaderCommits(cfg, c, env);
    } else if o == Outcome(ld, {}) {
      LeaderStays(cfg, c, o);
    } else if o == AbortPrepare(cfg, cfg.leader, ld, true, env) {
      LeaderAborts(cfg, c, true, env);
    } else {
      LeaderReleases(cfg, c, o);
    }
  }

  /** Two changes of one node in a row are one change. */
  lemma UpdateTwice(cfg: Config, c: Cluster, i: NodeId, o: Outcome, o2: Outcome)
    requires i in c.nodes
    requires o.node.activeTerm <= o2.node.activeTerm || o.node.activeTerm <= c.issued
    ensures Update(cfg, Update(cfg, c, i, o), i, o2) == Update(cfg, c, i, Outcome(o2.node, o.sent + o2.sent))
  {
    assert c.nodes[i := o.node][i := o2.node] == c.nodes[i := o2.node];
    assert c.net + o.sent + o2.sent == c.net + (o.sent + o2.sent);
  }

  lemma DecideStep(cfg: Config, c: Cluster, env: Env)
    requires Inv(cfg, c) && cfg.leader in cfg.capacity
    requires c.nodes[cfg.leader].state == LeaderPreparing
    ensures Inv(cfg, Update(cfg, c, cfg.leader, TryBeginCommit(cfg, cfg.leader, c.nodes[cfg.leader], env)))
  {
    LeaderDecides(cfg, c, env);
    LeaderStep(cfg, c, TryBeginCommit(cfg, cfg.leader, c.nodes[cfg.leader], env));
  }

  lemma LeaderTakesReport(cfg: Config, c: Cluster, p: Packet, env: Env)
    requires Inv(cfg, c) && cfg.leader in cfg.capacity
    requires p in c.net && p.frame.kind == Prepared
    requires c.nodes[cfg.leader].state == LeaderPreparing && p.frame.term == c.nodes[cfg.leader].activeTerm
    ensures Inv(cfg, Update(cfg, c, cfg.leader, TryBeginCommit(cfg, cfg.leader, WithReport(c.nodes[cfg.leader], p.frame), env)))
  {
    hide NodeOk, NodesOk, PacketOk;
    var m := Outcome(WithReport(c.nodes[cfg.leader], p.frame), {});
    LeaderRecordsReport(cfg, c, p);
    LeaderStep(cfg, c, m);
    var c1 := Update(cfg, c, cfg.leader, m);
    DecideStep(cfg, c1, env);
    assert CollectOk(cfg, c);
    var o := TryBeginCommit(cfg, cfg.leader, m.node, env);
    UpdateTwice(cfg, c, cfg.leader, m, o);
    assert m.sent + o.sent == o.sent;
  }

  lemma LeaderGetsPrepared(cfg: Config, c: Cluster, p: Packet, env: Env)
    requires Inv(cfg, c) && cfg.leader in cfg.capacity
    requires p in c.net && p.frame.kind == Prepared
    ensures Inv(cfg, Update(cfg, c, cfg.leader, HandlePrepared(cfg, cfg.leader, c.nodes[cfg.leader], p.frame, env)))
  {
    var ld, f := c.nodes[cfg.leader], p.frame;
    if ld.state == LeaderPreparing && f.term == ld.activeTerm {
      LeaderTakesReport(cfg, c, p, env);
    } else {
      LeaderStays(cfg, c, Outcome(ld, {}));
      LeaderStep(cfg, c, Outcome(ld, {}));
    }
  }

  /** Whoever has acknowledged has installed the decided term. */
  lemma AcksAreTrue(cfg: Config, c: Cluster, p: Packet)
    requires Inv(cfg, c) && cfg.leader in cfg.capacity
    requires p in c.net && p.frame.kind == CommitAck
    requires c.nodes[cfg.leader].state == LeaderCommitting && p.frame.term == c.nodes[cfg.leader].activeTerm
    ensures
      var acks := c.nodes[cfg.leader].commitAcks + {p.frame.sender};
      && acks <= cfg.members
      && (forall j :: j in acks && j != cfg.leader ==> c.nodes[j].lastCommittedTerm == p.frame.term)
      && (|acks| == |cfg.members| ==> acks == cfg.members)
  {
    var ld, f := c.nodes[cfg.leader], p.frame;
    var acks := ld.commitAcks + {f.sender};
    assert PacketOk(cfg, c, p);
    assert NodeOk(cfg, cfg.leader, ld);
    forall j | j in acks && j != cfg.leader ensures c.nodes[j].lastCommittedTerm == f.term {
      assert FollowerOk(c, f.term, c.nodes[j]);
    }
    if |acks| == |cfg.members| {
      SameSizeSubset(acks, cfg.members);
    }
  }

  lemma LeaderCountsAck(cfg: Config, c: Cluster, acks: set<NodeId>)
    requires Inv(cfg, c) && cfg.leader in cfg.capacity
    requires c.nodes[cfg.leader].state == LeaderCommitting
    requires acks <= cfg.members
    requires forall j :: j in acks && j != cfg.leader ==> c.nodes[j].lastCommittedTerm == c.nodes[cfg.leader].activeTerm
    ensures LeaderMoved(cfg, c, Outcome(c.nodes[cfg.leader].(commitAcks := acks), {}))
  {
    hide NetOk, PacketOk, FrozenSum;
    var ld := c.nodes[cfg.leader];
    var c' := Update(cfg, c, cfg.leader, Outcome(ld.(commitAcks := acks), {}));
    assert NodeOk(cfg, cfg.leader, ld);
    forall j | j in c'.nodes && j != cfg.leader ensures FollowerOk(c', ld.activeTerm, c'.nodes[j]) {
      assert FollowerOk(c, ld.activeTerm, c.nodes[j]);
    }
    assert AcksOk(cfg, c');
    assert FollowersOk(cfg, c');
  }

  /** The term is closed only when every member has acknowledged it. */
  lemma LeaderClosesTerm(cfg: Config, c: Cluster, n: Node)
    requires Inv(cfg, c) && cfg.leader in cfg.capacity
    requires c.nodes[cfg.leader].state == LeaderCommitting
    requires forall j :: j in cfg.members && j != cfg.leader ==> c.nodes[j].lastCommittedTerm == c.nodes[cfg.leader].activeTerm
    requires
      var ld := c.nodes[cfg.leader];
      n == ld.(commitAcks := cfg.members, lastCommittedTerm := ld.activeTerm, state := Idle, activeTerm := 0)
    ensures LeaderMoved(cfg, c, Outcome(n, {}))
  {
    var ld := c.nodes[cfg.leader];
    var c' := Update(cfg, c, cfg.leader, Outcome(n, {}));
    assert NodeOk(cfg, cfg.leader, ld);
    assert NodeOk(cfg, cfg.leader, n);
    forall j | j in c'.nodes && j != cfg.leader ensures FollowerOk(c', ld.activeTerm, c'.nodes[j]) {
      assert FollowerOk(c, ld.activeTerm, c.nodes[j]);
    }
    assert AcksOk(cfg, c');
    assert FollowersOk(cfg, c');
  }

  lemma LeaderGetsAck(cfg: Config, c: Cluster, p: Packet)
    requires Inv(cfg, c) && cfg.leader in cfg.capacity
    requires p in c.net && p.frame.kind == CommitAck
    ensures LeaderMoved(cfg, c, HandleCommitAck(cfg, cfg.leader, c.nodes[cfg.leader], p.frame))
  {
    var ld, f := c.nodes[cfg.leader], p.frame;
    var o := HandleCommitAck(cfg, cfg.leader, ld, f);
    if ld.state != LeaderCommitting || f.term != ld.activeTerm {
      LeaderStays(cfg, c, o);
    } else {
      AcksAreTrue(cfg, c, p);
      if o.node.state == Idle {
        LeaderClosesTerm(cfg, c, o.node);
      } else {
        LeaderCountsAck(cfg, c, ld.commitAcks + {f.sender});
      }
    }
  }

  lemma LeaderReceives(cfg: Config, c: Cluster, p: Packet, env: Env)
    requires Inv(cfg, c) && cfg.leader in cfg.capacity
    requires p in c.net && p.dst == cfg.leader
    requires FreshTerm(c, env, c.nodes[cfg.leader], HandleFrame(cfg, cfg.leader, c.nodes[cfg.leader], p.frame, env).node)
    ensures Inv(cfg, Update(cfg, c, cfg.leader, HandleFrame(cfg, cfg.leader, c.nodes[cfg.leader], p.frame, env)))
  {
    var ld, f := c.nodes[cfg.leader], p.frame;
    var o := HandleFrame(cfg, cfg.leader, ld, f, env);
    assert PacketOk(cfg, c, p);
    assert NodeOk(cfg, cfg.leader, ld);
    match f.kind
    case Trigger =>
      LeaderBegins(cfg, c, env);
      LeaderStep(cfg, c, o);
    case Prepared => LeaderGetsPrepared(cfg, c, p, env);
    case CommitAck =>
      LeaderGetsAck(cfg, c, p);
      LeaderStep(cfg, c, o);
    case Prepare => assert false;
    case Commit => assert false;
    case Abort => assert false;
  }

  lemma LeaderTimers(cfg: Config, c: Cluster, env: Env)
    requires Inv(cfg, c) && cfg.leader in cfg.capacity
    ensures Inv(cfg, Update(cfg, c, cfg.leader, TickTimers(cfg, cfg.leader, c.nodes[cfg.leader], env)))
  {
    var ld := c.nodes[cfg.leader];
    var o := TickTimers(cfg, cfg.leader, ld, env);
    assert NodeOk(cfg, cfg.leader, ld);
    if ld.state == LeaderPreparing && env.deadlinePassed {
      LeaderAborts(cfg, c, true, env);
    } else {
      LeaderStays(cfg, c, o);
    }
    LeaderStep(cfg, c, o);
  }

  lemma LeaderTurns(cfg: Config, c: Cluster, env: Env)
    requires Inv(cfg, c) && cfg.leader in cfg.capacity
    requires FreshTerm(c, env, c.nodes[cfg.leader], Tick(cfg, cfg.leader, c.nodes[cfg.leader], env).node)
    ensures Inv(cfg, Update(cfg, c, cfg.leader, Tick(cfg, cfg.leader, c.nodes[cfg.leader], env)))
  {
    var ld := c.nodes[cfg.leader];
    assert NodeOk(cfg, cfg.leader, ld);
    var first := TickTrigger(cfg, cfg.leader, ld, env);
    var env2 := if first.node.state == ld.state then env else env.(deadlinePassed := false, retryDue := true);
    var second := TickTimers(cfg, cfg.leader, first.node, env2);
    if LowWater(cfg, ld, env) {
      LeaderBegins(cfg, c, env);
    } else {
      LeaderStays(cfg, c, first);
    }
    LeaderStep(cfg, c, first);
    LeaderTimers(cfg, Update(cfg, c, cfg.leader, first), env2);
    UpdateTwice(cfg, c, cfg.leader, first, second);
  }

  lemma LeaderTearsDown(cfg: Config, c: Cluster, env: Env)
    requires Inv(cfg, c) && cfg.leader in cfg.capacity
    ensures Inv(cfg, Update(cfg, c, cfg.leader, Stop(cfg, cfg.leader, c.nodes[cfg.leader], env)))
  {
    var ld := c.nodes[cfg.leader];
    assert NodeOk(cfg, cfg.leader, ld);
    if ld.state == LeaderPreparing {
      LeaderAborts(cfg, c, false, env);
    } else {
      LeaderStays(cfg, c, Outcome(ld, {}));
    }
    LeaderStep(cfg, c, Stop(cfg, cfg.leader, ld, env));
  }

  // ---------------------------------------------------------------- admissions and local changes

  /** An accepted request: the gate is open, so nothing that is frozen moves. */
  lemma AdmissionStep(cfg: Config, c: Cluster, i: NodeId, delta: nat, counter: nat)
    requires Inv(cfg, c) && i in c.nodes && i in cfg.capacity
    requires AcceptAllowed(c.nodes[i].engine, delta)
    ensures Inv(cfg, Update(cfg, c, i, WithEngine(c.nodes[i], Accept(c.nodes[i].engine, delta, counter))))
  {
    var n := c.nodes[i];
    var o := WithEngine(n, Accept(n.engine, delta, counter));
    var c' := Update(cfg, c, i, o);
    assert NodeOk(cfg, i, n);
    assert i != cfg.leader ==> FollowerOk(c, InstalledTerm(c.nodes[cfg.leader]), n);
    assert NodesOk(cfg, c') by {
      forall j | j in c'.nodes ensures NodeOk(cfg, j, c'.nodes[j]) {}
    }
    AdmissionTotal(cfg, c, i, o);
    AdmissionOthers(cfg, c, i, o);
    AdmissionNet(cfg, c, i, o);
  }

  /** What an accepted request changes: the engine only, and the peak total only in peak mode. */
  predicate Admitted(n: Node, n': Node)
  {
    && n' == n.(engine := n'.engine)
    && n.engine.gateOpen && n'.engine.mode == n.engine.mode
    && (n.engine.mode != ReservedPeak ==> n'.engine.peakTotal == n.engine.peakTotal)
  }

  lemma AdmissionTotal(cfg: Config, c: Cluster, i: NodeId, o: Outcome)
    requires Inv(cfg, c) && i in c.nodes && i in cfg.capacity
    requires Admitted(c.nodes[i], o.node) && o.sent == {}
    ensures TotalOk(cfg, Update(cfg, c, i, o))
  {
    hide NetOk, CollectOk, AcksOk;
    var n := c.nodes[i];
    var ld := c.nodes[cfg.leader];
    assert NodeOk(cfg, i, n);
    assert i != cfg.leader ==> FollowerOk(c, InstalledTerm(ld), n);
    if InstalledTerm(ld) > 0 {
      SameTotals(c, Update(cfg, c, i, o));
    }
  }

  lemma AdmissionOthers(cfg: Config, c: Cluster, i: NodeId, o: Outcome)
    requires Inv(cfg, c) && i in c.nodes && i in cfg.capacity
    requires Admitted(c.nodes[i], o.node) && o.sent == {}
    ensures CollectOk(cfg, Update(cfg, c, i, o))
    ensures FollowersOk(cfg, Update(cfg, c, i, o))
  {
    hide NetOk, TotalOk, AcksOk;
    var n := c.nodes[i];
    var c' := Update(cfg, c, i, o);
    assert NodeOk(cfg, i, n);
    forall j | j in c'.nodes && j != cfg.leader
      ensures FollowerOk(c', InstalledTerm(c'.nodes[cfg.leader]), c'.nodes[j])
    {
      assert FollowerOk(c, InstalledTerm(c.nodes[cfg.leader]), c.nodes[j]);
    }
  }

  lemma AdmissionPacket(cfg: Config, c: Cluster, i: NodeId, o: Outcome, p: Packet)
    requires i in c.nodes && i in cfg.capacity && cfg.leader in c.nodes && NodeOk(cfg, i, c.nodes[i]) && PacketOk(cfg, c, p)
    requires Admitted(c.nodes[i], o.node) && o.sent == {}
    ensures cfg.leader in Update(cfg, c, i, o).nodes && PacketOk(cfg, Update(cfg, c, i, o), p)
  {
  }

  lemma AdmissionNet(cfg: Config, c: Cluster, i: NodeId, o: Outcome)
    requires Inv(cfg, c) && i in c.nodes && i in cfg.capacity
    requires Admitted(c.nodes[i], o.node) && o.sent == {}
    ensures AcksOk(cfg, Update(cfg, c, i, o))
    ensures NetOk(cfg, Update(cfg, c, i, o))
  {
    hide TotalOk, CollectOk, FollowersOk, PacketOk, NodeOk;
    var c' := Update(cfg, c, i, o);
    forall p | p in c'.net ensures PacketOk(cfg, c', p) {
      AdmissionPacket(cfg, c, i, o, p);
    }
  }

  /** Neither local transition can touch a component of a distributed plan. */
  lemma LocalChangesRefused(cfg: Config, i: NodeId, n: Node)
    requires ValidConfig(cfg) && i in cfg.members && NodeOk(cfg, i, n)
    ensures LocalDanger(n.engine) == n.engine && LocalReserved(n.engine) == n.engine
  {
    ReservationBelowLimit(cfg, i);
  }

  // ---------------------------------------------------------------- every step

  lemma NothingHappens(cfg: Config, c: Cluster, i: NodeId)
    requires Inv(cfg, c) && i in c.nodes
    ensures Update(cfg, c, i, Outcome(c.nodes[i], {})) == c
  {
    assert c.nodes[i := c.nodes[i]] == c.nodes;
    assert c.net + {} == c.net;
  }

  lemma StepKeepsInv(cfg: Config, c: Cluster, s: Step, c': Cluster)
    requires ValidConfig(cfg) && Inv(cfg, c) && Next(cfg, c, s, c')
    ensures Inv(cfg, c')
  {
    match s
    case Deliver(p, env) =>
      if p.dst == cfg.leader {
        LeaderReceives(cfg, c, p, env);
      } else {
        FollowerReceives(cfg, c, p, env);
        FollowerStep(cfg, c, p.dst, HandleFrame(cfg, p.dst, c.nodes[p.dst], p.frame, env));
      }
    case Turn(self, env) =>
      if self == cfg.leader {
        LeaderTurns(cfg, c, env);
      } else {
        FollowerTurns(cfg, c, self, env);
        FollowerStep(cfg, c, self, Tick(cfg, self, c.nodes[self], env));
      }
    case TearDown(self, env) =>
      if self == cfg.leader {
        LeaderTearsDown(cfg, c, env);
      } else {
        FollowerTearsDown(cfg, c, self, env);
        FollowerStep(cfg, c, self, Stop(cfg, self, c.nodes[self], env));
      }
    case Admit(self, delta, counter) => AdmissionStep(cfg, c, self, delta, counter);
    case CollapseLocally(self) =>
      LocalChangesRefused(cfg, self, c.nodes[self]);
      NothingHappens(cfg, c, self);
    case EnterPeakLocally(self) =>
      LocalChangesRefused(cfg, self, c.nodes[self]);
      NothingHappens(cfg, c, self);
  }

  lemma RunTakesStep(cfg: Config, run: seq<Cluster>, steps: seq<Step>, k: nat)
    requires IsRun(cfg, run, steps) && k < |steps|
    ensures Next(cfg, run[k], steps[k], run[k + 1])
  {
    hide Next, Init;
    assert StepAt(cfg, run, steps, k);
  }

  lemma {:induction false} RunKeepsInv(cfg: Config, run: seq<Cluster>, steps: seq<Step>, k: nat)
    requires ValidConfig(cfg) && IsRun(cfg, run, steps) && k < |run|
    ensures Inv(cfg, run[k])
  {
    hide ValidConfig, Inv, Next, StepAt, Init;
    if k == 0 {
      InitHolds(cfg, run[0]);
    } else {
      RunKeepsInv(cfg, run, steps, k - 1);
      RunTakesStep(cfg, run, steps, k - 1);
      StepKeepsInv(cfg, run[k - 1], steps[k - 1], run[k]);
    }
  }
}
