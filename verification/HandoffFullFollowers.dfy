/** The hard limit needs less than the hypothesis on timeouts: a follower that has spent its
    whole reservation may give up whenever it likes. */
module HandoffFullFollowers {
  import opened CounterTypes
  import opened HandoffProtocol
  import opened HandoffCluster
  import opened HandoffInvariant
  import opened HandoffTheorems
  import Sums

  /** Nothing is left that the peak shards could admit. */
  predicate Full(n: Node)
  {
    n.engine.mode == ReservedPeak && n.engine.peakTotal == n.engine.reservation
  }

  /** The weaker hypothesis: a follower abandons a term the leader holds only when it is full. */
  ghost predicate Lenient(cfg: Config, c: Cluster, s: Step)
    requires Actor(s) in c.nodes && cfg.leader in c.nodes
  {
    var n := c.nodes[Actor(s)];
    var n' := Effect(cfg, c, s).nodes[Actor(s)];
    match s
    case Deliver(p, env) => FreshTerm(c, env, n, n')
    case Turn(self, env) => FreshTerm(c, env, n, n') && (env.deadlinePassed ==> MayAbandon(cfg, c, n) || Full(n))
    case TearDown(self, env) => MayAbandon(cfg, c, n) || Full(n)
    case Admit(self, delta, counter) => true
    case CollapseLocally(self) => true
    case EnterPeakLocally(self) => true
  }

  ghost predicate LenientNext(cfg: Config, c: Cluster, s: Step, c': Cluster)
  {
    && cfg.leader in c.nodes && Enabled(cfg, c, s) && Lenient(cfg, c, s) && c' == Effect(cfg, c, s)
  }

  lemma TimelyIsLenient(cfg: Config, c: Cluster, s: Step, c': Cluster)
    requires Next(cfg, c, s, c')
    ensures LenientNext(cfg, c, s, c')
  {
  }

  // ---------------------------------------------------------------- the invariant

  /** A follower whose total cannot move any more as far as term t is concerned. */
  predicate Stands(n: Node, t: nat)
  {
    || ((n.state == FollowerPrepared || n.state == FollowerCommitting) && n.activeTerm == t)
    || n.lastCommittedTerm == t
    || Full(n)
  }

  predicate FrameSound(cfg: Config, c: Cluster, f: Frame)
    requires cfg.leader in c.nodes
  {
    var ld := c.nodes[cfg.leader];
    && f.sender in c.nodes && f.strictOwner == cfg.owner
    && match f.kind
       case Trigger => true
       case Prepare => f.sender == cfg.leader && 0 < f.term <= c.issued
       case Prepared =>
         && f.sender != cfg.leader && 0 < f.term <= c.issued
         && (Holds(ld, f.term) ==> Stands(c.nodes[f.sender], f.term) && c.nodes[f.sender].engine.peakTotal == f.value)
       case Commit => f.sender == cfg.leader && f.term > 0 && InstalledTerm(ld) == f.term && f.value == ld.committedTotal
       case CommitAck => true
       case Abort => f.sender == cfg.leader && 0 < f.term <= c.issued && ld.activeTerm != f.term && InstalledTerm(ld) != f.term
  }

  predicate NetSound(cfg: Config, c: Cluster)
    requires cfg.leader in c.nodes
  {
    forall p :: p in c.net ==> p.dst in cfg.members && p.dst != p.frame.sender && FrameSound(cfg, c, p.frame)
  }

  predicate LeaderSound(c: Cluster, ld: Node)
  {
    && ld.activeTerm <= c.issued
    && (ld.state == LeaderPreparing ==> ld.activeTerm == c.issued)
    && (InstalledTerm(ld) > 0 ==> InstalledTerm(ld) == c.issued)
  }

  predicate FollowerSound(issued: nat, t: nat, n: Node)
  {
    && n.activeTerm <= issued
    && (n.state == FollowerCommitting ==> n.activeTerm == t)
    && (n.lastCommittedTerm > 0 ==> n.lastCommittedTerm == t)
    && (t > 0 ==> Stands(n, t))
  }

  predicate FollowersSound(cfg: Config, c: Cluster)
    requires cfg.leader in c.nodes
  {
    forall j :: j in c.nodes && j != cfg.leader ==> FollowerSound(c.issued, InstalledTerm(c.nodes[cfg.leader]), c.nodes[j])
  }

  /** Every report the leader holds is exact, and will be. */
  predicate ReportsSound(cfg: Config, c: Cluster)
    requires cfg.leader in c.nodes
  {
    var ld := c.nodes[cfg.leader];
    ld.state == LeaderPreparing ==>
      forall j :: j in ld.prepared && j in c.nodes && j != cfg.leader ==>
        Stands(c.nodes[j], ld.activeTerm) && c.nodes[j].engine.peakTotal == ld.prepared[j].total
  }

  ghost predicate Sound(cfg: Config, c: Cluster)
  {
    && NodesOk(cfg, c)
    && cfg.leader in c.nodes
    && LeaderSound(c, c.nodes[cfg.leader])
    && FollowersSound(cfg, c)
    && ReportsSound(cfg, c)
    && TotalOk(cfg, c)
    && NetSound(cfg, c)
  }

  lemma InvIsSound(cfg: Config, c: Cluster)
    requires Inv(cfg, c)
    ensures Sound(cfg, c)
  {
    hide AcksOk, TotalOk;
    var ld := c.nodes[cfg.leader];
    assert NodeOk(cfg, cfg.leader, ld);
    forall j | j in c.nodes && j != cfg.leader
      ensures FollowerSound(c.issued, InstalledTerm(ld), c.nodes[j])
    {
      assert FollowerOk(c, InstalledTerm(ld), c.nodes[j]) && NodeOk(cfg, j, c.nodes[j]);
    }
    forall j | j in ld.prepared && j in c.nodes && j != cfg.leader && ld.state == LeaderPreparing
      ensures c.nodes[j].engine.peakTotal == ld.prepared[j].total
    {
      assert NodeOk(cfg, j, c.nodes[j]);
    }
    forall p | p in c.net
      ensures p.dst in cfg.members && p.dst != p.frame.sender && FrameSound(cfg, c, p.frame)
    {
      assert PacketOk(cfg, c, p);
      if p.frame.kind == Prepared {
        assert NodeOk(cfg, p.frame.sender, c.nodes[p.frame.sender]);
      }
    }
  }

  /** In every sound state the accepted sum is within the limit. */
  lemma SoundIsWithinLimit(cfg: Config, c: Cluster)
    requires ValidConfig(cfg) && Sound(cfg, c)
    ensures AcceptedSum(c) <= cfg.limit
  {
    hide NetSound, ReportsSound, FollowersSound, AcceptedSum, FrozenSum;
    var owner := c.nodes[cfg.owner];
    assert NodeOk(cfg, cfg.owner, owner);
    OnlyTheOwnerDiffers(cfg, c);
    PeakFits(cfg, c);
    if owner.engine.mode == DangerStrict {
      InstalledKnowsTotal(cfg, c);
    }
  }

  lemma InstalledKnowsTotal(cfg: Config, c: Cluster)
    requires Sound(cfg, c) && cfg.owner in c.nodes && c.nodes[cfg.owner].engine.mode == DangerStrict
    ensures c.nodes[cfg.owner].journal.total == FrozenSum(c)
  {
    hide NetSound, ReportsSound, FrozenSum;
    assert NodeOk(cfg, cfg.owner, c.nodes[cfg.owner]);
    if cfg.owner != cfg.leader {
      assert FollowerSound(c.issued, InstalledTerm(c.nodes[cfg.leader]), c.nodes[cfg.owner]);
    }
  }

  lemma PeakFits(cfg: Config, c: Cluster)
    requires ValidConfig(cfg) && NodesOk(cfg, c)
    ensures FrozenSum(c) <= cfg.limit
  {
    forall i | i in c.nodes
      ensures c.nodes[i].engine.peakTotal <= cfg.capacity[i]
    {
      assert NodeOk(cfg, i, c.nodes[i]);
    }
    Sums.SumMapMonotone<NodeId>(PeakTotals(c), cfg.capacity);
  }

  // ---------------------------------------------------------------- one node at a time

  lemma CommitKeepsNode(cfg: Config, i: NodeId, n: Node, f: Frame, env: Env)
    requires i in cfg.capacity && NodeOk(cfg, i, n) && i != cfg.leader && f.value <= cfg.limit
    ensures
      var n' := HandleCommit(cfg, i, n, f, env).node;
      && NodeOk(cfg, i, n') && n'.engine.peakTotal == n.engine.peakTotal
      && (n' == n || ((n.state == FollowerPrepared || n.state == FollowerCommitting) && n.activeTerm == f.term))
      && (n' == n || (n'.state == FollowerCommitting && n'.activeTerm == f.term && n'.engine == n.engine)
                  || (n'.lastCommittedTerm == f.term && n'.state == Idle && n'.journal.total == f.value))
  {
  }

  /** Joining a term, from rest. */
  lemma JoinKeepsNode(cfg: Config, i: NodeId, n: Node, term: nat, env: Env)
    requires i in cfg.capacity && i in cfg.members && i != cfg.leader && NodeOk(cfg, i, n) && n.state == Idle && term > 0
    ensures
      var n' := JoinTerm(cfg, i, n, term, env).node;
      && NodeOk(cfg, i, n') && n'.engine.peakTotal == n.engine.peakTotal && n'.engine.mode == n.engine.mode
      && n'.lastCommittedTerm == n.lastCommittedTerm
      && (n' == n || n.engine.mode == ReservedPeak)
      && (n'.state == Idle || (n'.state == FollowerPrepared && n'.activeTerm == term))
  {
    JoinedNode(cfg, i, n, term, env);
  }

  lemma AcceptKeepsNode(cfg: Config, i: NodeId, n: Node, delta: nat, counter: nat)
    requires i in cfg.capacity && NodeOk(cfg, i, n) && AcceptAllowed(n.engine, delta)
    ensures
      var n' := n.(engine := Accept(n.engine, delta, counter));
      && NodeOk(cfg, i, n') && n'.engine.mode == n.engine.mode
      && (Full(n) || n.engine.mode != ReservedPeak ==> n'.engine.peakTotal == n.engine.peakTotal)
      && (n.state == Idle || n.state == LeaderCommitting)
  {
  }

  // ---------------------------------------------------------------- follower steps

  /** What a step of a follower may do to it. */
  ghost predicate Kept(cfg: Config, c: Cluster, j: NodeId, o: Outcome)
    requires cfg.leader in c.nodes && j in c.nodes && j in cfg.capacity
  {
    var n, n', ld := c.nodes[j], o.node, c.nodes[cfg.leader];
    && NodeOk(cfg, j, n')
    && n'.activeTerm <= c.issued
    && (n'.state == FollowerCommitting ==> n'.activeTerm == InstalledTerm(ld))
    && (n'.lastCommittedTerm > 0 ==> n'.lastCommittedTerm == InstalledTerm(ld))
    && (forall t: nat :: Holds(ld, t) && Stands(n, t) ==> Stands(n', t) && n'.engine.peakTotal == n.engine.peakTotal)
    && (n'.engine.mode != ReservedPeak ==> n'.journal.total == ld.committedTotal)
    && (forall p :: p in o.sent ==>
          && p.dst in cfg.members && p.dst != p.frame.sender && p.frame.sender == j && p.frame.strictOwner == cfg.owner
          && (p.frame.kind == Trigger || p.frame.kind == CommitAck
              || (p.frame.kind == Prepared && 0 < p.frame.term <= c.issued
                  && n'.state == FollowerPrepared && n'.activeTerm == p.frame.term && n'.engine.peakTotal == p.frame.value)))
  }

  lemma KeptTotal(cfg: Config, c: Cluster, j: NodeId, o: Outcome)
    requires Sound(cfg, c) && j in c.nodes && j != cfg.leader && j in cfg.capacity && Kept(cfg, c, j, o)
    ensures TotalOk(cfg, Update(cfg, c, j, o))
  {
    hide NetSound, ReportsSound, NodeOk;
    var c' := Update(cfg, c, j, o);
    var ld := c.nodes[cfg.leader];
    if InstalledTerm(ld) > 0 {
      assert FollowerSound(c.issued, InstalledTerm(ld), c.nodes[j]);
      assert Holds(ld, InstalledTerm(ld));
      SameTotals(c, c');
    }
  }

  lemma KeptFrame(cfg: Config, c: Cluster, j: NodeId, o: Outcome, f: Frame)
    requires cfg.leader in c.nodes && j in c.nodes && j != cfg.leader && j in cfg.capacity && Kept(cfg, c, j, o)
    requires FrameSound(cfg, c, f)
    ensures FrameSound(cfg, Update(cfg, c, j, o), f)
  {
    hide NodeOk;
  }

  lemma KeptFollowers(cfg: Config, c: Cluster, j: NodeId, o: Outcome)
    requires Sound(cfg, c) && j in c.nodes && j != cfg.leader && j in cfg.capacity && Kept(cfg, c, j, o)
    ensures FollowersSound(cfg, Update(cfg, c, j, o))
  {
    hide TotalOk, NodeOk, NetSound, ReportsSound;
    var c' := Update(cfg, c, j, o);
    var ld := c.nodes[cfg.leader];
    forall i | i in c'.nodes && i != cfg.leader
      ensures FollowerSound(c'.issued, InstalledTerm(ld), c'.nodes[i])
    {
      assert FollowerSound(c.issued, InstalledTerm(ld), c.nodes[i]);
      if i == j && InstalledTerm(ld) > 0 {
        assert Holds(ld, InstalledTerm(ld));
      }
    }
  }

  lemma KeptReports(cfg: Config, c: Cluster, j: NodeId, o: Outcome)
    requires Sound(cfg, c) && j in c.nodes && j != cfg.leader && j in cfg.capacity && Kept(cfg, c, j, o)
    ensures ReportsSound(cfg, Update(cfg, c, j, o))
  {
    LeaderTermIsPositive(cfg, c);
    hide TotalOk, NodeOk, NetSound, FollowersSound, Stands;
    var ld := c.nodes[cfg.leader];
    if ld.state == LeaderPreparing {
      assert Holds(ld, ld.activeTerm);
    }
  }

  lemma KeptNet(cfg: Config, c: Cluster, j: NodeId, o: Outcome)
    requires Sound(cfg, c) && j in c.nodes && j != cfg.leader && j in cfg.capacity && Kept(cfg, c, j, o)
    ensures NetSound(cfg, Update(cfg, c, j, o))
  {
    hide TotalOk, NodeOk, FollowersSound, ReportsSound;
    var c' := Update(cfg, c, j, o);
    forall p | p in c'.net
      ensures p.dst in cfg.members && p.dst != p.frame.sender && FrameSound(cfg, c', p.frame)
    {
      if p in c.net {
        KeptFrame(cfg, c, j, o, p.frame);
      }
    }
  }

  lemma FollowerStepIsSound(cfg: Config, c: Cluster, j: NodeId, o: Outcome)
    requires Sound(cfg, c) && j in c.nodes && j != cfg.leader && j in cfg.capacity && Kept(cfg, c, j, o)
    ensures Sound(cfg, Update(cfg, c, j, o))
  {
    KeptTotal(cfg, c, j, o);
    KeptFollowers(cfg, c, j, o);
    KeptReports(cfg, c, j, o);
    KeptNet(cfg, c, j, o);
    hide TotalOk, NodeOk, FollowersSound, ReportsSound, NetSound;
  }

  lemma LeaderTermIsPositive(cfg: Config, c: Cluster)
    requires NodesOk(cfg, c) && cfg.leader in c.nodes
    ensures c.nodes[cfg.leader].state == LeaderPreparing ==> c.nodes[cfg.leader].activeTerm > 0
  {
    assert NodeOk(cfg, cfg.leader, c.nodes[cfg.leader]);
  }

  /** Leaving a prepared term is harmless if the leader does not hold it, or if nothing is left to admit. */
  lemma FollowerGivesUpSoundly(cfg: Config, c: Cluster, j: NodeId, env: Env)
    requires Sound(cfg, c) && j in c.nodes && j != cfg.leader && j in cfg.capacity
    requires c.nodes[j].state == FollowerPrepared
    requires !Holds(c.nodes[cfg.leader], c.nodes[j].activeTerm) || Full(c.nodes[j])
    ensures Kept(cfg, c, j, AbortPrepare(cfg, j, c.nodes[j], false, env))
  {
    hide NetSound, ReportsSound, TotalOk;
    assert NodeOk(cfg, j, c.nodes[j]);
    AbortKeepsNode(cfg, j, c.nodes[j], false, env);
  }

  lemma FollowerIgnores(cfg: Config, c: Cluster, j: NodeId)
    requires Sound(cfg, c) && j in c.nodes && j != cfg.leader && j in cfg.capacity
    ensures Kept(cfg, c, j, Outcome(c.nodes[j], {}))
  {
    hide NetSound, ReportsSound;
    assert NodeOk(cfg, j, c.nodes[j]);
    assert FollowerSound(c.issued, InstalledTerm(c.nodes[cfg.leader]), c.nodes[j]);
  }

  lemma FollowerResends(cfg: Config, c: Cluster, j: NodeId)
    requires Sound(cfg, c) && j in c.nodes && j != cfg.leader && j in cfg.capacity && c.nodes[j].state == FollowerPrepared
    ensures Kept(cfg, c, j, Outcome(c.nodes[j],
                                    SendTo(cfg, j, cfg.leader, Prepared, c.nodes[j].activeTerm, OwnDrained(j, c.nodes[j]))))
  {
    hide NetSound, ReportsSound, TotalOk;
    assert NodeOk(cfg, j, c.nodes[j]);
    assert FollowerSound(c.issued, InstalledTerm(c.nodes[cfg.leader]), c.nodes[j]);
  }

  /** Joining a term from rest, or from an older prepared term that was just left. */
  lemma FollowerJoinsSoundly(cfg: Config, c: Cluster, j: NodeId, n: Node, term: nat, env: Env)
    requires Sound(cfg, c) && j in c.nodes && j != cfg.leader && j in cfg.capacity && j in cfg.members
    requires NodeOk(cfg, j, n) && n.state == Idle && 0 < term <= c.issued
    requires Kept(cfg, c, j, Outcome(n, {})) && n.engine.peakTotal == c.nodes[j].engine.peakTotal
    requires n == c.nodes[j] || c.nodes[j].activeTerm < term
    ensures Kept(cfg, c, j, JoinTerm(cfg, j, n, term, env))
  {
    JoinKeepsNode(cfg, j, n, term, env);
    JoinedNode(cfg, j, n, term, env);
    hide NetSound, ReportsSound, TotalOk, FollowersSound, JoinTerm, HandoffInvariant.NodeOk;
    var o := JoinTerm(cfg, j, n, term, env);
    var ld := c.nodes[cfg.leader];
    forall t: nat | Holds(ld, t) && Stands(c.nodes[j], t)
      ensures Stands(o.node, t) && o.node.engine.peakTotal == c.nodes[j].engine.peakTotal
    {
      assert t == c.issued;
      assert Stands(n, t);
    }
    PledgeOfJoined(cfg, j, o.node);
  }

  lemma PledgeOfJoined(cfg: Config, j: NodeId, n: Node)
    requires j in cfg.capacity && NodeOk(cfg, j, n)
    ensures n.state == FollowerPrepared ==> j in n.prepared && n.prepared[j].total == n.engine.peakTotal
  {
  }

  lemma FollowerGetsPrepareSoundly(cfg: Config, c: Cluster, j: NodeId, f: Frame, env: Env)
    requires Sound(cfg, c) && j in c.nodes && j != cfg.leader && j in cfg.capacity && j in cfg.members
    requires FrameSound(cfg, c, f) && f.kind == Prepare
    ensures Kept(cfg, c, j, HandlePrepare(cfg, j, c.nodes[j], f, env))
  {
    var n := c.nodes[j];
    FollowerIgnores(cfg, c, j);
    NodeOfFollower(cfg, c, j);
    hide NetSound, ReportsSound, TotalOk, FollowersSound, Kept, NodeOk, JoinTerm, AbortPrepare;
    if n.state == FollowerPrepared {
      FollowerResends(cfg, c, j);
      if f.term > n.activeTerm {
        OlderTermIsNotHeld(cfg, c, j, f.term);
        FollowerGivesUpSoundly(cfg, c, j, env);
        AbortKeepsNode(cfg, j, n, false, env);
        KeptWithoutSending(cfg, c, j, AbortPrepare(cfg, j, n, false, env));
        FollowerJoinsSoundly(cfg, c, j, AbortPrepare(cfg, j, n, false, env).node, f.term, env);
      }
    } else if n.state == Idle {
      FollowerJoinsSoundly(cfg, c, j, n, f.term, env);
    }
  }

  lemma KeptWithoutSending(cfg: Config, c: Cluster, j: NodeId, o: Outcome)
    requires cfg.leader in c.nodes && j in c.nodes && j in cfg.capacity && Kept(cfg, c, j, o)
    ensures Kept(cfg, c, j, Outcome(o.node, {}))
  {
  }

  lemma NodeOfFollower(cfg: Config, c: Cluster, j: NodeId)
    requires Sound(cfg, c) && j in c.nodes && j != cfg.leader
    ensures j in cfg.capacity && NodeOk(cfg, j, c.nodes[j]) && FollowerSound(c.issued, InstalledTerm(c.nodes[cfg.leader]), c.nodes[j])
    ensures c.nodes[j].state == Idle || c.nodes[j].state == FollowerPrepared || c.nodes[j].state == FollowerCommitting
  {
    hide NetSound, ReportsSound, TotalOk;
    assert NodeOk(cfg, j, c.nodes[j]);
  }

  lemma OlderTermIsNotHeld(cfg: Config, c: Cluster, j: NodeId, term: nat)
    requires Sound(cfg, c) && j in c.nodes && j != cfg.leader && c.nodes[j].activeTerm < term <= c.issued
    ensures !Holds(c.nodes[cfg.leader], c.nodes[j].activeTerm)
  {
    hide NetSound, ReportsSound, TotalOk, FollowersSound, NodesOk;
  }

  lemma FollowerGetsCommitSoundly(cfg: Config, c: Cluster, j: NodeId, f: Frame, env: Env)
    requires Sound(cfg, c) && j in c.nodes && j != cfg.leader && j in cfg.capacity && j in cfg.members && cfg.leader in cfg.members
    requires FrameSound(cfg, c, f) && f.kind == Commit
    ensures Kept(cfg, c, j, HandleCommit(cfg, j, c.nodes[j], f, env))
  {
    FollowerIgnores(cfg, c, j);
    NodeOfFollower(cfg, c, j);
    hide NetSound, ReportsSound, FollowersSound;
    CommitKeepsNode(cfg, j, c.nodes[j], f, env);
  }

  lemma FollowerReceivesSoundly(cfg: Config, c: Cluster, j: NodeId, f: Frame, env: Env)
    requires Sound(cfg, c) && j in c.nodes && j != cfg.leader && cfg.leader in cfg.members
    requires FrameSound(cfg, c, f)
    ensures j in cfg.capacity && Kept(cfg, c, j, HandleFrame(cfg, j, c.nodes[j], f, env))
  {
    NodeOfFollower(cfg, c, j);
    FollowerIgnores(cfg, c, j);
    var n := c.nodes[j];
    var ld := c.nodes[cfg.leader];
    assert f.kind == Abort ==> !Holds(ld, f.term);
    hide NetSound, ReportsSound, TotalOk, FollowersSound, Kept, NodeOk, HandlePrepare, HandleCommit, AbortPrepare, Sound;
    match f.kind
    case Trigger =>
    case Prepare => FollowerGetsPrepareSoundly(cfg, c, j, f, env);
    case Prepared =>
    case Commit => FollowerGetsCommitSoundly(cfg, c, j, f, env);
    case CommitAck =>
    case Abort =>
      if n.state == FollowerPrepared && f.term == n.activeTerm {
        FollowerGivesUpSoundly(cfg, c, j, env);
      }
  }

  lemma FollowerTurnsSoundly(cfg: Config, c: Cluster, j: NodeId, env: Env)
    requires Sound(cfg, c) && j in c.nodes && j != cfg.leader && cfg.leader in cfg.members
    requires env.deadlinePassed ==> MayAbandon(cfg, c, c.nodes[j]) || Full(c.nodes[j])
    ensures j in cfg.capacity && Kept(cfg, c, j, Tick(cfg, j, c.nodes[j], env))
  {
    NodeOfFollower(cfg, c, j);
    FollowerIgnores(cfg, c, j);
    var n := c.nodes[j];
    if n.state == FollowerPrepared {
      FollowerResends(cfg, c, j);
      if env.deadlinePassed {
        FollowerGivesUpSoundly(cfg, c, j, env);
      }
    } else if n.state == Idle {
      TriggerIsKept(cfg, c, j);
    }
    hide NetSound, ReportsSound, TotalOk, FollowersSound, NodeOk, AbortPrepare, Sound;
    var first := TickTrigger(cfg, j, n, env);
    assert first.node == n;
    assert Tick(cfg, j, n, env).node == TickTimers(cfg, j, n, env).node;
    if n.state == FollowerPrepared {
      assert first.sent == {};
    }
  }

  lemma TriggerIsKept(cfg: Config, c: Cluster, j: NodeId)
    requires cfg.leader in c.nodes && j in c.nodes && j != cfg.leader && j in cfg.capacity && cfg.leader in cfg.members
    requires Kept(cfg, c, j, Outcome(c.nodes[j], {}))
    ensures Kept(cfg, c, j, Outcome(c.nodes[j], SendTo(cfg, j, cfg.leader, Trigger, 0, NOTHING)))
  {
  }

  lemma FollowerStopsSoundly(cfg: Config, c: Cluster, j: NodeId, env: Env)
    requires Sound(cfg, c) && j in c.nodes && j != cfg.leader
    requires MayAbandon(cfg, c, c.nodes[j]) || Full(c.nodes[j])
    ensures j in cfg.capacity && Kept(cfg, c, j, Stop(cfg, j, c.nodes[j], env))
  {
    NodeOfFollower(cfg, c, j);
    FollowerIgnores(cfg, c, j);
    if c.nodes[j].state == FollowerPrepared {
      FollowerGivesUpSoundly(cfg, c, j, env);
    }
  }

  lemma FollowerAdmitsSoundly(cfg: Config, c: Cluster, j: NodeId, delta: nat, counter: nat)
    requires Sound(cfg, c) && j in c.nodes && j != cfg.leader && AcceptAllowed(c.nodes[j].engine, delta)
    ensures j in cfg.capacity && Kept(cfg, c, j, WithEngine(c.nodes[j], Accept(c.nodes[j].engine, delta, counter)))
  {
    NodeOfFollower(cfg, c, j);
    FollowerIgnores(cfg, c, j);
    AcceptKeepsNode(cfg, j, c.nodes[j], delta, counter);
    hide NetSound, ReportsSound, TotalOk, FollowersSound, NodeOk;
  }

  // ---------------------------------------------------------------- leader steps

  /** What a step of the leader may do. */
  ghost predicate Led(cfg: Config, c: Cluster, o: Outcome)
    requires cfg.leader in c.nodes && cfg.leader in cfg.capacity
  {
    var ld, ld', c' := c.nodes[cfg.leader], o.node, Update(cfg, c, cfg.leader, o);
    && NodeOk(cfg, cfg.leader, ld')
    && LeaderSound(c', ld')
    && (ld'.engine.peakTotal == ld.engine.peakTotal || InstalledTerm(ld') == 0)
    && (forall t: nat :: Holds(ld', t) ==> Holds(ld, t) || t > c.issued)
    && (ld'.activeTerm == 0 || ld'.activeTerm == ld.activeTerm || ld'.activeTerm > c.issued)
    && (InstalledTerm(ld) > 0 ==> InstalledTerm(ld') == InstalledTerm(ld) && ld'.committedTotal == ld.committedTotal)
    && (InstalledTerm(ld) == 0 && InstalledTerm(ld') > 0 ==>
          && InstalledTerm(ld') == ld.activeTerm && ld'.committedTotal == FrozenSum(c) <= cfg.limit
          && forall j :: j in c.nodes && j != cfg.leader ==> Stands(c.nodes[j], InstalledTerm(ld')))
    && (ld'.engine.mode != ReservedPeak ==> ld'.journal.total == ld'.committedTotal)
    && (ld'.state == LeaderPreparing ==>
          forall j :: j in ld'.prepared && j in c.nodes && j != cfg.leader ==>
            Stands(c.nodes[j], ld'.activeTerm) && c.nodes[j].engine.peakTotal == ld'.prepared[j].total)
    && (forall p :: p in o.sent ==> p.dst in cfg.members && p.dst != p.frame.sender && FrameSound(cfg, c', p.frame))
  }

  lemma LedFollowers(cfg: Config, c: Cluster, o: Outcome)
    requires Sound(cfg, c) && cfg.leader in cfg.capacity && Led(cfg, c, o)
    ensures FollowersSound(cfg, Update(cfg, c, cfg.leader, o))
  {
    var c' := Update(cfg, c, cfg.leader, o);
    var t' := InstalledTerm(o.node);
    forall j | j in c'.nodes && j != cfg.leader
      ensures FollowerSound(c'.issued, t', c'.nodes[j])
    {
      NodeOfFollower(cfg, c, j);
    }
  }

  lemma LedTotal(cfg: Config, c: Cluster, o: Outcome)
    requires Sound(cfg, c) && cfg.leader in cfg.capacity && Led(cfg, c, o)
    ensures TotalOk(cfg, Update(cfg, c, cfg.leader, o))
  {
    hide NetSound, ReportsSound;
    var c' := Update(cfg, c, cfg.leader, o);
    if InstalledTerm(o.node) > 0 {
      SameTotals(c, c');
      forall j | j in c'.nodes && c'.nodes[j].engine.mode != ReservedPeak
        ensures c'.nodes[j].journal.total == o.node.committedTotal
      {
        if j != cfg.leader {
          NodeOfFollower(cfg, c, j);
        }
      }
    }
  }

  lemma LedFrame(cfg: Config, c: Cluster, o: Outcome, f: Frame)
    requires cfg.leader in c.nodes && cfg.leader in cfg.capacity && Led(cfg, c, o) && FrameSound(cfg, c, f)
    ensures FrameSound(cfg, Update(cfg, c, cfg.leader, o), f)
  {
    hide NodeOk, FrozenSum;
  }

  lemma LedNet(cfg: Config, c: Cluster, o: Outcome)
    requires Sound(cfg, c) && cfg.leader in cfg.capacity && Led(cfg, c, o)
    ensures NetSound(cfg, Update(cfg, c, cfg.leader, o))
  {
    hide FollowersSound, ReportsSound, TotalOk, NodeOk, FrozenSum;
    var c' := Update(cfg, c, cfg.leader, o);
    forall p | p in c'.net
      ensures p.dst in cfg.members && p.dst != p.frame.sender && FrameSound(cfg, c', p.frame)
    {
      if p in c.net {
        LedFrame(cfg, c, o, p.frame);
      }
    }
  }

  lemma LeaderStepIsSound(cfg: Config, c: Cluster, o: Outcome)
    requires Sound(cfg, c) && cfg.leader in cfg.capacity && Led(cfg, c, o)
    ensures Sound(cfg, Update(cfg, c, cfg.leader, o))
  {
    LedFollowers(cfg, c, o);
    LedTotal(cfg, c, o);
    LedNet(cfg, c, o);
    hide FollowersSound, TotalOk, NetSound, NodeOk, Stands, FrozenSum;
  }

  lemma NodeOfLeader(cfg: Config, c: Cluster)
    requires Sound(cfg, c)
    ensures cfg.leader in cfg.capacity && NodeOk(cfg, cfg.leader, c.nodes[cfg.leader])
    ensures cfg.leader in cfg.members
    ensures var ld := c.nodes[cfg.leader];
      && ld.state != FollowerPrepared && ld.state != FollowerCommitting
      && (ld.engine.mode != ReservedPeak ==> InstalledTerm(ld) > 0 && ld.journal.total == ld.committedTotal)
      && (ld.state == LeaderPreparing || ld.state == LeaderCommitBlocked ==> InstalledTerm(ld) == 0)
  {
    hide NetSound, ReportsSound, FollowersSound;
    assert NodeOk(cfg, cfg.leader, c.nodes[cfg.leader]);
  }

  /** The leader's own state is as it was; what it sends is sound. */
  lemma LeaderStaysSoundly(cfg: Config, c: Cluster, sent: set<Packet>)
    requires Sound(cfg, c) && cfg.leader in cfg.capacity
    requires forall p :: p in sent ==> p.dst in cfg.members && p.dst != p.frame.sender && FrameSound(cfg, c, p.frame)
    ensures Led(cfg, c, Outcome(c.nodes[cfg.leader], sent))
  {
    NodeOfLeader(cfg, c);
    var o := Outcome(c.nodes[cfg.leader], sent);
    var c' := Update(cfg, c, cfg.leader, o);
    assert c'.nodes == c.nodes && c'.issued == c.issued;
    hide NodeOk, NetSound, FollowersSound, TotalOk;
    forall p | p in sent
      ensures FrameSound(cfg, c', p.frame)
    {
      assert FrameSound(cfg, c, p.frame);
    }
  }

  lemma LeaderGivesUpSoundly(cfg: Config, c: Cluster, prepared: map<NodeId, Drained>, broadcast: bool, env: Env)
    requires Sound(cfg, c) && cfg.leader in cfg.capacity && c.nodes[cfg.leader].state == LeaderPreparing
    requires cfg.leader in cfg.members
    ensures Led(cfg, c, AbortPrepare(cfg, cfg.leader, c.nodes[cfg.leader].(prepared := prepared), broadcast, env))
  {
    NodeOfLeader(cfg, c);
    var ld := c.nodes[cfg.leader];
    AbortKeepsNode(cfg, cfg.leader, ld, broadcast, env);
    assert AbortPrepare(cfg, cfg.leader, ld.(prepared := prepared), broadcast, env) == AbortPrepare(cfg, cfg.leader, ld, broadcast, env);
    hide NetSound, FollowersSound, TotalOk, ReportsSound;
  }

  lemma LeaderBeginsSoundly(cfg: Config, c: Cluster, env: Env)
    requires Sound(cfg, c) && cfg.leader in cfg.capacity
    requires FreshTerm(c, env, c.nodes[cfg.leader], BeginLeaderPrepare(cfg, cfg.leader, c.nodes[cfg.leader], env))
    ensures Led(cfg, c, Outcome(BeginLeaderPrepare(cfg, cfg.leader, c.nodes[cfg.leader], env), {}))
  {
    LeaderStaysSoundly(cfg, c, {});
    NodeOfLeader(cfg, c);
    var ld := c.nodes[cfg.leader];
    BeginKeepsNode(cfg, cfg.leader, ld, env);
    hide NetSound, FollowersSound, TotalOk, ReportsSound, NodeOk, BeginLeaderPrepare;
  }

  /** Opening a term, from rest in peak mode; a failed write leaves the node at rest. */
  lemma BeginKeepsNode(cfg: Config, i: NodeId, n: Node, env: Env)
    requires i in cfg.capacity && i in cfg.members && i == cfg.leader && NodeOk(cfg, i, n)
    ensures
      var n' := BeginLeaderPrepare(cfg, i, n, env);
      && NodeOk(cfg, i, n') && n'.engine.peakTotal == n.engine.peakTotal
      && (n' == n
          || (n.state == Idle && n.engine.mode == n'.engine.mode == ReservedPeak && InstalledTerm(n) == InstalledTerm(n') == 0
              && ((n'.state == Idle && n'.activeTerm == 0)
                  || (n'.state == LeaderPreparing && n'.prepared.Keys == {i} && n'.activeTerm >= env.clock))))
  {
  }

  /** A report is recorded; it was exact when it was sent, and still is. */
  lemma LeaderRecordsSoundly(cfg: Config, c: Cluster, f: Frame)
    requires Sound(cfg, c) && cfg.leader in cfg.capacity && FrameSound(cfg, c, f) && f.kind == Prepared
    requires c.nodes[cfg.leader].state == LeaderPreparing && f.term == c.nodes[cfg.leader].activeTerm
    requires f.sender in cfg.members
    ensures Led(cfg, c, Outcome(WithReport(c.nodes[cfg.leader], f), {}))
  {
    NodeOfLeader(cfg, c);
    var ld := c.nodes[cfg.leader];
    assert Holds(ld, f.term);
    RecordKeepsNode(cfg, ld, f);
    hide NetSound, FollowersSound, TotalOk, NodeOk;
  }

  lemma RecordKeepsNode(cfg: Config, ld: Node, f: Frame)
    requires cfg.leader in cfg.capacity && NodeOk(cfg, cfg.leader, ld) && ld.state == LeaderPreparing
    requires f.sender in cfg.members && f.sender != cfg.leader
    ensures NodeOk(cfg, cfg.leader, WithReport(ld, f))
  {
    assert WithReport(ld, f).prepared.Keys == ld.prepared.Keys + {f.sender};
  }

  /** A complete collection is the exact sum of what the members have used. */
  lemma CompleteIsExact(cfg: Config, c: Cluster)
    requires Sound(cfg, c) && c.nodes[cfg.leader].state == LeaderPreparing
    requires |c.nodes[cfg.leader].prepared| == |cfg.members|
    ensures PreparedSum(c.nodes[cfg.leader].prepared) == FrozenSum(c)
    ensures c.nodes[cfg.leader].prepared.Keys == cfg.members
    ensures forall j :: j in c.nodes && j != cfg.leader ==> Stands(c.nodes[j], c.nodes[cfg.leader].activeTerm)
  {
    NodeOfLeader(cfg, c);
    hide NetSound, FollowersSound, TotalOk, Stands;
    var ld := c.nodes[cfg.leader];
    assert |ld.prepared.Keys| == |ld.prepared|;
    SameSizeSubset(ld.prepared.Keys, cfg.members);
    assert PreparedTotals(ld.prepared) == PeakTotals(c);
  }

  lemma TryCases(cfg: Config, ld: Node, env: Env)
    requires ld.state == LeaderPreparing
    ensures
      var o := TryBeginCommit(cfg, cfg.leader, ld, env);
      || (o == Outcome(ld, {}) && |ld.prepared| != |cfg.members|)
      || (o == AbortPrepare(cfg, cfg.leader, ld, true, env) && |ld.prepared| == |cfg.members|)
      || (o == Outcome(Decide(cfg, cfg.leader, ld, OwnDrained(cfg.leader, ld), PreparedSum(ld.prepared), env), {})
          && |ld.prepared| == |cfg.members| && PreparedSum(ld.prepared) <= ld.engine.limit)
  {
    hide AbortPrepare, Decide, PreparedSum, ReportsAgree;
  }

  /** Deciding: recorded, installed and exact, or blocked, or given up. */
  lemma LeaderTriesSoundly(cfg: Config, c: Cluster, env: Env)
    requires Sound(cfg, c) && cfg.leader in cfg.capacity && cfg.leader in cfg.members
    requires c.nodes[cfg.leader].state == LeaderPreparing
    ensures Led(cfg, c, TryBeginCommit(cfg, cfg.leader, c.nodes[cfg.leader], env))
  {
    NodeOfLeader(cfg, c);
    var ld := c.nodes[cfg.leader];
    assert ld.engine.limit == cfg.limit && ld.(prepared := ld.prepared) == ld;
    hide Sound, Led, NodeOk, AbortPrepare, Decide, PreparedSum, Stands, FrozenSum, ReportsAgree;
    TryCases(cfg, ld, env);
    hide TryBeginCommit;
    LeaderStaysSoundly(cfg, c, {});
    if |ld.prepared| == |cfg.members| {
      CompleteIsExact(cfg, c);
      LeaderGivesUpSoundly(cfg, c, ld.prepared, true, env);
      if PreparedSum(ld.prepared) <= cfg.limit {
        LeaderDecidesSoundly(cfg, c, OwnDrained(cfg.leader, ld), PreparedSum(ld.prepared), env);
      }
    }
  }

  lemma LeaderDecidesSoundly(cfg: Config, c: Cluster, own: Drained, total: nat, env: Env)
    requires Sound(cfg, c) && cfg.leader in cfg.capacity && cfg.leader in cfg.members
    requires c.nodes[cfg.leader].state == LeaderPreparing && total == FrozenSum(c) <= cfg.limit
    requires forall j :: j in c.nodes && j != cfg.leader ==> Stands(c.nodes[j], c.nodes[cfg.leader].activeTerm)
    ensures Led(cfg, c, Outcome(Decide(cfg, cfg.leader, c.nodes[cfg.leader], own, total, env), {}))
  {
    NodeOfLeader(cfg, c);
    DecideKeepsNode(cfg, c.nodes[cfg.leader], own, total, env);
    hide NetSound, FollowersSound, TotalOk, NodeOk, Decide, FrozenSum;
  }

  lemma DecideKeepsNode(cfg: Config, ld: Node, own: Drained, total: nat, env: Env)
    requires cfg.leader in cfg.capacity && cfg.leader in cfg.members && NodeOk(cfg, cfg.leader, ld)
    requires ld.state == LeaderPreparing && total <= cfg.limit
    ensures
      var n' := Decide(cfg, cfg.leader, ld, own, total, env);
      && NodeOk(cfg, cfg.leader, n') && n'.engine.peakTotal == ld.engine.peakTotal && n'.activeTerm == ld.activeTerm
      && ((n'.state == LeaderCommitBlocked && InstalledTerm(n') == 0)
          || (n'.state == LeaderCommitting && n'.committedTotal == n'.journal.total == total))
  {
  }

  lemma LeaderGetsReportSoundly(cfg: Config, c: Cluster, f: Frame, env: Env)
    requires Sound(cfg, c) && cfg.leader in cfg.capacity && FrameSound(cfg, c, f) && f.kind == Prepared && f.sender in cfg.members
    ensures Sound(cfg, Update(cfg, c, cfg.leader, HandlePrepared(cfg, cfg.leader, c.nodes[cfg.leader], f, env)))
  {
    NodeOfLeader(cfg, c);
    var ld := c.nodes[cfg.leader];
    if ld.state == LeaderPreparing && f.term == ld.activeTerm {
      LeaderRecordsSoundly(cfg, c, f);
      LeaderTriesWithReport(cfg, c, f, env);
    } else {
      LeaderStaysSoundly(cfg, c, {});
      LeaderStepIsSound(cfg, c, Outcome(ld, {}));
    }
    hide Sound, NodeOk, Led, TryBeginCommit;
  }

  lemma LeaderTriesWithReport(cfg: Config, c: Cluster, f: Frame, env: Env)
    requires Sound(cfg, c) && cfg.leader in cfg.capacity && cfg.leader in cfg.members && cfg.leader in c.nodes
    requires c.nodes[cfg.leader].state == LeaderPreparing && Led(cfg, c, Outcome(WithReport(c.nodes[cfg.leader], f), {}))
    ensures Sound(cfg, Update(cfg, c, cfg.leader, TryBeginCommit(cfg, cfg.leader, WithReport(c.nodes[cfg.leader], f), env)))
  {
    var m := Outcome(WithReport(c.nodes[cfg.leader], f), {});
    var b := Update(cfg, c, cfg.leader, m);
    var o := TryBeginCommit(cfg, cfg.leader, m.node, env);
    assert b.nodes[cfg.leader] == m.node && m.node.activeTerm <= c.issued && Outcome(o.node, {} + o.sent) == o;
    hide Sound, NodeOk, Led, TryBeginCommit, Update, WithReport;
    LeaderStepIsSound(cfg, c, m);
    LeaderTriesSoundly(cfg, b, env);
    LeaderStepIsSound(cfg, b, o);
    UpdateTwice(cfg, c, cfg.leader, m, o);
  }

  lemma AckKeepsNode(cfg: Config, ld: Node, f: Frame)
    requires cfg.leader in cfg.capacity && NodeOk(cfg, cfg.leader, ld) && f.sender in cfg.members
    ensures
      var o := HandleCommitAck(cfg, cfg.leader, ld, f);
      && o.sent == {} && NodeOk(cfg, cfg.leader, o.node)
      && o.node.engine == ld.engine && o.node.journal == ld.journal && o.node.committedTotal == ld.committedTotal
      && InstalledTerm(o.node) == InstalledTerm(ld)
      && (o.node == ld || (ld.state == LeaderCommitting && o.node.state != LeaderPreparing
                           && (o.node.activeTerm == 0 || o.node.activeTerm == ld.activeTerm)))
  {
  }

  lemma LeaderGetsAckSoundly(cfg: Config, c: Cluster, f: Frame)
    requires Sound(cfg, c) && cfg.leader in cfg.capacity && f.sender in cfg.members
    ensures Led(cfg, c, HandleCommitAck(cfg, cfg.leader, c.nodes[cfg.leader], f))
  {
    LeaderStaysSoundly(cfg, c, {});
    NodeOfLeader(cfg, c);
    AckKeepsNode(cfg, c.nodes[cfg.leader], f);
    hide NetSound, FollowersSound, TotalOk, NodeOk, HandleCommitAck;
  }

  lemma LeaderReceivesSoundly(cfg: Config, c: Cluster, f: Frame, env: Env)
    requires Sound(cfg, c) && FrameSound(cfg, c, f)
    requires FreshTerm(c, env, c.nodes[cfg.leader], HandleFrame(cfg, cfg.leader, c.nodes[cfg.leader], f, env).node)
    ensures Sound(cfg, Update(cfg, c, cfg.leader, HandleFrame(cfg, cfg.leader, c.nodes[cfg.leader], f, env)))
  {
    NodeOfLeader(cfg, c);
    var ld := c.nodes[cfg.leader];
    LeaderStaysSoundly(cfg, c, {});
    LeaderStepIsSound(cfg, c, Outcome(ld, {}));
    if f.sender != cfg.leader && f.sender in cfg.members && !ld.fenced {
      match f.kind
      case Trigger =>
        LeaderBeginsSoundly(cfg, c, env);
        LeaderStepIsSound(cfg, c, Outcome(BeginLeaderPrepare(cfg, cfg.leader, ld, env), {}));
      case Prepare =>
      case Prepared => LeaderGetsReportSoundly(cfg, c, f, env);
      case Commit =>
      case CommitAck =>
        LeaderGetsAckSoundly(cfg, c, f);
        LeaderStepIsSound(cfg, c, HandleCommitAck(cfg, cfg.leader, ld, f));
      case Abort =>
    }
    hide Sound, NodeOk, Led, HandlePrepared, HandleCommitAck, BeginLeaderPrepare;
  }

  /** The timer part of a turn: giving up, or sending again what is still wanted. */
  lemma LeaderTimersSoundly(cfg: Config, c: Cluster, env: Env)
    requires Sound(cfg, c)
    ensures cfg.leader in cfg.capacity && Led(cfg, c, TickTimers(cfg, cfg.leader, c.nodes[cfg.leader], env))
  {
    NodeOfLeader(cfg, c);
    var ld := c.nodes[cfg.leader];
    LeaderStaysSoundly(cfg, c, {});
    if ld.state == LeaderPreparing {
      LeaderGivesUpSoundly(cfg, c, ld.prepared, true, env);
      assert ld.(prepared := ld.prepared) == ld;
      LeaderTermIsPositive(cfg, c);
      LeaderStaysSoundly(cfg, c, SendAll(cfg, cfg.leader, Peers(cfg, cfg.leader), Prepare, ld.activeTerm, OwnDrained(cfg.leader, ld)));
    } else if ld.state == LeaderCommitting {
      CommitsAreSound(cfg, c);
      LeaderStaysSoundly(cfg, c, SendAll(cfg, cfg.leader, Peers(cfg, cfg.leader) - ld.commitAcks, Commit, ld.activeTerm,
                                         Drained(ld.committedCounter, ld.committedEpoch, ld.committedTotal)));
    }
    hide Sound, NodeOk, Led, AbortPrepare;
  }

  lemma CommitsAreSound(cfg: Config, c: Cluster)
    requires Sound(cfg, c) && c.nodes[cfg.leader].state == LeaderCommitting
    ensures var ld := c.nodes[cfg.leader];
      forall d: Drained :: d.total == ld.committedTotal ==> FrameSound(cfg, c, MakeFrame(cfg, cfg.leader, Commit, ld.activeTerm, d))
  {
    NodeOfLeader(cfg, c);
  }

  lemma LeaderTurnsSoundly(cfg: Config, c: Cluster, env: Env)
    requires Sound(cfg, c)
    requires FreshTerm(c, env, c.nodes[cfg.leader], Tick(cfg, cfg.leader, c.nodes[cfg.leader], env).node)
    ensures Sound(cfg, Update(cfg, c, cfg.leader, Tick(cfg, cfg.leader, c.nodes[cfg.leader], env)))
  {
    NodeOfLeader(cfg, c);
    var ld := c.nodes[cfg.leader];
    var first := TickTrigger(cfg, cfg.leader, ld, env);
    var env2 := if first.node.state == ld.state then env else env.(deadlinePassed := false, retryDue := true);
    OpeningTurn(cfg, c, env);
    hide Sound, NodeOk, Led, TickTimers, TickTrigger, FreshTerm;
    LeaderStepIsSound(cfg, c, first);
    var b := Update(cfg, c, cfg.leader, first);
    LeaderTimersSoundly(cfg, b, env2);
    var second := TickTimers(cfg, cfg.leader, first.node, env2);
    LeaderStepIsSound(cfg, b, second);
    UpdateTwice(cfg, c, cfg.leader, first, second);
  }

  lemma OpeningTurn(cfg: Config, c: Cluster, env: Env)
    requires Sound(cfg, c)
    requires FreshTerm(c, env, c.nodes[cfg.leader], Tick(cfg, cfg.leader, c.nodes[cfg.leader], env).node)
    ensures cfg.leader in cfg.capacity && Led(cfg, c, TickTrigger(cfg, cfg.leader, c.nodes[cfg.leader], env))
    ensures
      var first := TickTrigger(cfg, cfg.leader, c.nodes[cfg.leader], env);
      var second := TickTimers(cfg, cfg.leader, first.node,
                               if first.node.state == c.nodes[cfg.leader].state then env else env.(deadlinePassed := false, retryDue := true));
      first.node.activeTerm <= second.node.activeTerm || first.node.activeTerm <= c.issued
  {
    NodeOfLeader(cfg, c);
    var ld := c.nodes[cfg.leader];
    LeaderStaysSoundly(cfg, c, {});
    BeginKeepsNode(cfg, cfg.leader, ld, env);
    var n' := BeginLeaderPrepare(cfg, cfg.leader, ld, env);
    if LowWater(cfg, ld, env) {
      if n'.state == LeaderPreparing {
        assert Tick(cfg, cfg.leader, ld, env).node.state == LeaderPreparing;
      }
      LeaderBeginsSoundly(cfg, c, env);
    }
    assert ld.activeTerm <= c.issued;
    hide Sound, NodeOk, Led, BeginLeaderPrepare;
  }

  lemma LeaderStopsSoundly(cfg: Config, c: Cluster, env: Env)
    requires Sound(cfg, c)
    ensures cfg.leader in cfg.capacity && Led(cfg, c, Stop(cfg, cfg.leader, c.nodes[cfg.leader], env))
  {
    NodeOfLeader(cfg, c);
    var ld := c.nodes[cfg.leader];
    LeaderStaysSoundly(cfg, c, {});
    if ld.state == LeaderPreparing {
      LeaderGivesUpSoundly(cfg, c, ld.prepared, false, env);
      assert ld.(prepared := ld.prepared) == ld;
    }
    hide Sound, NodeOk, Led, AbortPrepare;
  }

  lemma LeaderAdmitsSoundly(cfg: Config, c: Cluster, delta: nat, counter: nat)
    requires Sound(cfg, c) && AcceptAllowed(c.nodes[cfg.leader].engine, delta)
    ensures cfg.leader in cfg.capacity && Led(cfg, c, WithEngine(c.nodes[cfg.leader], Accept(c.nodes[cfg.leader].engine, delta, counter)))
  {
    LeaderStaysSoundly(cfg, c, {});
    NodeOfLeader(cfg, c);
    var ld := c.nodes[cfg.leader];
    AcceptKeepsNode(cfg, cfg.leader, ld, delta, counter);
    assert ld.engine.mode == ReservedPeak ==> InstalledTerm(ld) == 0;
    hide NetSound, FollowersSound, TotalOk, NodeOk;
  }

  // ---------------------------------------------------------------- every step, every run

  lemma StepIsSound(cfg: Config, c: Cluster, s: Step, c': Cluster)
    requires ValidConfig(cfg) && Sound(cfg, c) && LenientNext(cfg, c, s, c')
    ensures Sound(cfg, c')
  {
    NodeOfLeader(cfg, c);
    if Actor(s) == cfg.leader {
      LeaderActsSoundly(cfg, c, s, c');
    } else {
      FollowerActsSoundly(cfg, c, s, c');
    }
  }

  lemma NothingMoves(cfg: Config, c: Cluster, i: NodeId)
    requires i in c.nodes && c.nodes[i].activeTerm <= c.issued
    ensures Update(cfg, c, i, Outcome(c.nodes[i], {})) == c
  {
    assert c.nodes[i := c.nodes[i]] == c.nodes && c.net + {} == c.net;
  }

  lemma LeaderActsSoundly(cfg: Config, c: Cluster, s: Step, c': Cluster)
    requires ValidConfig(cfg) && Sound(cfg, c) && LenientNext(cfg, c, s, c') && Actor(s) == cfg.leader
    ensures Sound(cfg, c')
  {
    NodeOfLeader(cfg, c);
    var ld := c.nodes[cfg.leader];
    match s
    case Deliver(p, env) =>
      assert FrameSound(cfg, c, p.frame);
      LeaderReceivesSoundly(cfg, c, p.frame, env);
    case Turn(self, env) => LeaderTurnsSoundly(cfg, c, env);
    case TearDown(self, env) =>
      LeaderStopsSoundly(cfg, c, env);
      LeaderStepIsSound(cfg, c, Stop(cfg, cfg.leader, ld, env));
    case Admit(self, delta, counter) =>
      LeaderAdmitsSoundly(cfg, c, delta, counter);
      LeaderStepIsSound(cfg, c, WithEngine(ld, Accept(ld.engine, delta, counter)));
    case CollapseLocally(self) =>
      LocalChangesRefused(cfg, self, ld);
      NothingMoves(cfg, c, self);
    case EnterPeakLocally(self) =>
      LocalChangesRefused(cfg, self, ld);
      NothingMoves(cfg, c, self);
  }

  lemma FollowerActsSoundly(cfg: Config, c: Cluster, s: Step, c': Cluster)
    requires ValidConfig(cfg) && Sound(cfg, c) && LenientNext(cfg, c, s, c') && Actor(s) != cfg.leader
    requires cfg.leader in cfg.members
    ensures Sound(cfg, c')
  {
    var j := Actor(s);
    NodeOfFollower(cfg, c, j);
    match s
    case Deliver(p, env) =>
      assert FrameSound(cfg, c, p.frame);
      FollowerReceivesSoundly(cfg, c, j, p.frame, env);
      FollowerStepIsSound(cfg, c, j, HandleFrame(cfg, j, c.nodes[j], p.frame, env));
    case Turn(self, env) =>
      FollowerTurnsSoundly(cfg, c, j, env);
      FollowerStepIsSound(cfg, c, j, Tick(cfg, j, c.nodes[j], env));
    case TearDown(self, env) =>
      FollowerStopsSoundly(cfg, c, j, env);
      FollowerStepIsSound(cfg, c, j, Stop(cfg, j, c.nodes[j], env));
    case Admit(self, delta, counter) =>
      FollowerAdmitsSoundly(cfg, c, j, delta, counter);
      FollowerStepIsSound(cfg, c, j, WithEngine(c.nodes[j], Accept(c.nodes[j].engine, delta, counter)));
    case CollapseLocally(self) =>
      LocalChangesRefused(cfg, self, c.nodes[j]);
      NothingMoves(cfg, c, self);
    case EnterPeakLocally(self) =>
      LocalChangesRefused(cfg, self, c.nodes[j]);
      NothingMoves(cfg, c, self);
  }

  ghost predicate LenientStepAt(cfg: Config, run: seq<Cluster>, steps: seq<Step>, k: nat)
    requires |run| == |steps| + 1
  {
    k < |steps| ==> LenientNext(cfg, run[k], steps[k], run[k + 1])
  }

  /** A run in which full followers give up as they please. */
  ghost predicate IsLenientRun(cfg: Config, run: seq<Cluster>, steps: seq<Step>)
  {
    && |run| == |steps| + 1
    && Init(cfg, run[0])
    && forall k: nat :: LenientStepAt(cfg, run, steps, k)
  }

  lemma LenientStep(cfg: Config, run: seq<Cluster>, steps: seq<Step>, k: nat)
    requires IsLenientRun(cfg, run, steps) && k < |steps|
    ensures LenientNext(cfg, run[k], steps[k], run[k + 1])
  {
    hide LenientNext, Init;
    assert LenientStepAt(cfg, run, steps, k);
  }

  lemma StartIsSound(cfg: Config, c: Cluster)
    requires ValidConfig(cfg) && Init(cfg, c)
    ensures Sound(cfg, c)
  {
    hide ValidConfig, Init, Sound, Inv;
    InitHolds(cfg, c);
    InvIsSound(cfg, c);
  }

  lemma {:induction false} LenientRunIsSound(cfg: Config, run: seq<Cluster>, steps: seq<Step>, k: nat)
    requires ValidConfig(cfg) && IsLenientRun(cfg, run, steps) && k < |run|
    ensures Sound(cfg, run[k])
  {
    hide ValidConfig, Sound, LenientNext, LenientStepAt, Init;
    if k == 0 {
      StartIsSound(cfg, run[0]);
    } else {
      LenientRunIsSound(cfg, run, steps, k - 1);
      LenientStep(cfg, run, steps, k - 1);
      StepIsSound(cfg, run[k - 1], steps[k - 1], run[k]);
    }
  }

  /** The hard limit holds in every run in which only full followers abandon a term that the
      leader holds, however often they do so. */
  lemma LimitHoldsWhenOnlyFullFollowersGiveUp(cfg: Config, run: seq<Cluster>, steps: seq<Step>, k: nat)
    requires ValidConfig(cfg) && IsLenientRun(cfg, run, steps) && k < |run|
    ensures AcceptedSum(run[k]) <= cfg.limit
  {
    hide ValidConfig, Sound, LenientNext, IsLenientRun, AcceptedSum;
    LenientRunIsSound(cfg, run, steps, k);
    SoundIsWithinLimit(cfg, run[k]);
  }
}
