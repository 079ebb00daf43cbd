/** When exactly a follower that gives up a prepared term breaks the hard limit. */
module HandoffGivingUp {
  import opened CounterTypes
  import opened HandoffProtocol
  import opened HandoffCluster
  import opened HandoffInvariant
  import opened HandoffTheorems
  import opened HandoffAbandon
  import opened HandoffGather
  import opened HandoffStaleReport
  import HandoffFullFollowers

  // ---------------------------------------------------------------- what every run has sent

  /** Somebody asked this follower for the term it is prepared for, and it answered. */
  ghost predicate HeardBy(cfg: Config, net: set<Packet>, j: NodeId, n: Node)
  {
    n.state == FollowerPrepared ==>
      && j in n.prepared && ReportOf(cfg, j, n.activeTerm, n.prepared[j]) in net
      && exists p :: p in net && IsPrepareFor(cfg, p, j, n.activeTerm)
  }

  ghost predicate Heard(cfg: Config, c: Cluster)
  {
    forall j :: j in c.nodes && j != cfg.leader ==> HeardBy(cfg, c.net, j, c.nodes[j])
  }

  /** Only a prepare for that very term prepares a follower. */
  lemma PreparedByFrame(cfg: Config, j: NodeId, n: Node, f: Frame, env: Env)
    requires j != cfg.leader && cfg.leader in cfg.members
    ensures
      var o := HandleFrame(cfg, j, n, f, env);
      o.node.state == FollowerPrepared ==>
        || (n.state == FollowerPrepared && o.node.activeTerm == n.activeTerm && o.node.prepared == n.prepared)
        || (IsPrepareFor(cfg, Packet(j, f), j, o.node.activeTerm) && j in o.node.prepared
            && ReportOf(cfg, j, o.node.activeTerm, o.node.prepared[j]) in o.sent)
  {
    hide CommitHandoff, CommitAllowed, TryBeginCommit, AbortHandoff;
  }

  lemma NotPreparedByTurn(cfg: Config, j: NodeId, n: Node, env: Env)
    requires j != cfg.leader
    ensures Tick(cfg, j, n, env).node.state == FollowerPrepared ==> Tick(cfg, j, n, env).node == n
    ensures Stop(cfg, j, n, env).node.state != FollowerPrepared || Stop(cfg, j, n, env).node == n
  {
  }

  lemma HeardStays(cfg: Config, net: set<Packet>, net': set<Packet>, j: NodeId, n: Node, n': Node)
    requires HeardBy(cfg, net, j, n) && net <= net'
    requires n'.state == FollowerPrepared ==> n.state == FollowerPrepared && n'.activeTerm == n.activeTerm && n'.prepared == n.prepared
    ensures HeardBy(cfg, net', j, n')
  {
    if n'.state == FollowerPrepared {
      var p :| p in net && IsPrepareFor(cfg, p, j, n.activeTerm);
      assert p in net';
    }
  }

  lemma ActorIsHeard(cfg: Config, c: Cluster, s: Step, c': Cluster)
    requires cfg.leader in cfg.members && Next(cfg, c, s, c') && Actor(s) != cfg.leader
    requires HeardBy(cfg, c.net, Actor(s), c.nodes[Actor(s)])
    ensures HeardBy(cfg, c'.net, Actor(s), c'.nodes[Actor(s)])
  {
    var j := Actor(s);
    var n, n' := c.nodes[j], c'.nodes[j];
    EffectIsUpdate(cfg, c, s);
    hide HandleFrame, Tick, Stop;
    match s
    case Deliver(p, env) =>
      PreparedByFrame(cfg, j, n, p.frame, env);
      if n'.state == FollowerPrepared && IsPrepareFor(cfg, Packet(j, p.frame), j, n'.activeTerm)
         && j in n'.prepared && ReportOf(cfg, j, n'.activeTerm, n'.prepared[j]) in c'.net {
        assert p in c'.net && IsPrepareFor(cfg, p, j, n'.activeTerm);
      } else {
        HeardStays(cfg, c.net, c'.net, j, n, n');
      }
    case Turn(self, env) =>
      NotPreparedByTurn(cfg, j, n, env);
      HeardStays(cfg, c.net, c'.net, j, n, n');
    case TearDown(self, env) =>
      NotPreparedByTurn(cfg, j, n, env);
      HeardStays(cfg, c.net, c'.net, j, n, n');
    case Admit(self, delta, counter) => HeardStays(cfg, c.net, c'.net, j, n, n');
    case CollapseLocally(self) => HeardStays(cfg, c.net, c'.net, j, n, n');
    case EnterPeakLocally(self) => HeardStays(cfg, c.net, c'.net, j, n, n');
  }

  lemma StepIsHeard(cfg: Config, c: Cluster, s: Step, c': Cluster)
    requires cfg.leader in cfg.members && Heard(cfg, c) && Next(cfg, c, s, c')
    ensures Heard(cfg, c')
  {
    EffectIsUpdate(cfg, c, s);
    forall j | j in c'.nodes && j != cfg.leader
      ensures HeardBy(cfg, c'.net, j, c'.nodes[j])
    {
      if j == Actor(s) {
        hide Act;
        ActorIsHeard(cfg, c, s, c');
      } else {
        hide Act;
        HeardStays(cfg, c.net, c'.net, j, c.nodes[j], c'.nodes[j]);
      }
    }
  }

  /** In every run, a prepared follower was asked and has answered. */
  lemma {:induction false} RunIsHeard(cfg: Config, run: seq<Cluster>, steps: seq<Step>, k: nat)
    requires ValidConfig(cfg) && IsRun(cfg, run, steps) && k < |run|
    ensures Heard(cfg, run[k])
  {
    if k == 0 {
      assert forall j :: j in run[0].nodes ==> FreshNode(cfg, cfg.capacity[j], run[0].nodes[j]);
    } else {
      RunIsHeard(cfg, run, steps, k - 1);
      assert StepAt(cfg, run, steps, k - 1);
      hide Heard, Next, IsRun;
      StepIsHeard(cfg, run[k - 1], steps[k - 1], run[k]);
    }
  }

  // ---------------------------------------------------------------- it can

  /** Once its term is being collected and can still be completed, giving up with anything left breaks the limit. */
  lemma CollectingTermBreaks(cfg: Config, c: Cluster, f: NodeId, s: Step, p: Packet)
    requires ValidConfig(cfg) && Inv(cfg, c) && f in c.nodes && f != cfg.leader && c.nodes[f].state == FollowerPrepared
    requires Collects(c.nodes[cfg.leader], c.nodes[f].activeTerm) && CanComplete(cfg, c, c.nodes[f].activeTerm) && Slack(c.nodes[f]) > 0
    requires f in c.nodes[f].prepared && ReportOf(cfg, f, c.nodes[f].activeTerm, c.nodes[f].prepared[f]) in c.net
    requires GivesUp(s, f) && p in c.net && IsPrepareFor(cfg, p, f, c.nodes[f].activeTerm)
    ensures CanExceed(cfg, Effect(cfg, c, s))
  {
    var n := c.nodes[f];
    GivingUpIsAborting(cfg, c, f, s);
    var o := AbortPrepare(cfg, f, n, false, GiveUpEnv(s));
    LeftBehind(cfg, c, f, GiveUpEnv(s));
    hide ValidConfig, Inv, CanExceed, AbortPrepare, Effect;
    GatheringAfter(cfg, c, f, o, p);
    GatherExceeds(cfg, Update(cfg, c, f, o), f, n.activeTerm, n.prepared[f], p);
  }

  lemma LeftBehind(cfg: Config, c: Cluster, f: NodeId, env: Env)
    requires Inv(cfg, c) && f in c.nodes && f != cfg.leader && c.nodes[f].state == FollowerPrepared && f in c.nodes[f].prepared
    requires Collects(c.nodes[cfg.leader], c.nodes[f].activeTerm) && CanComplete(cfg, c, c.nodes[f].activeTerm) && Slack(c.nodes[f]) > 0
    ensures f in cfg.capacity && Gone(cfg, c.nodes[cfg.leader], f, AbortPrepare(cfg, f, c.nodes[f], false, env).node, c.nodes[f].prepared[f])
  {
    var ld, n := c.nodes[cfg.leader], c.nodes[f];
    hide FollowersOk, TotalOk, AcksOk, NetOk;
    assert NodeOk(cfg, f, n);
    assert CanAgree(ld, n, n.activeTerm);
    GaveUpNode(cfg, f, n, env);
  }

  lemma MembersAreWilling(cfg: Config, c: Cluster, j: NodeId, t: nat)
    requires Inv(cfg, c) && j in c.nodes && j != cfg.leader && Collects(c.nodes[cfg.leader], t) && CanComplete(cfg, c, t)
    ensures j in cfg.capacity && Willing(cfg, c.nodes[cfg.leader], j, c.nodes[j], t)
    ensures j in c.nodes[cfg.leader].prepared ==>
      c.nodes[cfg.leader].prepared[j].counter == c.nodes[cfg.leader].engine.counter && c.nodes[cfg.leader].prepared[j].epoch == c.nodes[cfg.leader].engine.epoch
  {
    CollectingIsUndecided(cfg, c);
    hide TotalOk, AcksOk, NetOk;
    assert NodeOk(cfg, j, c.nodes[j]);
    assert FollowerOk(c, 0, c.nodes[j]);
    assert CanAgree(c.nodes[cfg.leader], c.nodes[j], t);
  }

  lemma LeaderAgrees(cfg: Config, c: Cluster, t: nat)
    requires Inv(cfg, c) && Collects(c.nodes[cfg.leader], t) && CanComplete(cfg, c, t)
    ensures ReportsAgree(c.nodes[cfg.leader].prepared, OwnDrained(cfg.leader, c.nodes[cfg.leader]))
  {
    var ld := c.nodes[cfg.leader];
    CollectingIsUndecided(cfg, c);
    hide CollectOk, FollowersOk, TotalOk, AcksOk, NetOk;
    forall j | j in ld.prepared
      ensures ld.prepared[j].epoch == OwnDrained(cfg.leader, ld).epoch && ld.prepared[j].counter == OwnDrained(cfg.leader, ld).counter
    {
      if j != cfg.leader {
        MembersAreWilling(cfg, c, j, t);
      }
    }
  }

  lemma GatheringAfter(cfg: Config, c: Cluster, f: NodeId, o: Outcome, p: Packet)
    requires ValidConfig(cfg) && Inv(cfg, c) && f in c.nodes && f != cfg.leader && f in c.nodes[f].prepared && f in cfg.capacity
    requires Collects(c.nodes[cfg.leader], c.nodes[f].activeTerm) && CanComplete(cfg, c, c.nodes[f].activeTerm)
    requires ReportOf(cfg, f, c.nodes[f].activeTerm, c.nodes[f].prepared[f]) in c.net
    requires p in c.net && IsPrepareFor(cfg, p, f, c.nodes[f].activeTerm)
    requires Gone(cfg, c.nodes[cfg.leader], f, o.node, c.nodes[f].prepared[f])
    ensures Gathering(cfg, Update(cfg, c, f, o), f, c.nodes[f].activeTerm, c.nodes[f].prepared[f], p)
  {
    var t := c.nodes[f].activeTerm;
    CollectingIsUndecided(cfg, c);
    LeaderAgrees(cfg, c, t);
    forall j | j in c.nodes && j != cfg.leader
      ensures j in cfg.capacity && Willing(cfg, c.nodes[cfg.leader], j, c.nodes[j], t)
    {
      MembersAreWilling(cfg, c, j, t);
    }
    assert c.nodes.Keys == cfg.members == cfg.capacity.Keys && cfg.owner in cfg.members && t > 0;
    hide ValidConfig, Inv, NodeOk, Willing, Gone, ReportsAgree, CanComplete;
    GatheringFrom(cfg, c, f, o, t, c.nodes[f].prepared[f], p);
  }

  lemma GatheringFrom(cfg: Config, c: Cluster, f: NodeId, o: Outcome, t: nat, d: Drained, p: Packet)
    requires c.nodes.Keys == cfg.members == cfg.capacity.Keys && cfg.leader in cfg.members && cfg.owner in cfg.members
    requires f in cfg.members && f != cfg.leader && t > 0
    requires p in c.net && IsPrepareFor(cfg, p, f, t) && ReportOf(cfg, f, t, d) in c.net
    requires var ld := c.nodes[cfg.leader];
      && NodeOk(cfg, cfg.leader, ld) && Collects(ld, t) && ReportsAgree(ld.prepared, OwnDrained(cfg.leader, ld))
      && Gone(cfg, ld, f, o.node, d)
      && forall j :: j in c.nodes && j != cfg.leader ==> Willing(cfg, ld, j, c.nodes[j], t)
    ensures Gathering(cfg, Update(cfg, c, f, o), f, t, d, p)
  {
    hide NodeOk, Willing, Gone, ReportsAgree;
  }

  // ---------------------------------------------------------------- it cannot

  lemma {:induction false} SoundContinues(cfg: Config, c: Cluster, steps: seq<Step>)
    requires ValidConfig(cfg) && HandoffFullFollowers.Sound(cfg, c) && Allowed(cfg, c, steps)
    ensures HandoffFullFollowers.Sound(cfg, Final(cfg, c, steps))
    decreases |steps|
  {
    if steps != [] {
      var c' := Effect(cfg, c, steps[0]);
      assert Next(cfg, c, steps[0], c');
      hide ValidConfig, HandoffFullFollowers.Sound, Effect, Enabled, Timely;
      HandoffFullFollowers.TimelyIsLenient(cfg, c, steps[0], c');
      hide Next, HandoffFullFollowers.LenientNext;
      HandoffFullFollowers.StepIsSound(cfg, c, steps[0], c');
      SoundContinues(cfg, c', steps[1..]);
    }
  }

  /** From a sound state no continuation exceeds the limit. */
  lemma SoundCannotExceed(cfg: Config, c: Cluster)
    requires ValidConfig(cfg) && HandoffFullFollowers.Sound(cfg, c)
    ensures !CanExceed(cfg, c)
  {
    hide ValidConfig, HandoffFullFollowers.Sound, AcceptedSum;
    forall steps: seq<Step> | Allowed(cfg, c, steps)
      ensures AcceptedSum(Final(cfg, c, steps)) <= cfg.limit
    {
      SoundContinues(cfg, c, steps);
      HandoffFullFollowers.SoundIsWithinLimit(cfg, Final(cfg, c, steps));
    }
  }

  /** Giving up a term that the leader does not hold, or with nothing left to admit, is safe. */
  lemma GivingUpIsSound(cfg: Config, c: Cluster, f: NodeId, s: Step)
    requires ValidConfig(cfg) && Inv(cfg, c) && f in c.nodes && f != cfg.leader && c.nodes[f].state == FollowerPrepared && GivesUp(s, f)
    requires !Holds(c.nodes[cfg.leader], c.nodes[f].activeTerm) || Slack(c.nodes[f]) <= 0
    ensures !CanExceed(cfg, Effect(cfg, c, s))
  {
    GivingUpIsAborting(cfg, c, f, s);
    assert NodeOk(cfg, f, c.nodes[f]);
    hide ValidConfig, Inv, HandoffFullFollowers.Sound, Effect, CanExceed, AbortPrepare, Holds, HandoffFullFollowers.Kept;
    HandoffFullFollowers.InvIsSound(cfg, c);
    HandoffFullFollowers.FollowerGivesUpSoundly(cfg, c, f, GiveUpEnv(s));
    HandoffFullFollowers.FollowerStepIsSound(cfg, c, f, AbortPrepare(cfg, f, c.nodes[f], false, GiveUpEnv(s)));
    SoundCannotExceed(cfg, Effect(cfg, c, s));
  }

  /** The cluster in which f has given up and its report was never sent. */
  ghost function Unreported(cfg: Config, c: Cluster, f: NodeId, n: Node): (a: Cluster)
    requires cfg.leader in c.nodes && f in c.nodes && f in c.nodes[f].prepared
  {
    var ld := c.nodes[cfg.leader];
    var report := MakeFrame(cfg, f, Prepared, c.nodes[f].activeTerm, c.nodes[f].prepared[f]);
    Cluster(c.nodes[f := n][cfg.leader := ld.(prepared := ld.prepared - {f})],
            (set p | p in c.net && p.frame != report),
            c.issued)
  }

  /** What giving up leaves of a follower. */
  predicate Left(cfg: Config, f: NodeId, n: Node)
    requires f in cfg.capacity
  {
    NodeOk(cfg, f, n) && n.state == Idle && n.lastCommittedTerm == 0 && n.activeTerm == 0 && n.engine.mode == ReservedPeak
  }

  lemma UnreportedNet(cfg: Config, c: Cluster, f: NodeId, n: Node)
    requires Inv(cfg, c) && f in c.nodes && f != cfg.leader && c.nodes[f].state == FollowerPrepared && f in c.nodes[f].prepared
    requires f in cfg.capacity && Left(cfg, f, n) && Collects(c.nodes[cfg.leader], c.nodes[f].activeTerm)
    ensures NetOk(cfg, Unreported(cfg, c, f, n))
  {
    CollectingIsUndecided(cfg, c);
    assert NodeOk(cfg, f, c.nodes[f]);
    hide NodesOk, CollectOk, FollowersOk, TotalOk, AcksOk;
    var a := Unreported(cfg, c, f, n);
    forall p | p in a.net
      ensures PacketOk(cfg, a, p)
    {
      assert PacketOk(cfg, c, p);
      hide NodeOk;
    }
  }

  lemma UnreportedNodes(cfg: Config, c: Cluster, f: NodeId, n: Node)
    requires Inv(cfg, c) && f in c.nodes && f != cfg.leader && f in c.nodes[f].prepared
    requires f in cfg.capacity && Left(cfg, f, n) && c.nodes[cfg.leader].state == LeaderPreparing
    ensures NodesOk(cfg, Unreported(cfg, c, f, n))
  {
    CollectingIsUndecided(cfg, c);
    DroppedNode(cfg, c.nodes[cfg.leader], f);
    hide NodeOk, NetOk, AcksOk, TotalOk, CollectOk, FollowersOk;
  }

  lemma UnreportedFollowers(cfg: Config, c: Cluster, f: NodeId, n: Node)
    requires Inv(cfg, c) && f in c.nodes && f != cfg.leader && f in c.nodes[f].prepared
    requires f in cfg.capacity && Left(cfg, f, n) && c.nodes[cfg.leader].state == LeaderPreparing
    ensures FollowersOk(cfg, Unreported(cfg, c, f, n))
  {
    CollectingIsUndecided(cfg, c);
    hide NodesOk, NodeOk, NetOk, AcksOk, TotalOk, CollectOk, FollowerOk;
    var a := Unreported(cfg, c, f, n);
    forall j | j in a.nodes && j != cfg.leader
      ensures FollowerOk(a, 0, a.nodes[j])
    {
      if j == f {
        LeftFollower(cfg, a, f, n);
      } else {
        assert FollowerOk(c, 0, c.nodes[j]);
        SameFollower(c, a, 0, c.nodes[j]);
      }
    }
  }

  lemma LeftFollower(cfg: Config, a: Cluster, f: NodeId, n: Node)
    requires f in cfg.capacity && Left(cfg, f, n)
    ensures FollowerOk(a, 0, n)
  {
  }

  lemma UnreportedCollect(cfg: Config, c: Cluster, f: NodeId, n: Node)
    requires Inv(cfg, c) && f in c.nodes && f != cfg.leader && f in c.nodes[f].prepared
    requires c.nodes[cfg.leader].state == LeaderPreparing
    ensures
      var a := Unreported(cfg, c, f, n);
      CollectOk(cfg, a) && TotalOk(cfg, a) && AcksOk(cfg, a)
  {
    CollectingIsUndecided(cfg, c);
    hide NodesOk, NetOk, AcksOk, FollowersOk, NodeOk;
  }

  lemma ShadowAfter(cfg: Config, c: Cluster, f: NodeId, o: Outcome)
    requires Inv(cfg, c) && f in c.nodes && f != cfg.leader && c.nodes[f].state == FollowerPrepared && f in c.nodes[f].prepared
    requires Collects(c.nodes[cfg.leader], c.nodes[f].activeTerm) && o.sent == {} && o.node.activeTerm == 0
    ensures Shadow(cfg, Update(cfg, c, f, o), Unreported(cfg, c, f, o.node), f, c.nodes[f].activeTerm, c.nodes[f].prepared[f])
  {
    var ld, n := c.nodes[cfg.leader], c.nodes[f];
    CollectingIsUndecided(cfg, c);
    assert CollectOk(cfg, c);
    assert 0 < n.activeTerm <= c.issued;
    assert f in ld.prepared ==> ld.prepared[f] == n.prepared[f];
    hide Inv, CollectOk, NodeOk;
    WithoutReport(ld, f, n.activeTerm, n.prepared[f]);
    hide LeaderShadow;
  }

  lemma WithoutReport(ld: Node, f: NodeId, t: nat, d: Drained)
    requires Collects(ld, t) && (f in ld.prepared ==> ld.prepared[f] == d)
    ensures LeaderShadow(ld, ld.(prepared := ld.prepared - {f}), f, t, d)
  {
    if f !in ld.prepared {
      assert ld.prepared - {f} == ld.prepared;
    }
  }

  lemma BlockedAfter(cfg: Config, c: Cluster, f: NodeId, o: Outcome)
    requires Inv(cfg, c) && f in c.nodes && f != cfg.leader && c.nodes[f].state == FollowerPrepared && f in c.nodes[f].prepared
    requires !CanComplete(cfg, c, c.nodes[f].activeTerm)
    ensures cfg.leader in Update(cfg, c, f, o).nodes
    ensures Blocked(cfg, Update(cfg, c, f, o), f, c.nodes[f].activeTerm, c.nodes[f].prepared[f])
  {
    assert NodeOk(cfg, f, c.nodes[f]);
    hide Inv;
    var ld, t := c.nodes[cfg.leader], c.nodes[f].activeTerm;
    var j :| j in c.nodes && j != cfg.leader && !CanAgree(ld, c.nodes[j], t);
    if j != f {
      assert Disagrees(ld, Update(cfg, c, f, o).nodes[j], t);
    }
  }

  /** While the term is collected but can no longer be completed, giving up is safe. */
  lemma GivingUpIsHarmless(cfg: Config, c: Cluster, f: NodeId, s: Step)
    requires ValidConfig(cfg) && Inv(cfg, c) && f in c.nodes && f != cfg.leader && c.nodes[f].state == FollowerPrepared && GivesUp(s, f)
    requires Collects(c.nodes[cfg.leader], c.nodes[f].activeTerm) && !CanComplete(cfg, c, c.nodes[f].activeTerm)
    ensures !CanExceed(cfg, Effect(cfg, c, s))
  {
    var n, t := c.nodes[f], c.nodes[f].activeTerm;
    assert NodeOk(cfg, f, n);
    GivingUpIsAborting(cfg, c, f, s);
    var o := AbortPrepare(cfg, f, n, false, GiveUpEnv(s));
    GaveUpNode(cfg, f, n, GiveUpEnv(s));
    assert Left(cfg, f, o.node);
    BlockedAfter(cfg, c, f, o);
    UnreportedNodes(cfg, c, f, o.node);
    UnreportedFollowers(cfg, c, f, o.node);
    UnreportedCollect(cfg, c, f, o.node);
    UnreportedNet(cfg, c, f, o.node);
    ShadowAfter(cfg, c, f, o);
    hide ValidConfig, NodesOk, CollectOk, FollowersOk, TotalOk, AcksOk, NetOk, NodeOk, Effect, AbortPrepare, Shadow, Blocked, CanExceed;
    HarmlessBy(cfg, Update(cfg, c, f, o), Unreported(cfg, c, f, o.node), f, t, n.prepared[f]);
    hide Harmless;
    HarmlessCannotExceed(cfg, Update(cfg, c, f, o), f, t, n.prepared[f]);
  }

  // ---------------------------------------------------------------- exactly when

  /** The leader will install the follower's term, or can still be brought to. */
  predicate StillCounts(cfg: Config, c: Cluster, n: Node)
    requires cfg.leader in c.nodes
  {
    && Holds(c.nodes[cfg.leader], n.activeTerm)
    && (InstalledTerm(c.nodes[cfg.leader]) == n.activeTerm || CanComplete(cfg, c, n.activeTerm))
  }

  lemma GivingUpBreaks(cfg: Config, c: Cluster, f: NodeId, s: Step)
    requires ValidConfig(cfg) && Inv(cfg, c) && Heard(cfg, c)
    requires f in c.nodes && f != cfg.leader && c.nodes[f].state == FollowerPrepared && GivesUp(s, f)
    requires StillCounts(cfg, c, c.nodes[f]) && Slack(c.nodes[f]) > 0
    ensures CanExceed(cfg, Effect(cfg, c, s))
  {
    var n := c.nodes[f];
    assert HeardBy(cfg, c.net, f, n);
    var p :| p in c.net && IsPrepareFor(cfg, p, f, n.activeTerm);
    hide ValidConfig, Inv, Effect, CanExceed;
    if InstalledTerm(c.nodes[cfg.leader]) == n.activeTerm {
      DecidedTermBreaks(cfg, c, f, s, p);
    } else {
      CollectingTermBreaks(cfg, c, f, s, p);
    }
  }

  /** In any state of the invariant, a follower that gives up a prepared term makes the limit
      breakable by some timely continuation if and only if it has anything left to admit, and
      the term is decided or every member's report can still agree with the leader's. */
  lemma GivingUpBreaksIff(cfg: Config, c: Cluster, f: NodeId, s: Step)
    requires ValidConfig(cfg) && Inv(cfg, c) && Heard(cfg, c)
    requires f in c.nodes && f != cfg.leader && c.nodes[f].state == FollowerPrepared && GivesUp(s, f)
    ensures CanExceed(cfg, Effect(cfg, c, s)) <==> StillCounts(cfg, c, c.nodes[f]) && Slack(c.nodes[f]) > 0
  {
    assert cfg.leader in c.nodes;
    hide ValidConfig, Inv, Heard, Effect, CanExceed, CanComplete;
    if !Holds(c.nodes[cfg.leader], c.nodes[f].activeTerm) || Slack(c.nodes[f]) <= 0 {
      GivingUpIsSound(cfg, c, f, s);
    } else if StillCounts(cfg, c, c.nodes[f]) {
      GivingUpBreaks(cfg, c, f, s);
    } else {
      GivingUpIsHarmless(cfg, c, f, s);
    }
  }

  /** The same for every state of every run: the exact condition under which an early timeout
      or teardown of a follower breaks the hard limit. */
  lemma GivingUpBreaksTheLimitIff(cfg: Config, run: seq<Cluster>, steps: seq<Step>, k: nat, f: NodeId, s: Step)
    requires ValidConfig(cfg) && IsRun(cfg, run, steps) && k < |run|
    requires f in run[k].nodes && f != cfg.leader && run[k].nodes[f].state == FollowerPrepared && GivesUp(s, f)
    ensures cfg.leader in run[k].nodes
    ensures CanExceed(cfg, Effect(cfg, run[k], s)) <==> StillCounts(cfg, run[k], run[k].nodes[f]) && Slack(run[k].nodes[f]) > 0
  {
    RunKeepsInv(cfg, run, steps, k);
    RunIsHeard(cfg, run, steps, k);
    hide ValidConfig, IsRun, Heard, Effect, CanExceed, StillCounts, NodesOk, CollectOk, FollowersOk, TotalOk, AcksOk, NetOk;
    GivingUpBreaksIff(cfg, run[k], f, s);
  }
}
