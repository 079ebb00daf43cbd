/** When a report that no longer holds can do no harm: somebody's report will always disagree. */
module HandoffStaleReport {
  import opened CounterTypes
  import opened HandoffProtocol
  import opened HandoffCluster
  import opened HandoffInvariant
  import opened HandoffTheorems
  import opened HandoffAbandon
  import opened HandoffGather
  import HandoffFullFollowers
  import Sums

  // ---------------------------------------------------------------- the shadow of a cluster

  predicate Collects(ld: Node, t: nat)
  {
    ld.state == LeaderPreparing && ld.activeTerm == t
  }

  /** The leader's table, with or without the stale report. */
  predicate LeaderShadow(lc: Node, la: Node, f: NodeId, t: nat, d: Drained)
  {
    || la == lc
    || (Collects(lc, t) && f in lc.prepared && lc.prepared[f] == d && la == lc.(prepared := lc.prepared - {f}))
  }

  /** The cluster a is the cluster c with the stale report of f for term t taken out. */
  ghost predicate Shadow(cfg: Config, c: Cluster, a: Cluster, f: NodeId, t: nat, d: Drained)
  {
    && cfg.leader in c.nodes && f != cfg.leader && 0 < t <= c.issued
    && a.issued == c.issued && a.nodes.Keys == c.nodes.Keys
    && (forall i :: i in c.nodes && i != cfg.leader ==> a.nodes[i] == c.nodes[i])
    && LeaderShadow(c.nodes[cfg.leader], a.nodes[cfg.leader], f, t, d)
    && a.net <= c.net
    && (forall p :: p in c.net ==> p in a.net || p.frame == MakeFrame(cfg, f, Prepared, t, d))
  }

  /** A member whose report for term t disagrees with the leader's own, now and later. */
  predicate Disagrees(ld: Node, n: Node, t: nat)
  {
    n.engine.epoch != ld.engine.epoch
    || (n.state == FollowerPrepared && n.activeTerm == t && n.engine.counter != ld.engine.counter)
  }

  /** As long as the leader collects term t, the stale report cannot be part of an agreement. */
  ghost predicate Blocked(cfg: Config, c: Cluster, f: NodeId, t: nat, d: Drained)
    requires cfg.leader in c.nodes
  {
    var ld := c.nodes[cfg.leader];
    Collects(ld, t) ==>
      || d.counter != ld.engine.counter || d.epoch != ld.engine.epoch
      || exists w :: w in c.nodes && w != cfg.leader && w != f && Disagrees(ld, c.nodes[w], t)
  }

  /** A shadow that satisfies the invariant, of a cluster in which the stale report is blocked. */
  ghost predicate Harmless(cfg: Config, c: Cluster, f: NodeId, t: nat, d: Drained)
  {
    exists a: Cluster :: Shadow(cfg, c, a, f, t, d) && Inv(cfg, a) && Blocked(cfg, c, f, t, d)
  }

  lemma HarmlessIsWithinLimit(cfg: Config, c: Cluster, f: NodeId, t: nat, d: Drained)
    requires ValidConfig(cfg) && Harmless(cfg, c, f, t, d)
    ensures AcceptedSum(c) <= cfg.limit
  {
    hide ValidConfig, Inv, AcceptedSum, Blocked;
    var a: Cluster :| Shadow(cfg, c, a, f, t, d) && Inv(cfg, a);
    SameAccepted(a, c);
    HandoffFullFollowers.InvIsSound(cfg, a);
    HandoffFullFollowers.SoundIsWithinLimit(cfg, a);
  }

  // ---------------------------------------------------------------- steps that both take alike

  lemma ShadowFollower(cfg: Config, c: Cluster, a: Cluster, i: NodeId, o: Outcome, f: NodeId, t: nat, d: Drained)
    requires Shadow(cfg, c, a, f, t, d) && i in c.nodes && i != cfg.leader
    ensures Shadow(cfg, Update(cfg, c, i, o), Update(cfg, a, i, o), f, t, d)
  {
  }

  lemma ShadowLeader(cfg: Config, c: Cluster, a: Cluster, oc: Outcome, oa: Outcome, f: NodeId, t: nat, d: Drained)
    requires Shadow(cfg, c, a, f, t, d)
    requires LeaderShadow(oc.node, oa.node, f, t, d) && oc.node.activeTerm == oa.node.activeTerm && oc.sent == oa.sent
    ensures Shadow(cfg, Update(cfg, c, cfg.leader, oc), Update(cfg, a, cfg.leader, oa), f, t, d)
  {
  }

  function Dropped(cfg: Config, a: Cluster, f: NodeId): (b: Cluster)
    requires cfg.leader in a.nodes
  {
    a.(nodes := a.nodes[cfg.leader := a.nodes[cfg.leader].(prepared := a.nodes[cfg.leader].prepared - {f})])
  }

  lemma DropKeepsNet(cfg: Config, a: Cluster, f: NodeId)
    requires Inv(cfg, a) && f != cfg.leader
    ensures NetOk(cfg, Dropped(cfg, a, f)) && AcksOk(cfg, Dropped(cfg, a, f))
  {
    hide NodesOk, CollectOk, FollowersOk, TotalOk;
    var b := Dropped(cfg, a, f);
    forall p | p in b.net
      ensures PacketOk(cfg, b, p)
    {
      assert PacketOk(cfg, a, p);
    }
  }

  lemma DropKeepsTotal(cfg: Config, a: Cluster, f: NodeId)
    requires Inv(cfg, a) && f != cfg.leader
    ensures TotalOk(cfg, Dropped(cfg, a, f))
  {
    hide NodesOk, CollectOk, FollowersOk, NetOk, AcksOk, FrozenSum;
    SameTotals(a, Dropped(cfg, a, f));
  }

  lemma DropKeepsNodes(cfg: Config, a: Cluster, f: NodeId)
    requires Inv(cfg, a) && f != cfg.leader
    ensures NodesOk(cfg, Dropped(cfg, a, f)) && FollowersOk(cfg, Dropped(cfg, a, f))
  {
    hide TotalOk, NetOk, AcksOk, CollectOk;
    assert NodeOk(cfg, cfg.leader, a.nodes[cfg.leader]);
    DroppedNode(cfg, a.nodes[cfg.leader], f);
    hide NodeOk;
    var b := Dropped(cfg, a, f);
    hide FollowerOk;
    forall j | j in b.nodes && j != cfg.leader
      ensures FollowerOk(b, InstalledTerm(b.nodes[cfg.leader]), b.nodes[j])
    {
      assert FollowerOk(a, InstalledTerm(a.nodes[cfg.leader]), a.nodes[j]);
      SameFollower(a, b, InstalledTerm(a.nodes[cfg.leader]), a.nodes[j]);
    }
  }

  lemma SameFollower(a: Cluster, b: Cluster, t: nat, n: Node)
    requires FollowerOk(a, t, n) && b.issued == a.issued
    ensures FollowerOk(b, t, n)
  {
  }

  lemma DropKeepsReports(cfg: Config, a: Cluster, f: NodeId)
    requires Inv(cfg, a) && f != cfg.leader
    ensures CollectOk(cfg, Dropped(cfg, a, f))
  {
    hide TotalOk, NetOk, AcksOk, NodesOk, FollowersOk;
  }

  /** Forgetting a report is always safe. */
  lemma DropReport(cfg: Config, a: Cluster, f: NodeId)
    requires Inv(cfg, a) && f != cfg.leader
    ensures Inv(cfg, Dropped(cfg, a, f))
  {
    DropKeepsNodes(cfg, a, f);
    DropKeepsReports(cfg, a, f);
    DropKeepsTotal(cfg, a, f);
    DropKeepsNet(cfg, a, f);
    hide NodesOk, CollectOk, FollowersOk, TotalOk, NetOk, AcksOk;
  }

  lemma DroppedNode(cfg: Config, la: Node, f: NodeId)
    requires cfg.leader in cfg.capacity && NodeOk(cfg, cfg.leader, la) && f != cfg.leader
    ensures NodeOk(cfg, cfg.leader, la.(prepared := la.prepared - {f}))
  {
  }

  // ---------------------------------------------------------------- who disagrees goes on disagreeing

  /** In peak mode the epoch never changes. */
  lemma FrameKeepsEpoch(cfg: Config, i: NodeId, n: Node, f: Frame, env: Env)
    requires n.engine.mode == ReservedPeak && i != cfg.leader
    ensures
      var n' := HandleFrame(cfg, i, n, f, env).node;
      n'.engine.mode == ReservedPeak ==> n'.engine.epoch == n.engine.epoch
  {
  }

  lemma TurnKeepsEpoch(cfg: Config, i: NodeId, n: Node, env: Env)
    requires n.engine.mode == ReservedPeak && i != cfg.leader
    ensures Tick(cfg, i, n, env).node.engine.epoch == n.engine.epoch
    ensures Stop(cfg, i, n, env).node.engine.epoch == n.engine.epoch
  {
  }

  /** A follower prepared for a term that is being collected stays so, with the same report. */
  lemma PreparedStays(cfg: Config, a: Cluster, s: Step, a': Cluster, t: nat)
    requires ValidConfig(cfg) && Inv(cfg, a) && Next(cfg, a, s, a') && Actor(s) != cfg.leader
    requires Collects(a.nodes[cfg.leader], t)
    requires a.nodes[Actor(s)].state == FollowerPrepared && a.nodes[Actor(s)].activeTerm == t
    ensures Actor(s) in a'.nodes && a'.nodes[Actor(s)] == a.nodes[Actor(s)]
  {
    var w := Actor(s);
    var n := a.nodes[w];
    assert NodeOk(cfg, w, n) && NodeOk(cfg, cfg.leader, a.nodes[cfg.leader]);
    match s
    case Deliver(p, env) =>
      assert PacketOk(cfg, a, p);
      HeldPreparedReceives(cfg, w, n, p.frame, env, t);
    case Turn(self, env) =>
      assert !LowWater(cfg, n, env);
    case TearDown(self, env) =>
    case Admit(self, delta, counter) =>
    case CollapseLocally(self) => LocalChangesRefused(cfg, self, n);
    case EnterPeakLocally(self) => LocalChangesRefused(cfg, self, n);
  }

  lemma HeldPreparedReceives(cfg: Config, w: NodeId, n: Node, f: Frame, env: Env, t: nat)
    requires w in cfg.capacity && w != cfg.leader && NodeOk(cfg, w, n) && n.state == FollowerPrepared && n.activeTerm == t
    requires f.kind == Prepare ==> f.term <= t
    requires f.kind == Commit ==> f.term != t && f.term != 0
    requires f.kind == Abort ==> f.term != t
    ensures HandleFrame(cfg, w, n, f, env).node == n
  {
  }

  lemma PeakUntilDecided(cfg: Config, a: Cluster, w: NodeId)
    requires Inv(cfg, a) && w in a.nodes && InstalledTerm(a.nodes[cfg.leader]) == 0
    ensures a.nodes[w].engine.mode == ReservedPeak
  {
    hide TotalOk, NetOk, AcksOk, CollectOk;
    assert NodeOk(cfg, w, a.nodes[w]);
    if w != cfg.leader {
      assert FollowerOk(a, 0, a.nodes[w]);
    }
  }

  lemma CollectingIsUndecided(cfg: Config, a: Cluster)
    requires Inv(cfg, a) && a.nodes[cfg.leader].state == LeaderPreparing
    ensures InstalledTerm(a.nodes[cfg.leader]) == 0 && a.nodes[cfg.leader].lastCommittedTerm == 0
    ensures NodeOk(cfg, cfg.leader, a.nodes[cfg.leader]) && cfg.leader in cfg.capacity
  {
    hide TotalOk, NetOk, AcksOk, CollectOk, FollowersOk;
    assert NodeOk(cfg, cfg.leader, a.nodes[cfg.leader]);
  }

  /** A member in peak mode keeps its epoch through any step of its own that leaves it there. */
  lemma StepKeepsEpoch(cfg: Config, a: Cluster, s: Step, a': Cluster)
    requires ValidConfig(cfg) && Inv(cfg, a) && Next(cfg, a, s, a') && Actor(s) != cfg.leader
    requires a.nodes[Actor(s)].engine.mode == ReservedPeak
    ensures Actor(s) in a'.nodes
    ensures a'.nodes[Actor(s)].engine.mode == ReservedPeak ==> a'.nodes[Actor(s)].engine.epoch == a.nodes[Actor(s)].engine.epoch
  {
    var w := Actor(s);
    var n := a.nodes[w];
    assert NodeOk(cfg, w, n);
    hide Inv;
    match s
    case Deliver(p, env) => FrameKeepsEpoch(cfg, w, n, p.frame, env);
    case Turn(self, env) => TurnKeepsEpoch(cfg, w, n, env);
    case TearDown(self, env) => TurnKeepsEpoch(cfg, w, n, env);
    case Admit(self, delta, counter) =>
    case CollapseLocally(self) => LocalChangesRefused(cfg, self, n);
    case EnterPeakLocally(self) => LocalChangesRefused(cfg, self, n);
  }

  /** A follower's step does not unblock the stale report. */
  lemma BlockedStays(cfg: Config, a: Cluster, s: Step, a': Cluster, f: NodeId, t: nat, d: Drained)
    requires ValidConfig(cfg) && Inv(cfg, a) && Next(cfg, a, s, a') && Inv(cfg, a') && Actor(s) != cfg.leader && Blocked(cfg, a, f, t, d)
    ensures Blocked(cfg, a', f, t, d)
  {
    var ld := a.nodes[cfg.leader];
    OnlyTheActorMoves(cfg, a, s, a', cfg.leader);
    if Collects(ld, t) && d.counter == ld.engine.counter && d.epoch == ld.engine.epoch {
      var w :| w in a.nodes && w != cfg.leader && w != f && Disagrees(ld, a.nodes[w], t);
      OnlyTheActorMoves(cfg, a, s, a', w);
      if w == Actor(s) {
        CollectingIsUndecided(cfg, a);
        PeakUntilDecided(cfg, a, w);
        PeakUntilDecided(cfg, a', w);
        StepKeepsEpoch(cfg, a, s, a');
        if a.nodes[w].state == FollowerPrepared && a.nodes[w].activeTerm == t {
          PreparedStays(cfg, a, s, a', t);
        }
      }
      hide Inv, Next;
      assert Disagrees(ld, a'.nodes[w], t);
    }
  }

  /** Blocking is a matter of the members and the leader's own report, not of its table. */
  lemma BlockedAlike(cfg: Config, c: Cluster, a: Cluster, f: NodeId, t: nat, d: Drained)
    requires Shadow(cfg, c, a, f, t, d)
    ensures Blocked(cfg, c, f, t, d) <==> Blocked(cfg, a, f, t, d)
  {
    var lc, la := c.nodes[cfg.leader], a.nodes[cfg.leader];
    assert forall w :: w in c.nodes && w != cfg.leader ==> (Disagrees(lc, c.nodes[w], t) <==> Disagrees(la, a.nodes[w], t));
  }

  /** A full table with the stale report in it never agrees. */
  lemma BlockedDisagrees(cfg: Config, c: Cluster, a: Cluster, f: NodeId, t: nat, d: Drained, table: map<NodeId, Drained>)
    requires Inv(cfg, a) && Blocked(cfg, a, f, t, d) && Collects(a.nodes[cfg.leader], t) && f != cfg.leader
    requires table.Keys == cfg.members && f in table && table[f] == d && cfg.leader in cfg.members
    requires forall j :: j in table && j != f ==> j in a.nodes[cfg.leader].prepared && table[j] == a.nodes[cfg.leader].prepared[j]
    ensures !ReportsAgree(table, table[cfg.leader])
  {
    hide TotalOk, NetOk, AcksOk, FollowersOk;
    var la := a.nodes[cfg.leader];
    assert NodeOk(cfg, cfg.leader, la);
    assert table[cfg.leader] == Drained(la.engine.counter, la.engine.epoch, la.engine.peakTotal);
    if d.counter == la.engine.counter && d.epoch == la.engine.epoch {
      var w :| w in a.nodes && w != cfg.leader && w != f && Disagrees(la, a.nodes[w], t);
      assert NodeOk(cfg, w, a.nodes[w]);
      assert table[w] == Drained(a.nodes[w].engine.counter, a.nodes[w].engine.epoch, a.nodes[w].engine.peakTotal);
    }
  }

  // ---------------------------------------------------------------- steps of the cluster and of its shadow

  lemma IdleUpdate(cfg: Config, c: Cluster, i: NodeId)
    requires i in c.nodes && c.nodes[i].activeTerm <= c.issued
    ensures Update(cfg, c, i, Outcome(c.nodes[i], {})) == c
  {
    assert c.nodes[i := c.nodes[i]] == c.nodes && c.net + {} == c.net;
  }

  lemma HarmlessBy(cfg: Config, c: Cluster, a: Cluster, f: NodeId, t: nat, d: Drained)
    requires Shadow(cfg, c, a, f, t, d) && Inv(cfg, a) && Blocked(cfg, c, f, t, d)
    ensures Harmless(cfg, c, f, t, d)
  {
  }

  /** A frame that only the real cluster has: the stale report. */
  predicate OnlyReal(c: Cluster, a: Cluster, s: Step)
  {
    s.Deliver? && s.p !in a.net
  }

  lemma FollowerIgnoresReport(cfg: Config, c: Cluster, s: Step, c': Cluster, a: Cluster, f: NodeId, t: nat, d: Drained)
    requires Shadow(cfg, c, a, f, t, d) && Next(cfg, c, s, c') && Actor(s) != cfg.leader && OnlyReal(c, a, s)
    ensures c' == c
  {
    var i := Actor(s);
    EffectIsUpdate(cfg, c, s);
    assert Act(cfg, c.nodes[i], s) == Outcome(c.nodes[i], {});
    hide Act, Shadow, LeaderShadow;
    assert c.nodes[i := c.nodes[i]] == c.nodes && c.net + {} == c.net;
  }

  lemma FollowerStepIsHarmless(cfg: Config, c: Cluster, s: Step, c': Cluster, a: Cluster, f: NodeId, t: nat, d: Drained)
    requires ValidConfig(cfg) && Shadow(cfg, c, a, f, t, d) && Inv(cfg, a) && Blocked(cfg, c, f, t, d)
    requires Next(cfg, c, s, c') && Actor(s) != cfg.leader
    ensures Harmless(cfg, c', f, t, d)
  {
    hide ValidConfig, Inv, Shadow, Blocked, Harmless, Next;
    if OnlyReal(c, a, s) {
      FollowerIgnoresReport(cfg, c, s, c', a, f, t, d);
      HarmlessBy(cfg, c, a, f, t, d);
    } else {
      FollowerStepOfShadow(cfg, c, s, c', a, f, t, d);
    }
  }

  lemma SameStepOfShadow(cfg: Config, c: Cluster, s: Step, c': Cluster, a: Cluster, f: NodeId, t: nat, d: Drained)
    requires Shadow(cfg, c, a, f, t, d) && Next(cfg, c, s, c') && Actor(s) != cfg.leader && !OnlyReal(c, a, s)
    ensures Next(cfg, a, s, Effect(cfg, a, s))
  {
    EffectIsUpdate(cfg, c, s);
    EffectIsUpdate(cfg, a, s);
    hide Act;
  }

  lemma FollowerStepOfShadow(cfg: Config, c: Cluster, s: Step, c': Cluster, a: Cluster, f: NodeId, t: nat, d: Drained)
    requires ValidConfig(cfg) && Shadow(cfg, c, a, f, t, d) && Inv(cfg, a) && Blocked(cfg, c, f, t, d)
    requires Next(cfg, c, s, c') && Actor(s) != cfg.leader && !OnlyReal(c, a, s)
    ensures Harmless(cfg, c', f, t, d)
  {
    var a' := Effect(cfg, a, s);
    SameStepOfShadow(cfg, c, s, c', a, f, t, d);
    EffectIsUpdate(cfg, c, s);
    EffectIsUpdate(cfg, a, s);
    ShadowFollower(cfg, c, a, Actor(s), Act(cfg, c.nodes[Actor(s)], s), f, t, d);
    assert a.nodes[Actor(s)] == c.nodes[Actor(s)];
    BlockedAlike(cfg, c, a, f, t, d);
    hide ValidConfig, Inv, Act, Effect, Blocked, Enabled, Timely;
    StepKeepsInv(cfg, a, s, a');
    BlockedStays(cfg, a, s, a', f, t, d);
    assert Shadow(cfg, c', a', f, t, d);
    BlockedAlike(cfg, c', a', f, t, d);
    HarmlessBy(cfg, c', a', f, t, d);
  }

  // ---------------------------------------------------------------- leader steps

  /** Giving up a term gives the same node, whatever was in the table. */
  lemma AbortForgets(cfg: Config, ld: Node, table: map<NodeId, Drained>, broadcast: bool, env: Env)
    ensures AbortPrepare(cfg, cfg.leader, ld.(prepared := table), broadcast, env) == AbortPrepare(cfg, cfg.leader, ld, broadcast, env)
  {
  }

  function Expired(env: Env): (e: Env)
  {
    env.(deadlinePassed := true, scan := 0)
  }

  lemma ExpiryIsNext(cfg: Config, a: Cluster, env: Env)
    requires cfg.leader in a.nodes && cfg.leader in cfg.members && a.nodes[cfg.leader].state == LeaderPreparing
    ensures Next(cfg, a, Turn(cfg.leader, Expired(env)), Effect(cfg, a, Turn(cfg.leader, Expired(env))))
    ensures Effect(cfg, a, Turn(cfg.leader, Expired(env)))
         == Update(cfg, a, cfg.leader, AbortPrepare(cfg, cfg.leader, a.nodes[cfg.leader], true, env))
  {
    var la := a.nodes[cfg.leader];
    assert !LowWater(cfg, la, Expired(env));
    assert Tick(cfg, cfg.leader, la, Expired(env)) == AbortPrepare(cfg, cfg.leader, la, true, env);
  }

  lemma AbortOfShadow(cfg: Config, c: Cluster, a: Cluster, table: map<NodeId, Drained>, env: Env, f: NodeId, t: nat, d: Drained)
    requires Shadow(cfg, c, a, f, t, d) && Collects(a.nodes[cfg.leader], t)
    ensures
      var lc, la := c.nodes[cfg.leader], a.nodes[cfg.leader];
      var oc, oa := AbortPrepare(cfg, cfg.leader, lc.(prepared := table), true, env), AbortPrepare(cfg, cfg.leader, la, true, env);
      && Shadow(cfg, Update(cfg, c, cfg.leader, oc), Update(cfg, a, cfg.leader, oa), f, t, d)
      && oc.node.state == Idle
  {
    var lc, la := c.nodes[cfg.leader], a.nodes[cfg.leader];
    AbortForgets(cfg, lc, table, true, env);
    AbortForgets(cfg, lc, la.prepared, true, env);
    assert la == lc.(prepared := la.prepared);
    var o := AbortPrepare(cfg, cfg.leader, lc, true, env);
    assert o.node.state == Idle && LeaderShadow(o.node, o.node, f, t, d);
    hide AbortPrepare, Shadow, LeaderShadow;
    ShadowLeader(cfg, c, a, o, o, f, t, d);
  }

  /** The real leader gives up; so does its shadow, by its deadline. */
  lemma AbortIsHarmless(cfg: Config, c: Cluster, a: Cluster, table: map<NodeId, Drained>, env: Env, f: NodeId, t: nat, d: Drained)
    requires ValidConfig(cfg) && Shadow(cfg, c, a, f, t, d) && Inv(cfg, a) && Collects(a.nodes[cfg.leader], t)
    ensures Harmless(cfg, Update(cfg, c, cfg.leader, AbortPrepare(cfg, cfg.leader, c.nodes[cfg.leader].(prepared := table), true, env)), f, t, d)
  {
    AbortOfShadow(cfg, c, a, table, env, f, t, d);
    hide Inv, Shadow, AbortPrepare;
    ExpiryIsNext(cfg, a, env);
    hide ValidConfig, Effect, Next;
    var oc := AbortPrepare(cfg, cfg.leader, c.nodes[cfg.leader].(prepared := table), true, env);
    var a' := Update(cfg, a, cfg.leader, AbortPrepare(cfg, cfg.leader, a.nodes[cfg.leader], true, env));
    StepKeepsInv(cfg, a, Turn(cfg.leader, Expired(env)), a');
    HarmlessBy(cfg, Update(cfg, c, cfg.leader, oc), a', f, t, d);
  }

  lemma StaleFrameIgnored(cfg: Config, c: Cluster, s: Step, c': Cluster, a: Cluster, f: NodeId, t: nat, d: Drained)
    requires Shadow(cfg, c, a, f, t, d) && Inv(cfg, a)
    requires Next(cfg, c, s, c') && Actor(s) == cfg.leader && !Collects(c.nodes[cfg.leader], t) && OnlyReal(c, a, s)
    ensures c' == c
  {
    hide NodesOk, FollowersOk, TotalOk, AcksOk, NetOk;
    var lc := c.nodes[cfg.leader];
    EffectIsUpdate(cfg, c, s);
    assert Act(cfg, lc, s) == Outcome(lc, {});
    assert lc.activeTerm <= c.issued;
    IdleUpdate(cfg, c, cfg.leader);
  }

  lemma SameLeaderStep(cfg: Config, c: Cluster, s: Step, c': Cluster, a: Cluster, f: NodeId, t: nat, d: Drained)
    requires Shadow(cfg, c, a, f, t, d) && Next(cfg, c, s, c') && Actor(s) == cfg.leader && !OnlyReal(c, a, s)
    requires a.nodes[cfg.leader] == c.nodes[cfg.leader]
    ensures Next(cfg, a, s, Effect(cfg, a, s)) && Shadow(cfg, c', Effect(cfg, a, s), f, t, d)
  {
    EffectIsUpdate(cfg, c, s);
    EffectIsUpdate(cfg, a, s);
    var o := Act(cfg, c.nodes[cfg.leader], s);
    hide Act;
    ShadowLeader(cfg, c, a, o, o, f, t, d);
  }

  /** A leader that is not collecting the term acts like its shadow. */
  lemma OtherLeaderStepIsHarmless(cfg: Config, c: Cluster, s: Step, c': Cluster, a: Cluster, f: NodeId, t: nat, d: Drained)
    requires ValidConfig(cfg) && Shadow(cfg, c, a, f, t, d) && Inv(cfg, a)
    requires Next(cfg, c, s, c') && Actor(s) == cfg.leader && !Collects(c.nodes[cfg.leader], t)
    ensures Harmless(cfg, c', f, t, d)
  {
    hide ValidConfig, Inv, Next, Effect, Harmless;
    if OnlyReal(c, a, s) {
      StaleFrameIgnored(cfg, c, s, c', a, f, t, d);
      HarmlessBy(cfg, c, a, f, t, d);
    } else {
      SameLeaderStep(cfg, c, s, c', a, f, t, d);
      var a' := Effect(cfg, a, s);
      StepKeepsInv(cfg, a, s, a');
      NeverCollectedAgain(cfg, a, s, a', t);
      HarmlessBy(cfg, c', a', f, t, d);
    }
  }

  lemma NeverCollectedAgain(cfg: Config, a: Cluster, s: Step, a': Cluster, t: nat)
    requires ValidConfig(cfg) && Inv(cfg, a) && Next(cfg, a, s, a') && Inv(cfg, a') && 0 < t <= a.issued
    requires !Collects(a.nodes[cfg.leader], t)
    ensures !Collects(a'.nodes[cfg.leader], t)
  {
    hide ValidConfig, Next;
    if Collects(a'.nodes[cfg.leader], t) {
      CollectingIsUndecided(cfg, a');
      HoldsBackward(cfg, a, s, a', t);
      StepKeepsInstalled(cfg, a, s, a', cfg.leader);
    }
  }

  /** A report for the term being collected. */
  predicate IsReport(cfg: Config, s: Step, t: nat)
  {
    s.Deliver? && s.p.frame.kind == Prepared && s.p.frame.term == t && s.p.frame.sender != cfg.leader && s.p.frame.sender in cfg.members
  }

  /** Whatever is not a report, the collecting leader does without looking at its table. */
  lemma CollectingLeaderIgnores(cfg: Config, a: Cluster, p: Packet, n: Node, env: Env, t: nat)
    requires Inv(cfg, a) && p in a.net && p.dst == cfg.leader && Collects(n, t) && !IsReport(cfg, Deliver(p, env), t)
    ensures HandleFrame(cfg, cfg.leader, n, p.frame, env) == Outcome(n, {})
  {
    hide NodesOk, CollectOk, FollowersOk, TotalOk, AcksOk;
    assert PacketOk(cfg, a, p);
  }

  lemma TurnForgets(cfg: Config, lc: Node, la: Node, env: Env, f: NodeId, t: nat, d: Drained)
    requires Collects(lc, t) && LeaderShadow(lc, la, f, t, d) && f != cfg.leader
    ensures
      var oc, oa := Tick(cfg, cfg.leader, lc, env), Tick(cfg, cfg.leader, la, env);
      LeaderShadow(oc.node, oa.node, f, t, d) && oc.node.activeTerm == oa.node.activeTerm && oc.sent == oa.sent
    ensures
      var oc, oa := Stop(cfg, cfg.leader, lc, env), Stop(cfg, cfg.leader, la, env);
      LeaderShadow(oc.node, oa.node, f, t, d) && oc.node.activeTerm == oa.node.activeTerm && oc.sent == oa.sent
    ensures Tick(cfg, cfg.leader, lc, env).node.engine.counter == lc.engine.counter
    ensures Tick(cfg, cfg.leader, lc, env).node.engine.epoch == lc.engine.epoch
  {
    AbortForgets(cfg, lc, la.prepared, true, env);
    AbortForgets(cfg, lc, la.prepared, false, env);
    assert la == lc.(prepared := la.prepared);
    assert !LowWater(cfg, lc, env) && !LowWater(cfg, la, env);
    assert OwnDrained(cfg.leader, lc) == OwnDrained(cfg.leader, la);
    hide AbortPrepare, OwnDrained, SendAll;
  }

  /** Blocking only looks at the members' nodes and at the leader's counter and epoch. */
  lemma BlockedFrame(cfg: Config, c: Cluster, c': Cluster, f: NodeId, t: nat, d: Drained)
    requires cfg.leader in c.nodes && cfg.leader in c'.nodes && Blocked(cfg, c, f, t, d)
    requires forall i :: i in c.nodes && i != cfg.leader ==> i in c'.nodes && c'.nodes[i] == c.nodes[i]
    requires Collects(c'.nodes[cfg.leader], t) ==>
      && Collects(c.nodes[cfg.leader], t)
      && c'.nodes[cfg.leader].engine.counter == c.nodes[cfg.leader].engine.counter
      && c'.nodes[cfg.leader].engine.epoch == c.nodes[cfg.leader].engine.epoch
    ensures Blocked(cfg, c', f, t, d)
  {
    var ld, ld' := c.nodes[cfg.leader], c'.nodes[cfg.leader];
    if Collects(ld', t) && d.counter == ld.engine.counter && d.epoch == ld.engine.epoch {
      var w :| w in c.nodes && w != cfg.leader && w != f && Disagrees(ld, c.nodes[w], t);
      assert Disagrees(ld', c'.nodes[w], t);
    }
  }

  /** Timers and teardown of the collecting leader do the same to its shadow. */
  lemma TimerOfShadow(cfg: Config, c: Cluster, s: Step, c': Cluster, a: Cluster, f: NodeId, t: nat, d: Drained)
    requires Shadow(cfg, c, a, f, t, d)
    requires Next(cfg, c, s, c') && (s.Turn? || s.TearDown?) && Actor(s) == cfg.leader && Collects(c.nodes[cfg.leader], t)
    ensures Next(cfg, a, s, Effect(cfg, a, s)) && Shadow(cfg, c', Effect(cfg, a, s), f, t, d)
    ensures c'.nodes[cfg.leader].engine.counter == c.nodes[cfg.leader].engine.counter
    ensures c'.nodes[cfg.leader].engine.epoch == c.nodes[cfg.leader].engine.epoch
  {
    var lc, la := c.nodes[cfg.leader], a.nodes[cfg.leader];
    TurnForgets(cfg, lc, la, s.env, f, t, d);
    StopKeepsReport(cfg, lc, s.env);
    hide Tick, Stop;
    EffectIsUpdate(cfg, c, s);
    EffectIsUpdate(cfg, a, s);
    ShadowLeader(cfg, c, a, Act(cfg, lc, s), Act(cfg, la, s), f, t, d);
  }

  lemma TimerIsHarmless(cfg: Config, c: Cluster, s: Step, c': Cluster, a: Cluster, f: NodeId, t: nat, d: Drained)
    requires ValidConfig(cfg) && Shadow(cfg, c, a, f, t, d) && Inv(cfg, a) && Blocked(cfg, c, f, t, d)
    requires Next(cfg, c, s, c') && (s.Turn? || s.TearDown?) && Actor(s) == cfg.leader && Collects(c.nodes[cfg.leader], t)
    ensures Harmless(cfg, c', f, t, d)
  {
    TimerOfShadow(cfg, c, s, c', a, f, t, d);
    LeaderAlone(cfg, c, s, c');
    hide ValidConfig, Inv, Next, Effect, Harmless;
    StepKeepsInv(cfg, a, s, Effect(cfg, a, s));
    BlockedFrame(cfg, c, c', f, t, d);
    HarmlessBy(cfg, c', Effect(cfg, a, s), f, t, d);
  }

  lemma LeaderAlone(cfg: Config, c: Cluster, s: Step, c': Cluster)
    requires Next(cfg, c, s, c') && Actor(s) == cfg.leader
    ensures forall i :: i in c.nodes && i != cfg.leader ==> i in c'.nodes && c'.nodes[i] == c.nodes[i]
  {
    EffectIsUpdate(cfg, c, s);
  }

  lemma StopKeepsReport(cfg: Config, n: Node, env: Env)
    ensures Stop(cfg, cfg.leader, n, env).node.engine.counter == n.engine.counter
    ensures Stop(cfg, cfg.leader, n, env).node.engine.epoch == n.engine.epoch
  {
  }

  // ---------------------------------------------------------------- reports

  lemma TableSize(cfg: Config, table: map<NodeId, Drained>)
    requires table.Keys <= cfg.members
    ensures |table| == |cfg.members| ==> table.Keys == cfg.members
    ensures |table| <= |cfg.members|
  {
    assert |table.Keys| == |table|;
    if |table| == |cfg.members| {
      SameSizeSubset(table.Keys, cfg.members);
    }
    SubsetSize(table.Keys, cfg.members);
  }

  lemma {:induction false} SubsetSize(s: set<NodeId>, t: set<NodeId>)
    requires s <= t
    ensures |s| <= |t|
    decreases s
  {
    if s != {} {
      var x :| x in s;
      SubsetSize(s - {x}, t - {x});
    }
  }

  lemma IncompleteWaits(cfg: Config, m: Node, env: Env)
    requires |m.prepared| != |cfg.members|
    ensures TryBeginCommit(cfg, cfg.leader, m, env) == Outcome(m, {})
  {
  }

  lemma DisagreementAborts(cfg: Config, m: Node, env: Env)
    requires m.state == LeaderPreparing && |m.prepared| == |cfg.members| && !ReportsAgree(m.prepared, OwnDrained(cfg.leader, m))
    ensures TryBeginCommit(cfg, cfg.leader, m, env) == AbortPrepare(cfg, cfg.leader, m, true, env)
  {
  }

  lemma TableWithout(tc: map<NodeId, Drained>, ta: map<NodeId, Drained>, f: NodeId, d: Drained)
    requires ta == tc || ta == tc - {f}
    ensures tc[f := d] - {f} == ta - {f} && tc[f := d].Keys == ta.Keys + {f}
  {
  }

  /** What the table of the shadow tells about the real one. */
  lemma TablesAlike(cfg: Config, lc: Node, la: Node, f: NodeId, t: nat, d: Drained)
    requires LeaderShadow(lc, la, f, t, d) && Collects(lc, t) && f in cfg.members && la.prepared.Keys <= cfg.members
    ensures
      var m := lc.(prepared := lc.prepared[f := d]);
      && m.prepared.Keys <= cfg.members && m.prepared - {f} == la.prepared - {f}
      && (|m.prepared| == |cfg.members| ==> m.prepared.Keys == cfg.members)
      && LeaderShadow(m, la.(prepared := la.prepared - {f}), f, t, d)
      && la.engine == lc.engine && Collects(la, t)
  {
    var m := lc.(prepared := lc.prepared[f := d]);
    TableWithout(lc.prepared, la.prepared, f, d);
    TableSize(cfg, m.prepared);
  }

  lemma TableFacts(cfg: Config, c: Cluster, a: Cluster, f: NodeId, t: nat, d: Drained)
    requires Shadow(cfg, c, a, f, t, d) && Inv(cfg, a) && Collects(c.nodes[cfg.leader], t) && f in cfg.members
    ensures
      var lc, la := c.nodes[cfg.leader], a.nodes[cfg.leader];
      var m := lc.(prepared := lc.prepared[f := d]);
      && cfg.leader in cfg.members && cfg.leader in la.prepared && lc.activeTerm <= c.issued
      && m.prepared.Keys <= cfg.members && m.prepared - {f} == la.prepared - {f}
      && (|m.prepared| == |cfg.members| ==> m.prepared.Keys == cfg.members)
      && LeaderShadow(m, la.(prepared := la.prepared - {f}), f, t, d)
      && la.prepared.Keys <= cfg.members && la.engine == lc.engine && Collects(la, t)
  {
    var lc, la := c.nodes[cfg.leader], a.nodes[cfg.leader];
    CollectingIsUndecided(cfg, a);
    assert a.nodes.Keys == cfg.members && la.activeTerm <= a.issued;
    assert la.prepared.Keys <= cfg.members && cfg.leader in la.prepared;
    hide Inv, LeaderShadow, NodeOk;
    TablesAlike(cfg, lc, la, f, t, d);
  }

  lemma StaleReportSpoils(cfg: Config, c: Cluster, a: Cluster, env: Env, f: NodeId, t: nat, d: Drained)
    requires ValidConfig(cfg) && Shadow(cfg, c, a, f, t, d) && Inv(cfg, a) && Blocked(cfg, c, f, t, d)
    requires Collects(c.nodes[cfg.leader], t) && f in cfg.members && |c.nodes[cfg.leader].prepared[f := d]| == |cfg.members|
    ensures
      var lc := c.nodes[cfg.leader];
      Harmless(cfg, Update(cfg, c, cfg.leader, TryBeginCommit(cfg, cfg.leader, lc.(prepared := lc.prepared[f := d]), env)), f, t, d)
  {
    var lc, la := c.nodes[cfg.leader], a.nodes[cfg.leader];
    var m := lc.(prepared := lc.prepared[f := d]);
    TableFacts(cfg, c, a, f, t, d);
    BlockedAlike(cfg, c, a, f, t, d);
    hide ValidConfig, Inv, TryBeginCommit, ReportsAgree, Harmless, Blocked, AbortPrepare, Shadow, LeaderShadow, Update;
    assert forall j :: j in m.prepared && j != f ==> j in (la.prepared - {f}) && m.prepared[j] == (la.prepared - {f})[j];
    BlockedDisagrees(cfg, c, a, f, t, d, m.prepared);
    DisagreementAborts(cfg, m, env);
    AbortIsHarmless(cfg, c, a, m.prepared, env, f, t, d);
  }

  /** Both leaders note a report and go on collecting. */
  lemma NotedAlike(cfg: Config, c: Cluster, a: Cluster, m: Node, ma: Node, f: NodeId, t: nat, d: Drained)
    requires Shadow(cfg, c, a, f, t, d) && Blocked(cfg, c, f, t, d) && Collects(c.nodes[cfg.leader], t) && Collects(m, t)
    requires LeaderShadow(m, ma, f, t, d) && m.engine == c.nodes[cfg.leader].engine
    ensures
      var c1, a1 := Update(cfg, c, cfg.leader, Outcome(m, {})), Update(cfg, a, cfg.leader, Outcome(ma, {}));
      Shadow(cfg, c1, a1, f, t, d) && Blocked(cfg, c1, f, t, d) && Collects(c1.nodes[cfg.leader], t)
  {
    var c1 := Update(cfg, c, cfg.leader, Outcome(m, {}));
    ShadowLeader(cfg, c, a, Outcome(m, {}), Outcome(ma, {}), f, t, d);
    hide Blocked;
    BlockedFrame(cfg, c, c1, f, t, d);
  }

  lemma DroppedIsUpdate(cfg: Config, a: Cluster, f: NodeId)
    requires cfg.leader in a.nodes && a.nodes[cfg.leader].activeTerm <= a.issued
    ensures
      var la := a.nodes[cfg.leader];
      Update(cfg, a, cfg.leader, Outcome(la.(prepared := la.prepared - {f}), {})) == Dropped(cfg, a, f)
  {
    assert a.net + {} == a.net;
  }

  lemma StaleReportWaits(cfg: Config, c: Cluster, a: Cluster, env: Env, f: NodeId, t: nat, d: Drained)
    requires Shadow(cfg, c, a, f, t, d) && Inv(cfg, a) && Blocked(cfg, c, f, t, d)
    requires Collects(c.nodes[cfg.leader], t) && f in cfg.members && |c.nodes[cfg.leader].prepared[f := d]| != |cfg.members|
    ensures
      var lc := c.nodes[cfg.leader];
      Harmless(cfg, Update(cfg, c, cfg.leader, TryBeginCommit(cfg, cfg.leader, lc.(prepared := lc.prepared[f := d]), env)), f, t, d)
  {
    var lc, la := c.nodes[cfg.leader], a.nodes[cfg.leader];
    var m := lc.(prepared := lc.prepared[f := d]);
    TableFacts(cfg, c, a, f, t, d);
    IncompleteWaits(cfg, m, env);
    DropReport(cfg, a, f);
    hide Inv, TryBeginCommit, Harmless, Blocked, LeaderShadow;
    DroppedIsUpdate(cfg, a, f);
    hide Shadow;
    NotedAlike(cfg, c, a, m, la.(prepared := la.prepared - {f}), f, t, d);
    hide Update, Dropped;
    HarmlessBy(cfg, Update(cfg, c, cfg.leader, Outcome(m, {})), Dropped(cfg, a, f), f, t, d);
  }

  // ---------------------------------------------------------------- other reports

  /** A newer report of f replaces the stale one in both tables. */
  lemma NewerReportOfShadow(cfg: Config, c: Cluster, q: Packet, env: Env, c': Cluster, a: Cluster, f: NodeId, t: nat, d: Drained)
    requires Shadow(cfg, c, a, f, t, d) && Inv(cfg, a) && f in cfg.members
    requires Next(cfg, c, Deliver(q, env), c') && q.dst == cfg.leader && q in a.net && Collects(c.nodes[cfg.leader], t)
    requires IsReport(cfg, Deliver(q, env), t)
    requires q.frame.sender == f || a.nodes[cfg.leader] == c.nodes[cfg.leader]
    ensures Next(cfg, a, Deliver(q, env), Effect(cfg, a, Deliver(q, env)))
    ensures Shadow(cfg, c', Effect(cfg, a, Deliver(q, env)), f, t, d)
    ensures
      var lc, n' := c.nodes[cfg.leader], c'.nodes[cfg.leader];
      Collects(n', t) ==> n'.engine.counter == lc.engine.counter && n'.engine.epoch == lc.engine.epoch
  {
    var lc, la := c.nodes[cfg.leader], a.nodes[cfg.leader];
    TableFacts(cfg, c, a, f, t, d);
    CollectingIsUndecided(cfg, a);
    SameReport(cfg, lc, la, q.frame, env, f, t, d);
    ReportIsNext(cfg, a, q, env);
    EffectIsUpdate(cfg, c, Deliver(q, env));
    var o := HandleFrame(cfg, cfg.leader, lc, q.frame, env);
    assert LeaderShadow(o.node, o.node, f, t, d);
    hide Inv, Next, Effect, HandleFrame, LeaderShadow, Shadow;
    ShadowLeader(cfg, c, a, o, o, f, t, d);
  }

  lemma NewerReportIsHarmless(cfg: Config, c: Cluster, q: Packet, env: Env, c': Cluster, a: Cluster, f: NodeId, t: nat, d: Drained)
    requires ValidConfig(cfg) && Shadow(cfg, c, a, f, t, d) && Inv(cfg, a) && Blocked(cfg, c, f, t, d) && f in cfg.members
    requires Next(cfg, c, Deliver(q, env), c') && q.dst == cfg.leader && q in a.net && Collects(c.nodes[cfg.leader], t)
    requires IsReport(cfg, Deliver(q, env), t)
    requires q.frame.sender == f || a.nodes[cfg.leader] == c.nodes[cfg.leader]
    ensures Harmless(cfg, c', f, t, d)
  {
    var s := Deliver(q, env);
    NewerReportOfShadow(cfg, c, q, env, c', a, f, t, d);
    LeaderAlone(cfg, c, s, c');
    hide ValidConfig, Inv, Next, Effect, Harmless, Shadow;
    StepKeepsInv(cfg, a, s, Effect(cfg, a, s));
    BlockedFrame(cfg, c, c', f, t, d);
    HarmlessBy(cfg, c', Effect(cfg, a, s), f, t, d);
  }

  lemma SameReport(cfg: Config, lc: Node, la: Node, q: Frame, env: Env, f: NodeId, t: nat, d: Drained)
    requires Collects(lc, t) && LeaderShadow(lc, la, f, t, d) && (q.sender == f || la == lc) && !lc.fenced
    requires q.kind == Prepared && q.term == t && q.sender != cfg.leader && q.sender in cfg.members
    ensures HandleFrame(cfg, cfg.leader, lc, q, env) == HandleFrame(cfg, cfg.leader, la, q, env)
    ensures
      var n' := HandleFrame(cfg, cfg.leader, lc, q, env).node;
      Collects(n', t) ==> n'.engine.counter == lc.engine.counter && n'.engine.epoch == lc.engine.epoch
  {
    var r := Drained(q.counter, q.epoch, q.value);
    if la != lc {
      assert la == lc.(prepared := lc.prepared - {f});
      assert la.prepared[f := r] == lc.prepared[f := r];
    }
    assert WithReport(la, q) == WithReport(lc, q);
    var m := WithReport(lc, q);
    TryKeepsReport(cfg, m, env);
    hide TryBeginCommit;
    assert lc.state == la.state && lc.activeTerm == la.activeTerm && lc.fenced == la.fenced;
    assert HandlePrepared(cfg, cfg.leader, lc, q, env) == HandlePrepared(cfg, cfg.leader, la, q, env);
  }

  lemma TryKeepsReport(cfg: Config, m: Node, env: Env)
    ensures
      var n' := TryBeginCommit(cfg, cfg.leader, m, env).node;
      n'.state == LeaderPreparing ==> n'.engine.counter == m.engine.counter && n'.engine.epoch == m.engine.epoch
  {
  }

  lemma ReportIsTried(cfg: Config, n: Node, q: Frame, env: Env, t: nat)
    requires Collects(n, t) && !n.fenced && q.kind == Prepared && q.term == t && q.sender != cfg.leader && q.sender in cfg.members
    ensures HandleFrame(cfg, cfg.leader, n, q, env) == TryBeginCommit(cfg, cfg.leader, WithReport(n, q), env)
  {
    hide TryBeginCommit;
  }

  /** Two tables that differ by one entry, after the same change elsewhere. */
  lemma TablesDiffer(tc: map<NodeId, Drained>, f: NodeId, j: NodeId, r: Drained)
    requires f in tc && j != f
    ensures tc[j := r] - {f} == (tc - {f})[j := r]
    ensures tc[j := r][f := tc[f]] == tc[j := r]
    ensures tc[j := r].Keys == tc.Keys + {j}
    ensures (tc - {f})[j := r].Keys == tc.Keys - {f} + {j}
  {
  }

  lemma OtherReportInTables(cfg: Config, lc: Node, la: Node, q: Frame, f: NodeId, t: nat, d: Drained)
    requires LeaderShadow(lc, la, f, t, d) && la != lc && q.sender != f && q.sender in cfg.members && f in cfg.members
    ensures LeaderShadow(WithReport(lc, q), WithReport(la, q), f, t, d) && Collects(WithReport(lc, q), t)
    ensures WithReport(lc, q).prepared.Keys == lc.prepared.Keys + {q.sender}
    ensures la.prepared.Keys <= cfg.members ==> |WithReport(la, q).prepared| != |cfg.members|
    ensures WithReport(lc, q).(prepared := WithReport(lc, q).prepared[f := d]) == WithReport(lc, q)
  {
    TablesDiffer(lc.prepared, f, q.sender, Drained(q.counter, q.epoch, q.value));
    var ma := WithReport(la, q);
    assert f !in ma.prepared.Keys;
    if la.prepared.Keys <= cfg.members {
      TableSize(cfg, ma.prepared);
    }
  }

  lemma ReportIsNext(cfg: Config, a: Cluster, q: Packet, env: Env)
    requires cfg.leader in a.nodes && cfg.leader in cfg.members && q in a.net && q.dst == cfg.leader
    requires a.nodes[cfg.leader].state == LeaderPreparing
    ensures Next(cfg, a, Deliver(q, env), Effect(cfg, a, Deliver(q, env)))
    ensures Effect(cfg, a, Deliver(q, env)) == Update(cfg, a, cfg.leader, HandleFrame(cfg, cfg.leader, a.nodes[cfg.leader], q.frame, env))
  {
    hide HandleFrame;
  }

  /** The shadow notes another member's report and goes on collecting. */
  lemma ShadowNotes(cfg: Config, c: Cluster, q: Packet, env: Env, c': Cluster, a: Cluster, f: NodeId, t: nat, d: Drained)
    requires ValidConfig(cfg) && Shadow(cfg, c, a, f, t, d) && Inv(cfg, a) && f in cfg.members
    requires Next(cfg, c, Deliver(q, env), c') && q.dst == cfg.leader && q in a.net && Collects(c.nodes[cfg.leader], t)
    requires IsReport(cfg, Deliver(q, env), t) && q.frame.sender != f && a.nodes[cfg.leader] != c.nodes[cfg.leader]
    ensures Inv(cfg, Update(cfg, a, cfg.leader, Outcome(WithReport(a.nodes[cfg.leader], q.frame), {})))
  {
    var lc, la := c.nodes[cfg.leader], a.nodes[cfg.leader];
    var s := Deliver(q, env);
    TableFacts(cfg, c, a, f, t, d);
    CollectingIsUndecided(cfg, a);
    ReportIsTried(cfg, la, q.frame, env, t);
    OtherReportInTables(cfg, lc, la, q.frame, f, t, d);
    IncompleteWaits(cfg, WithReport(la, q.frame), env);
    ReportIsNext(cfg, a, q, env);
    hide Inv, HandleFrame, NodeOk, ValidConfig, TryBeginCommit, Next, Effect, Shadow, LeaderShadow, WithReport;
    StepKeepsInv(cfg, a, s, Effect(cfg, a, s));
  }

  /** Another member's report, with the stale one already in the real table. */
  lemma OtherReportIsHarmless(cfg: Config, c: Cluster, q: Packet, env: Env, c': Cluster, a: Cluster, f: NodeId, t: nat, d: Drained)
    requires ValidConfig(cfg) && Shadow(cfg, c, a, f, t, d) && Inv(cfg, a) && Blocked(cfg, c, f, t, d) && f in cfg.members
    requires Next(cfg, c, Deliver(q, env), c') && q.dst == cfg.leader && q in a.net && Collects(c.nodes[cfg.leader], t)
    requires IsReport(cfg, Deliver(q, env), t) && q.frame.sender != f && a.nodes[cfg.leader] != c.nodes[cfg.leader]
    ensures Harmless(cfg, c', f, t, d)
  {
    var lc, la := c.nodes[cfg.leader], a.nodes[cfg.leader];
    ShadowNotes(cfg, c, q, env, c', a, f, t, d);
    OtherReportInTables(cfg, lc, la, q.frame, f, t, d);
    RealTable(cfg, c, Deliver(q, env), c', a, f, t, d);
    hide ValidConfig, Inv, Next, Blocked, Harmless, Shadow, LeaderShadow, TryBeginCommit;
    var mc, ma := Outcome(WithReport(lc, q.frame), {}), Outcome(WithReport(la, q.frame), {});
    var c1, a1 := Update(cfg, c, cfg.leader, mc), Update(cfg, a, cfg.leader, ma);
    NotedAlike(cfg, c, a, mc.node, ma.node, f, t, d);
    assert c1.nodes[cfg.leader] == mc.node;
    hide Update;
    if |mc.node.prepared| == |cfg.members| {
      StaleReportSpoils(cfg, c1, a1, env, f, t, d);
    } else {
      IncompleteWaits(cfg, mc.node, env);
      HarmlessBy(cfg, c1, a1, f, t, d);
    }
  }

  lemma RealTable(cfg: Config, c: Cluster, s: Step, c': Cluster, a: Cluster, f: NodeId, t: nat, d: Drained)
    requires Shadow(cfg, c, a, f, t, d) && Inv(cfg, a) && IsReport(cfg, s, t) && Actor(s) == cfg.leader
    requires Next(cfg, c, s, c') && Collects(c.nodes[cfg.leader], t)
    ensures
      var m := WithReport(c.nodes[cfg.leader], s.p.frame);
      var o := TryBeginCommit(cfg, cfg.leader, m, s.env);
      && c' == Update(cfg, c, cfg.leader, o)
      && c' == Update(cfg, Update(cfg, c, cfg.leader, Outcome(m, {})), cfg.leader, o)
  {
    var lc := c.nodes[cfg.leader];
    var m := WithReport(lc, s.p.frame);
    CollectingIsUndecided(cfg, a);
    ReportIsTried(cfg, lc, s.p.frame, s.env, t);
    EffectIsUpdate(cfg, c, s);
    assert lc.activeTerm <= c.issued;
    hide Inv, Shadow, TryBeginCommit, HandleFrame;
    UpdateTwice(cfg, c, cfg.leader, Outcome(m, {}), TryBeginCommit(cfg, cfg.leader, m, s.env));
    assert Outcome(m, {}).sent + TryBeginCommit(cfg, cfg.leader, m, s.env).sent == TryBeginCommit(cfg, cfg.leader, m, s.env).sent;
  }

  /** The stale report itself. */
  lemma StaleReportIsHarmless(cfg: Config, c: Cluster, s: Step, c': Cluster, a: Cluster, f: NodeId, t: nat, d: Drained)
    requires ValidConfig(cfg) && Shadow(cfg, c, a, f, t, d) && Inv(cfg, a) && Blocked(cfg, c, f, t, d) && f in cfg.members
    requires Next(cfg, c, s, c') && Actor(s) == cfg.leader && Collects(c.nodes[cfg.leader], t) && OnlyReal(c, a, s)
    ensures Harmless(cfg, c', f, t, d)
  {
    assert s.p.frame == MakeFrame(cfg, f, Prepared, t, d);
    RealTable(cfg, c, s, c', a, f, t, d);
    hide ValidConfig, Inv, Next, Blocked, Harmless, Shadow, TryBeginCommit;
    if |c.nodes[cfg.leader].prepared[f := d]| == |cfg.members| {
      StaleReportSpoils(cfg, c, a, s.env, f, t, d);
    } else {
      StaleReportWaits(cfg, c, a, s.env, f, t, d);
    }
  }

  // ---------------------------------------------------------------- every step

  lemma CollectingStepIsHarmless(cfg: Config, c: Cluster, s: Step, c': Cluster, a: Cluster, f: NodeId, t: nat, d: Drained)
    requires ValidConfig(cfg) && Shadow(cfg, c, a, f, t, d) && Inv(cfg, a) && Blocked(cfg, c, f, t, d) && f in cfg.members
    requires Next(cfg, c, s, c') && Actor(s) == cfg.leader && Collects(c.nodes[cfg.leader], t)
    ensures Harmless(cfg, c', f, t, d)
  {
    TableFacts(cfg, c, a, f, t, d);
    hide ValidConfig, Inv, Blocked, Harmless, Shadow, LeaderShadow, Next;
    if s.Turn? || s.TearDown? {
      TimerIsHarmless(cfg, c, s, c', a, f, t, d);
    } else if OnlyReal(c, a, s) {
      StaleReportIsHarmless(cfg, c, s, c', a, f, t, d);
    } else if !IsReport(cfg, s, t) {
      NothingForTheTable(cfg, c, s, c', a, f, t, d);
      HarmlessBy(cfg, c, a, f, t, d);
    } else if s.p.frame.sender == f || a.nodes[cfg.leader] == c.nodes[cfg.leader] {
      NewerReportIsHarmless(cfg, c, s.p, s.env, c', a, f, t, d);
    } else {
      OtherReportIsHarmless(cfg, c, s.p, s.env, c', a, f, t, d);
    }
  }

  /** What remains changes nothing while the leader collects: its gate is shut. */
  lemma NothingForTheTable(cfg: Config, c: Cluster, s: Step, c': Cluster, a: Cluster, f: NodeId, t: nat, d: Drained)
    requires ValidConfig(cfg) && Shadow(cfg, c, a, f, t, d) && Inv(cfg, a)
    requires Next(cfg, c, s, c') && Actor(s) == cfg.leader && Collects(c.nodes[cfg.leader], t)
    requires !s.Turn? && !s.TearDown? && !OnlyReal(c, a, s) && !IsReport(cfg, s, t)
    ensures c' == c
  {
    var lc, la := c.nodes[cfg.leader], a.nodes[cfg.leader];
    CollectingIsUndecided(cfg, a);
    EffectIsUpdate(cfg, c, s);
    assert lc.engine == la.engine && lc.activeTerm == a.nodes[cfg.leader].activeTerm <= c.issued;
    if s.Deliver? {
      CollectingLeaderIgnores(cfg, a, s.p, lc, s.env, t);
    } else {
      assert cfg.leader in cfg.members;
      LocalChangesRefused(cfg, cfg.leader, la);
    }
    hide Inv, Shadow;
    IdleUpdate(cfg, c, cfg.leader);
  }

  /** A blocked stale report stays harmless whatever happens next. */
  lemma HarmlessStep(cfg: Config, c: Cluster, s: Step, c': Cluster, f: NodeId, t: nat, d: Drained)
    requires ValidConfig(cfg) && f in cfg.members && Harmless(cfg, c, f, t, d) && Next(cfg, c, s, c')
    ensures Harmless(cfg, c', f, t, d)
  {
    hide ValidConfig, Inv;
    var a: Cluster :| Shadow(cfg, c, a, f, t, d) && Inv(cfg, a) && Blocked(cfg, c, f, t, d);
    hide Blocked, Harmless, Shadow, Next;
    if Actor(s) != cfg.leader {
      FollowerStepIsHarmless(cfg, c, s, c', a, f, t, d);
    } else if Collects(c.nodes[cfg.leader], t) {
      CollectingStepIsHarmless(cfg, c, s, c', a, f, t, d);
    } else {
      OtherLeaderStepIsHarmless(cfg, c, s, c', a, f, t, d);
    }
  }

  lemma {:induction false} HarmlessRun(cfg: Config, c: Cluster, steps: seq<Step>, f: NodeId, t: nat, d: Drained)
    requires ValidConfig(cfg) && f in cfg.members && Harmless(cfg, c, f, t, d) && Allowed(cfg, c, steps)
    ensures Harmless(cfg, Final(cfg, c, steps), f, t, d)
    decreases |steps|
  {
    if steps != [] {
      var c' := Effect(cfg, c, steps[0]);
      assert Next(cfg, c, steps[0], c');
      hide ValidConfig, Harmless, Effect, Next, Enabled, Timely;
      HarmlessStep(cfg, c, steps[0], c', f, t, d);
      HarmlessRun(cfg, c', steps[1..], f, t, d);
    }
  }

  /** From a harmless state no continuation exceeds the limit. */
  lemma HarmlessCannotExceed(cfg: Config, c: Cluster, f: NodeId, t: nat, d: Drained)
    requires ValidConfig(cfg) && f in cfg.members && Harmless(cfg, c, f, t, d)
    ensures !CanExceed(cfg, c)
  {
    hide ValidConfig, Harmless, AcceptedSum;
    forall steps: seq<Step> | Allowed(cfg, c, steps)
      ensures AcceptedSum(Final(cfg, c, steps)) <= cfg.limit
    {
      HarmlessRun(cfg, c, steps, f, t, d);
      HarmlessIsWithinLimit(cfg, Final(cfg, c, steps), f, t, d);
    }
  }
}
