/** How a leader completes its collection with a report that no longer holds. */
module HandoffGather {
  import opened CounterTypes
  import opened HandoffProtocol
  import opened HandoffCluster
  import opened HandoffInvariant
  import opened HandoffTheorems
  import opened HandoffAbandon
  import HandoffFullFollowers
  import Sums

  /** A member that can still report, or has reported, what the leader can accept for term t. */
  predicate CanAgree(ld: Node, n: Node, t: nat)
  {
    && n.engine.epoch == ld.engine.epoch
    && (n.state == FollowerPrepared && n.activeTerm == t ==> n.engine.counter == ld.engine.counter)
  }

  /** Nobody has made the completion of the leader's term impossible. */
  predicate CanComplete(cfg: Config, c: Cluster, t: nat)
    requires cfg.leader in c.nodes
  {
    forall j :: j in c.nodes && j != cfg.leader ==> CanAgree(c.nodes[cfg.leader], c.nodes[j], t)
  }

  /** A member the leader still waits for, or whose report is in. */
  predicate Willing(cfg: Config, ld: Node, j: NodeId, n: Node, t: nat)
    requires j in cfg.capacity
  {
    && NodeOk(cfg, j, n) && n.engine.mode == ReservedPeak && CanAgree(ld, n, t)
    && (n.state == Idle || (n.state == FollowerPrepared && n.activeTerm <= t))
    && (j in ld.prepared ==> n.state == FollowerPrepared && n.activeTerm == t && ld.prepared[j].total == n.engine.peakTotal)
  }

  /** The follower that has given up, and the report it left behind. */
  predicate Gone(cfg: Config, ld: Node, f: NodeId, n: Node, d: Drained)
    requires f in cfg.capacity
  {
    && NodeOk(cfg, f, n) && n.state == Idle && n.engine.mode == ReservedPeak && Slack(n) > 0
    && d == Drained(ld.engine.counter, ld.engine.epoch, n.engine.peakTotal)
    && (f in ld.prepared ==> ld.prepared[f] == d)
  }

  function ReportOf(cfg: Config, j: NodeId, t: nat, d: Drained): (p: Packet)
  {
    Packet(cfg.leader, MakeFrame(cfg, j, Prepared, t, d))
  }

  /** The leader collects term t, everybody can agree, and the report of f no longer holds. */
  ghost predicate Gathering(cfg: Config, c: Cluster, f: NodeId, t: nat, d: Drained, p: Packet)
  {
    && c.nodes.Keys == cfg.members == cfg.capacity.Keys && cfg.leader in cfg.members && cfg.owner in cfg.members
    && f in cfg.members && f != cfg.leader && t > 0
    && p in c.net && IsPrepareFor(cfg, p, f, t) && ReportOf(cfg, f, t, d) in c.net
    && (var ld := c.nodes[cfg.leader];
        && NodeOk(cfg, cfg.leader, ld) && ld.state == LeaderPreparing && ld.activeTerm == t
        && ReportsAgree(ld.prepared, OwnDrained(cfg.leader, ld)))
    && Gone(cfg, c.nodes[cfg.leader], f, c.nodes[f], d)
    && (forall j :: j in c.nodes && j != cfg.leader && j != f ==> Willing(cfg, c.nodes[cfg.leader], j, c.nodes[j], t))
  }

  // ---------------------------------------------------------------- one member at a time

  /** Only the packets in flight have changed, and none has gone. */
  lemma GatherNet(cfg: Config, c: Cluster, c': Cluster, f: NodeId, t: nat, d: Drained, p: Packet)
    requires Gathering(cfg, c, f, t, d, p) && c'.nodes == c.nodes && c.net <= c'.net
    ensures Gathering(cfg, c', f, t, d, p)
  {
    hide NodeOk, Willing, Gone;
  }

  lemma GatherMember(cfg: Config, c: Cluster, j: NodeId, o: Outcome, f: NodeId, t: nat, d: Drained, p: Packet)
    requires Gathering(cfg, c, f, t, d, p) && j in c.nodes && j != cfg.leader && j != f
    requires Willing(cfg, c.nodes[cfg.leader], j, o.node, t)
    ensures Gathering(cfg, Update(cfg, c, j, o), f, t, d, p)
  {
    hide NodeOk, Willing, Gone;
  }

  function PrepareFor(cfg: Config, ld: Node, j: NodeId): (p: Packet)
  {
    Packet(j, MakeFrame(cfg, cfg.leader, Prepare, ld.activeTerm, OwnDrained(cfg.leader, ld)))
  }

  lemma LeaderAsksAgain(cfg: Config, c: Cluster, j: NodeId)
    requires cfg.leader in c.nodes && cfg.leader in cfg.members && j in cfg.members && j != cfg.leader
    requires c.nodes[cfg.leader].state == LeaderPreparing
    ensures
      var c' := Effect(cfg, c, Turn(cfg.leader, RETRY));
      && Next(cfg, c, Turn(cfg.leader, RETRY), c')
      && c'.nodes == c.nodes && PrepareFor(cfg, c.nodes[cfg.leader], j) in c'.net && c.net <= c'.net
  {
    var ld := c.nodes[cfg.leader];
    assert !LowWater(cfg, ld, RETRY);
    assert Tick(cfg, cfg.leader, ld, RETRY).node == ld;
    assert c.nodes[cfg.leader := ld] == c.nodes;
  }

  /** How many members the leader still waits for, the one that has gone not counted. */
  function Missing(cfg: Config, c: Cluster, f: NodeId): (m: set<NodeId>)
    requires cfg.leader in c.nodes
  {
    set j | j in cfg.members && j != cfg.leader && j != f && j !in c.nodes[cfg.leader].prepared
  }

  /** The leader takes a report that agrees; the collection is complete or goes on. */
  lemma LeaderTakes(cfg: Config, ld: Node, j: NodeId, d: Drained, t: nat)
    requires cfg.leader in cfg.capacity && cfg.leader in cfg.members && NodeOk(cfg, cfg.leader, ld)
    requires ld.state == LeaderPreparing && ld.activeTerm == t && j in cfg.members && j != cfg.leader
    requires ReportsAgree(ld.prepared, OwnDrained(cfg.leader, ld)) && d.counter == ld.engine.counter && d.epoch == ld.engine.epoch
    ensures
      var m := ld.(prepared := ld.prepared[j := d]);
      && NodeOk(cfg, cfg.leader, m) && ReportsAgree(m.prepared, OwnDrained(cfg.leader, m))
      && HandleFrame(cfg, cfg.leader, ld, ReportOf(cfg, j, t, d).frame, RETRY) == TryBeginCommit(cfg, cfg.leader, m, RETRY)
      && (|m.prepared| != |cfg.members| ==> TryBeginCommit(cfg, cfg.leader, m, RETRY) == Outcome(m, {}))
  {
    hide PreparedSum;
    var m := ld.(prepared := ld.prepared[j := d]);
    assert m.prepared.Keys == ld.prepared.Keys + {j};
  }

  lemma LeaderCompletes(cfg: Config, m: Node)
    requires cfg.leader in cfg.capacity && cfg.leader in cfg.members && NodeOk(cfg, cfg.leader, m)
    requires m.state == LeaderPreparing && |m.prepared| == |cfg.members|
    requires ReportsAgree(m.prepared, OwnDrained(cfg.leader, m)) && PreparedSum(m.prepared) <= cfg.limit <= U64_MAX
    ensures
      var o := TryBeginCommit(cfg, cfg.leader, m, RETRY);
      && NodeOk(cfg, cfg.leader, o.node) && o.sent == {} && o.node.state == LeaderCommitting && o.node.activeTerm == m.activeTerm
      && o.node.committedTotal == PreparedSum(m.prepared) && o.node.commitAcks == {cfg.leader}
      && o.node.engine.accepted == m.engine.accepted
      && (cfg.leader == cfg.owner ==> o.node.engine.mode == DangerStrict && o.node.engine.strictValue == PreparedSum(m.prepared))
  {
    hide PreparedSum;
  }

  // ---------------------------------------------------------------- the last report

  /** A complete table, one entry of which no longer holds, still adds up to what everybody had used. */
  lemma CompleteTable(cfg: Config, c: Cluster, f: NodeId, t: nat, d: Drained, p: Packet, table: map<NodeId, Drained>)
    requires Gathering(cfg, c, f, t, d, p) && table.Keys == cfg.members
    requires forall j :: j in cfg.members ==> table[j].total == c.nodes[j].engine.peakTotal
    ensures PreparedSum(table) == FrozenSum(c) == AcceptedSum(c)
  {
    assert PreparedTotals(table) == PeakTotals(c);
    forall j | j in c.nodes
      ensures c.nodes[j].engine.accepted == c.nodes[j].engine.peakTotal
    {
      PeakAccepted(cfg, c, f, t, d, p, j);
    }
    assert AcceptedTotals(c) == PeakTotals(c);
  }

  lemma PeakAccepted(cfg: Config, c: Cluster, f: NodeId, t: nat, d: Drained, p: Packet, j: NodeId)
    requires Gathering(cfg, c, f, t, d, p) && j in c.nodes
    ensures NodeOk(cfg, j, c.nodes[j]) && c.nodes[j].engine.mode == ReservedPeak
    ensures c.nodes[j].engine.accepted == c.nodes[j].engine.peakTotal
  {
    if j != cfg.leader && j != f {
      assert Willing(cfg, c.nodes[cfg.leader], j, c.nodes[j], t);
    }
  }

  lemma GatheringFits(cfg: Config, c: Cluster, f: NodeId, t: nat, d: Drained, p: Packet)
    requires ValidConfig(cfg) && Gathering(cfg, c, f, t, d, p)
    ensures FrozenSum(c) <= cfg.limit
  {
    forall j | j in c.nodes
      ensures NodeOk(cfg, j, c.nodes[j])
    {
      PeakAccepted(cfg, c, f, t, d, p, j);
    }
    HandoffFullFollowers.PeakFits(cfg, c);
  }

  /** The report that completes the table makes the leader decide on a stale total. */
  lemma CompletionDecides(cfg: Config, c: Cluster, f: NodeId, t: nat, d: Drained, p: Packet, m: Node)
    requires ValidConfig(cfg) && Gathering(cfg, c, f, t, d, p)
    requires m == c.nodes[cfg.leader].(prepared := m.prepared) && NodeOk(cfg, cfg.leader, m)
    requires m.prepared.Keys == cfg.members && ReportsAgree(m.prepared, OwnDrained(cfg.leader, m))
    requires forall j :: j in cfg.members ==> m.prepared[j].total == c.nodes[j].engine.peakTotal
    requires forall j :: j in cfg.members && j != cfg.leader && j != f ==> c.nodes[j].state == FollowerPrepared && c.nodes[j].activeTerm == t
    ensures Decided(cfg, Update(cfg, c, cfg.leader, TryBeginCommit(cfg, cfg.leader, m, RETRY)), f, t, PreparedSum(m.prepared), p)
  {
    assert cfg.limit <= U64_MAX;
    GatheringFacts(cfg, c, f, t, d, p);
    hide NodeOk, PreparedSum, FrozenSum, AcceptedSum, TryBeginCommit, ReportsAgree, ValidConfig, Gathering, Willing, Gone;
    assert |m.prepared.Keys| == |m.prepared|;
    CompleteTable(cfg, c, f, t, d, p, m.prepared);
    GatheringFits(cfg, c, f, t, d, p);
    LeaderCompletes(cfg, m);
    PeakAccepted(cfg, c, f, t, d, p, cfg.owner);
    var o := TryBeginCommit(cfg, cfg.leader, m, RETRY);
    assert o.node.engine.accepted == c.nodes[cfg.leader].engine.accepted;
    QuietSum(cfg, c, cfg.leader, o);
    DecidedAfter(cfg, c, f, t, p, o, PreparedSum(m.prepared));
  }

  lemma DecidedAfter(cfg: Config, c: Cluster, f: NodeId, t: nat, p: Packet, o: Outcome, total: nat)
    requires c.nodes.Keys == cfg.members == cfg.capacity.Keys && cfg.leader in cfg.members && cfg.owner in cfg.members
    requires f in cfg.members && f != cfg.leader && t > 0 && p in c.net && IsPrepareFor(cfg, p, f, t)
    requires NodeOk(cfg, f, c.nodes[f]) && c.nodes[f].state == Idle && c.nodes[f].engine.mode == ReservedPeak && Slack(c.nodes[f]) > 0
    requires NodeOk(cfg, cfg.leader, o.node) && o.node.state == LeaderCommitting && o.node.activeTerm == t
    requires o.node.committedTotal == total <= cfg.limit && o.node.commitAcks == {cfg.leader}
    requires cfg.leader == cfg.owner ==> o.node.engine.mode == DangerStrict && o.node.engine.strictValue == total
    requires cfg.owner != cfg.leader ==> NodeOk(cfg, cfg.owner, c.nodes[cfg.owner]) && c.nodes[cfg.owner].engine.mode == ReservedPeak
    requires cfg.owner != cfg.leader && cfg.owner != f ==> JoinedTerm(c.nodes[cfg.owner], t)
    requires AcceptedSum(Update(cfg, c, cfg.leader, o)) == total
    ensures Decided(cfg, Update(cfg, c, cfg.leader, o), f, t, total, p)
  {
    hide NodeOk, AcceptedSum;
  }

  lemma GatheringFacts(cfg: Config, c: Cluster, f: NodeId, t: nat, d: Drained, p: Packet)
    requires Gathering(cfg, c, f, t, d, p)
    ensures c.nodes.Keys == cfg.members == cfg.capacity.Keys && cfg.leader in cfg.members && cfg.owner in cfg.members
    ensures f in cfg.members && f != cfg.leader && t > 0 && p in c.net && IsPrepareFor(cfg, p, f, t)
    ensures c.nodes[cfg.leader].activeTerm == t
    ensures NodeOk(cfg, f, c.nodes[f]) && c.nodes[f].state == Idle && c.nodes[f].engine.mode == ReservedPeak && Slack(c.nodes[f]) > 0
  {
    hide NodeOk, Willing, ReportsAgree;
  }

  /** What the leader may be told for member j without learning anything new about its total. */
  ghost predicate Reportable(cfg: Config, c: Cluster, f: NodeId, t: nat, d: Drained, j: NodeId, r: Drained)
    requires cfg.leader in c.nodes && j in c.nodes
  {
    && ReportOf(cfg, j, t, r) in c.net
    && r == Drained(c.nodes[cfg.leader].engine.counter, c.nodes[cfg.leader].engine.epoch, c.nodes[j].engine.peakTotal)
    && (if j == f then r == d else c.nodes[j].state == FollowerPrepared && c.nodes[j].activeTerm == t)
  }

  lemma DeliverIsNext(cfg: Config, c: Cluster, q: Packet)
    requires cfg.leader in c.nodes && q in c.net && q.dst in c.nodes && q.dst in cfg.members
    requires c.nodes[q.dst].state != Idle || HandleFrame(cfg, q.dst, c.nodes[q.dst], q.frame, RETRY).node.state != LeaderPreparing
    ensures Next(cfg, c, Deliver(q, RETRY), Update(cfg, c, q.dst, HandleFrame(cfg, q.dst, c.nodes[q.dst], q.frame, RETRY)))
  {
    hide HandleFrame;
  }

  /** The table after a report, short of one entry or complete. */
  lemma TableGrows(cfg: Config, c: Cluster, f: NodeId, t: nat, d: Drained, p: Packet, j: NodeId, r: Drained)
    requires Gathering(cfg, c, f, t, d, p) && j in c.nodes && j != cfg.leader && Reportable(cfg, c, f, t, d, j, r)
    ensures
      var ld := c.nodes[cfg.leader];
      var m := ld.(prepared := ld.prepared[j := r]);
      && m.prepared.Keys <= cfg.members
      && (forall i :: i in m.prepared ==> m.prepared[i].total == c.nodes[i].engine.peakTotal)
      && (forall i :: i in m.prepared && i != cfg.leader && i != f ==> c.nodes[i].state == FollowerPrepared && c.nodes[i].activeTerm == t)
      && (|m.prepared| == |cfg.members| ==> m.prepared.Keys == cfg.members)
  {
    var ld := c.nodes[cfg.leader];
    var m := ld.(prepared := ld.prepared[j := r]);
    forall i | i in m.prepared
      ensures i in cfg.members && m.prepared[i].total == c.nodes[i].engine.peakTotal
      ensures i != cfg.leader && i != f ==> c.nodes[i].state == FollowerPrepared && c.nodes[i].activeTerm == t
    {
      if i != cfg.leader && i != f {
        assert Willing(cfg, ld, i, c.nodes[i], t);
      }
    }
    assert |m.prepared.Keys| == |m.prepared|;
    if |m.prepared| == |cfg.members| {
      SameSizeSubset(m.prepared.Keys, cfg.members);
    }
  }

  /** After a report that does not complete the table, the leader goes on collecting. */
  lemma GatherGrows(cfg: Config, c: Cluster, f: NodeId, t: nat, d: Drained, p: Packet, j: NodeId, r: Drained)
    requires Gathering(cfg, c, f, t, d, p) && j in c.nodes && j != cfg.leader && Reportable(cfg, c, f, t, d, j, r)
    requires var ld := c.nodes[cfg.leader];
      var m := ld.(prepared := ld.prepared[j := r]);
      NodeOk(cfg, cfg.leader, m) && ReportsAgree(m.prepared, OwnDrained(cfg.leader, m))
    ensures Gathering(cfg, Update(cfg, c, cfg.leader, Outcome(c.nodes[cfg.leader].(prepared := c.nodes[cfg.leader].prepared[j := r]), {})), f, t, d, p)
  {
    hide NodeOk;
    var ld := c.nodes[cfg.leader];
    var m := ld.(prepared := ld.prepared[j := r]);
    forall i | i in c.nodes && i != cfg.leader && i != f
      ensures Willing(cfg, m, i, c.nodes[i], t)
    {
      assert Willing(cfg, ld, i, c.nodes[i], t);
    }
  }

  /** Delivering a report, whether it completes the table or not. */
  lemma ReportExceeds(cfg: Config, c: Cluster, f: NodeId, t: nat, d: Drained, p: Packet, j: NodeId, r: Drained)
    requires ValidConfig(cfg) && Gathering(cfg, c, f, t, d, p) && j in c.nodes && j != cfg.leader
    requires Reportable(cfg, c, f, t, d, j, r)
    requires j == f ==> Missing(cfg, c, f) == {}
    requires j != f ==> j in Missing(cfg, c, f)
    ensures CanExceed(cfg, c)
    decreases |Missing(cfg, c, f)|, 0
  {
    var ld := c.nodes[cfg.leader];
    var m := ld.(prepared := ld.prepared[j := r]);
    var q := ReportOf(cfg, j, t, r);
    LeaderTakes(cfg, ld, j, r, t);
    TableGrows(cfg, c, f, t, d, p, j, r);
    DeliverIsNext(cfg, c, q);
    if j == f {
      LastTableIsComplete(cfg, c, f, r);
    }
    if |m.prepared| == |cfg.members| {
      CompletionDecides(cfg, c, f, t, d, p, m);
      var c' := Update(cfg, c, cfg.leader, TryBeginCommit(cfg, cfg.leader, m, RETRY));
      DecidedExceeds(cfg, c', f, t, PreparedSum(m.prepared), p);
      ExceedsLater(cfg, c, Deliver(q, RETRY), c');
    } else {
      var c' := Update(cfg, c, cfg.leader, Outcome(m, {}));
      GatherGrows(cfg, c, f, t, d, p, j, r);
      MissingShrinks(cfg, c, c', f, j, r);
      GatherExceeds(cfg, c', f, t, d, p);
      ExceedsLater(cfg, c, Deliver(q, RETRY), c');
    }
  }

  /** With the report of the one that has gone, the table is complete. */
  lemma LastTableIsComplete(cfg: Config, c: Cluster, f: NodeId, d: Drained)
    requires cfg.leader in c.nodes && f in cfg.members && f != cfg.leader && Missing(cfg, c, f) == {}
    requires cfg.leader in c.nodes[cfg.leader].prepared && c.nodes[cfg.leader].prepared.Keys <= cfg.members
    ensures |c.nodes[cfg.leader].prepared[f := d]| == |cfg.members|
  {
    var table, table' := c.nodes[cfg.leader].prepared, c.nodes[cfg.leader].prepared[f := d];
    forall i | i in cfg.members
      ensures i in table'.Keys
    {
      assert i !in Missing(cfg, c, f);
    }
    assert table'.Keys == cfg.members && |table'.Keys| == |table'|;
  }

  lemma MissingShrinks(cfg: Config, c: Cluster, c': Cluster, f: NodeId, j: NodeId, r: Drained)
    requires cfg.leader in c.nodes && cfg.leader in c'.nodes && j in Missing(cfg, c, f)
    requires c'.nodes[cfg.leader].prepared == c.nodes[cfg.leader].prepared[j := r]
    ensures |Missing(cfg, c', f)| < |Missing(cfg, c, f)|
  {
    assert Missing(cfg, c', f) == Missing(cfg, c, f) - {j};
  }

  // ---------------------------------------------------------------- the other reports

  /** The leader can be brought to decide while f does not stand by its report. */
  lemma GatherExceeds(cfg: Config, c: Cluster, f: NodeId, t: nat, d: Drained, p: Packet)
    requires ValidConfig(cfg) && Gathering(cfg, c, f, t, d, p)
    ensures CanExceed(cfg, c)
    decreases |Missing(cfg, c, f)|, 4
  {
    hide CanExceed;
    if Missing(cfg, c, f) == {} {
      ReportExceeds(cfg, c, f, t, d, p, f, d);
    } else {
      var j :| j in Missing(cfg, c, f);
      LeaderAsksAgain(cfg, c, j);
      var c' := Effect(cfg, c, Turn(cfg.leader, RETRY));
      GatherNet(cfg, c, c', f, t, d, p);
      assert Missing(cfg, c', f) == Missing(cfg, c, f);
      assert Willing(cfg, c.nodes[cfg.leader], j, c.nodes[j], t);
      var n := c'.nodes[j];
      if n.state == FollowerPrepared && n.activeTerm < t {
        OlderExceeds(cfg, c', f, t, d, p, j);
      } else if n.state == Idle {
        RestingExceeds(cfg, c', f, t, d, p, j);
      } else {
        AskedExceeds(cfg, c', f, t, d, p, j);
      }
      ExceedsLater(cfg, c, Turn(cfg.leader, RETRY), c');
    }
  }

  ghost predicate Asked(cfg: Config, c: Cluster, f: NodeId, t: nat, d: Drained, p: Packet, j: NodeId)
  {
    && Gathering(cfg, c, f, t, d, p) && j in Missing(cfg, c, f) && PrepareFor(cfg, c.nodes[cfg.leader], j) in c.net
  }

  /** The member changed; the leader and what it waits for did not. */
  lemma AskedMember(cfg: Config, c: Cluster, j: NodeId, o: Outcome, f: NodeId, t: nat, d: Drained, p: Packet)
    requires Asked(cfg, c, f, t, d, p, j) && Willing(cfg, c.nodes[cfg.leader], j, o.node, t)
    ensures Asked(cfg, Update(cfg, c, j, o), f, t, d, p, j)
    ensures Missing(cfg, Update(cfg, c, j, o), f) == Missing(cfg, c, f)
  {
    GatherMember(cfg, c, j, o, f, t, d, p);
    hide NodeOk, Willing, Gathering;
  }

  /** A member that is still prepared for an older term leaves it: nobody holds that one. */
  lemma OlderExceeds(cfg: Config, c: Cluster, f: NodeId, t: nat, d: Drained, p: Packet, j: NodeId)
    requires ValidConfig(cfg) && Asked(cfg, c, f, t, d, p, j)
    requires c.nodes[j].state == FollowerPrepared && c.nodes[j].activeTerm < t
    ensures CanExceed(cfg, c)
    decreases |Missing(cfg, c, f)|, 3
  {
    hide CanExceed;
    var n := c.nodes[j];
    assert Willing(cfg, c.nodes[cfg.leader], j, n, t);
    GaveUpNode(cfg, j, n, RETRY);
    var o := AbortPrepare(cfg, j, n, false, RETRY);
    GivingUpIsAborting(cfg, c, j, TearDown(j, RETRY));
    AskedMember(cfg, c, j, o, f, t, d, p);
    var c' := Update(cfg, c, j, o);
    LeavingIsNext(cfg, c, j, t);
    RestingExceeds(cfg, c', f, t, d, p, j);
    ExceedsLater(cfg, c, TearDown(j, RETRY), c');
  }

  lemma LeavingIsNext(cfg: Config, c: Cluster, j: NodeId, t: nat)
    requires cfg.leader in c.nodes && j in c.nodes && j in cfg.members && j != cfg.leader
    requires c.nodes[j].state == FollowerPrepared && c.nodes[j].activeTerm < t
    requires c.nodes[cfg.leader].state == LeaderPreparing && c.nodes[cfg.leader].activeTerm == t && c.nodes[cfg.leader].lastCommittedTerm == 0
    ensures Next(cfg, c, TearDown(j, RETRY), Effect(cfg, c, TearDown(j, RETRY)))
  {
  }

  /** A member at rest takes up the leader's counter with a request for nothing. */
  lemma RestingExceeds(cfg: Config, c: Cluster, f: NodeId, t: nat, d: Drained, p: Packet, j: NodeId)
    requires ValidConfig(cfg) && Asked(cfg, c, f, t, d, p, j) && c.nodes[j].state == Idle
    ensures CanExceed(cfg, c)
    decreases |Missing(cfg, c, f)|, 2
  {
    hide CanExceed;
    var n, ld := c.nodes[j], c.nodes[cfg.leader];
    assert Willing(cfg, ld, j, n, t);
    RequestForNothing(cfg, ld, j, n, t);
    hide NodeOk, Willing, Gathering;
    var o := WithEngine(n, Accept(n.engine, 0, ld.engine.counter));
    AskedMember(cfg, c, j, o, f, t, d, p);
    var c' := Update(cfg, c, j, o);
    AdmitIsNext(cfg, c, j, 0, ld.engine.counter);
    AskedExceeds(cfg, c', f, t, d, p, j);
    ExceedsLater(cfg, c, Admit(j, 0, ld.engine.counter), c');
  }

  lemma AdmitIsNext(cfg: Config, c: Cluster, j: NodeId, delta: nat, counter: nat)
    requires cfg.leader in c.nodes && j in c.nodes && j in cfg.members && AcceptAllowed(c.nodes[j].engine, delta)
    ensures Next(cfg, c, Admit(j, delta, counter), Update(cfg, c, j, WithEngine(c.nodes[j], Accept(c.nodes[j].engine, delta, counter))))
  {
  }

  lemma RequestForNothing(cfg: Config, ld: Node, j: NodeId, n: Node, t: nat)
    requires j in cfg.capacity && Willing(cfg, ld, j, n, t) && n.state == Idle
    ensures AcceptAllowed(n.engine, 0)
    ensures var n' := n.(engine := Accept(n.engine, 0, ld.engine.counter));
      Willing(cfg, ld, j, n', t) && n'.engine.counter == ld.engine.counter
  {
  }

  /** A member that joins, or has joined, sends a report the leader can accept. */
  lemma AskedExceeds(cfg: Config, c: Cluster, f: NodeId, t: nat, d: Drained, p: Packet, j: NodeId)
    requires ValidConfig(cfg) && Asked(cfg, c, f, t, d, p, j)
    requires c.nodes[j].state == Idle ==> c.nodes[j].engine.counter == c.nodes[cfg.leader].engine.counter
    requires c.nodes[j].state == FollowerPrepared ==> c.nodes[j].activeTerm == t
    ensures CanExceed(cfg, c)
    decreases |Missing(cfg, c, f)|, 1
  {
    hide CanExceed;
    var n, ld := c.nodes[j], c.nodes[cfg.leader];
    var q := PrepareFor(cfg, ld, j);
    assert Willing(cfg, ld, j, n, t);
    MemberReports(cfg, ld, j, n, q.frame, t);
    var o := HandleFrame(cfg, j, n, q.frame, RETRY);
    AskedMember(cfg, c, j, o, f, t, d, p);
    var c' := Update(cfg, c, j, o);
    DeliverIsNext(cfg, c, q);
    var r := Drained(ld.engine.counter, ld.engine.epoch, n.engine.peakTotal);
    assert Reportable(cfg, c', f, t, d, j, r);
    ReportExceeds(cfg, c', f, t, d, p, j, r);
    ExceedsLater(cfg, c, Deliver(q, RETRY), c');
  }

  lemma MemberReports(cfg: Config, ld: Node, j: NodeId, n: Node, q: Frame, t: nat)
    requires j in cfg.capacity && j in cfg.members && j != cfg.leader && cfg.leader in cfg.members && Willing(cfg, ld, j, n, t)
    requires j !in ld.prepared && t > 0 && q.kind == Prepare && q.sender == cfg.leader && q.term == t && q.strictOwner == cfg.owner
    requires n.state == Idle ==> n.engine.counter == ld.engine.counter
    requires n.state == FollowerPrepared ==> n.activeTerm == t
    ensures
      var o := HandleFrame(cfg, j, n, q, RETRY);
      && Willing(cfg, ld, j, o.node, t) && o.node.state == FollowerPrepared && o.node.activeTerm == t
      && o.node.engine.peakTotal == n.engine.peakTotal
      && o.sent == {ReportOf(cfg, j, t, Drained(ld.engine.counter, ld.engine.epoch, n.engine.peakTotal))}
  {
    if n.state == Idle {
      RestingFollowerJoins(cfg, j, n, q);
    }
  }
}
