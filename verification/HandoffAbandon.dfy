/** What can happen once a follower has given up a term that the leader holds. */
module HandoffAbandon {
  import opened CounterTypes
  import opened HandoffProtocol
  import opened HandoffCluster
  import opened HandoffInvariant
  import opened HandoffTheorems
  import Sums

  // ---------------------------------------------------------------- continuations

  /** From c these steps can be taken one after the other, each of them on time. */
  ghost predicate Allowed(cfg: Config, c: Cluster, steps: seq<Step>)
    decreases |steps|
  {
    steps == []
    || (cfg.leader in c.nodes && Enabled(cfg, c, steps[0]) && Timely(cfg, c, steps[0])
        && Allowed(cfg, Effect(cfg, c, steps[0]), steps[1..]))
  }

  ghost function Final(cfg: Config, c: Cluster, steps: seq<Step>): (c': Cluster)
    requires Allowed(cfg, c, steps)
    decreases |steps|
  {
    if steps == [] then c else Final(cfg, Effect(cfg, c, steps[0]), steps[1..])
  }

  /** Some timely continuation accepts more than the limit. */
  ghost predicate CanExceed(cfg: Config, c: Cluster)
  {
    exists steps: seq<Step> :: Allowed(cfg, c, steps) && AcceptedSum(Final(cfg, c, steps)) > cfg.limit
  }

  lemma ExceedsNow(cfg: Config, c: Cluster)
    requires AcceptedSum(c) > cfg.limit
    ensures CanExceed(cfg, c)
  {
    hide AcceptedSum;
    var steps: seq<Step> := [];
    assert Allowed(cfg, c, steps) && Final(cfg, c, steps) == c;
  }

  lemma ExceedsLater(cfg: Config, c: Cluster, s: Step, c': Cluster)
    requires Next(cfg, c, s, c') && CanExceed(cfg, c')
    ensures CanExceed(cfg, c)
  {
    hide AcceptedSum;
    var rest: seq<Step> :| Allowed(cfg, c', rest) && AcceptedSum(Final(cfg, c', rest)) > cfg.limit;
    assert Enabled(cfg, c, s) && Timely(cfg, c, s) && c' == Effect(cfg, c, s);
    hide Enabled, Timely, Effect;
    var steps := [s] + rest;
    assert steps[0] == s && steps[1..] == rest;
    assert Allowed(cfg, c, steps);
    assert Final(cfg, c, steps) == Final(cfg, c', rest);
  }

  // ---------------------------------------------------------------- what a step does to the sum

  lemma SameAccepted(c: Cluster, c': Cluster)
    requires c'.nodes.Keys == c.nodes.Keys
    requires forall i :: i in c.nodes ==> c'.nodes[i].engine.accepted == c.nodes[i].engine.accepted
    ensures AcceptedSum(c') == AcceptedSum(c)
  {
    assert AcceptedTotals(c') == AcceptedTotals(c);
  }

  /** An outcome that admits nothing leaves the sum alone. */
  lemma QuietSum(cfg: Config, c: Cluster, i: NodeId, o: Outcome)
    requires i in c.nodes && o.node.engine.accepted == c.nodes[i].engine.accepted
    ensures AcceptedSum(Update(cfg, c, i, o)) == AcceptedSum(c)
  {
    SameAccepted(c, Update(cfg, c, i, o));
  }

  lemma AdmitSum(cfg: Config, c: Cluster, i: NodeId, delta: nat, counter: nat)
    requires i in c.nodes
    ensures AcceptedSum(Effect(cfg, c, Admit(i, delta, counter))) == AcceptedSum(c) + delta
  {
    var c' := Effect(cfg, c, Admit(i, delta, counter));
    Sums.SumMapUpdate<NodeId>(AcceptedTotals(c), i, c.nodes[i].engine.accepted + delta);
    assert AcceptedTotals(c') == AcceptedTotals(c)[i := c.nodes[i].engine.accepted + delta];
  }

  // ---------------------------------------------------------------- after the decision

  /** Nothing fails, retries are due, no deadline has passed. */
  const RETRY := Env(0, 0, false, true, false, Durable, Durable, Durable)

  /** A strict owner knows of less than was accepted: it fills the limit by itself. */
  lemma StrictOwnerExceeds(cfg: Config, c: Cluster)
    requires cfg.leader in c.nodes && cfg.owner in c.nodes && cfg.owner in cfg.members
    requires c.nodes[cfg.owner].engine.mode == DangerStrict && c.nodes[cfg.owner].engine.gateOpen
    requires c.nodes[cfg.owner].engine.strictValue <= c.nodes[cfg.owner].engine.limit == cfg.limit
    requires AcceptedSum(c) > c.nodes[cfg.owner].engine.strictValue
    ensures CanExceed(cfg, c)
  {
    hide AcceptedSum, CanExceed;
    var delta: nat := cfg.limit - c.nodes[cfg.owner].engine.strictValue;
    var s := Admit(cfg.owner, delta, 0);
    AdmitSum(cfg, c, cfg.owner, delta, 0);
    ExceedsNow(cfg, Effect(cfg, c, s));
    ExceedsLater(cfg, c, s, Effect(cfg, c, s));
  }

  /** The leader has committed total to the owner, which does not know yet. */
  ghost predicate CommitIsDue(cfg: Config, c: Cluster, t: nat, total: nat)
  {
    && cfg.leader in c.nodes && cfg.owner in c.nodes && cfg.leader in cfg.members && cfg.owner in cfg.members
    && cfg.owner in cfg.capacity && cfg.owner != cfg.leader
    && var ld := c.nodes[cfg.leader];
       ld.state == LeaderCommitting && ld.activeTerm == t > 0 && ld.committedTotal == total <= cfg.limit
       && cfg.owner !in ld.commitAcks
  }

  predicate JoinedTerm(n: Node, t: nat)
  {
    (n.state == FollowerPrepared || n.state == FollowerCommitting) && n.activeTerm == t
  }

  function CommitFor(cfg: Config, ld: Node): (p: Packet)
  {
    Packet(cfg.owner, MakeFrame(cfg, cfg.leader, Commit, ld.activeTerm,
                                Drained(ld.committedCounter, ld.committedEpoch, ld.committedTotal)))
  }

  lemma LeaderSendsCommit(cfg: Config, c: Cluster, t: nat, total: nat)
    requires CommitIsDue(cfg, c, t, total)
    ensures
      var c' := Effect(cfg, c, Turn(cfg.leader, RETRY));
      && Next(cfg, c, Turn(cfg.leader, RETRY), c')
      && c'.nodes == c.nodes && CommitFor(cfg, c.nodes[cfg.leader]) in c'.net && c.net <= c'.net
  {
    var ld := c.nodes[cfg.leader];
    assert !LowWater(cfg, ld, RETRY);
    assert Tick(cfg, cfg.leader, ld, RETRY).node == ld;
    assert c.nodes[cfg.leader := ld] == c.nodes;
  }

  lemma OwnerInstalls(cfg: Config, c: Cluster, t: nat, total: nat)
    requires CommitIsDue(cfg, c, t, total) && AcceptedSum(c) > total
    requires NodeOk(cfg, cfg.owner, c.nodes[cfg.owner]) && JoinedTerm(c.nodes[cfg.owner], t)
    ensures CanExceed(cfg, c)
  {
    hide AcceptedSum, CanExceed;
    LeaderSendsCommit(cfg, c, t, total);
    var b := Effect(cfg, c, Turn(cfg.leader, RETRY));
    SameAccepted(c, b);
    var p := CommitFor(cfg, c.nodes[cfg.leader]);
    var n := c.nodes[cfg.owner];
    var s := Deliver(p, RETRY);
    var d := Effect(cfg, b, s);
    OwnerTakesCommit(cfg, n, p.frame, total);
    QuietSum(cfg, b, cfg.owner, HandleFrame(cfg, cfg.owner, n, p.frame, RETRY));
    assert Next(cfg, b, s, d);
    hide Next, Effect;
    StrictOwnerExceeds(cfg, d);
    ExceedsLater(cfg, b, s, d);
    ExceedsLater(cfg, c, Turn(cfg.leader, RETRY), b);
  }

  lemma OwnerTakesCommit(cfg: Config, n: Node, f: Frame, total: nat)
    requires cfg.owner in cfg.capacity && cfg.owner != cfg.leader && cfg.leader in cfg.members && NodeOk(cfg, cfg.owner, n)
    requires f.kind == Commit && f.sender == cfg.leader && f.strictOwner == cfg.owner && f.term > 0
    requires JoinedTerm(n, f.term) && f.value == total <= cfg.limit
    ensures
      var e := HandleFrame(cfg, cfg.owner, n, f, RETRY).node.engine;
      e.mode == DangerStrict && e.gateOpen && e.strictValue == total && e.limit == cfg.limit && e.accepted == n.engine.accepted
    ensures HandleFrame(cfg, cfg.owner, n, f, RETRY).node.state == Idle
  {
  }

  predicate IsPrepareFor(cfg: Config, p: Packet, j: NodeId, t: nat)
  {
    p.dst == j && p.frame.kind == Prepare && p.frame.sender == cfg.leader && p.frame.term == t && p.frame.strictOwner == cfg.owner
  }

  /** A follower at rest joins a term it is asked for. */
  lemma RestingFollowerJoins(cfg: Config, j: NodeId, n: Node, f: Frame)
    requires j in cfg.capacity && j in cfg.members && j != cfg.leader && cfg.leader in cfg.members && NodeOk(cfg, j, n)
    requires n.state == Idle && n.engine.mode == ReservedPeak
    requires f.kind == Prepare && f.sender == cfg.leader && f.strictOwner == cfg.owner && f.term > 0
    ensures
      var o := HandleFrame(cfg, j, n, f, RETRY);
      && NodeOk(cfg, j, o.node) && o.node.state == FollowerPrepared && o.node.activeTerm == f.term
      && o.node.engine == n.engine.(handoffActive := true, gateOpen := false) && o.node.lastCommittedTerm == 0
      && o.sent == {Packet(cfg.leader, MakeFrame(cfg, j, Prepared, f.term, Drained(n.engine.counter, n.engine.epoch, n.engine.peakTotal)))}
  {
  }

  lemma OwnerRejoins(cfg: Config, c: Cluster, t: nat, total: nat, p: Packet)
    requires CommitIsDue(cfg, c, t, total) && AcceptedSum(c) > total
    requires NodeOk(cfg, cfg.owner, c.nodes[cfg.owner])
    requires c.nodes[cfg.owner].state == Idle && c.nodes[cfg.owner].engine.mode == ReservedPeak
    requires p in c.net && IsPrepareFor(cfg, p, cfg.owner, t)
    ensures CanExceed(cfg, c)
  {
    hide AcceptedSum, CanExceed;
    var n := c.nodes[cfg.owner];
    var s := Deliver(p, RETRY);
    var d := Effect(cfg, c, s);
    RestingFollowerJoins(cfg, cfg.owner, n, p.frame);
    QuietSum(cfg, c, cfg.owner, HandleFrame(cfg, cfg.owner, n, p.frame, RETRY));
    assert Next(cfg, c, s, d);
    assert d.nodes[cfg.leader] == c.nodes[cfg.leader];
    hide Next, Effect, NodeOk;
    OwnerInstalls(cfg, d, t, total);
    ExceedsLater(cfg, c, s, d);
  }

  /** The leader has decided, and a follower that does not stand by its report has something left to admit. */
  ghost predicate Decided(cfg: Config, c: Cluster, f: NodeId, t: nat, total: nat, p: Packet)
  {
    && cfg.leader in c.nodes && cfg.owner in c.nodes && cfg.leader in cfg.members && cfg.owner in cfg.members
    && cfg.leader in cfg.capacity && cfg.owner in cfg.capacity && f in cfg.capacity && f in cfg.members
    && f in c.nodes && f != cfg.leader && p in c.net && IsPrepareFor(cfg, p, f, t)
    && NodeOk(cfg, f, c.nodes[f]) && c.nodes[f].state == Idle && c.nodes[f].engine.mode == ReservedPeak && Slack(c.nodes[f]) > 0
    && (var ld := c.nodes[cfg.leader];
        NodeOk(cfg, cfg.leader, ld) && ld.state == LeaderCommitting && ld.activeTerm == t > 0 && ld.committedTotal == total <= cfg.limit)
    && var n := c.nodes[cfg.owner];
       if n.engine.mode == DangerStrict then NodeOk(cfg, cfg.owner, n) && AcceptedSum(c) == n.engine.strictValue
       else
         && AcceptedSum(c) == total && cfg.owner != cfg.leader && cfg.owner !in c.nodes[cfg.leader].commitAcks
         && (cfg.owner == f || (NodeOk(cfg, cfg.owner, n) && JoinedTerm(n, t)))
  }

  /** What a follower has not yet spent of its own reservation. */
  function Slack(n: Node): (s: int)
  {
    n.engine.reservation - n.engine.peakTotal
  }

  lemma DecidedExceeds(cfg: Config, c: Cluster, f: NodeId, t: nat, total: nat, p: Packet)
    requires Decided(cfg, c, f, t, total, p)
    ensures CanExceed(cfg, c)
  {
    var n := c.nodes[f];
    var slack: nat := Slack(n);
    var s := Admit(f, slack, n.engine.counter);
    var d := Effect(cfg, c, s);
    AdmitSum(cfg, c, f, slack, n.engine.counter);
    assert Next(cfg, c, s, d);
    SpentNode(cfg, f, n, slack);
    hide AcceptedSum, CanExceed, Next;
    assert d.nodes[f].state == Idle && d.nodes[f].engine.mode == ReservedPeak && p in d.net;
    assert forall i :: i in c.nodes && i != f ==> d.nodes[i] == c.nodes[i];
    var owner := c.nodes[cfg.owner];
    if owner.engine.mode == DangerStrict {
      StrictIsOpen(cfg, owner);
      hide NodeOk, Effect;
      StrictOwnerExceeds(cfg, d);
    } else if cfg.owner == f {
      hide NodeOk, Effect;
      OwnerRejoins(cfg, d, t, total, p);
    } else {
      hide NodeOk, Effect;
      OwnerInstalls(cfg, d, t, total);
    }
    ExceedsLater(cfg, c, s, d);
  }

  lemma SpentNode(cfg: Config, f: NodeId, n: Node, slack: nat)
    requires f in cfg.capacity && NodeOk(cfg, f, n) && n.state == Idle && n.engine.mode == ReservedPeak && slack == Slack(n)
    ensures AcceptAllowed(n.engine, slack)
    ensures NodeOk(cfg, f, n.(engine := Accept(n.engine, slack, n.engine.counter)))
  {
  }

  lemma StrictIsOpen(cfg: Config, n: Node)
    requires cfg.owner in cfg.capacity && NodeOk(cfg, cfg.owner, n) && n.engine.mode == DangerStrict
    ensures n.engine.gateOpen && n.engine.strictValue <= n.engine.limit == cfg.limit
  {
  }

  // ---------------------------------------------------------------- giving up

  /** A follower's two ways to give up: its deadline passes, or its controller is torn down. */
  predicate GivesUp(s: Step, f: NodeId)
  {
    s == TearDown(f, GiveUpEnv(s)) || (s == Turn(f, GiveUpEnv(s)) && GiveUpEnv(s).deadlinePassed)
  }

  function GiveUpEnv(s: Step): (env: Env)
  {
    match s
    case TearDown(_, env) => env
    case Turn(_, env) => env
    case _ => RETRY
  }

  lemma GivingUpIsAborting(cfg: Config, c: Cluster, f: NodeId, s: Step)
    requires f in c.nodes && f != cfg.leader && c.nodes[f].state == FollowerPrepared && GivesUp(s, f)
    ensures Actor(s) == f
    ensures Effect(cfg, c, s) == Update(cfg, c, f, AbortPrepare(cfg, f, c.nodes[f], false, GiveUpEnv(s)))
    ensures AbortPrepare(cfg, f, c.nodes[f], false, GiveUpEnv(s)).sent == {}
  {
    var n := c.nodes[f];
    if s.Turn? {
      assert !LowWater(cfg, n, s.env);
    }
  }

  /** The node that has given up: at rest, open, and with everything it had used. */
  lemma GaveUpNode(cfg: Config, f: NodeId, n: Node, env: Env)
    requires f in cfg.capacity && f != cfg.leader && NodeOk(cfg, f, n) && n.state == FollowerPrepared
    ensures
      var n' := AbortPrepare(cfg, f, n, false, env).node;
      && NodeOk(cfg, f, n') && n'.state == Idle && n'.lastCommittedTerm == 0 && n'.activeTerm == 0
      && n'.engine == n.engine.(handoffActive := false, gateOpen := true) && n'.engine.mode == ReservedPeak
  {
  }

  /** Once its term is decided, a follower that gives up with anything left breaks the limit. */
  lemma DecidedTermBreaks(cfg: Config, c: Cluster, f: NodeId, s: Step, p: Packet)
    requires ValidConfig(cfg) && Inv(cfg, c) && f in c.nodes && f != cfg.leader && c.nodes[f].state == FollowerPrepared
    requires InstalledTerm(c.nodes[cfg.leader]) == c.nodes[f].activeTerm && Slack(c.nodes[f]) > 0
    requires GivesUp(s, f) && p in c.net && IsPrepareFor(cfg, p, f, c.nodes[f].activeTerm)
    ensures CanExceed(cfg, Effect(cfg, c, s))
  {
    var n, ld, owner := c.nodes[f], c.nodes[cfg.leader], c.nodes[cfg.owner];
    GivingUpIsAborting(cfg, c, f, s);
    assert NodeOk(cfg, f, n) && NodeOk(cfg, cfg.leader, ld) && NodeOk(cfg, cfg.owner, owner);
    GaveUpNode(cfg, f, n, GiveUpEnv(s));
    var o := AbortPrepare(cfg, f, n, false, GiveUpEnv(s));
    var d := Update(cfg, c, f, o);
    QuietSum(cfg, c, f, o);
    AcceptedIsAccounted(cfg, c);
    OwnerOfDecided(cfg, c, f);
    assert cfg.leader in cfg.members && cfg.owner in cfg.members && c.nodes.Keys == cfg.members == cfg.capacity.Keys;
    hide ValidConfig, Inv, AcceptedSum, CanExceed, NodeOk, FrozenSum, AbortPrepare, Effect, GivesUp;
    LeftDecided(cfg, c, f, o, n.activeTerm, ld.committedTotal, p);
    DecidedExceeds(cfg, d, f, n.activeTerm, ld.committedTotal, p);
  }

  lemma LeftDecided(cfg: Config, c: Cluster, f: NodeId, o: Outcome, t: nat, total: nat, p: Packet)
    requires cfg.leader in cfg.members && cfg.owner in cfg.members && c.nodes.Keys == cfg.members == cfg.capacity.Keys
    requires f in cfg.members && f != cfg.leader && p in c.net && IsPrepareFor(cfg, p, f, t) && o.sent == {}
    requires NodeOk(cfg, f, o.node) && o.node.state == Idle && o.node.engine.mode == ReservedPeak && Slack(o.node) > 0
    requires NodeOk(cfg, cfg.leader, c.nodes[cfg.leader]) && NodeOk(cfg, cfg.owner, c.nodes[cfg.owner])
    requires
      var ld, n := c.nodes[cfg.leader], c.nodes[cfg.owner];
      && ld.state == LeaderCommitting && ld.activeTerm == t > 0 && ld.committedTotal == total <= cfg.limit
      && (cfg.owner == cfg.leader ==> n.engine.mode == DangerStrict)
      && (n.engine.mode != DangerStrict ==> cfg.owner !in ld.commitAcks && JoinedTerm(n, t))
      && (n.engine.mode == DangerStrict ==> cfg.owner != f)
      && AcceptedSum(Update(cfg, c, f, o)) == if n.engine.mode == DangerStrict then n.engine.strictValue else total
    ensures Decided(cfg, Update(cfg, c, f, o), f, t, total, p)
  {
    hide NodeOk, AcceptedSum;
  }

  /** While a follower is still prepared for the decided term, the leader goes on committing. */
  lemma OwnerOfDecided(cfg: Config, c: Cluster, f: NodeId)
    requires ValidConfig(cfg) && Inv(cfg, c) && f in c.nodes && f != cfg.leader && c.nodes[f].state == FollowerPrepared
    requires InstalledTerm(c.nodes[cfg.leader]) == c.nodes[f].activeTerm
    ensures
      var ld, n, t := c.nodes[cfg.leader], c.nodes[cfg.owner], c.nodes[f].activeTerm;
      && ld.state == LeaderCommitting && ld.activeTerm == t > 0 && ld.committedTotal == FrozenSum(c) <= cfg.limit
      && (cfg.owner == cfg.leader ==> n.engine.mode == DangerStrict)
      && (n.engine.mode != DangerStrict ==> cfg.owner !in ld.commitAcks && JoinedTerm(n, t))
      && (n.engine.mode == DangerStrict ==> cfg.owner != f)
  {
    hide NetOk, FrozenSum;
    var ld, n, t := c.nodes[cfg.leader], c.nodes[cfg.owner], c.nodes[f].activeTerm;
    assert NodeOk(cfg, f, c.nodes[f]) && NodeOk(cfg, cfg.leader, ld) && NodeOk(cfg, cfg.owner, n);
    if cfg.owner != cfg.leader {
      assert FollowerOk(c, t, n);
    }
  }
}
