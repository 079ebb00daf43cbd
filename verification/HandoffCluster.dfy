/** Fixed-membership clusters as a state machine: every run interleaves frame deliveries,
    timer turns, teardowns, admissions and local mode changes of all nodes. */
module HandoffCluster {
  import opened CounterTypes
  import opened HandoffProtocol
  import Sums

  /** `net` only grows: any packet may be lost, duplicated, delayed or reordered.
      `issued` is the highest term the leader ever opened. */
  datatype Cluster = Cluster(nodes: map<NodeId, Node>, net: set<Packet>, issued: nat)

  datatype Step =
    | Deliver(p: Packet, env: Env)
    | Turn(self: NodeId, env: Env)
    | TearDown(self: NodeId, env: Env)
    | Admit(self: NodeId, delta: nat, counter: nat)
    | CollapseLocally(self: NodeId)
    | EnterPeakLocally(self: NodeId)

  /** A cluster for which a handoff makes sense: at least two members, every reservation
      non-zero and all of them together within the limit. */
  ghost predicate ValidConfig(cfg: Config)
  {
    && cfg.leader in cfg.members && cfg.owner in cfg.members
    && |cfg.members| >= 2
    && cfg.capacity.Keys == cfg.members
    && (forall i :: i in cfg.members ==> cfg.capacity[i] > 0)
    && Sums.SumMap<NodeId>(cfg.capacity) <= cfg.limit <= U64_MAX
  }

  /** A node after start-up: in peak mode, nothing used, no handoff under way. */
  predicate FreshNode(cfg: Config, capacity: nat, n: Node)
  {
    && n.engine == Engine(cfg.limit, capacity, ReservedPeak, true, false, 0, 0, n.engine.counter, n.engine.epoch, 0)
    && n.journal.phase == IdleRecord && n.older == {}
    && !n.fenced && n.state == Idle && n.activeTerm == 0 && n.lastCommittedTerm == 0
  }

  ghost predicate Init(cfg: Config, c: Cluster)
  {
    && c.nodes.Keys == cfg.members
    && (forall i :: i in cfg.members && i in cfg.capacity ==> FreshNode(cfg, cfg.capacity[i], c.nodes[i]))
    && c.net == {} && c.issued == 0
  }

  /** The term a node has installed a committed handoff for, 0 if none. */
  function InstalledTerm(n: Node): (t: nat)
  {
    if n.state == LeaderCommitting then n.activeTerm else n.lastCommittedTerm
  }

  /** The leader is still collecting term t, or has decided to commit it. */
  predicate Holds(ld: Node, t: nat)
  {
    t > 0 && ((ld.state == LeaderPreparing && ld.activeTerm == t) || InstalledTerm(ld) == t)
  }

  /** Hypothesis on time: a follower abandons a prepared term, by timeout or by teardown,
      only if the leader neither collects it any more nor has committed it. */
  predicate MayAbandon(cfg: Config, c: Cluster, n: Node)
    requires cfg.leader in c.nodes
  {
    n.state == FollowerPrepared ==> !Holds(c.nodes[cfg.leader], n.activeTerm)
  }

  /** Hypothesis on the clock: it has moved past every term opened before. */
  predicate FreshTerm(c: Cluster, env: Env, n: Node, n': Node)
  {
    n.state == Idle && n'.state == LeaderPreparing ==> env.clock > c.issued
  }

  function Issue(cfg: Config, c: Cluster, self: NodeId, n': Node): (t: nat)
  {
    if self == cfg.leader then Max(c.issued, n'.activeTerm) else c.issued
  }

  /** Replaces one node and adds what it sent. */
  function Update(cfg: Config, c: Cluster, self: NodeId, o: Outcome): (c': Cluster)
  {
    Cluster(c.nodes[self := o.node], c.net + o.sent, Issue(cfg, c, self, o.node))
  }

  function WithEngine(n: Node, e: Engine): (o: Outcome)
  {
    Outcome(n.(engine := e), {})
  }

  /** What a step does, whether or not the hypotheses on time hold. */
  ghost function Effect(cfg: Config, c: Cluster, s: Step): (c': Cluster)
    requires Actor(s) in c.nodes
  {
    var n := c.nodes[Actor(s)];
    match s
    case Deliver(p, env) => Update(cfg, c, p.dst, HandleFrame(cfg, p.dst, n, p.frame, env))
    case Turn(self, env) => Update(cfg, c, self, Tick(cfg, self, n, env))
    case TearDown(self, env) => Update(cfg, c, self, Stop(cfg, self, n, env))
    case Admit(self, delta, counter) => Update(cfg, c, self, WithEngine(n, Accept(n.engine, delta, counter)))
    case CollapseLocally(self) => Update(cfg, c, self, WithEngine(n, LocalDanger(n.engine)))
    case EnterPeakLocally(self) => Update(cfg, c, self, WithEngine(n, LocalReserved(n.engine)))
  }

  function Actor(s: Step): (i: NodeId)
  {
    if s.Deliver? then s.p.dst else s.self
  }

  /** The network delivers only what was sent; a request is accepted only when the engine
      may accept it. */
  predicate Enabled(cfg: Config, c: Cluster, s: Step)
  {
    && Actor(s) in c.nodes && Actor(s) in cfg.members
    && match s
       case Deliver(p, env) => p in c.net
       case Turn(self, env) => env.scan <= c.nodes[self].engine.peakTotal
       case TearDown(self, env) => true
       case Admit(self, delta, counter) => AcceptAllowed(c.nodes[self].engine, delta)
       case CollapseLocally(self) => true
       case EnterPeakLocally(self) => true
  }

  /** The hypotheses on clocks and timeouts. */
  ghost predicate Timely(cfg: Config, c: Cluster, s: Step)
    requires Actor(s) in c.nodes && cfg.leader in c.nodes
  {
    var n := c.nodes[Actor(s)];
    var n' := Effect(cfg, c, s).nodes[Actor(s)];
    match s
    case Deliver(p, env) => FreshTerm(c, env, n, n')
    case Turn(self, env) => FreshTerm(c, env, n, n') && (env.deadlinePassed ==> MayAbandon(cfg, c, n))
    case TearDown(self, env) => MayAbandon(cfg, c, n)
    case Admit(self, delta, counter) => true
    case CollapseLocally(self) => true
    case EnterPeakLocally(self) => true
  }

  ghost predicate Next(cfg: Config, c: Cluster, s: Step, c': Cluster)
  {
    && cfg.leader in c.nodes
    && Enabled(cfg, c, s)
    && Timely(cfg, c, s)
    && c' == Effect(cfg, c, s)
  }

  ghost predicate StepAt(cfg: Config, run: seq<Cluster>, steps: seq<Step>, k: nat)
    requires |run| == |steps| + 1
  {
    k < |steps| ==> Next(cfg, run[k], steps[k], run[k + 1])
  }

  /** A run: run[0] is a start state and steps[k] leads from run[k] to run[k + 1]. */
  ghost predicate IsRun(cfg: Config, run: seq<Cluster>, steps: seq<Step>)
  {
    && |run| == |steps| + 1
    && Init(cfg, run[0])
    && forall k: nat :: StepAt(cfg, run, steps, k)
  }

  function PeakTotals(c: Cluster): (m: map<NodeId, nat>)
  {
    map i | i in c.nodes :: c.nodes[i].engine.peakTotal
  }

  function AcceptedTotals(c: Cluster): (m: map<NodeId, nat>)
  {
    map i | i in c.nodes :: c.nodes[i].engine.accepted
  }

  /** Everything ever answered Accepted, anywhere. */
  ghost function AcceptedSum(c: Cluster): (s: nat)
  {
    Sums.SumMap<NodeId>(AcceptedTotals(c))
  }

  ghost function FrozenSum(c: Cluster): (s: nat)
  {
    Sums.SumMap<NodeId>(PeakTotals(c))
  }
}
