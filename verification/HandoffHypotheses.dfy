/** Why the hypothesis on timeouts is there: the timers of the protocol do not enforce it,
    and a run that breaks it once can exceed the limit. */
module HandoffHypotheses {
  import opened CounterTypes
  import opened HandoffProtocol
  import opened HandoffCluster
  import opened HandoffInvariant
  import opened HandoffAbandon
  import opened HandoffGather
  import opened HandoffStaleReport
  import opened HandoffGivingUp
  import Sums

  /** A step as the code allows it, with no hypothesis on when timers fire. */
  ghost predicate Untimed(cfg: Config, c: Cluster, s: Step, c': Cluster)
  {
    Enabled(cfg, c, s) && c' == Effect(cfg, c, s)
  }

  ghost predicate UntimedAt(cfg: Config, run: seq<Cluster>, steps: seq<Step>, k: nat)
    requires |run| == |steps| + 1
  {
    k < |steps| ==> Untimed(cfg, run[k], steps[k], run[k + 1])
  }

  /** Step k of a run meets the hypotheses on clocks and timeouts. */
  ghost predicate TimelyAt(cfg: Config, run: seq<Cluster>, steps: seq<Step>, k: nat)
  {
    && k < |steps| && k < |run|
    && Actor(steps[k]) in run[k].nodes && cfg.leader in run[k].nodes
    && Timely(cfg, run[k], steps[k])
  }

  ghost predicate IsUntimedRun(cfg: Config, run: seq<Cluster>, steps: seq<Step>)
  {
    && |run| == |steps| + 1
    && Init(cfg, run[0])
    && forall k: nat :: UntimedAt(cfg, run, steps, k)
  }

  // ---------------------------------------------------------------- a concrete run

  const PAIR := Config({0, 1}, 0, 0, 2, map[0 := 1, 1 := 1], 2)

  const CALM := Env(10, 0, false, false, false, Durable, Durable, Durable)

  const EMPTY_RECORD := JournalRecord(IdleRecord, 0, 0, 0, 0, 0)

  const ZERO := Drained(7, 1, 0)

  const OPEN := Engine(2, 1, ReservedPeak, true, false, 0, 0, 7, 1, 0)

  const SHUT := OPEN.(gateOpen := false, handoffActive := true)

  const FRESH := Node(OPEN, EMPTY_RECORD, {}, false, Idle, 0, 0, map[], {}, 0, 0, 0)

  const COLLECTING := FRESH.(
    engine := SHUT, journal := PreparedRecordOf(PAIR, 10, ZERO), state := LeaderPreparing, activeTerm := 10, prepared := map[0 := ZERO])

  const PREPARED := FRESH.(
    engine := SHUT, journal := PreparedRecordOf(PAIR, 10, ZERO), state := FollowerPrepared, activeTerm := 10, prepared := map[1 := ZERO])

  const DECIDED := COLLECTING.(
    engine := OPEN.(mode := DangerStrict, epoch := 2), journal := CommittedRecordOf(PAIR, 10, ZERO, 0),
    prepared := map[0 := ZERO, 1 := ZERO], state := LeaderCommitting, commitAcks := {0}, committedCounter := 7, committedEpoch := 1)

  const ASK := Packet(1, MakeFrame(PAIR, 0, Prepare, 10, ZERO))

  const REPORT := Packet(0, MakeFrame(PAIR, 1, Prepared, 10, ZERO))

  const START := Cluster(map[0 := FRESH, 1 := FRESH], {}, 0)

  const OPENED := Cluster(map[0 := COLLECTING, 1 := FRESH], {ASK}, 10)

  const REPORTED := Cluster(map[0 := COLLECTING, 1 := PREPARED], {ASK, REPORT}, 10)

  const GAVE_UP := Cluster(map[0 := COLLECTING, 1 := FRESH], {ASK, REPORT}, 10)

  const SPLIT := Cluster(map[0 := DECIDED, 1 := FRESH], {ASK, REPORT}, 10)

  const SPENT := FRESH.(engine := Accept(OPEN, 1, 7))

  const HALF := Cluster(map[0 := DECIDED, 1 := SPENT], {ASK, REPORT}, 10)

  const OWNER_SPENT := DECIDED.(engine := Accept(DECIDED.engine, 2, 7))

  const OVER := Cluster(map[0 := OWNER_SPENT, 1 := SPENT], {ASK, REPORT}, 10)

  const LATE := CALM.(deadlinePassed := true)

  /** The leader collects; the follower reports, gives up by timeout and reopens; the late
      report completes the collection; both sides then admit. */
  const LATE_STEPS: seq<Step> := [
    Turn(0, CALM), Deliver(ASK, CALM), Turn(1, LATE), Deliver(REPORT, CALM), Admit(1, 1, 7), Admit(0, 2, 7)]

  const LATE_RUN: seq<Cluster> := [START, OPENED, REPORTED, GAVE_UP, SPLIT, HALF, OVER]

  lemma PairIsValid()
    ensures ValidConfig(PAIR)
  {
    Sums.SumMapRemove<NodeId>(PAIR.capacity, 0);
    Sums.SumMapRemove<NodeId>(PAIR.capacity - {0}, 1);
    assert PAIR.capacity - {0} - {1} == map[];
  }

  lemma PairSum(x: nat, y: nat)
    ensures Sums.SumMap<NodeId>(map[0 := x, 1 := y]) == x + y
  {
    var m: map<NodeId, nat> := map[0 := x, 1 := y];
    Sums.SumMapRemove<NodeId>(m, 0);
    Sums.SumMapRemove<NodeId>(m - {0}, 1);
    assert m - {0} - {1} == map[];
  }

  lemma LeaderOpensTerm()
    ensures Untimed(PAIR, START, Turn(0, CALM), OPENED) && Timely(PAIR, START, Turn(0, CALM))
  {
    assert Peers(PAIR, 0) == {1};
    assert BeginLeaderPrepare(PAIR, 0, FRESH, CALM) == COLLECTING;
    assert Tick(PAIR, 0, FRESH, CALM).sent == {ASK};
    assert START.nodes[0 := COLLECTING] == OPENED.nodes;
  }

  lemma FollowerReports()
    ensures Untimed(PAIR, OPENED, Deliver(ASK, CALM), REPORTED) && Timely(PAIR, OPENED, Deliver(ASK, CALM))
  {
    assert HandlePrepare(PAIR, 1, FRESH, ASK.frame, CALM) == Outcome(PREPARED, {REPORT});
    assert OPENED.nodes[1 := PREPARED] == REPORTED.nodes;
    assert OPENED.net + {REPORT} == REPORTED.net;
  }

  lemma FollowerGivesUp()
    ensures Untimed(PAIR, REPORTED, Turn(1, LATE), GAVE_UP) && !Timely(PAIR, REPORTED, Turn(1, LATE))
  {
    assert Tick(PAIR, 1, PREPARED, LATE) == Outcome(FRESH, {});
    assert REPORTED.nodes[1 := FRESH] == GAVE_UP.nodes;
  }

  lemma LateReportCompletes()
    ensures HandleFrame(PAIR, 0, COLLECTING, REPORT.frame, CALM) == Outcome(DECIDED, {})
  {
    var full: map<NodeId, Drained> := map[0 := ZERO, 1 := ZERO];
    assert COLLECTING.prepared[1 := ZERO] == full;
    assert PreparedTotals(full) == map[0 := 0, 1 := 0];
    PairSum(0, 0);
    assert |full.Keys| == |full| && full.Keys == {0, 1};
    CompleteCollection(full);
  }

  lemma CompleteCollection(full: map<NodeId, Drained>)
    requires full == map[0 := ZERO, 1 := ZERO] && |full| == 2 && PreparedSum(full) == 0
    ensures TryBeginCommit(PAIR, 0, COLLECTING.(prepared := full), CALM) == Outcome(DECIDED, {})
  {
    assert |PAIR.members| == 2;
  }

  lemma LateReportDecides()
    ensures Untimed(PAIR, GAVE_UP, Deliver(REPORT, CALM), SPLIT) && Timely(PAIR, GAVE_UP, Deliver(REPORT, CALM))
  {
    LateReportCompletes();
    assert GAVE_UP.nodes[0 := DECIDED] == SPLIT.nodes;
    assert GAVE_UP.net + {} == SPLIT.net;
  }

  lemma BothAdmit()
    ensures Untimed(PAIR, SPLIT, Admit(1, 1, 7), HALF)
    ensures Untimed(PAIR, HALF, Admit(0, 2, 7), OVER)
  {
    assert SPLIT.nodes[1 := SPENT] == HALF.nodes;
    assert HALF.nodes[0 := OVER.nodes[0]] == OVER.nodes;
  }

  lemma PairAccepted(a: Node, b: Node, net: set<Packet>, issued: nat)
    ensures AcceptedSum(Cluster(map[0 := a, 1 := b], net, issued)) == a.engine.accepted + b.engine.accepted
  {
    PairSum(a.engine.accepted, b.engine.accepted);
    assert AcceptedTotals(Cluster(map[0 := a, 1 := b], net, issued)) == map[0 := a.engine.accepted, 1 := b.engine.accepted];
  }

  lemma ThreeAccepted()
    ensures AcceptedSum(OVER) == 3
  {
    hide AcceptedSum;
    PairAccepted(OWNER_SPENT, SPENT, {ASK, REPORT}, 10);
  }

  lemma LateRunStep(k: nat)
    ensures UntimedAt(PAIR, LATE_RUN, LATE_STEPS, k)
    ensures k < 6 ==> (TimelyAt(PAIR, LATE_RUN, LATE_STEPS, k) <==> k != 2)
  {
    if k == 0 {
      LeaderOpensTerm();
    } else if k == 1 {
      FollowerReports();
    } else if k == 2 {
      FollowerGivesUp();
    } else if k == 3 {
      LateReportDecides();
    } else if k <= 5 {
      BothAdmit();
    }
  }

  /** Without the hypothesis the hard limit fails: one early follower timeout, with every
      journal write durable and no packet lost, lets three units through a limit of two. */
  lemma LimitFailsWhenAFollowerGivesUpTooEarly()
    ensures ValidConfig(PAIR) && IsUntimedRun(PAIR, LATE_RUN, LATE_STEPS)
    ensures AcceptedSum(OVER) == PAIR.limit + 1 && LATE_RUN[|LATE_RUN| - 1] == OVER
    ensures forall k: nat :: k < 6 ==> (TimelyAt(PAIR, LATE_RUN, LATE_STEPS, k) <==> k != 2)
  {
    hide AcceptedSum, IsUntimedRun, ValidConfig, TimelyAt;
    PairIsValid();
    ThreeAccepted();
    LateRunIsARun();
    forall k: nat | k < 6
      ensures TimelyAt(PAIR, LATE_RUN, LATE_STEPS, k) <==> k != 2
    {
      LateRunStep(k);
    }
  }

  lemma LateRunIsARun()
    ensures IsUntimedRun(PAIR, LATE_RUN, LATE_STEPS)
  {
    forall k: nat ensures UntimedAt(PAIR, LATE_RUN, LATE_STEPS, k) {
      LateRunStep(k);
    }
  }

  /** The exhibited timeout is an instance of the exact condition: the follower has something
      left to admit, and every report can still agree with the leader's. */
  lemma LateTimeoutMeetsTheCondition()
    ensures LATE_STEPS[2] == Turn(1, LATE) && GivesUp(LATE_STEPS[2], 1) && LATE_RUN[2] == REPORTED
    ensures StillCounts(PAIR, REPORTED, REPORTED.nodes[1]) && Slack(REPORTED.nodes[1]) > 0
    ensures Collects(REPORTED.nodes[0], 10)
  {
    assert CanAgree(COLLECTING, PREPARED, 10);
  }
}
