/** What a controller does with each frame, with each turn of its timers and when it is torn down,
    said about the fields of the node and the packets it sends. */
module HandoffAnswers {
  import opened CounterTypes
  import opened HandoffProtocol
  import opened HandoffInvariant
  import opened HandoffRecovery
  import HandoffCluster
  import Sums

  // ---------------------------------------------------------------- nodes that a controller can have

  /** Closed, drained, and holding the exact state it drained to. */
  predicate Shut(self: NodeId, n: Node)
  {
    && n.engine.mode == ReservedPeak && n.engine.handoffActive && !n.engine.gateOpen
    && self in n.prepared && n.prepared[self] == Drained(n.engine.counter, n.engine.epoch, n.engine.peakTotal)
  }

  predicate Coherent(cfg: Config, self: NodeId, n: Node)
  {
    && (n.fenced ==> n.state == Idle)
    && match n.state
       case Idle => n.activeTerm == 0 && !n.engine.handoffActive && (!n.fenced ==> n.engine.gateOpen)
       case LeaderPreparing => self == cfg.leader && Shut(self, n) && n.prepared.Keys <= cfg.members
       case FollowerPrepared => self != cfg.leader && Shut(self, n)
       case FollowerCommitting => self != cfg.leader && Shut(self, n)
       case LeaderCommitBlocked => self == cfg.leader && Shut(self, n)
       case LeaderCommitting => self == cfg.leader && !n.engine.handoffActive && n.engine.gateOpen && n.commitAcks <= cfg.members
  }

  // ---------------------------------------------------------------- what it may do

  predicate Silent(n: Node, o: Outcome)
  {
    o.node == n && o.sent == {}
  }

  /** Exactly one packet to each destination. */
  predicate Sends(cfg: Config, self: NodeId, sent: set<Packet>, dsts: set<NodeId>, kind: Kind, term: nat, counter: nat, epoch: nat, value: nat)
  {
    && (forall dst :: dst in dsts ==> Packet(dst, Frame(kind, self, term, counter, epoch, value, cfg.owner)) in sent)
    && (forall p :: p in sent ==> p.dst in dsts && p.frame == Frame(kind, self, term, counter, epoch, value, cfg.owner))
  }

  /** The disk after a write that ended in o. */
  predicate Wrote(n: Node, o: StoreOutcome, rec: JournalRecord, n': Node)
  {
    match o
    case Durable => n'.journal == rec && n'.older == {}
    case NotWritten => n'.journal == n.journal && n'.older == n.older
    case WrittenButFailed => n'.journal == rec && n'.older == n.older + {n.journal}
  }

  /** Everything but engine, journal, state, term, reports, acknowledgements and the decision. */
  predicate KeepsRest(n: Node, n': Node)
  {
    n' == n.(engine := n'.engine, journal := n'.journal, older := n'.older, state := n'.state, activeTerm := n'.activeTerm, prepared := n'.prepared)
  }

  /** The gate reopens on exactly what it closed on, and an idle record is written. */
  predicate RolledBack(cfg: Config, n: Node, env: Env, n': Node)
  {
    && n'.state == Idle && n'.activeTerm == 0 && n'.prepared == map[]
    && n'.engine == n.engine.(mode := ReservedPeak, gateOpen := true, handoffActive := false)
    && Wrote(n, env.onIdle, JournalRecord(IdleRecord, 0, 0, 0, 0, cfg.owner), n')
    && KeepsRest(n, n')
  }

  /** The least term that is positive, not below the clock, and above the last one committed
      unless that is the greatest number there is. */
  predicate IsNextTerm(n: Node, env: Env, t: nat)
  {
    && t >= 1 && t >= env.clock && t >= n.lastCommittedTerm
    && (n.lastCommittedTerm < U64_MAX ==> t > n.lastCommittedTerm)
    && (t == 1 || t == env.clock || t == n.lastCommittedTerm + 1 || (t == n.lastCommittedTerm && t >= U64_MAX))
  }

  /** An open peak node closes for term t and writes what it drained to; if that is not durable, it reopens. */
  predicate Closes(cfg: Config, self: NodeId, n: Node, t: nat, closed: State, env: Env, n': Node)
  {
    var e := n.engine;
    && Wrote(n, env.onPrepared, JournalRecord(PreparedRecord, t, e.counter, e.epoch, e.peakTotal, cfg.owner), n')
    && KeepsRest(n, n')
    && if env.onPrepared == Durable then
         && n'.state == closed && n'.activeTerm == t
         && n'.prepared == map[self := Drained(e.counter, e.epoch, e.peakTotal)]
         && n'.engine == e.(gateOpen := false, handoffActive := true)
       else n'.state == Idle && n'.activeTerm == 0 && n'.prepared == n.prepared && n'.engine == e.(gateOpen := true, handoffActive := false)
  }

  ghost predicate Opens(cfg: Config, self: NodeId, n: Node, env: Env, n': Node)
  {
    exists t: nat :: IsNextTerm(n, env, t) && Closes(cfg, self, n, t, LeaderPreparing, env, n')
  }

  /** The strict mode of the node's role, seeded with the committed total. */
  predicate Installed(cfg: Config, self: NodeId, e: Engine, total: nat, e': Engine)
  {
    e' == e.(mode := if self == cfg.owner then DangerStrict else RemoteStrict, strictValue := total,
             epoch := e.epoch + 1, gateOpen := true, handoffActive := false)
  }

  // ---------------------------------------------------------------- frames

  /** A trigger makes an idle leader in peak mode open a term, and nobody else do anything. */
  ghost predicate TriggerAnswered(cfg: Config, self: NodeId, n: Node, env: Env, o: Outcome)
  {
    if self == cfg.leader && n.state == Idle && n.engine.mode == ReservedPeak then Opens(cfg, self, n, env, o.node) && o.sent == {}
    else Silent(n, o)
  }

  predicate TooLate(n: Node, term: nat)
  {
    || n.state == FollowerCommitting || n.state == LeaderCommitBlocked || n.state == LeaderCommitting
    || term < n.lastCommittedTerm || (n.state == FollowerPrepared && term < n.activeTerm)
  }

  ghost predicate PrepareAnswered(cfg: Config, self: NodeId, n: Node, f: Frame, env: Env, o: Outcome)
  {
    var e := n.engine;
    if f.sender != cfg.leader || f.strictOwner != cfg.owner || TooLate(n, f.term) || e.mode != ReservedPeak then Silent(n, o)
    else if n.state == FollowerPrepared && f.term == n.activeTerm then
      o.node == n && Sends(cfg, self, o.sent, {cfg.leader}, Prepared, f.term, e.counter, e.epoch, e.peakTotal)
    else
      && (if env.onPrepared == Durable then Sends(cfg, self, o.sent, {cfg.leader}, Prepared, f.term, e.counter, e.epoch, e.peakTotal)
          else o.sent == {})
      && if n.state == Idle then Closes(cfg, self, n, f.term, FollowerPrepared, env, o.node)
         else exists m: Node :: RolledBack(cfg, n, env, m) && Closes(cfg, self, m, f.term, FollowerPrepared, env, o.node)
  }

  /** Every report carries the leader's own counter and epoch, and together they fit the limit. */
  ghost predicate Adds(n: Node, table: map<NodeId, Drained>, total: nat)
  {
    && (forall i :: i in table ==> table[i].counter == n.engine.counter && table[i].epoch == n.engine.epoch)
    && total == Sums.SumMap<NodeId>(map i | i in table :: table[i].total) <= n.engine.limit && total <= U64_MAX
  }

  /** The decision, written down before it takes effect; a leader that cannot write it is stuck. */
  ghost predicate Decides(cfg: Config, self: NodeId, n: Node, table: map<NodeId, Drained>, total: nat, env: Env, n': Node)
  {
    var e := n.engine;
    && n'.prepared == table && n'.activeTerm == n.activeTerm && n'.lastCommittedTerm == n.lastCommittedTerm && n'.fenced == n.fenced
    && Wrote(n, env.onCommitted, JournalRecord(CommittedRecord, n.activeTerm, e.counter, e.epoch, total, cfg.owner), n')
    && if env.onCommitted != Durable then n'.state == LeaderCommitBlocked && n'.engine == e
       else
         && n'.state == LeaderCommitting && Installed(cfg, self, e, total, n'.engine) && n'.commitAcks == {self}
         && n'.committedTotal == total && n'.committedCounter == e.counter && n'.committedEpoch == e.epoch
  }

  ghost predicate ReportAnswered(cfg: Config, self: NodeId, n: Node, f: Frame, env: Env, o: Outcome)
  {
    var table := n.prepared[f.sender := Drained(f.counter, f.epoch, f.value)];
    if self != cfg.leader || n.state != LeaderPreparing || f.term != n.activeTerm then Silent(n, o)
    else if table.Keys != cfg.members then o.node == n.(prepared := table) && o.sent == {}
    else if exists total: nat :: Adds(n, table, total) then
      o.sent == {} && exists total: nat :: Adds(n, table, total) && Decides(cfg, self, n, table, total, env, o.node)
    else RolledBack(cfg, n, env, o.node) && Sends(cfg, self, o.sent, cfg.members - {self}, Abort, n.activeTerm, 0, 0, 0)
  }

  predicate CommitAnswered(cfg: Config, self: NodeId, n: Node, f: Frame, env: Env, o: Outcome)
  {
    var e, n' := n.engine, o.node;
    if f.sender != cfg.leader || f.strictOwner != cfg.owner then Silent(n, o)
    else if f.term == n.lastCommittedTerm then
      n' == n && Sends(cfg, self, o.sent, {cfg.leader}, CommitAck, f.term, f.counter, f.epoch, f.value)
    else if (n.state != FollowerPrepared && n.state != FollowerCommitting) || f.term != n.activeTerm then Silent(n, o)
    else
      && Wrote(n, env.onCommitted, JournalRecord(CommittedRecord, f.term, f.counter, f.epoch, f.value, cfg.owner), n')
      && n'.prepared == n.prepared && n'.commitAcks == n.commitAcks && n'.fenced == n.fenced
      && if env.onCommitted == Durable && f.value <= e.limit then
           && n'.state == Idle && n'.activeTerm == 0 && n'.lastCommittedTerm == f.term && Installed(cfg, self, e, f.value, n'.engine)
           && Sends(cfg, self, o.sent, {cfg.leader}, CommitAck, f.term, f.counter, f.epoch, f.value)
         else
           && n'.state == FollowerCommitting && n'.activeTerm == f.term && n'.lastCommittedTerm == n.lastCommittedTerm
           && n'.engine == e && o.sent == {}
  }

  /** The acknowledgement of the last member closes the term. */
  predicate AckAnswered(cfg: Config, self: NodeId, n: Node, f: Frame, o: Outcome)
  {
    var acks := n.commitAcks + {f.sender};
    if self != cfg.leader || n.state != LeaderCommitting || f.term != n.activeTerm then Silent(n, o)
    else
      && o.sent == {}
      && o.node == if acks == cfg.members then n.(commitAcks := acks, state := Idle, activeTerm := 0, lastCommittedTerm := f.term)
                   else n.(commitAcks := acks)
  }

  predicate AbortAnswered(cfg: Config, n: Node, f: Frame, env: Env, o: Outcome)
  {
    if f.sender == cfg.leader && n.state == FollowerPrepared && f.term == n.activeTerm then RolledBack(cfg, n, env, o.node) && o.sent == {}
    else Silent(n, o)
  }

  ghost predicate FrameAnswered(cfg: Config, self: NodeId, n: Node, f: Frame, env: Env, o: Outcome)
  {
    if n.fenced || f.sender == self || f.sender !in cfg.members then Silent(n, o)
    else
      match f.kind
      case Trigger => TriggerAnswered(cfg, self, n, env, o)
      case Prepare => PrepareAnswered(cfg, self, n, f, env, o)
      case Prepared => ReportAnswered(cfg, self, n, f, env, o)
      case Commit => CommitAnswered(cfg, self, n, f, env, o)
      case CommitAck => AckAnswered(cfg, self, n, f, o)
      case Abort => AbortAnswered(cfg, n, f, env, o)
  }

  // ---------------------------------------------------------------- turns and teardown

  /** An idle peak node that owns less than the limit and has at most the threshold left. */
  predicate NearlyOut(cfg: Config, n: Node, env: Env)
  {
    && n.state == Idle && !n.fenced && n.engine.mode == ReservedPeak && n.engine.reservation < n.engine.limit
    && n.engine.reservation - env.scan <= cfg.dangerThreshold
  }

  ghost predicate TurnAnswered(cfg: Config, self: NodeId, n: Node, env: Env, o: Outcome)
  {
    var e, others := n.engine, cfg.members - {self};
    match n.state
    case Idle =>
      if !NearlyOut(cfg, n, env) then Silent(n, o)
      else if self == cfg.leader then
        && Opens(cfg, self, n, env, o.node)
        && (if env.onPrepared == Durable then Sends(cfg, self, o.sent, others, Prepare, o.node.activeTerm, e.counter, e.epoch, e.peakTotal)
            else o.sent == {})
      else o.node == n && Sends(cfg, self, o.sent, if env.triggerDue then {cfg.leader} else {}, Trigger, 0, 0, 0, 0)
    case LeaderPreparing =>
      if env.deadlinePassed then RolledBack(cfg, n, env, o.node) && Sends(cfg, self, o.sent, others, Abort, n.activeTerm, 0, 0, 0)
      else o.node == n && Sends(cfg, self, o.sent, if env.retryDue then others else {}, Prepare, n.activeTerm, e.counter, e.epoch, e.peakTotal)
    case FollowerPrepared =>
      if env.deadlinePassed then RolledBack(cfg, n, env, o.node) && o.sent == {}
      else o.node == n && Sends(cfg, self, o.sent, if env.retryDue then {cfg.leader} else {}, Prepared, n.activeTerm, e.counter, e.epoch, e.peakTotal)
    case LeaderCommitting =>
      && o.node == n
      && Sends(cfg, self, o.sent, if env.retryDue then others - n.commitAcks else {}, Commit, n.activeTerm,
               n.committedCounter, n.committedEpoch, n.committedTotal)
    case FollowerCommitting => Silent(n, o)
    case LeaderCommitBlocked => Silent(n, o)
  }

  predicate StopAnswered(cfg: Config, n: Node, env: Env, o: Outcome)
  {
    if n.state == LeaderPreparing || n.state == FollowerPrepared then RolledBack(cfg, n, env, o.node) && o.sent == {}
    else Silent(n, o)
  }

  // ---------------------------------------------------------------- frames are answered

  lemma GivesBack(cfg: Config, self: NodeId, n: Node, env: Env, broadcast: bool)
    requires (n.state == LeaderPreparing || n.state == FollowerPrepared) && Shut(self, n)
    ensures
      var o := AbortPrepare(cfg, self, n, broadcast, env);
      && RolledBack(cfg, n, env, o.node)
      && (broadcast && self == cfg.leader ==> Sends(cfg, self, o.sent, cfg.members - {self}, Abort, n.activeTerm, 0, 0, 0))
      && (!broadcast || self != cfg.leader ==> o.sent == {})
  {
  }

  lemma LeaderOpens(cfg: Config, self: NodeId, n: Node, env: Env)
    requires self == cfg.leader && n.state == Idle && n.activeTerm == 0 && n.engine.mode == ReservedPeak && !n.engine.handoffActive && n.engine.gateOpen
    ensures Opens(cfg, self, n, env, BeginLeaderPrepare(cfg, self, n, env))
  {
    var t := Max(Max(NextOf(n.activeTerm), NextOf(n.lastCommittedTerm)), env.clock);
    assert IsNextTerm(n, env, t);
    assert Closes(cfg, self, n, t, LeaderPreparing, env, BeginLeaderPrepare(cfg, self, n, env));
  }

  lemma FollowerCloses(cfg: Config, self: NodeId, n: Node, t: nat, env: Env)
    requires self != cfg.leader && cfg.leader in cfg.members
    requires n.state == Idle && n.activeTerm == 0 && n.engine.mode == ReservedPeak && !n.engine.handoffActive && n.engine.gateOpen
    ensures
      var o, e := JoinTerm(cfg, self, n, t, env), n.engine;
      && Closes(cfg, self, n, t, FollowerPrepared, env, o.node)
      && (if env.onPrepared == Durable then Sends(cfg, self, o.sent, {cfg.leader}, Prepared, t, e.counter, e.epoch, e.peakTotal) else o.sent == {})
  {
  }

  lemma PrepareIsAnswered(cfg: Config, self: NodeId, n: Node, f: Frame, env: Env)
    requires Coherent(cfg, self, n) && !n.fenced && f.sender != self && f.sender in cfg.members
    ensures PrepareAnswered(cfg, self, n, f, env, HandlePrepare(cfg, self, n, f, env))
  {
    if f.sender == cfg.leader && f.strictOwner == cfg.owner && !TooLate(n, f.term) && n.engine.mode == ReservedPeak {
      if n.state == Idle {
        FollowerCloses(cfg, self, n, f.term, env);
      } else if f.term != n.activeTerm {
        GivesBack(cfg, self, n, env, false);
        FollowerCloses(cfg, self, AbortPrepare(cfg, self, n, false, env).node, f.term, env);
      }
    }
  }

  lemma ReportIsAnswered(cfg: Config, self: NodeId, n: Node, f: Frame, env: Env)
    requires Coherent(cfg, self, n) && !n.fenced && f.sender != self && f.sender in cfg.members && self in cfg.members
    ensures ReportAnswered(cfg, self, n, f, env, HandlePrepared(cfg, self, n, f, env))
  {
    if self == cfg.leader && n.state == LeaderPreparing && f.term == n.activeTerm {
      var table := n.prepared[f.sender := Drained(f.counter, f.epoch, f.value)];
      CompleteByCount(cfg, n.prepared, f.sender, Drained(f.counter, f.epoch, f.value));
      var m := n.(prepared := table);
      if table.Keys == cfg.members {
        assert PreparedTotals(table) == map i | i in table :: table[i].total;
        FullTable(cfg, self, n, table, env);
      }
    }
  }

  lemma CompleteByCount(cfg: Config, table: map<NodeId, Drained>, i: NodeId, d: Drained)
    requires table.Keys <= cfg.members && i in cfg.members
    ensures |table[i := d]| == |cfg.members| <==> table[i := d].Keys == cfg.members
  {
    var table' := table[i := d];
    assert table'.Keys == table.Keys + {i} && |table'.Keys| == |table'|;
    if |table'| == |cfg.members| {
      SameSizeSubset(table'.Keys, cfg.members);
    }
  }

  /** A complete table is decided on if it adds up, and given up otherwise. */
  lemma FullTable(cfg: Config, self: NodeId, n: Node, table: map<NodeId, Drained>, env: Env)
    requires self == cfg.leader && n.state == LeaderPreparing && Shut(self, n) && self in table && table[self] == n.prepared[self]
    requires |table| == |cfg.members| && PreparedTotals(table) == map i | i in table :: table[i].total
    ensures
      var o := TryBeginCommit(cfg, self, n.(prepared := table), env);
      if exists total: nat :: Adds(n, table, total) then
        o.sent == {} && exists total: nat :: Adds(n, table, total) && Decides(cfg, self, n, table, total, env, o.node)
      else RolledBack(cfg, n, env, o.node) && Sends(cfg, self, o.sent, cfg.members - {self}, Abort, n.activeTerm, 0, 0, 0)
  {
    var m := n.(prepared := table);
    var total := PreparedSum(table);
    assert ReportsAgree(table, OwnDrained(self, m)) && total <= n.engine.limit && total <= U64_MAX <==> Adds(n, table, total);
    if Adds(n, table, total) {
      assert Decides(cfg, self, n, table, total, env, Decide(cfg, self, m, OwnDrained(self, m), total, env));
    } else {
      forall t: nat
        ensures !Adds(n, table, t)
      {
        assert Adds(n, table, t) ==> t == total;
      }
      GivesBack(cfg, self, m, env, true);
    }
  }

  lemma CommitIsAnswered(cfg: Config, self: NodeId, n: Node, f: Frame, env: Env)
    requires Coherent(cfg, self, n) && !n.fenced && f.sender != self && f.sender in cfg.members
    ensures CommitAnswered(cfg, self, n, f, env, HandleCommit(cfg, self, n, f, env))
  {
  }

  lemma AckIsAnswered(cfg: Config, self: NodeId, n: Node, f: Frame)
    requires Coherent(cfg, self, n) && f.sender in cfg.members
    ensures AckAnswered(cfg, self, n, f, HandleCommitAck(cfg, self, n, f))
  {
    if n.state == LeaderCommitting {
      var acks := n.commitAcks + {f.sender};
      if |acks| == |cfg.members| {
        SameSizeSubset(acks, cfg.members);
      }
    }
  }

  /** Every frame, authentic or not, is answered as stated. */
  lemma FrameIsAnswered(cfg: Config, self: NodeId, n: Node, f: Frame, env: Env)
    requires Coherent(cfg, self, n) && self in cfg.members && cfg.leader in cfg.members
    ensures FrameAnswered(cfg, self, n, f, env, HandleFrame(cfg, self, n, f, env))
  {
    if !n.fenced && f.sender != self && f.sender in cfg.members {
      match f.kind
      case Trigger =>
        if self == cfg.leader && n.state == Idle && n.engine.mode == ReservedPeak {
          LeaderOpens(cfg, self, n, env);
        }
      case Prepare => PrepareIsAnswered(cfg, self, n, f, env);
      case Prepared => ReportIsAnswered(cfg, self, n, f, env);
      case Commit => CommitIsAnswered(cfg, self, n, f, env);
      case CommitAck => AckIsAnswered(cfg, self, n, f);
      case Abort =>
        if n.state == FollowerPrepared {
          GivesBack(cfg, self, n, env, false);
        }
    }
  }

  lemma TimersAreAnswered(cfg: Config, self: NodeId, n: Node, env: Env)
    requires Coherent(cfg, self, n) && n.state != Idle && self in cfg.members && cfg.leader in cfg.members
    ensures TurnAnswered(cfg, self, n, env, TickTimers(cfg, self, n, env))
  {
    if n.state == LeaderPreparing || n.state == FollowerPrepared {
      GivesBack(cfg, self, n, env, n.state == LeaderPreparing);
    }
  }

  lemma TurnIsAnswered(cfg: Config, self: NodeId, n: Node, env: Env)
    requires Coherent(cfg, self, n) && self in cfg.members && cfg.leader in cfg.members
    ensures TurnAnswered(cfg, self, n, env, Tick(cfg, self, n, env))
  {
    assert LowWater(cfg, n, env) <==> NearlyOut(cfg, n, env);
    if n.state != Idle {
      TimersAreAnswered(cfg, self, n, env);
      assert Tick(cfg, self, n, env) == TickTimers(cfg, self, n, env);
    } else if LowWater(cfg, n, env) && self == cfg.leader {
      LeaderOpens(cfg, self, n, env);
    }
  }

  lemma StopIsAnswered(cfg: Config, self: NodeId, n: Node, env: Env)
    requires Coherent(cfg, self, n)
    ensures StopAnswered(cfg, n, env, Stop(cfg, self, n, env))
  {
    if n.state == LeaderPreparing || n.state == FollowerPrepared {
      GivesBack(cfg, self, n, env, false);
    }
  }

  // ---------------------------------------------------------------- every node a controller ever has

  lemma InvariantIsCoherent(cfg: Config, self: NodeId, n: Node)
    requires self in cfg.capacity && NodeOk(cfg, self, n)
    ensures Coherent(cfg, self, n)
  {
  }

  lemma FramesKeepCoherence(cfg: Config, self: NodeId, n: Node, f: Frame, env: Env)
    requires Coherent(cfg, self, n) && self in cfg.members && cfg.leader in cfg.members
    ensures Coherent(cfg, self, HandleFrame(cfg, self, n, f, env).node)
  {
    FrameIsAnswered(cfg, self, n, f, env);
    var o := HandleFrame(cfg, self, n, f, env);
    hide HandleFrame;
    if f.kind == Prepared {
      hide CommitAnswered, PrepareAnswered, AckAnswered, TriggerAnswered, AbortAnswered;
      if !n.fenced && f.sender != self && f.sender in cfg.members {
        ReportKeepsCoherence(cfg, self, n, f, env, o);
      }
    } else {
      hide ReportAnswered;
    }
  }

  lemma ReportKeepsCoherence(cfg: Config, self: NodeId, n: Node, f: Frame, env: Env, o: Outcome)
    requires Coherent(cfg, self, n) && self in cfg.members && f.sender != self && ReportAnswered(cfg, self, n, f, env, o) && !n.fenced
    requires f.sender in cfg.members
    ensures Coherent(cfg, self, o.node)
  {
    hide Adds, Sends;
  }

  lemma TurnsKeepCoherence(cfg: Config, self: NodeId, n: Node, env: Env)
    requires Coherent(cfg, self, n) && self in cfg.members && cfg.leader in cfg.members
    ensures Coherent(cfg, self, Tick(cfg, self, n, env).node) && Coherent(cfg, self, Stop(cfg, self, n, env).node)
  {
    TurnIsAnswered(cfg, self, n, env);
    StopIsAnswered(cfg, self, n, env);
    hide Tick, Stop;
  }

  lemma StepsKeepCoherence(cfg: Config, self: NodeId, n: Node, s: LocalStep)
    requires Coherent(cfg, self, n) && self in cfg.members && cfg.leader in cfg.members
    ensures Coherent(cfg, self, LocalEffect(cfg, self, n, s))
  {
    hide HandleFrame, Tick, Stop;
    match s
    case Receive(f, env) => FramesKeepCoherence(cfg, self, n, f, env);
    case Turn(env) => TurnsKeepCoherence(cfg, self, n, env);
    case TearDown(env) => TurnsKeepCoherence(cfg, self, n, env);
    case Admit(_, _) =>
    case Collapse =>
    case EnterPeak =>
  }

  /** Whatever the journal held at the start and whatever has arrived since: the answers above are
      the answers of every controller there can be. */
  lemma {:induction false} EveryLifeIsCoherent(cfg: Config, self: NodeId, reservation: nat, load: Load, o: StoreOutcome, steps: seq<LocalStep>)
    requires self in cfg.members && cfg.leader in cfg.members && Start(cfg, self, Rebooted(cfg, reservation), load, o).Started?
    ensures Coherent(cfg, self, After(cfg, self, Start(cfg, self, Rebooted(cfg, reservation), load, o).node, steps))
  {
    if steps != [] {
      EveryLifeIsCoherent(cfg, self, reservation, load, o, steps[..|steps| - 1]);
      var n := After(cfg, self, Start(cfg, self, Rebooted(cfg, reservation), load, o).node, steps[..|steps| - 1]);
      hide Coherent, LocalEffect, Start, Rebooted;
      StepsKeepCoherence(cfg, self, n, steps[|steps| - 1]);
    }
  }

  /** The same for every node in every state of every run of a cluster. */
  lemma EveryRunIsCoherent(cfg: Config, run: seq<HandoffCluster.Cluster>, steps: seq<HandoffCluster.Step>, k: nat, i: NodeId)
    requires HandoffCluster.ValidConfig(cfg) && HandoffCluster.IsRun(cfg, run, steps) && k < |run| && i in run[k].nodes
    ensures i in cfg.members && Coherent(cfg, i, run[k].nodes[i])
  {
    hide HandoffCluster.ValidConfig, HandoffCluster.IsRun;
    RunKeepsInv(cfg, run, steps, k);
    assert NodeOk(cfg, i, run[k].nodes[i]);
    InvariantIsCoherent(cfg, i, run[k].nodes[i]);
  }
}
