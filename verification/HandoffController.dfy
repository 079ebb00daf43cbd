/** The handoff controller in the form it runs in: one object whose methods update the
    protocol state, its engine, its journal and what it has put on the wire. Each method is
    proved to be the transition that HandoffProtocol gives for it. */
module HandoffController {
  import opened CounterTypes
  import opened HandoffProtocol
  import opened HandoffAnswers
  import Sums

  /** The engine's handoff interface, between two quiescent points. */
  class PeakEngine {
    const limit: nat
    const reservation: nat
    var mode: Mode
    var gateOpen: bool
    var handoffActive: bool
    var peakTotal: nat
    var strictValue: nat
    var counter: nat
    var epoch: nat
    var accepted: nat

    constructor (limit: nat, reservation: nat)
      ensures View() == Engine(limit, reservation, Strict, true, false, 0, 0, 0, 0, 0)
    {
      this.limit, this.reservation := limit, reservation;
      mode, gateOpen, handoffActive := Strict, true, false;
      peakTotal, strictValue, counter, epoch, accepted := 0, 0, 0, 0, 0;
    }

    function View(): (e: Engine)
      reads this
    {
      Engine(limit, reservation, mode, gateOpen, handoffActive, peakTotal, strictValue, counter, epoch, accepted)
    }

    method Begin() returns (ok: bool, drained: Drained)
      modifies this
      ensures ok <==> BeginHandoff(old(View())).Closed?
      ensures View() == BeginHandoff(old(View())).engine
      ensures ok ==> drained == BeginHandoff(old(View())).state
      ensures ok <==> !old(handoffActive) && mode == ReservedPeak
      ensures ok ==> drained == Drained(counter, epoch, peakTotal) && !gateOpen && handoffActive
      ensures !ok ==> gateOpen == old(gateOpen) && handoffActive == old(handoffActive)
      ensures View() == old(View()).(gateOpen := gateOpen, handoffActive := handoffActive)
    {
      drained := NOTHING;
      if handoffActive {
        return false, drained;
      }
      handoffActive := true;
      if mode != ReservedPeak {
        handoffActive := false;
        return false, drained;
      }
      gateOpen := false;
      drained := Drained(counter, epoch, peakTotal);
      ok := true;
    }

    method Abort()
      modifies this
      ensures View() == AbortHandoff(old(View()))
      ensures !handoffActive && (gateOpen <==> old(gateOpen) || (old(handoffActive) && mode == ReservedPeak))
      ensures View() == old(View()).(gateOpen := gateOpen, handoffActive := handoffActive)
    {
      if !handoffActive {
        return;
      }
      handoffActive := false;
      if mode == ReservedPeak {
        gateOpen := true;
      }
    }

    method Commit(total: nat, strictOwner: bool) returns (ok: bool)
      modifies this
      ensures ok <==> CommitAllowed(old(View()), total)
      ensures View() == CommitHandoff(old(View()), total, strictOwner)
      ensures ok <==> old(handoffActive) && old(mode) == ReservedPeak && total <= limit
      ensures ok ==> View() == old(View()).(
        strictValue := total, mode := if strictOwner then DangerStrict else RemoteStrict, epoch := old(epoch) + 1,
        handoffActive := false, gateOpen := true)
      ensures !ok ==> View() == old(View())
    {
      if !handoffActive || mode != ReservedPeak || total > limit {
        return false;
      }
      strictValue := total;
      mode := if strictOwner then DangerStrict else RemoteStrict;
      epoch := epoch + 1;
      handoffActive := false;
      gateOpen := true;
      ok := true;
    }
  }

  class Controller {
    const cfg: Config
    const self: NodeId
    const engine: PeakEngine
    var journal: JournalRecord
    var older: set<JournalRecord>
    var fenced: bool
    var state: State
    var activeTerm: nat
    var lastCommittedTerm: nat
    var prepared: map<NodeId, Drained>
    var commitAcks: set<NodeId>
    var committedCounter: nat
    var committedEpoch: nat
    var committedTotal: nat
    var outbox: set<Packet>

    constructor (cfg: Config, self: NodeId, engine: PeakEngine)
      ensures this.cfg == cfg && this.self == self && this.engine == engine
      ensures View() == Node(engine.View(), JournalRecord(IdleRecord, 0, 0, 0, 0, 0), {}, false, Idle, 0, 0, map[], {}, 0, 0, 0)
      ensures outbox == {}
    {
      this.cfg, this.self, this.engine := cfg, self, engine;
      journal, older, fenced, state := JournalRecord(IdleRecord, 0, 0, 0, 0, 0), {}, false, Idle;
      activeTerm, lastCommittedTerm, prepared, commitAcks := 0, 0, map[], {};
      committedCounter, committedEpoch, committedTotal := 0, 0, 0;
      outbox := {};
    }

    function View(): (n: Node)
      reads this, engine
    {
      Node(engine.View(), journal, older, fenced, state, activeTerm, lastCommittedTerm, prepared, commitAcks,
           committedCounter, committedEpoch, committedTotal)
    }

    method Store(record: JournalRecord, outcome: StoreOutcome) returns (ok: bool)
      modifies this`journal, this`older
      ensures ok <==> outcome == Durable
      ensures View() == Persist(old(View()), record, outcome)
    {
      if outcome == Durable {
        journal, older := record, {};
      } else if outcome == WrittenButFailed {
        journal, older := record, older + {journal};
      }
      ok := outcome == Durable;
    }

    method Send(dst: NodeId, kind: Kind, term: nat, d: Drained)
      modifies this`outbox
      ensures outbox == old(outbox) + SendTo(cfg, self, dst, kind, term, d)
    {
      if dst in Peers(cfg, self) {
        outbox := outbox + {Packet(dst, MakeFrame(cfg, self, kind, term, d))};
      }
    }

    /** One packet to each destination, in whatever order the peer table yields them. */
    method SendEach(dsts: set<NodeId>, kind: Kind, term: nat, d: Drained)
      requires dsts <= Peers(cfg, self)
      modifies this`outbox
      ensures outbox == old(outbox) + SendAll(cfg, self, dsts, kind, term, d)
    {
      var left := dsts;
      while left != {}
        invariant left <= dsts
        invariant outbox == old(outbox) + SendAll(cfg, self, dsts - left, kind, term, d)
        decreases left
      {
        var dst :| dst in left;
        assert dsts - (left - {dst}) == dsts - left + {dst};
        Send(dst, kind, term, d);
        left := left - {dst};
      }
      assert dsts - {} == dsts;
    }

    method BeginPrepare(env: Env)
      modifies this, engine
      ensures View() == BeginLeaderPrepare(cfg, self, old(View()), env)
      ensures outbox == old(outbox)
    {
      if self != cfg.leader || state != Idle {
        return;
      }
      var ok, local := engine.Begin();
      if !ok {
        return;
      }
      activeTerm := Max(Max(NextOf(activeTerm), NextOf(lastCommittedTerm)), env.clock);
      var stored := Store(PreparedRecordOf(cfg, activeTerm, local), env.onPrepared);
      if !stored {
        engine.Abort();
        activeTerm := 0;
        return;
      }
      prepared := map[self := local];
      state := LeaderPreparing;
    }

    method Abandon(broadcast: bool, env: Env)
      modifies this, engine
      ensures View() == AbortPrepare(cfg, self, old(View()), broadcast, env).node
      ensures outbox == old(outbox) + AbortPrepare(cfg, self, old(View()), broadcast, env).sent
    {
      hide AbortHandoff;
      if state == LeaderPreparing || state == FollowerPrepared {
        engine.Abort();
        var _ := Store(JournalRecord(IdleRecord, 0, 0, 0, 0, cfg.owner), env.onIdle);
        if broadcast && self == cfg.leader {
          SendEach(Peers(cfg, self), HandoffProtocol.Abort, activeTerm, NOTHING);
        }
      }
      prepared := map[];
      state := Idle;
      activeTerm := 0;
    }

    /** Adds the reports up in the order the table yields them; gives up at the first report
        that disagrees with the leader's own or that would overflow. */
    method AddReports() returns (agree: bool, total: nat)
      ensures agree ==> ReportsAgree(prepared, OwnDrained(self, View())) && total == PreparedSum(prepared) <= U64_MAX
      ensures !agree ==> !ReportsAgree(prepared, OwnDrained(self, View())) || PreparedSum(prepared) > U64_MAX
    {
      var own := if self in prepared then prepared[self] else NOTHING;
      var left := prepared.Keys;
      total := 0;
      agree := true;
      ghost var totals := PreparedTotals(prepared);
      assert totals - (totals.Keys - left) == totals;
      while left != {}
        invariant left <= prepared.Keys
        invariant forall i :: i in prepared && i !in left ==> prepared[i].epoch == own.epoch && prepared[i].counter == own.counter
        invariant total + Sums.SumMap<NodeId>(totals - (totals.Keys - left)) == Sums.SumMap<NodeId>(totals)
        invariant total <= U64_MAX
        decreases left
      {
        var i :| i in left;
        ghost var rest := totals - (totals.Keys - left);
        Sums.SumMapRemove<NodeId>(rest, i);
        assert rest - {i} == totals - (totals.Keys - (left - {i}));
        if prepared[i].epoch != own.epoch || prepared[i].counter != own.counter || prepared[i].total > U64_MAX - total {
          return false, total;
        }
        total := total + prepared[i].total;
        left := left - {i};
      }
      assert totals - (totals.Keys - {}) == map[];
    }

    method TryCommit(env: Env)
      modifies this, engine
      ensures View() == TryBeginCommit(cfg, self, old(View()), env).node
      ensures outbox == old(outbox) + TryBeginCommit(cfg, self, old(View()), env).sent
    {
      if state != LeaderPreparing || |prepared| != |cfg.members| {
        return;
      }
      var own := if self in prepared then prepared[self] else NOTHING;
      var agree, total := AddReports();
      if !agree {
        Abandon(true, env);
        return;
      }
      if total > engine.limit {
        Abandon(true, env);
        return;
      }
      RecordDecision(own, total, env);
    }

    method RecordDecision(own: Drained, total: nat, env: Env)
      modifies this, engine
      ensures View() == Decide(cfg, self, old(View()), own, total, env)
      ensures outbox == old(outbox)
    {
      var stored := Store(CommittedRecordOf(cfg, activeTerm, own, total), env.onCommitted);
      if !stored {
        state := LeaderCommitBlocked;
        return;
      }
      committedTotal := total;
      committedCounter := own.counter;
      committedEpoch := own.epoch;
      commitAcks := {};
      var ok := engine.Commit(total, self == cfg.owner);
      if ok {
        commitAcks := commitAcks + {self};
      }
      state := LeaderCommitting;
    }

    method OnPrepare(f: Frame, env: Env)
      modifies this, engine
      ensures View() == HandlePrepare(cfg, self, old(View()), f, env).node
      ensures outbox == old(outbox) + HandlePrepare(cfg, self, old(View()), f, env).sent
    {
      if f.sender != cfg.leader || f.strictOwner != cfg.owner {
        return;
      }
      if state == FollowerCommitting || state == LeaderCommitBlocked || state == LeaderCommitting {
        return;
      }
      if (state == FollowerPrepared && f.term < activeTerm) || f.term < lastCommittedTerm {
        return;
      }
      if state == FollowerPrepared && f.term == activeTerm {
        var own := if self in prepared then prepared[self] else NOTHING;
        Send(cfg.leader, Prepared, activeTerm, own);
        return;
      }
      if state != Idle {
        Abandon(false, env);
      }
      Join(f.term, env);
    }

    method Join(term: nat, env: Env)
      modifies this, engine
      ensures View() == JoinTerm(cfg, self, old(View()), term, env).node
      ensures outbox == old(outbox) + JoinTerm(cfg, self, old(View()), term, env).sent
    {
      hide Persist, PreparedRecordOf, AbortHandoff, SendTo;
      var ok, local := engine.Begin();
      if !ok {
        return;
      }
      activeTerm := term;
      var stored := Store(PreparedRecordOf(cfg, activeTerm, local), env.onPrepared);
      if !stored {
        engine.Abort();
        activeTerm := 0;
        return;
      }
      prepared := map[self := local];
      state := FollowerPrepared;
      Send(cfg.leader, Prepared, activeTerm, local);
    }

    method OnCommit(f: Frame, env: Env)
      modifies this, engine
      ensures View() == HandleCommit(cfg, self, old(View()), f, env).node
      ensures outbox == old(outbox) + HandleCommit(cfg, self, old(View()), f, env).sent
    {
      hide CommitAllowed, CommitHandoff, Persist, CommittedRecordOf, SendTo;
      if f.sender != cfg.leader || f.strictOwner != cfg.owner {
        return;
      }
      if f.term == lastCommittedTerm {
        Send(cfg.leader, CommitAck, f.term, Drained(f.counter, f.epoch, f.value));
        return;
      }
      if (state != FollowerPrepared && state != FollowerCommitting) || f.term != activeTerm {
        return;
      }
      Install(f, env);
    }

    /** Writes the decision down before it takes effect, and acknowledges it after. */
    method Install(f: Frame, env: Env)
      requires f.sender == cfg.leader && f.strictOwner == cfg.owner && f.term != lastCommittedTerm
      requires (state == FollowerPrepared || state == FollowerCommitting) && f.term == activeTerm
      modifies this, engine
      ensures View() == HandleCommit(cfg, self, old(View()), f, env).node
      ensures outbox == old(outbox) + HandleCommit(cfg, self, old(View()), f, env).sent
    {
      hide CommitAllowed, CommitHandoff, Persist, CommittedRecordOf, SendTo;
      var report := Drained(f.counter, f.epoch, f.value);
      state := FollowerCommitting;
      var stored := Store(CommittedRecordOf(cfg, f.term, report, f.value), env.onCommitted);
      if !stored {
        return;
      }
      var ok := engine.Commit(f.value, self == cfg.owner);
      if !ok {
        return;
      }
      lastCommittedTerm := f.term;
      state := Idle;
      activeTerm := 0;
      Send(cfg.leader, CommitAck, f.term, report);
    }

    method OnPrepared(f: Frame, env: Env)
      modifies this, engine
      ensures View() == HandlePrepared(cfg, self, old(View()), f, env).node
      ensures outbox == old(outbox) + HandlePrepared(cfg, self, old(View()), f, env).sent
    {
      hide TryBeginCommit;
      if self != cfg.leader || state != LeaderPreparing || f.term != activeTerm {
        return;
      }
      prepared := prepared[f.sender := Drained(f.counter, f.epoch, f.value)];
      TryCommit(env);
    }

    method OnCommitAck(f: Frame)
      modifies this
      ensures View() == HandleCommitAck(cfg, self, old(View()), f).node
      ensures outbox == old(outbox) + HandleCommitAck(cfg, self, old(View()), f).sent
    {
      if self != cfg.leader || state != LeaderCommitting || f.term != activeTerm {
        return;
      }
      commitAcks := commitAcks + {f.sender};
      if |commitAcks| == |cfg.members| {
        lastCommittedTerm := activeTerm;
        state := Idle;
        activeTerm := 0;
      }
    }

    method OnFrame(f: Frame, env: Env)
      modifies this, engine
      ensures View() == HandleFrame(cfg, self, old(View()), f, env).node
      ensures outbox == old(outbox) + HandleFrame(cfg, self, old(View()), f, env).sent
      ensures Coherent(cfg, self, old(View())) && self in cfg.members && cfg.leader in cfg.members ==>
        exists sent :: outbox == old(outbox) + sent && FrameAnswered(cfg, self, old(View()), f, env, Outcome(View(), sent))
    {
      ghost var before := View();
      if Coherent(cfg, self, before) && self in cfg.members && cfg.leader in cfg.members {
        FrameIsAnswered(cfg, self, before, f, env);
      }
      hide BeginLeaderPrepare, HandlePrepare, HandlePrepared, HandleCommit, HandleCommitAck, AbortPrepare;
      if fenced || f.sender == self || f.sender !in cfg.members {
        return;
      }
      match f.kind
      case Trigger =>
        if self == cfg.leader {
          BeginPrepare(env);
        }
      case Prepare => OnPrepare(f, env);
      case Prepared => OnPrepared(f, env);
      case Commit => OnCommit(f, env);
      case CommitAck => OnCommitAck(f);
      case Abort =>
        if f.sender == cfg.leader && f.term == activeTerm && state == FollowerPrepared {
          Abandon(false, env);
        }
    }

    method OnTimers(env: Env)
      modifies this, engine
      ensures View() == TickTimers(cfg, self, old(View()), env).node
      ensures outbox == old(outbox) + TickTimers(cfg, self, old(View()), env).sent
    {
      var own := if self in prepared then prepared[self] else NOTHING;
      if state == LeaderPreparing {
        if env.deadlinePassed {
          Abandon(true, env);
          return;
        }
        if env.retryDue {
          SendEach(Peers(cfg, self), Prepare, activeTerm, own);
        }
      } else if state == FollowerPrepared {
        if env.deadlinePassed {
          Abandon(false, env);
          return;
        }
        if env.retryDue {
          Send(cfg.leader, Prepared, activeTerm, own);
        }
      } else if state == LeaderCommitting && env.retryDue {
        SendEach(Peers(cfg, self) - commitAcks, HandoffProtocol.Commit, activeTerm,
                 Drained(committedCounter, committedEpoch, committedTotal));
      }
    }

    method OnTick(env: Env)
      modifies this, engine
      ensures View() == Tick(cfg, self, old(View()), env).node
      ensures outbox == old(outbox) + Tick(cfg, self, old(View()), env).sent
      ensures Coherent(cfg, self, old(View())) && self in cfg.members && cfg.leader in cfg.members ==>
        exists sent :: outbox == old(outbox) + sent && TurnAnswered(cfg, self, old(View()), env, Outcome(View(), sent))
    {
      ghost var start := View();
      if Coherent(cfg, self, start) && self in cfg.members && cfg.leader in cfg.members {
        TurnIsAnswered(cfg, self, start, env);
      }
      var before := state;
      if !fenced && state == Idle && engine.mode == ReservedPeak && engine.reservation < engine.limit {
        if engine.reservation <= env.scan + cfg.dangerThreshold {
          if self == cfg.leader {
            BeginPrepare(env);
          } else if env.triggerDue {
            Send(cfg.leader, Trigger, 0, NOTHING);
          }
        }
      }
      OnTimers(if state == before then env else env.(deadlinePassed := false, retryDue := true));
    }

    method OnStop(env: Env)
      modifies this, engine
      ensures View() == Stop(cfg, self, old(View()), env).node
      ensures outbox == old(outbox) + Stop(cfg, self, old(View()), env).sent
      ensures Coherent(cfg, self, old(View())) ==>
        exists sent :: outbox == old(outbox) + sent && StopAnswered(cfg, old(View()), env, Outcome(View(), sent))
    {
      ghost var start := View();
      if Coherent(cfg, self, start) {
        StopIsAnswered(cfg, self, start, env);
      }
      if state == LeaderPreparing || state == FollowerPrepared {
        Abandon(false, env);
      }
    }
  }
}
