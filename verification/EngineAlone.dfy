/** What a request is told when no other thread moves: the answer is decided by the gate, the mode
    and the room that is left, and the count moves by exactly what was accepted. */
module EngineAlone {
  import opened CounterTypes
  import opened EngineSteps
  import opened EngineInvariant
  import opened EngineEvents
  import opened EngineCache
  import Sums

  // ---------------------------------------------------------------- every request ends

  /** How many instructions a request still needs at most. */
  function Remaining(s: State, th: Thread): (n: nat)
    requires Shaped(s)
    ensures n <= 13 && (n == 0 <==> th.pc.Done?)
  {
    match th.pc
    case ReadCache => 13
    case ReadGate => 12
    case Count => 11
    case RecheckGate => 10
    case Uncount => 1
    case ReadMode => 9
    case LoadStrict(_) => 8
    case CasStrict(_, cur, _, _) => if cur == s.strict then 7 else 8
    case LoadShard => 8
    case CasShard(cur, _, _) => if cur == s.used[ShardOf(s, th.req)] then 7 else 8
    case LoadRemote => 2
    case Remember(_, _) => 6
    case LoadUsed => 5
    case CasAnnounce => 4
    case AddExhausted => 3
    case CasCache => 2
    case Leave(_) => 1
    case Done(_) => 0
  }

  lemma EachInstructionCounts(s: State, th: Thread)
    requires Shaped(s) && !th.pc.Done?
    ensures
      var m := MoveThread(s, th, false);
      Shaped(m.shared) && Remaining(m.shared, th.(pc := m.pc)) < Remaining(s, th)
  {
    MoveKeepsShape(s, th);
  }

  /** From any state and any instruction, a request that is left alone is answered within thirteen. */
  lemma {:induction false} EndsAlone(s: State, pc: Pc, req: Request, n: nat)
    requires Shaped(s) && n >= Remaining(s, Thread(pc, req))
    ensures Alone(s, pc, req, n).pc.Done?
    decreases n
  {
    if n > 0 {
      var m := MoveThread(s, Thread(pc, req), false);
      MoveKeepsShape(s, Thread(pc, req));
      if !pc.Done? {
        EachInstructionCounts(s, Thread(pc, req));
      }
      assert pc.Done? ==> m == Move(s, pc);
      hide MoveThread;
      EndsAlone(m.shared, m.pc, req, n - 1);
    }
  }

  // ---------------------------------------------------------------- the way to the answer

  /** There is room for the delta: in the counter, or in the shard the request is routed to. */
  predicate Fits(s: State, req: Request)
    requires Shaped(s)
  {
    if s.mode == ReservedPeak then s.used[ShardOf(s, req)] + req.delta <= s.reserve[ShardOf(s, req)]
    else s.strict + req.delta <= s.limit
  }

  /** The delta has been taken, and nothing else of the count has moved. */
  predicate Taken(s: State, req: Request, s': State)
    requires Shaped(s)
  {
    && Shaped(s') && s'.limit == s.limit && s'.reservation == s.reservation && s'.reserve == s.reserve
    && s'.mode == s.mode && s'.open == s.open && s'.epoch == s.epoch && s'.control == s.control
    && s'.threads == s.threads && s'.imported == s.imported && s'.accepted == s.accepted + req.delta
    && (s.mode == ReservedPeak ==>
          s'.strict == s.strict && s'.used == s.used[ShardOf(s, req) := s.used[ShardOf(s, req)] + req.delta])
    && (s.mode != ReservedPeak ==> s'.used == s.used && s'.strict == s.strict + req.delta)
  }

  /** Where a request that came to state s, and is alone, can be: before its swap it has changed
      nothing but the number of those inside, after it nothing but the count and what announces it. */
  predicate OnTheWay(s: State, req: Request, pc: Pc, s': State)
    requires Shaped(s)
  {
    var through := !s.cache && s.open;
    var inside := s.(inFlight := s.inFlight + 1);
    match pc
    case ReadCache => s' == s
    case ReadGate => s' == s && !s.cache
    case Count => s' == s && through
    case RecheckGate => s' == inside && through
    case Uncount => false
    case ReadMode => s' == inside && through
    case LoadStrict(m) => s' == inside && through && m == s.mode && (m == Strict || m == DangerStrict)
    case CasStrict(m, cur, _, _) => s' == inside && through && m == s.mode && (m == Strict || m == DangerStrict) && cur == s.strict
    case LoadShard => s' == inside && through && s.mode == ReservedPeak
    case CasShard(cur, _, _) => s' == inside && through && s.mode == ReservedPeak && cur == s.used[ShardOf(s, req)]
    case LoadRemote => s' == inside && through && s.mode == RemoteStrict
    case Remember(_, _) => Swapped(s, req, s')
    case LoadUsed => Swapped(s, req, s') && s'.counter == req.counter
    case CasAnnounce => Swapped(s, req, s') && s'.counter == req.counter
    case AddExhausted => Swapped(s, req, s') && s'.counter == req.counter
    case CasCache => Swapped(s, req, s') && s'.counter == req.counter
    case Leave(d) =>
      && through
      && (match d
          case Accepted => Swapped(s, req, s') && s'.counter == req.counter
          case Rejected => s' == inside && s.mode != RemoteStrict && !Fits(s, req)
          case Moved => s' == inside && s.mode == RemoteStrict)
    case Done(d) =>
      match d
      case Accepted => through && s.mode != RemoteStrict && Fits(s, req) && Taken(s, req, s') && s'.inFlight == s.inFlight && s'.counter == req.counter
      case Rejected => s' == s && (!through || (s.mode != RemoteStrict && !Fits(s, req)))
      case Moved => s' == s && through && s.mode == RemoteStrict
  }

  predicate Swapped(s: State, req: Request, s': State)
    requires Shaped(s)
  {
    !s.cache && s.open && s.mode != RemoteStrict && Fits(s, req) && Taken(s, req, s') && s'.inFlight == s.inFlight + 1
  }

  lemma OneStepOnTheWay(s: State, req: Request, pc: Pc, s': State)
    requires SharesOk(s) && Shaped(s') && OnTheWay(s, req, pc, s')
    ensures
      var m := MoveThread(s', Thread(pc, req), false);
      Shaped(m.shared) && OnTheWay(s, req, m.pc, m.shared)
  {
    assert ShardOf(s', req) == ShardOf(s, req);
    hide ShardOf, Sums.SumSeq;
    if pc.CasStrict? || pc.CasShard? {
      hide OnTheWay, MoveThread;
      SwapOnTheWay(s, req, pc, s');
    } else if pc.Remember? || Announces(pc) {
      hide OnTheWay, MoveThread;
      AnnouncingOnTheWay(s, req, pc, s');
    }
  }

  predicate Announces(pc: Pc)
  {
    pc.LoadUsed? || pc.CasAnnounce? || pc.AddExhausted? || pc.CasCache? || pc == Leave(Accepted)
  }

  lemma AnnouncingOnTheWay(s: State, req: Request, pc: Pc, s': State)
    requires SharesOk(s) && Shaped(s') && OnTheWay(s, req, pc, s') && (pc.Remember? || Announces(pc))
    ensures
      var m := MoveThread(s', Thread(pc, req), false);
      Shaped(m.shared) && OnTheWay(s, req, m.pc, m.shared)
  {
    assert ShardOf(s', req) == ShardOf(s, req);
    hide ShardOf, Sums.SumSeq, Fits;
  }

  lemma SwapOnTheWay(s: State, req: Request, pc: Pc, s': State)
    requires SharesOk(s) && Shaped(s') && OnTheWay(s, req, pc, s') && (pc.CasStrict? || pc.CasShard?)
    ensures
      var m := MoveThread(s', Thread(pc, req), false);
      Shaped(m.shared) && OnTheWay(s, req, m.pc, m.shared)
  {
    assert ShardOf(s', req) == ShardOf(s, req);
    hide ShardOf, Sums.SumSeq;
  }

  lemma {:induction false} StaysOnTheWay(s: State, req: Request, pc: Pc, s': State, n: nat)
    requires SharesOk(s) && Shaped(s') && OnTheWay(s, req, pc, s')
    ensures
      var m := Alone(s', pc, req, n);
      OnTheWay(s, req, m.pc, m.shared)
    decreases n
  {
    if n > 0 {
      var m := MoveThread(s', Thread(pc, req), false);
      OneStepOnTheWay(s, req, pc, s');
      hide OnTheWay, MoveThread, SharesOk;
      StaysOnTheWay(s, req, m.pc, m.shared, n - 1);
    }
  }

  lemma AnsweredFrom(s: State, req: Request)
    requires SharesOk(s)
    ensures
      var m := Alone(s, ReadCache, req, 13);
      && m.pc.Done?
      && (m.pc.decision == Accepted <==> !s.cache && s.open && s.mode != RemoteStrict && Fits(s, req))
      && (m.pc.decision == Moved <==> !s.cache && s.open && s.mode == RemoteStrict)
      && (m.pc.decision == Accepted ==> Taken(s, req, m.shared) && m.shared.inFlight == s.inFlight && m.shared.counter == req.counter)
      && (m.pc.decision != Accepted ==> m.shared == s)
  {
    EndsAlone(s, ReadCache, req, 13);
    StaysOnTheWay(s, req, ReadCache, s, 13);
    hide Alone, Fits, Taken, SharesOk;
  }

  lemma TakenCounts(s: State, req: Request, s': State)
    requires Shaped(s) && Taken(s, req, s')
    ensures Value(s') == Value(s) + req.delta
  {
    Sums.SumSeqUpdate(s.used, ShardOf(s, req), s.used[ShardOf(s, req)] + req.delta);
  }

  /** In every reachable state, a request that is left alone is Accepted if and only if the gate is
      open, nothing says that the limit is reached, the count lives here and the delta fits; then the
      count grows by exactly the delta, and otherwise nothing changes. */
  lemma AnsweredAlone(run: seq<State>, steps: seq<Step>, k: nat, req: Request)
    requires IsRun(run, steps) && k < |run|
    ensures Shaped(run[k])
    ensures
      var s := run[k];
      var m := Alone(s, ReadCache, req, 13);
      && m.pc.Done?
      && (m.pc.decision == Accepted <==> !s.cache && s.open && s.mode != RemoteStrict && Fits(s, req))
      && (m.pc.decision == Moved <==> !s.cache && s.open && s.mode == RemoteStrict)
      && (m.pc.decision == Accepted ==>
            && Taken(s, req, m.shared) && Value(m.shared) == Value(s) + req.delta
            && m.shared.inFlight == s.inFlight && m.shared.counter == req.counter)
      && (m.pc.decision != Accepted ==> m.shared == s)
  {
    Reachable(run, steps, k);
    hide Alone, Value, Fits, Taken;
    AnsweredFrom(run[k], req);
    if Alone(run[k], ReadCache, req, 13).pc.decision == Accepted {
      TakenCounts(run[k], req, Alone(run[k], ReadCache, req, 13).shared);
    }
  }

  /** In every reachable state, a request that is left alone is answered within thirteen
      instructions, wherever it stands. */
  lemma RequestsEndAlone(run: seq<State>, steps: seq<Step>, k: nat, t: Tid)
    requires IsRun(run, steps) && k < |run| && t in run[k].threads
    ensures Shaped(run[k]) && Alone(run[k], run[k].threads[t].pc, run[k].threads[t].req, 13).pc.Done?
  {
    Reachable(run, steps, k);
    EndsAlone(run[k], run[k].threads[t].pc, run[k].threads[t].req, 13);
  }
}
