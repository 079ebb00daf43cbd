/** What a hit in the exhaustion cache answers, and what the request would have been told without it. */
module EngineCache {
  import opened CounterTypes
  import opened EngineSteps
  import opened EngineInvariant
  import opened EngineEvents
  import Sums

  lemma MoveKeepsShape(s: State, th: Thread)
    requires Shaped(s)
    ensures Shaped(MoveThread(s, th, false).shared)
  {
  }

  /** Where a request that stands at pc is after n instructions, with nobody else moving. */
  function Alone(s: State, pc: Pc, req: Request, n: nat): (m: Move)
    requires Shaped(s)
    ensures Shaped(m.shared)
    decreases n
  {
    if n == 0 then Move(s, pc)
    else
      var m := MoveThread(s, Thread(pc, req), false);
      MoveKeepsShape(s, Thread(pc, req));
      Alone(m.shared, m.pc, req, n - 1)
  }

  /** Seven instructions take a request that cannot be accepted from the gate to its answer. */
  const ANSWERED: nat := 7

  /** The answer without the cache: the gate and the counter decide. */
  function PastTheCache(s: State, req: Request): (pc: Pc)
    requires Shaped(s)
  {
    Alone(s, ReadGate, req, ANSWERED).pc
  }

  /** A rejection from the cache is never wrong about the count, in any mode. */
  lemma CacheHitIsSound(run: seq<State>, steps: seq<Step>, k: nat, t: Tid)
    requires IsRun(run, steps) && k < |run| && t in run[k].threads
    requires run[k].threads[t].pc == ReadCache && run[k].cache && run[k].threads[t].req.delta > 0
    ensures Value(run[k]) + run[k].threads[t].req.delta > run[k].limit
    ensures Shaped(run[k]) && RunThread(run[k], t, false).threads[t].pc == Done(Rejected)
  {
    Reachable(run, steps, k);
  }

  /** The answer with the cache is the answer without it if and only if the request would not
      have been redirected: a node that is not the strict owner tells everybody else Moved. */
  lemma CacheHitAgreesIff(run: seq<State>, steps: seq<Step>, k: nat, t: Tid)
    requires IsRun(run, steps) && k < |run| && t in run[k].threads
    requires run[k].threads[t].pc == ReadCache && run[k].cache && run[k].threads[t].req.delta > 0
    ensures Shaped(run[k])
    ensures PastTheCache(run[k], run[k].threads[t].req) == Done(if run[k].open && run[k].mode == RemoteStrict then Moved else Rejected)
    ensures RunThread(run[k], t, false).threads[t].pc == PastTheCache(run[k], run[k].threads[t].req)
       <==> !(run[k].open && run[k].mode == RemoteStrict)
  {
    Reachable(run, steps, k);
    hide PastTheCache;
    Answered(run[k], run[k].threads[t].req);
  }

  /** A request that cannot be accepted any more. */
  predicate Hopeless(s: State, req: Request)
  {
    SharesOk(s) && req.delta > 0 && Value(s) == s.limit
  }

  lemma {:induction false} StaysDone(s: State, d: Decision, req: Request, n: nat)
    requires Shaped(s)
    ensures Alone(s, Done(d), req, n).pc == Done(d)
  {
    if n > 0 {
      StaysDone(s, d, req, n - 1);
    }
  }

  lemma Answered(s: State, req: Request)
    requires Hopeless(s, req)
    ensures PastTheCache(s, req) == Done(if s.open && s.mode == RemoteStrict then Moved else Rejected)
  {
    if s.open {
      var inside := s.(inFlight := s.inFlight + 1);
      assert Alone(s, ReadGate, req, 7) == Alone(s, Count, req, 6);
      assert Alone(s, Count, req, 6) == Alone(inside, RecheckGate, req, 5);
      assert Alone(inside, RecheckGate, req, 5) == Alone(inside, ReadMode, req, 4);
      DecidedInside(inside, req);
    } else {
      assert Alone(s, ReadGate, req, 7) == Alone(s, Done(Rejected), req, 6);
      StaysDone(s, Rejected, req, 6);
    }
  }

  lemma DecidedInPeak(s: State, req: Request)
    requires Hopeless(s, req) && s.mode == ReservedPeak
    ensures Alone(s, ReadMode, req, 4).pc == Done(Rejected)
  {
    Sums.SumSeqMonotone(s.used, s.reserve);
    var full := s.reserve[ShardOf(s, req)];
    assert s.used[ShardOf(s, req)] == full;
    hide SharesOk, Sums.SumSeq;
    assert Alone(s, ReadMode, req, 4) == Alone(s, LoadShard, req, 3);
    assert Alone(s, LoadShard, req, 3) == Alone(s, CasShard(full, full, 0), req, 2);
    assert Alone(s, CasShard(full, full, 0), req, 2) == Alone(s, Leave(Rejected), req, 1);
  }

  lemma DecidedInside(s: State, req: Request)
    requires Hopeless(s, req)
    ensures Alone(s, ReadMode, req, 4).pc == Done(if s.mode == RemoteStrict then Moved else Rejected)
  {
    var left := s.(inFlight := s.inFlight - 1);
    if s.mode == ReservedPeak {
      DecidedInPeak(s, req);
    } else if s.mode == RemoteStrict {
      assert Alone(s, ReadMode, req, 4) == Alone(s, LoadRemote, req, 3);
      assert Alone(s, LoadRemote, req, 3) == Alone(s, Leave(Moved), req, 2);
      assert Alone(s, Leave(Moved), req, 2) == Alone(left, Done(Moved), req, 1);
      StaysDone(left, Moved, req, 1);
    } else {
      assert Alone(s, ReadMode, req, 4) == Alone(s, LoadStrict(s.mode), req, 3);
      assert Alone(s, LoadStrict(s.mode), req, 3) == Alone(s, CasStrict(s.mode, s.limit, s.limit, 0), req, 2);
      assert Alone(s, CasStrict(s.mode, s.limit, s.limit, 0), req, 2) == Alone(s, Leave(Rejected), req, 1);
    }
  }

  // ---------------------------------------------------------------- a state where they differ

  ghost predicate Reached(s: State)
  {
    exists run: seq<State>, steps: seq<Step> :: IsRun(run, steps) && run[|run| - 1] == s
  }

  lemma ReachedStart(s: State)
    requires Init(s)
    ensures Reached(s)
  {
    var run: seq<State>, steps: seq<Step> := [s], [];
    assert forall k: nat :: StepAt(run, steps, k);
    assert IsRun(run, steps) && run[|run| - 1] == s;
  }

  lemma ReachedStep(s: State, step: Step, s': State)
    requires Reached(s) && Next(s, step, s')
    ensures Reached(s')
  {
    hide Next, Init;
    var run: seq<State>, steps: seq<Step> :| IsRun(run, steps) && run[|run| - 1] == s;
    var run', steps' := run + [s'], steps + [step];
    forall k: nat
      ensures StepAt(run', steps', k)
    {
      assert StepAt(run, steps, k);
    }
    assert IsRun(run', steps') && run'[|run'| - 1] == s';
  }

  lemma ReachedDrive(s: State, s': State)
    requires Reached(s) && Shaped(s) && ControlReady(s) && RunControl(s) == s'
    ensures Reached(s')
  {
    ReachedStep(s, Drive, s');
  }

  /** Closing, draining and seeding a single empty shard. */
  lemma SeedsOneShard(s: State)
    requires Reached(s) && s.control == ReservedClose && s.inFlight == 0 && s.strict == 0 && s.reservation == 1
    requires s.reserve == [1] && s.used == [0] && s.announced == [false]
    ensures Reached(s.(open := false, control := ReservedPublish))
  {
    hide Reached;
    var c := s.(open := false);
    ReachedDrive(s, c.(control := ReservedDrain));
    ReachedDrive(c.(control := ReservedDrain), c.(control := ReservedCheck));
    ReachedDrive(c.(control := ReservedCheck), c.(control := ReservedLoad));
    ReachedDrive(c.(control := ReservedLoad), c.(control := SeedUsed(0, 0)));
    SeedsShardZero(c);
    ReachedDrive(c.(control := SeedUsed(1, 0)), c.(control := ReservedPublish));
  }

  lemma SeedsShardZero(c: State)
    requires Reached(c.(control := SeedUsed(0, 0)))
    requires c.reserve == [1] && c.used == [0] && c.announced == [false]
    ensures Reached(c.(control := SeedUsed(1, 0)))
  {
    hide Reached;
    assert c.used[0 := 0] == c.used && c.announced[0 := false] == c.announced;
    ReachedDrive(c.(control := SeedUsed(0, 0)), c.(control := SeedFlag(0, 0, false)));
    ReachedDrive(c.(control := SeedFlag(0, 0, false)), c.(control := SeedUsed(1, 0)));
  }

  lemma PublishesPeak(s: State)
    requires Reached(s) && s.control == ReservedPublish && s.exhausted == 0
    requires s.reserve == [1] && s.used == [0] && s.announced == [false]
    ensures Reached(s.(mode := ReservedPeak, epoch := s.epoch + 1, open := true, control := Free))
  {
    hide Reached;
    var p := s.(mode := ReservedPeak);
    ReachedDrive(s, p.(control := CountFull(0, 0)));
    ReachedDrive(p.(control := CountFull(0, 0)), p.(control := CountFull(1, 0)));
    ReachedDrive(p.(control := CountFull(1, 0)), p.(control := StoreFull(0)));
    ReachedDrive(p.(control := StoreFull(0)), p.(control := BumpEpoch));
    OpensWithNewEpoch(p.(control := BumpEpoch));
  }

  lemma OpensWithNewEpoch(s: State)
    requires Reached(s) && Shaped(s) && s.control == BumpEpoch
    ensures Reached(s.(epoch := s.epoch + 1, open := true, control := Free))
  {
    hide Reached;
    ReachedDrive(s, s.(epoch := s.epoch + 1, control := Open));
    ReachedDrive(s.(epoch := s.epoch + 1, control := Open), s.(epoch := s.epoch + 1, open := true, control := Free));
  }

  lemma DrainsForHandoff(s: State)
    requires Reached(s) && s.control == HandoffClose && s.inFlight == 0
    requires s.reserve == [1] && s.used == [0] && s.announced == [false]
    ensures Reached(s.(open := false, control := Held(0)))
  {
    hide Reached;
    var c := s.(open := false);
    ReachedDrive(s, c.(control := HandoffDrain));
    ReachedDrive(c.(control := HandoffDrain), c.(control := HandoffScan(0, 0)));
    ReachedDrive(c.(control := HandoffScan(0, 0)), c.(control := HandoffScan(1, 0)));
    ReachedDrive(c.(control := HandoffScan(1, 0)), c.(control := Held(0)));
  }

  lemma InstallsElsewhere(s: State, g: nat)
    requires Reached(s) && Shaped(s) && s.control == CommitSeed(g, false) && s.exhausted == 0 && g == s.limit
    ensures Reached(s.(strict := g, mode := RemoteStrict, imported := g - s.accepted, epoch := s.epoch + 1, cache := true,
                       open := true, control := Free))
  {
    hide Reached;
    var seeded := s.(strict := g);
    var remote := seeded.(mode := RemoteStrict, imported := g - s.accepted);
    ReachedDrive(s, seeded.(control := CommitPublish(g, false)));
    ReachedDrive(seeded.(control := CommitPublish(g, false)), remote.(control := CommitReset(g, false)));
    ReachedDrive(remote.(control := CommitReset(g, false)), remote.(control := CommitEpoch(g, false)));
    OpensWithCache(remote.(control := CommitEpoch(g, false)), g);
  }

  lemma OpensWithCache(s: State, g: nat)
    requires Reached(s) && Shaped(s) && s.control == CommitEpoch(g, false) && g == s.limit
    ensures Reached(s.(epoch := s.epoch + 1, cache := true, open := true, control := Free))
  {
    hide Reached;
    var c := s.(epoch := s.epoch + 1);
    ReachedDrive(s, c.(control := CommitCache(g, false)));
    ReachedDrive(c.(control := CommitCache(g, false)), c.(cache := true, control := Open));
    ReachedDrive(c.(cache := true, control := Open), c.(cache := true, open := true, control := Free));
  }

  /** A component that owns one of two units, before anything has happened. */
  predicate OwnsOneOfTwo(s: State)
  {
    && s.limit == 2 && s.reservation == 1 && s.reserve == [1] && s.used == [0] && s.announced == [false]
    && s.open && s.inFlight == 0 && s.mode == Strict && s.strict == 0 && !s.cache && s.exhausted == 0
    && s.control == Free && s.threads == map[] && s.accepted == 0 && s.imported == 0 && s.events == 0
  }

  /** From any such start a state can be reached in which the cache says Rejected to a request
      that would be sent to the strict owner: a handoff has committed the whole limit elsewhere. */
  lemma CacheCanHideARedirect(start: State, req: Request) returns (s: State)
    requires OwnsOneOfTwo(start) && req.delta > 0
    ensures Reached(s) && Shaped(s) && s.threads == map[0 := Thread(ReadCache, req)]
    ensures RunThread(s, 0, false).threads[0].pc == Done(Rejected)
    ensures PastTheCache(s, req) == Done(Moved)
  {
    StartsEmpty(start);
    hide Reached, PastTheCache;
    ReachedStep(start, Invoke(EnterReserved), start.(control := ReservedClose));
    SeedsOneShard(start.(control := ReservedClose));
    PublishesPeak(start.(open := false, control := ReservedPublish));
    var peak := start.(mode := ReservedPeak, epoch := start.epoch + 1);
    ReachedStep(peak, Invoke(BeginBarrier), peak.(control := HandoffClose));
    DrainsForHandoff(peak.(control := HandoffClose));
    var held := peak.(open := false, control := Held(0));
    ReachedStep(held, Invoke(CommitBarrier(2, false)), held.(control := CommitSeed(2, false)));
    InstallsElsewhere(held.(control := CommitSeed(2, false)), 2);
    var remote := peak.(strict := 2, mode := RemoteStrict, imported := 2, epoch := peak.epoch + 1, cache := true);
    s := remote.(threads := map[0 := Thread(ReadCache, req)]);
    ReachedStep(remote, Arrive(0, req), s);
    SumOfOne(s.reserve);
    Answered(s, req);
  }

  lemma SumOfOne(s: seq<nat>)
    requires |s| == 1
    ensures Sums.SumSeq(s) == s[0]
  {
    assert s[..0] == [];
  }

  lemma StartsEmpty(start: State)
    requires OwnsOneOfTwo(start)
    ensures Reached(start)
  {
    SumOfOne(start.reserve);
    ReachedStart(start);
  }
}
