/** What a request is told, and what its compare-and-swap did. */
module EngineAnswers {
  import opened CounterTypes
  import opened EngineSteps
  import opened EngineInvariant
  import opened EngineEvents
  import opened EngineTheorems
  import opened EngineCache
  import Sums

  // ---------------------------------------------------------------- the swap decides

  /** The instruction with which thread t takes its delta: the counter, or its shard, is what the
      thread expects, and has room. */
  predicate Swaps(s: State, t: Tid, spurious: bool)
    requires Shaped(s) && t in s.threads
  {
    var th := s.threads[t];
    var i := ShardOf(s, th.req);
    !spurious &&
      ((th.pc.CasStrict? && s.strict == th.pc.cur && s.strict + th.req.delta <= s.limit)
       || (th.pc.CasShard? && s.used[i] == th.pc.cur && s.used[i] + th.req.delta <= s.reserve[i]))
  }

  /** Between a successful swap and the answer, and the answer itself. */
  predicate Taken(pc: Pc)
  {
    pc.Remember? || pc.LoadUsed? || pc.CasAnnounce? || pc.AddExhausted? || pc.CasCache? || pc == Leave(Accepted) || pc == Done(Accepted)
  }

  lemma OnlySwapsTake(s: State, t: Tid, spurious: bool)
    requires Shaped(s) && t in s.threads
    ensures Taken(RunThread(s, t, spurious).threads[t].pc) <==> Taken(s.threads[t].pc) || Swaps(s, t, spurious)
    ensures Swaps(s, t, spurious) ==> !Taken(s.threads[t].pc)
  {
  }

  lemma OnlySwapsCount(s: State, t: Tid, spurious: bool)
    requires Shaped(s) && t in s.threads
    ensures RunThread(s, t, spurious).accepted == s.accepted + if Swaps(s, t, spurious) then s.threads[t].req.delta else 0
  {
  }

  /** Thread t has swapped successfully since it arrived. */
  ghost predicate Swapped(run: seq<State>, steps: seq<Step>, k: nat, t: Tid)
    requires |run| == |steps| + 1 && k < |run|
  {
    k > 0 &&
    match steps[k - 1]
    case Arrive(u, _) => u != t && Swapped(run, steps, k - 1, t)
    case Run(u, spurious) =>
      Swapped(run, steps, k - 1, t) || (u == t && Shaped(run[k - 1]) && t in run[k - 1].threads && Swaps(run[k - 1], t, spurious))
    case Invoke(_) => Swapped(run, steps, k - 1, t)
    case Drive => Swapped(run, steps, k - 1, t)
  }

  lemma {:induction false} TakenIffSwapped(run: seq<State>, steps: seq<Step>, k: nat, t: Tid)
    requires IsRun(run, steps) && k < |run|
    ensures (t in run[k].threads && Taken(run[k].threads[t].pc)) <==> Swapped(run, steps, k, t)
  {
    if k > 0 {
      TakenIffSwapped(run, steps, k - 1, t);
      assert StepAt(run, steps, k - 1);
      match steps[k - 1]
      case Arrive(_, _) =>
      case Run(u, spurious) =>
        OnlySwapsTake(run[k - 1], u, spurious);
        hide MoveThread, Taken, Swaps;
      case Invoke(call) => hide Taken;
      case Drive => hide Taken, NextControl;
    }
  }

  /** A request is answered Accepted if and only if its own swap succeeded, and then it swapped
      exactly once. */
  lemma AcceptedIffSwapped(run: seq<State>, steps: seq<Step>, k: nat, t: Tid)
    requires IsRun(run, steps) && k < |run| && t in run[k].threads
    ensures run[k].threads[t].pc.Done? ==> (run[k].threads[t].pc.decision == Accepted <==> Swapped(run, steps, k, t))
    ensures k < |steps| && steps[k].Run? && steps[k].t == t && Shaped(run[k]) && Swaps(run[k], t, steps[k].spurious) ==> !Swapped(run, steps, k, t)
  {
    TakenIffSwapped(run, steps, k, t);
    hide IsRun, Swapped;
  }

  // ---------------------------------------------------------------- the books of the clients

  /** Step k - 1 tells its thread that the request is accepted. */
  predicate Tells(run: seq<State>, steps: seq<Step>, k: nat)
    requires 0 < k < |run| == |steps| + 1
  {
    && steps[k - 1].Run? && steps[k - 1].t in run[k - 1].threads && steps[k - 1].t in run[k].threads
    && !run[k - 1].threads[steps[k - 1].t].pc.Done? && run[k].threads[steps[k - 1].t].pc == Done(Accepted)
  }

  /** The sum of everything clients have been told is accepted. */
  function Told(run: seq<State>, steps: seq<Step>, k: nat): (sum: nat)
    requires k < |run| == |steps| + 1
  {
    if k == 0 then 0
    else Told(run, steps, k - 1) + if Tells(run, steps, k) then run[k - 1].threads[steps[k - 1].t].req.delta else 0
  }

  /** What a thread has taken and not yet told. */
  function Owes(th: Thread): (delta: nat)
  {
    if Taken(th.pc) && !th.pc.Done? then th.req.delta else 0
  }

  function Owed(s: State): (m: map<Tid, nat>)
  {
    map t | t in s.threads :: Owes(s.threads[t])
  }

  lemma OwedAfterRun(s: State, t: Tid, spurious: bool)
    requires Shaped(s) && t in s.threads
    ensures
      var s' := RunThread(s, t, spurious);
      && Sums.SumMap<Tid>(Owed(s')) == Sums.SumMap<Tid>(Owed(s)) - Owes(s.threads[t]) + Owes(s'.threads[t])
      && s'.accepted + Owes(s.threads[t])
         == s.accepted + Owes(s'.threads[t]) + if !s.threads[t].pc.Done? && s'.threads[t].pc == Done(Accepted) then s.threads[t].req.delta else 0
  {
    var s' := RunThread(s, t, spurious);
    OnlySwapsTake(s, t, spurious);
    OnlySwapsCount(s, t, spurious);
    Sums.SumMapUpdate<Tid>(Owed(s), t, Owes(s'.threads[t]));
    LeavesAfterTaking(s, t, spurious);
    hide MoveThread, Swaps, Taken;
    assert Owed(s') == Owed(s)[t := Owes(s'.threads[t])];
  }

  lemma LeavesAfterTaking(s: State, t: Tid, spurious: bool)
    requires Shaped(s) && t in s.threads
    ensures RunThread(s, t, spurious).threads[t].pc == Done(Accepted) ==> Taken(s.threads[t].pc)
    ensures s.threads[t].pc.Done? ==> RunThread(s, t, spurious).threads[t].pc == s.threads[t].pc
    ensures Swaps(s, t, spurious) ==> RunThread(s, t, spurious).threads[t].pc.Remember?
    ensures Taken(RunThread(s, t, spurious).threads[t].pc) && RunThread(s, t, spurious).threads[t].pc.Done? ==>
      RunThread(s, t, spurious).threads[t].pc == Done(Accepted)
  {
  }

  lemma OwedAfterArrival(s: State, t: Tid, req: Request)
    requires Finished(s, t)
    ensures Sums.SumMap<Tid>(Owed(s.(threads := s.threads[t := Thread(ReadCache, req)]))) == Sums.SumMap<Tid>(Owed(s))
  {
    var s' := s.(threads := s.threads[t := Thread(ReadCache, req)]);
    Sums.SumMapUpdate<Tid>(Owed(s), t, 0);
    assert Owed(s') == Owed(s)[t := 0];
  }

  /** In every state, what has been accepted is what clients were told plus what is about to be told. */
  lemma {:induction false} ToldIsCounted(run: seq<State>, steps: seq<Step>, k: nat)
    requires IsRun(run, steps) && k < |run|
    ensures run[k].accepted == Told(run, steps, k) + Sums.SumMap<Tid>(Owed(run[k]))
  {
    if k == 0 {
      assert Owed(run[0]) == map[];
    } else {
      ToldIsCounted(run, steps, k - 1);
      assert StepAt(run, steps, k - 1);
      ToldStep(run[k - 1], steps[k - 1], run[k]);
      hide IsRun, Next, Owed;
    }
  }

  lemma ToldStep(s: State, step: Step, s': State)
    requires Next(s, step, s')
    ensures !step.Run? ==> s'.accepted == s.accepted && Sums.SumMap<Tid>(Owed(s')) == Sums.SumMap<Tid>(Owed(s))
    ensures step.Run? ==> step.t in s.threads && step.t in s'.threads
    ensures step.Run? ==>
      s'.accepted + Sums.SumMap<Tid>(Owed(s))
      == s.accepted + Sums.SumMap<Tid>(Owed(s'))
         + if !s.threads[step.t].pc.Done? && s'.threads[step.t].pc == Done(Accepted) then s.threads[step.t].req.delta else 0
  {
    if step.Run? {
      hide RunThread, Owed, Owes;
      OwedAfterRun(s, step.t, step.spurious);
    } else if step.Arrive? {
      hide Owes;
      OwedAfterArrival(s, step.t, step.req);
    } else {
      ControlTellsNobody(s, step, s');
      assert Owed(s') == Owed(s);
    }
  }

  lemma ControlTellsNobody(s: State, step: Step, s': State)
    requires Next(s, step, s') && (step.Invoke? || step.Drive?)
    ensures s'.threads == s.threads && s'.accepted == s.accepted
  {
    hide NextControl;
  }

  /** At rest the count is what was imported plus exactly what clients were told. */
  lemma CountIsWhatClientsWereTold(run: seq<State>, steps: seq<Step>, k: nat)
    requires IsRun(run, steps) && k < |run| && forall t :: t in run[k].threads ==> run[k].threads[t].pc.Done?
    ensures Value(run[k]) == run[k].imported + Told(run, steps, k)
  {
    CountIsConserved(run, steps, k);
    ToldIsCounted(run, steps, k);
    NobodyOwes(Owed(run[k]));
  }

  lemma {:induction false} NobodyOwes(m: map<Tid, nat>)
    requires forall t :: t in m ==> m[t] == 0
    ensures Sums.SumMap<Tid>(m) == 0
    decreases |m|
  {
    if m != map[] {
      var t :| t in m;
      Sums.SumMapRemove<Tid>(m, t);
      assert (m - {t}).Keys == m.Keys - {t};
      NobodyOwes(m - {t});
    }
  }
}
