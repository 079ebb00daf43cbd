/** What an operation of the queue accomplishes when no other thread moves and no swap fails for
    no reason: every operation ends, and at rest it does exactly what a bounded FIFO does. */
module MpmcQueueAlone {
  import opened CounterTypes
  import opened MpmcQueue

  /** The queue after n more instructions of thread t. */
  function Alone<T>(q: Queue<T>, t: Tid, n: nat): (q': Queue<T>)
    requires |q.cells| > 0 && t in q.threads
    ensures |q'.cells| == |q.cells| && t in q'.threads
    decreases n
  {
    if n == 0 then q else Alone(RunThread(q, t, false), t, n - 1)
  }

  // ---------------------------------------------------------------- every operation ends

  predicate Finished<T>(pc: Pc<T>)
  {
    pc.Pushed? || pc.Popped?
  }

  /** How many instructions a thread still needs at most. */
  function Remaining<T>(q: Queue<T>, pc: Pc<T>): (n: nat)
    ensures n <= 6 && (n == 0 <==> Finished(pc))
  {
    match pc
    case PushLoad(_) => 5
    case PushLook(_, pos) => if pos == q.enqueue then 4 else 6
    case PushClaim(_, pos) => if pos == q.enqueue then 3 else 5
    case PushWrite(_, _) => 2
    case PushPublish(_) => 1
    case PopLoad => 5
    case PopLook(pos) => if pos == q.dequeue then 4 else 6
    case PopClaim(pos) => if pos == q.dequeue then 3 else 5
    case PopRead(_) => 2
    case PopRelease(_, _) => 1
    case Pushed(_) => 0
    case Popped(_) => 0
  }

  lemma EachInstructionCounts<T>(q: Queue<T>, t: Tid)
    requires Inv(q) && t in q.threads && !Finished(q.threads[t])
    ensures Remaining(RunThread(q, t, false), RunThread(q, t, false).threads[t]) < Remaining(q, q.threads[t])
  {
    assert ThreadOk(q, t, q.threads[t]);
    HeadIsUnpublished(q);
    if q.dequeue < q.enqueue {
      assert PositionOk(q, q.dequeue);
    }
  }

  /** From any reachable state, an operation that is left alone ends within six instructions. */
  lemma {:induction false} EndsAlone<T>(q: Queue<T>, t: Tid, n: nat)
    requires Inv(q) && t in q.threads && n >= Remaining(q, q.threads[t])
    ensures Finished(Alone(q, t, n).threads[t])
    decreases n
  {
    if n > 0 {
      RunKeepsInv(q, t, false);
      if Finished(q.threads[t]) {
        assert RunThread(q, t, false).threads[t] == q.threads[t];
      } else {
        EachInstructionCounts(q, t);
      }
      hide Inv, RunThread;
      EndsAlone(RunThread(q, t, false), t, n - 1);
    }
  }

  lemma OperationsEndAlone<T>(capacity: nat, run: seq<Queue<T>>, steps: seq<Step<T>>, k: nat, t: Tid)
    requires capacity >= 2 && IsRun(capacity, run, steps) && k < |run| && t in run[k].threads
    ensures |run[k].cells| > 0 && Finished(Alone(run[k], t, 6).threads[t])
  {
    Reachable(capacity, run, steps, k);
    EndsAlone(run[k], t, 6);
  }

  // ---------------------------------------------------------------- what it ends in

  lemma OneInstruction<T>(q: Queue<T>, t: Tid, q': Queue<T>, n: nat)
    requires |q.cells| > 0 && t in q.threads && q' == RunThread(q, t, false) && n > 0
    ensures |q'.cells| == |q.cells| && t in q'.threads && Alone(q, t, n) == Alone(q', t, n - 1)
  {
    assert Alone(q, t, n) == Alone(RunThread(q, t, false), t, n - 1);
  }

  lemma {:induction false} FinishedStays<T>(q: Queue<T>, t: Tid, n: nat)
    requires |q.cells| > 0 && t in q.threads && Finished(q.threads[t])
    ensures Alone(q, t, n) == q
  {
    if n > 0 {
      assert q.threads[t := q.threads[t]] == q.threads;
      FinishedStays(q, t, n - 1);
    }
  }

  function Asked<T>(q: Queue<T>, t: Tid, pc: Pc<T>): (q': Queue<T>)
  {
    q.(threads := q.threads[t := pc])
  }

  /** At rest, the first position not taken is published, and the next one to claim is free
      unless a whole lap is outstanding. */
  lemma RestingEnds<T>(q: Queue<T>)
    requires Inv(q) && AtRest(q)
    ensures q.dequeue < q.enqueue ==>
      q.cells[Slot(q, q.dequeue)].sequence == q.dequeue + 1 && q.cells[Slot(q, q.dequeue)].value == q.log[q.dequeue]
    ensures q.dequeue == q.enqueue ==> q.cells[Slot(q, q.dequeue)].sequence < q.dequeue + 1
    ensures q.enqueue < q.dequeue + |q.cells| ==> q.cells[Slot(q, q.enqueue)].sequence == q.enqueue
    ensures q.enqueue >= q.dequeue + |q.cells| ==> q.cells[Slot(q, q.enqueue)].sequence < q.enqueue
  {
    HeadIsUnpublished(q);
    Outstanding(q);
    if q.dequeue < q.enqueue {
      assert PositionOk(q, q.dequeue);
    }
    if q.enqueue >= |q.cells| {
      assert PositionOk(q, q.enqueue - |q.cells|);
    }
  }

  /** From the load to the swap. */
  lemma PopClaims<T>(q: Queue<T>, t: Tid)
    requires |q.cells| > 0 && q.cells[Slot(q, q.dequeue)].sequence == q.dequeue + 1
    ensures
      var q3 := SetPhase(q.(dequeue := q.dequeue + 1, threads := q.threads[t := PopRead(q.dequeue)]), q.dequeue, Reading(t));
      Alone(Asked(q, t, PopLoad), t, 5) == Alone(q3, t, 2)
  {
    var pos := q.dequeue;
    OneInstruction(Asked(q, t, PopLoad), t, Asked(q, t, PopLook(pos)), 5);
    OneInstruction(Asked(q, t, PopLook(pos)), t, Asked(q, t, PopClaim(pos)), 4);
    hide Alone;
    var q3 := SetPhase(q.(dequeue := q.dequeue + 1, threads := q.threads[t := PopRead(pos)]), pos, Reading(t));
    OneInstruction(Asked(q, t, PopClaim(pos)), t, q3, 3);
  }

  /** From the swap to the return. */
  lemma PopReturns<T>(q: Queue<T>, t: Tid, pos: nat)
    requires |q.cells| > 0 && t in q.threads && q.threads[t] == PopRead(pos)
    ensures
      var v := q.cells[Slot(q, pos)].value;
      var q' := Alone(q, t, 2);
      && q'.threads == q.threads[t := Popped(Some(v))] && q'.delivered == q.delivered[pos := v]
      && q'.dequeue == q.dequeue && q'.enqueue == q.enqueue && q'.log == q.log
  {
    var v := q.cells[Slot(q, pos)].value;
    var q1 := q.(threads := q.threads[t := PopRelease(pos, v)], delivered := q.delivered[pos := v]);
    OneInstruction(q, t, q1, 2);
    OneInstruction(q1, t, RunThread(q1, t, false), 1);
  }

  lemma PopTakes<T>(q: Queue<T>, t: Tid)
    requires Inv(q) && AtRest(q) && q.dequeue < q.enqueue
    ensures
      var q' := Alone(Asked(q, t, PopLoad), t, 5);
      && q'.threads == q.threads[t := Popped(Some(q.log[q.dequeue]))]
      && q'.dequeue == q.dequeue + 1 && q'.enqueue == q.enqueue && q'.log == q.log
      && q'.delivered == q.delivered[q.dequeue := q.log[q.dequeue]]
  {
    RestingEnds(q);
    hide Inv, AtRest, Alone;
    PopClaims(q, t);
    var q3 := SetPhase(q.(dequeue := q.dequeue + 1, threads := q.threads[t := PopRead(q.dequeue)]), q.dequeue, Reading(t));
    PopReturns(q3, t, q.dequeue);
  }

  lemma PopFindsNothing<T>(q: Queue<T>, t: Tid)
    requires Inv(q) && AtRest(q) && q.dequeue == q.enqueue
    ensures Alone(Asked(q, t, PopLoad), t, 5) == Asked(q, t, Popped(None))
  {
    RestingEnds(q);
    hide Inv;
    var pos := q.dequeue;
    OneInstruction(Asked(q, t, PopLoad), t, Asked(q, t, PopLook(pos)), 5);
    OneInstruction(Asked(q, t, PopLook(pos)), t, Asked(q, t, Popped(None)), 4);
    FinishedStays(Asked(q, t, Popped(None)), t, 3);
  }

  lemma PushAppends<T>(q: Queue<T>, t: Tid, v: T)
    requires Inv(q) && AtRest(q) && q.enqueue < q.dequeue + |q.cells|
    ensures
      var q' := Alone(Asked(q, t, PushLoad(v)), t, 5);
      && q'.threads == q.threads[t := Pushed(true)]
      && q'.enqueue == q.enqueue + 1 && q'.dequeue == q.dequeue && q'.log == q.log + [v] && q'.delivered == q.delivered
  {
    RestingEnds(q);
    hide Inv;
    hide AtRest;
    var pos := q.enqueue;
    OneInstruction(Asked(q, t, PushLoad(v)), t, Asked(q, t, PushLook(v, pos)), 5);
    OneInstruction(Asked(q, t, PushLook(v, pos)), t, Asked(q, t, PushClaim(v, pos)), 4);
    var q3 := RunThread(Asked(q, t, PushClaim(v, pos)), t, false);
    OneInstruction(Asked(q, t, PushClaim(v, pos)), t, q3, 3);
    var q4 := RunThread(q3, t, false);
    OneInstruction(q3, t, q4, 2);
    OneInstruction(q4, t, RunThread(q4, t, false), 1);
  }

  lemma PushIsRefused<T>(q: Queue<T>, t: Tid, v: T)
    requires Inv(q) && AtRest(q) && q.enqueue >= q.dequeue + |q.cells|
    ensures Alone(Asked(q, t, PushLoad(v)), t, 5) == Asked(q, t, Pushed(false))
  {
    RestingEnds(q);
    hide Inv;
    var pos := q.enqueue;
    OneInstruction(Asked(q, t, PushLoad(v)), t, Asked(q, t, PushLook(v, pos)), 5);
    OneInstruction(Asked(q, t, PushLook(v, pos)), t, Asked(q, t, Pushed(false)), 4);
    FinishedStays(Asked(q, t, Pushed(false)), t, 3);
  }

  /** A pop at rest returns the oldest value not yet taken, or nothing if there is none. */
  lemma PopAtRest<T>(capacity: nat, run: seq<Queue<T>>, steps: seq<Step<T>>, k: nat, t: Tid)
    requires capacity >= 2 && IsRun(capacity, run, steps) && k < |run| && AtRest(run[k])
    ensures |run[k].cells| == capacity && run[k].dequeue <= run[k].enqueue == |run[k].log|
    ensures
      var q := run[k];
      var q' := Alone(q.(threads := q.threads[t := PopLoad]), t, 5);
      if q.dequeue < q.enqueue then
        && q'.threads == q.threads[t := Popped(Some(q.log[q.dequeue]))]
        && q'.dequeue == q.dequeue + 1 && q'.enqueue == q.enqueue && q'.log == q.log
        && q'.delivered == q.delivered[q.dequeue := q.log[q.dequeue]]
      else q' == q.(threads := q.threads[t := Popped(None)])
  {
    Reachable(capacity, run, steps, k);
    if run[k].dequeue < run[k].enqueue {
      PopTakes(run[k], t);
    } else {
      PopFindsNothing(run[k], t);
    }
  }

  /** A push at rest appends its value, or is refused exactly when a whole lap is outstanding. */
  lemma PushAtRest<T>(capacity: nat, run: seq<Queue<T>>, steps: seq<Step<T>>, k: nat, t: Tid, v: T)
    requires capacity >= 2 && IsRun(capacity, run, steps) && k < |run| && AtRest(run[k])
    ensures |run[k].cells| == capacity
    ensures
      var q := run[k];
      var q' := Alone(q.(threads := q.threads[t := PushLoad(v)]), t, 5);
      if q.enqueue < q.dequeue + capacity then
        && q'.threads == q.threads[t := Pushed(true)]
        && q'.enqueue == q.enqueue + 1 && q'.dequeue == q.dequeue && q'.log == q.log + [v] && q'.delivered == q.delivered
      else q' == q.(threads := q.threads[t := Pushed(false)])
  {
    Reachable(capacity, run, steps, k);
    if run[k].enqueue < run[k].dequeue + capacity {
      PushAppends(run[k], t, v);
    } else {
      PushIsRefused(run[k], t, v);
    }
  }
}
