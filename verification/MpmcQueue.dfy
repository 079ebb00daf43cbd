/** The bounded multi-producer multi-consumer queue, one atomic instruction at a time, for
    any number of producers and consumers. Positions are unbounded. */
module MpmcQueue {
  import opened CounterTypes
  import opened Modulo

  type Tid = nat

  datatype Cell<T> = Cell(sequence: nat, value: T)

  datatype Pc<T> =
    | PushLoad(v: T) | PushLook(v: T, pos: nat) | PushClaim(v: T, pos: nat) | PushWrite(v: T, pos: nat) | PushPublish(pos: nat)
    | PopLoad | PopLook(pos: nat) | PopClaim(pos: nat) | PopRead(pos: nat) | PopRelease(pos: nat, v: T)
    | Pushed(ok: bool) | Popped(result: Option<T>)

  /** The life of one position: claimed by a producer, published, claimed by a consumer,
      given back. */
  datatype Phase = Writing(t: Tid) | Ready | Reading(t: Tid) | Freed

  /** `log`, `phase` and `delivered` are history: the value claimed for each position in the
      order of the enqueue CAS, how far the position is, and what its consumer read. */
  datatype Queue<T> = Queue(
    cells: seq<Cell<T>>, enqueue: nat, dequeue: nat, threads: map<Tid, Pc<T>>,
    log: seq<T>, phase: seq<Phase>, delivered: map<nat, T>)

  datatype Move<T> = Move(shared: Queue<T>, pc: Pc<T>)

  function Slot<T>(q: Queue<T>, pos: nat): (i: nat)
    requires |q.cells| > 0
    ensures i < |q.cells|
  {
    Select(pos, |q.cells|)
  }

  function SetSequence<T>(q: Queue<T>, pos: nat, s: nat): (q': Queue<T>)
    requires |q.cells| > 0
  {
    q.(cells := q.cells[Slot(q, pos) := q.cells[Slot(q, pos)].(sequence := s)])
  }

  function SetValue<T>(q: Queue<T>, pos: nat, v: T): (q': Queue<T>)
    requires |q.cells| > 0
  {
    q.(cells := q.cells[Slot(q, pos) := q.cells[Slot(q, pos)].(value := v)])
  }

  function SetPhase<T>(q: Queue<T>, pos: nat, f: Phase): (q': Queue<T>)
  {
    if pos < |q.phase| then q.(phase := q.phase[pos := f]) else q
  }

  /** One atomic instruction of thread t; a weak CAS may fail for no reason. */
  function MoveThread<T>(q: Queue<T>, t: Tid, pc: Pc<T>, spurious: bool): (m: Move<T>)
    requires |q.cells| > 0
  {
    match pc
    case PushLoad(v) => Move(q, PushLook(v, q.enqueue))
    case PushLook(v, pos) =>
      var s := q.cells[Slot(q, pos)].sequence;
      Move(q, if s == pos then PushClaim(v, pos) else if s < pos then Pushed(false) else PushLoad(v))
    case PushClaim(v, pos) =>
      if spurious || q.enqueue != pos then Move(q, PushLook(v, q.enqueue))
      else
        Move(q.(enqueue := pos + 1, log := q.log + [v], phase := q.phase + [Writing(t)]), PushWrite(v, pos))
    case PushWrite(v, pos) => Move(SetValue(q, pos, v), PushPublish(pos))
    case PushPublish(pos) => Move(SetPhase(SetSequence(q, pos, pos + 1), pos, Ready), Pushed(true))
    case PopLoad => Move(q, PopLook(q.dequeue))
    case PopLook(pos) =>
      var s := q.cells[Slot(q, pos)].sequence;
      Move(q, if s == pos + 1 then PopClaim(pos) else if s < pos + 1 then Popped(None) else PopLoad)
    case PopClaim(pos) =>
      if spurious || q.dequeue != pos then Move(q, PopLook(q.dequeue))
      else Move(SetPhase(q.(dequeue := pos + 1), pos, Reading(t)), PopRead(pos))
    case PopRead(pos) =>
      var v := q.cells[Slot(q, pos)].value;
      Move(q.(delivered := q.delivered[pos := v]), PopRelease(pos, v))
    case PopRelease(pos, v) => Move(SetPhase(SetSequence(q, pos, pos + |q.cells|), pos, Freed), Popped(Some(v)))
    case Pushed(_) => Move(q, pc)
    case Popped(_) => Move(q, pc)
  }

  function RunThread<T>(q: Queue<T>, t: Tid, spurious: bool): (q': Queue<T>)
    requires |q.cells| > 0 && t in q.threads
  {
    var m := MoveThread(q, t, q.threads[t], spurious);
    m.shared.(threads := q.threads[t := m.pc])
  }

  datatype Step<T> = Push(t: Tid, v: T) | Pop(t: Tid) | Run(t: Tid, spurious: bool)

  predicate Idle<T>(q: Queue<T>, t: Tid)
  {
    t in q.threads ==> q.threads[t].Pushed? || q.threads[t].Popped?
  }

  predicate Init<T>(q: Queue<T>, capacity: nat)
  {
    && capacity > 0 && |q.cells| == capacity
    && (forall i :: 0 <= i < capacity ==> q.cells[i].sequence == i)
    && q.enqueue == 0 && q.dequeue == 0 && q.threads == map[]
    && q.log == [] && q.phase == [] && q.delivered == map[]
  }

  predicate Next<T(==)>(q: Queue<T>, s: Step<T>, q': Queue<T>)
  {
    && |q.cells| > 0
    && match s
       case Push(t, v) => Idle(q, t) && q' == q.(threads := q.threads[t := PushLoad(v)])
       case Pop(t) => Idle(q, t) && q' == q.(threads := q.threads[t := PopLoad])
       case Run(t, spurious) => t in q.threads && q' == RunThread(q, t, spurious)
  }

  predicate StepAt<T(==)>(run: seq<Queue<T>>, steps: seq<Step<T>>, k: nat)
    requires |run| == |steps| + 1
  {
    k < |steps| ==> Next(run[k], steps[k], run[k + 1])
  }

  ghost predicate IsRun<T>(capacity: nat, run: seq<Queue<T>>, steps: seq<Step<T>>)
  {
    && |run| == |steps| + 1
    && Init(run[0], capacity)
    && forall k: nat :: StepAt(run, steps, k)
  }

  // ---------------------------------------------------------------- the invariant

  /** What the cell of position p holds, by the phase of p. */
  ghost predicate PositionOk<T>(q: Queue<T>, p: nat)
    requires |q.cells| > 0 && p < |q.log| == |q.phase|
  {
    var cell := q.cells[Slot(q, p)];
    match q.phase[p]
    case Writing(t) =>
      && cell.sequence == p && p >= q.dequeue && t in q.threads
      && (q.threads[t] == PushWrite(q.log[p], p) || (q.threads[t] == PushPublish(p) && cell.value == q.log[p]))
    case Ready => cell.sequence == p + 1 && cell.value == q.log[p] && p >= q.dequeue
    case Reading(t) =>
      && cell.sequence == p + 1 && cell.value == q.log[p] && p < q.dequeue && t in q.threads
      && (q.threads[t] == PopRead(p) || q.threads[t] == PopRelease(p, q.log[p]))
      && (q.threads[t] == PopRead(p) <==> p !in q.delivered)
    case Freed =>
      && cell.sequence >= p + |q.cells| && p < q.dequeue && p in q.delivered
      && (p + |q.cells| >= q.enqueue ==> cell.sequence == p + |q.cells|)
  }

  /** What a thread knows about the position it works on. */
  ghost predicate ThreadOk<T>(q: Queue<T>, t: Tid, pc: Pc<T>)
    requires |q.cells| > 0 && q.enqueue == |q.phase|
  {
    match pc
    case PushLook(v, pos) => pos <= q.enqueue
    case PushClaim(v, pos) => pos < q.enqueue || (pos == q.enqueue && q.cells[Slot(q, pos)].sequence == pos)
    case PushWrite(v, pos) => pos < q.enqueue && q.phase[pos] == Writing(t)
    case PushPublish(pos) => pos < q.enqueue && q.phase[pos] == Writing(t)
    case PopLook(pos) => pos <= q.dequeue
    case PopClaim(pos) => pos < q.dequeue || (pos == q.dequeue && pos < q.enqueue && q.phase[pos] == Ready)
    case PopRead(pos) => pos < q.enqueue && q.phase[pos] == Reading(t)
    case PopRelease(pos, v) => pos < q.enqueue && q.phase[pos] == Reading(t)
    case _ => true
  }

  ghost predicate Inv<T>(q: Queue<T>)
  {
    && |q.cells| >= 2
    && |q.log| == |q.phase| == q.enqueue && q.dequeue <= q.enqueue
    && (forall p :: 0 <= p < q.enqueue ==> PositionOk(q, p))
    && (forall p :: 0 <= p && p + |q.cells| < q.enqueue ==> q.phase[p] == Freed)
    && (forall p :: q.enqueue <= p < |q.cells| ==> q.cells[p].sequence == p)
    && (forall t :: t in q.threads ==> ThreadOk(q, t, q.threads[t]))
    && (forall p :: p in q.delivered ==> p < q.dequeue && q.delivered[p] == q.log[p])
  }

  /** A claimable position has its slot to itself: the value before it has been given back. */
  lemma VacantSlot<T>(q: Queue<T>)
    requires Inv(q) && q.cells[Slot(q, q.enqueue)].sequence == q.enqueue
    ensures q.enqueue >= |q.cells| ==> q.phase[q.enqueue - |q.cells|] == Freed
  {
    if q.enqueue >= |q.cells| {
      assert PositionOk(q, q.enqueue - |q.cells|);
    }
  }

  /** Never more than the capacity between the two ends. */
  lemma Outstanding<T>(q: Queue<T>)
    requires Inv(q)
    ensures q.enqueue <= q.dequeue + |q.cells|
  {
    if q.enqueue > |q.cells| {
      var p := q.enqueue - |q.cells| - 1;
      assert p + |q.cells| < q.enqueue;
      assert PositionOk(q, p);
    }
  }

  // ---------------------------------------------------------------- steps

  lemma SlotsNearby<T>(q: Queue<T>, a: nat, b: nat)
    requires |q.cells| > 0 && a < b && Slot(q, a) == Slot(q, b)
    ensures b >= a + |q.cells|
  {
    if b < a + |q.cells| {
      SelectIsInjectiveNearby(a, b, |q.cells|);
    }
  }

  /** A position in use shares its slot only with positions a whole lap behind, all given back. */
  lemma SameSlot<T>(q: Queue<T>, pos: nat, p: nat)
    requires Inv(q) && pos < q.enqueue && q.phase[pos] != Freed
    requires p < q.enqueue && p != pos && Slot(q, p) == Slot(q, pos)
    ensures p + |q.cells| <= pos && q.phase[p] == Freed
  {
    if p < pos {
      SlotsNearby(q, p, pos);
    } else {
      SlotsNearby(q, pos, p);
    }
  }

  /** A position in use never sits in the slot that the next producer has found vacant. */
  lemma VacantSlotIsElsewhere<T>(q: Queue<T>, pos: nat)
    requires Inv(q) && pos < q.enqueue && q.phase[pos] != Freed
    requires q.cells[Slot(q, q.enqueue)].sequence == q.enqueue
    ensures Slot(q, pos) != Slot(q, q.enqueue)
  {
    assert PositionOk(q, pos);
    if Slot(q, pos) == Slot(q, q.enqueue) {
      SlotsNearby(q, pos, q.enqueue);
    }
  }

  /** The state after one cell, in use by t, and its phase have changed. */
  ghost predicate Touched<T>(q: Queue<T>, q': Queue<T>, t: Tid, pos: nat)
  {
    && |q.cells| > 0 && |q'.cells| == |q.cells| && q'.enqueue == q.enqueue && q'.dequeue == q.dequeue
    && q'.log == q.log && |q'.phase| == |q.phase|
    && (forall i :: 0 <= i < |q.cells| && i != Slot(q, pos) ==> q'.cells[i] == q.cells[i])
    && q.cells[Slot(q, pos)].sequence <= q'.cells[Slot(q, pos)].sequence
    && (forall p :: 0 <= p < |q.phase| && p != pos ==> q'.phase[p] == q.phase[p])
    && (forall p :: p != pos ==> (p in q'.delivered <==> p in q.delivered))
    && (forall p :: p in q'.delivered && p != pos ==> q'.delivered[p] == q.delivered[p])
    && t in q.threads && t in q'.threads && q'.threads.Keys == q.threads.Keys
    && (forall o :: o in q.threads && o != t ==> q'.threads[o] == q.threads[o])
  }

  /** Exclusive ownership: whatever happens to a position in use leaves every other one alone. */
  lemma OthersUntouched<T>(q: Queue<T>, q': Queue<T>, t: Tid, pos: nat, p: nat)
    requires Inv(q) && Touched(q, q', t, pos)
    requires pos < q.enqueue && (q.phase[pos] == Writing(t) || q.phase[pos] == Reading(t))
    requires q.threads[t] == PushWrite(q.log[pos], pos) || q.threads[t] == PushPublish(pos)
             || q.threads[t] == PopRead(pos) || q.threads[t] == PopRelease(pos, q.log[pos])
    requires p < q.enqueue && p != pos
    ensures PositionOk(q', p)
  {
    assert PositionOk(q, p) && PositionOk(q, pos);
    if Slot(q, p) == Slot(q, pos) {
      SameSlot(q, pos, p);
    }
  }

  lemma OtherThreadsUntouched<T>(q: Queue<T>, q': Queue<T>, t: Tid, pos: nat, o: Tid)
    requires Inv(q) && Touched(q, q', t, pos)
    requires pos < q.enqueue && (q.phase[pos] == Writing(t) || q.phase[pos] == Reading(t))
    requires o in q.threads && o != t
    ensures ThreadOk(q', o, q.threads[o])
  {
    assert ThreadOk(q, o, q.threads[o]);
    if q.threads[o].PushClaim? && q.threads[o].pos == q.enqueue {
      VacantSlotIsElsewhere(q, pos);
    }
  }

  lemma TouchKeepsInv<T>(q: Queue<T>, q': Queue<T>, t: Tid, pos: nat)
    requires Inv(q) && Touched(q, q', t, pos)
    requires pos < q.enqueue && (q.phase[pos] == Writing(t) || q.phase[pos] == Reading(t))
    requires q.threads[t] == PushWrite(q.log[pos], pos) || q.threads[t] == PushPublish(pos)
             || q.threads[t] == PopRead(pos) || q.threads[t] == PopRelease(pos, q.log[pos])
    requires PositionOk(q', pos) && ThreadOk(q', t, q'.threads[t])
    requires pos in q'.delivered ==> pos < q.dequeue && q'.delivered[pos] == q.log[pos]
    ensures Inv(q')
  {
    forall p | 0 <= p < q'.enqueue ensures PositionOk(q', p) {
      if p != pos {
        OthersUntouched(q, q', t, pos, p);
      }
    }
    forall o | o in q'.threads ensures ThreadOk(q', o, q'.threads[o]) {
      if o != t {
        OtherThreadsUntouched(q, q', t, pos, o);
      }
    }
    forall p | q'.enqueue <= p < |q'.cells| ensures q'.cells[p].sequence == p {
      assert Slot(q, pos) == pos;
    }
  }

  lemma WriteKeepsInv<T>(q: Queue<T>, t: Tid, spurious: bool)
    requires Inv(q) && t in q.threads && q.threads[t].PushWrite?
    ensures Inv(RunThread(q, t, spurious))
  {
    assert ThreadOk(q, t, q.threads[t]);
    assert PositionOk(q, q.threads[t].pos);
    TouchKeepsInv(q, RunThread(q, t, spurious), t, q.threads[t].pos);
  }

  lemma PublishKeepsInv<T>(q: Queue<T>, t: Tid, spurious: bool)
    requires Inv(q) && t in q.threads && q.threads[t].PushPublish?
    ensures Inv(RunThread(q, t, spurious))
  {
    assert ThreadOk(q, t, q.threads[t]);
    assert PositionOk(q, q.threads[t].pos);
    TouchKeepsInv(q, RunThread(q, t, spurious), t, q.threads[t].pos);
  }

  lemma ReadKeepsInv<T>(q: Queue<T>, t: Tid, spurious: bool)
    requires Inv(q) && t in q.threads && q.threads[t].PopRead?
    ensures Inv(RunThread(q, t, spurious))
  {
    assert ThreadOk(q, t, q.threads[t]);
    assert PositionOk(q, q.threads[t].pos);
    TouchKeepsInv(q, RunThread(q, t, spurious), t, q.threads[t].pos);
  }

  lemma ReleaseKeepsInv<T>(q: Queue<T>, t: Tid, spurious: bool)
    requires Inv(q) && t in q.threads && q.threads[t].PopRelease?
    ensures Inv(RunThread(q, t, spurious))
  {
    assert ThreadOk(q, t, q.threads[t]);
    assert PositionOk(q, q.threads[t].pos);
    TouchKeepsInv(q, RunThread(q, t, spurious), t, q.threads[t].pos);
  }

  lemma ClaimPushKeepsInv<T>(q: Queue<T>, t: Tid)
    requires Inv(q) && t in q.threads && q.threads[t].PushClaim? && q.threads[t].pos == q.enqueue
    ensures Inv(RunThread(q, t, false))
  {
    var q' := RunThread(q, t, false);
    assert ThreadOk(q, t, q.threads[t]);
    VacantSlot(q);
    forall p | 0 <= p < q'.enqueue ensures PositionOk(q', p) {
      if p < q.enqueue {
        assert PositionOk(q, p);
      }
    }
    forall o | o in q'.threads ensures ThreadOk(q', o, q'.threads[o]) {
      if o != t {
        assert ThreadOk(q, o, q.threads[o]);
      }
    }
  }

  lemma ClaimPopKeepsInv<T>(q: Queue<T>, t: Tid)
    requires Inv(q) && t in q.threads && q.threads[t].PopClaim? && q.threads[t].pos == q.dequeue
    ensures Inv(RunThread(q, t, false))
  {
    var q' := RunThread(q, t, false);
    assert ThreadOk(q, t, q.threads[t]);
    forall p | 0 <= p < q'.enqueue ensures PositionOk(q', p) {
      assert PositionOk(q, p);
    }
    forall o | o in q'.threads ensures ThreadOk(q', o, q'.threads[o]) {
      if o != t {
        assert ThreadOk(q, o, q.threads[o]);
      }
    }
  }

  /** Looking at the queue, and every CAS that fails, changes only the thread itself. */
  lemma LookKeepsInv<T>(q: Queue<T>, t: Tid, pc: Pc<T>)
    requires Inv(q)
    requires t in q.threads ==> !q.threads[t].PushWrite? && !q.threads[t].PushPublish? && !q.threads[t].PopRead? && !q.threads[t].PopRelease?
    requires ThreadOk(q, t, pc)
    requires !pc.PushWrite? && !pc.PushPublish? && !pc.PopRead? && !pc.PopRelease?
    ensures Inv(q.(threads := q.threads[t := pc]))
  {
    var q' := q.(threads := q.threads[t := pc]);
    forall p | 0 <= p < q'.enqueue ensures PositionOk(q', p) {
      assert PositionOk(q, p);
    }
    forall o | o in q'.threads ensures ThreadOk(q', o, q'.threads[o]) {
      if o != t {
        assert ThreadOk(q, o, q.threads[o]);
      }
    }
  }

  /** A producer that sees its own sequence number sees a position nobody has claimed. */
  lemma PushLookIsSound<T>(q: Queue<T>, t: Tid, spurious: bool)
    requires Inv(q) && t in q.threads && q.threads[t].PushLook?
    ensures ThreadOk(q, t, MoveThread(q, t, q.threads[t], spurious).pc)
  {
    assert ThreadOk(q, t, q.threads[t]);
  }

  /** A consumer that sees the published sequence number sees a published value. */
  lemma PopLookIsSound<T>(q: Queue<T>, t: Tid, spurious: bool)
    requires Inv(q) && t in q.threads && q.threads[t].PopLook?
    ensures ThreadOk(q, t, MoveThread(q, t, q.threads[t], spurious).pc)
  {
    var pos := q.threads[t].pos;
    assert ThreadOk(q, t, q.threads[t]);
    if pos == q.dequeue && q.cells[Slot(q, pos)].sequence == pos + 1 {
      if pos == q.enqueue {
        HeadIsUnpublished(q);
      } else {
        assert PositionOk(q, pos);
      }
    }
  }

  /** The slot of the next position to claim never looks published. */
  lemma HeadIsUnpublished<T>(q: Queue<T>)
    requires Inv(q)
    ensures q.cells[Slot(q, q.enqueue)].sequence <= q.enqueue
  {
    if q.enqueue >= |q.cells| {
      assert PositionOk(q, q.enqueue - |q.cells|);
    }
  }

  lemma RunKeepsInv<T>(q: Queue<T>, t: Tid, spurious: bool)
    requires Inv(q) && t in q.threads
    ensures Inv(RunThread(q, t, spurious))
  {
    assert ThreadOk(q, t, q.threads[t]);
    var m := MoveThread(q, t, q.threads[t], spurious);
    match q.threads[t]
    case PushWrite(_, _) => WriteKeepsInv(q, t, spurious);
    case PushPublish(_) => PublishKeepsInv(q, t, spurious);
    case PopRead(_) => ReadKeepsInv(q, t, spurious);
    case PopRelease(_, _) => ReleaseKeepsInv(q, t, spurious);
    case PushClaim(_, pos) =>
      if !spurious && pos == q.enqueue {
        ClaimPushKeepsInv(q, t);
      } else {
        LookKeepsInv(q, t, m.pc);
      }
    case PopClaim(pos) =>
      if !spurious && pos == q.dequeue {
        ClaimPopKeepsInv(q, t);
      } else {
        LookKeepsInv(q, t, m.pc);
      }
    case PushLook(_, _) =>
      PushLookIsSound(q, t, spurious);
      LookKeepsInv(q, t, m.pc);
    case PopLook(_) =>
      PopLookIsSound(q, t, spurious);
      LookKeepsInv(q, t, m.pc);
    case _ => LookKeepsInv(q, t, m.pc);
  }

  lemma StepKeepsInv<T>(q: Queue<T>, s: Step<T>, q': Queue<T>)
    requires Inv(q) && Next(q, s, q')
    ensures Inv(q')
  {
    match s
    case Push(t, v) => LookKeepsInv(q, t, PushLoad(v));
    case Pop(t) => LookKeepsInv(q, t, PopLoad);
    case Run(t, spurious) => RunKeepsInv(q, t, spurious);
  }

  lemma {:induction false} Reachable<T>(capacity: nat, run: seq<Queue<T>>, steps: seq<Step<T>>, k: nat)
    requires capacity >= 2 && IsRun(capacity, run, steps) && k < |run|
    ensures Inv(run[k]) && |run[k].cells| == capacity
  {
    if k > 0 {
      var j := k - 1;
      Reachable(capacity, run, steps, j);
      assert StepAt(run, steps, j);
      StepKeepsInv(run[j], steps[j], run[j + 1]);
    }
  }

  // ---------------------------------------------------------------- what the queue promises

  /** What a consumer is about to return is the value claimed for its position. */
  lemma PopsReturnTheirPosition<T>(capacity: nat, run: seq<Queue<T>>, steps: seq<Step<T>>, k: nat, t: Tid)
    requires capacity >= 2 && IsRun(capacity, run, steps) && k < |run|
    requires t in run[k].threads && run[k].threads[t].PopRelease?
    ensures
      var pos := run[k].threads[t].pos;
      pos < run[k].dequeue <= |run[k].log| && run[k].threads[t].v == run[k].log[pos]
  {
    Reachable(capacity, run, steps, k);
    assert ThreadOk(run[k], t, run[k].threads[t]);
    assert PositionOk(run[k], run[k].threads[t].pos);
  }

  /** Positions are handed out one by one at both ends: a producer's value goes to the end of
      the log, a consumer gets the first position not yet taken, and neither log nor what was
      delivered is ever rewritten. */
  lemma PositionsAreHandedOutInOrder<T>(capacity: nat, run: seq<Queue<T>>, steps: seq<Step<T>>, k: nat)
    requires capacity >= 2 && IsRun(capacity, run, steps) && k < |steps|
    ensures run[k].log <= run[k + 1].log && |run[k + 1].log| == run[k + 1].enqueue
    ensures run[k].dequeue <= run[k + 1].dequeue <= run[k].dequeue + 1
    ensures forall p :: p in run[k].delivered ==> p in run[k + 1].delivered && run[k + 1].delivered[p] == run[k].delivered[p]
    ensures run[k + 1].enqueue > run[k].enqueue ==>
              && steps[k].Run? && steps[k].t in run[k].threads && run[k].threads[steps[k].t].PushClaim?
              && run[k + 1].log == run[k].log + [run[k].threads[steps[k].t].v]
    ensures run[k + 1].dequeue > run[k].dequeue ==>
              steps[k].Run? && steps[k].t in run[k + 1].threads && run[k + 1].threads[steps[k].t] == PopRead(run[k].dequeue)
  {
    Reachable(capacity, run, steps, k);
    Reachable(capacity, run, steps, k + 1);
    assert StepAt(run, steps, k);
    if steps[k].Run? {
      var t := steps[k].t;
      assert ThreadOk(run[k], t, run[k].threads[t]);
      if run[k].threads[t].PopRead? {
        assert PositionOk(run[k], run[k].threads[t].pos);
      }
    }
  }

  /** No position is ever read twice: the consumer that reads it is the first to do so. */
  lemma DeliveredOnce<T>(capacity: nat, run: seq<Queue<T>>, steps: seq<Step<T>>, k: nat, t: Tid)
    requires capacity >= 2 && IsRun(capacity, run, steps) && k < |run|
    requires t in run[k].threads && run[k].threads[t].PopRead?
    ensures run[k].threads[t].pos !in run[k].delivered
    ensures |run[k].cells| > 0 && run[k].threads[t].pos < |run[k].log|
    ensures MoveThread(run[k], t, run[k].threads[t], false).shared.delivered
            == run[k].delivered[run[k].threads[t].pos := run[k].log[run[k].threads[t].pos]]
  {
    Reachable(capacity, run, steps, k);
    assert ThreadOk(run[k], t, run[k].threads[t]);
    assert PositionOk(run[k], run[k].threads[t].pos);
  }

  predicate AtRest<T>(q: Queue<T>)
  {
    forall t :: t in q.threads ==> q.threads[t].Pushed? || q.threads[t].Popped?
  }

  /** Nothing is lost: at rest every position below the head has been delivered, and every
      other claimed value is in its cell, published and waiting. */
  lemma NothingIsLost<T>(capacity: nat, run: seq<Queue<T>>, steps: seq<Step<T>>, k: nat)
    requires capacity >= 2 && IsRun(capacity, run, steps) && k < |run| && AtRest(run[k])
    ensures run[k].dequeue <= run[k].enqueue == |run[k].log| && |run[k].cells| > 0
    ensures forall p :: 0 <= p < run[k].dequeue ==> p in run[k].delivered && run[k].delivered[p] == run[k].log[p]
    ensures forall p :: run[k].dequeue <= p < run[k].enqueue ==>
              p !in run[k].delivered && run[k].cells[Slot(run[k], p)] == Cell(p + 1, run[k].log[p])
  {
    Reachable(capacity, run, steps, k);
    var q := run[k];
    forall p | 0 <= p < q.enqueue
      ensures p < q.dequeue ==> p in q.delivered
      ensures p >= q.dequeue ==> q.cells[Slot(q, p)] == Cell(p + 1, q.log[p])
    {
      assert PositionOk(q, p);
    }
  }

  /** The position a thread has exclusive use of, from its CAS to its sequence store. */
  function Owned<T>(pc: Pc<T>): (pos: Option<nat>)
  {
    match pc
    case PushWrite(_, pos) => Some(pos)
    case PushPublish(pos) => Some(pos)
    case PopRead(pos) => Some(pos)
    case PopRelease(pos, _) => Some(pos)
    case _ => None
  }

  /** No two threads ever own the same cell. */
  lemma CellsAreOwnedExclusively<T>(capacity: nat, run: seq<Queue<T>>, steps: seq<Step<T>>, k: nat, t: Tid, o: Tid)
    requires capacity >= 2 && IsRun(capacity, run, steps) && k < |run|
    requires t in run[k].threads && o in run[k].threads && t != o
    requires Owned(run[k].threads[t]).Some? && Owned(run[k].threads[o]).Some?
    ensures |run[k].cells| > 0
    ensures Slot(run[k], Owned(run[k].threads[t]).value) != Slot(run[k], Owned(run[k].threads[o]).value)
  {
    Reachable(capacity, run, steps, k);
    var q := run[k];
    var a, b := Owned(q.threads[t]).value, Owned(q.threads[o]).value;
    assert ThreadOk(q, t, q.threads[t]) && ThreadOk(q, o, q.threads[o]);
    if Slot(q, a) == Slot(q, b) && a != b {
      SameSlot(q, a, b);
    }
  }

  /** Never more values between the two ends than there are cells. */
  lemma CapacityIsRespected<T>(capacity: nat, run: seq<Queue<T>>, steps: seq<Step<T>>, k: nat)
    requires capacity >= 2 && IsRun(capacity, run, steps) && k < |run|
    ensures run[k].dequeue <= run[k].enqueue <= run[k].dequeue + capacity
  {
    Reachable(capacity, run, steps, k);
    Outstanding(run[k]);
  }

  /** A push is refused only while the position a whole lap behind has not been given back. */
  lemma PushFailsOnlyWhenFull<T>(capacity: nat, run: seq<Queue<T>>, steps: seq<Step<T>>, k: nat, t: Tid)
    requires capacity >= 2 && IsRun(capacity, run, steps) && k < |run|
    requires t in run[k].threads && run[k].threads[t].PushLook?
    ensures |run[k].cells| == capacity && |run[k].phase| == run[k].enqueue
    ensures MoveThread(run[k], t, run[k].threads[t], false).pc == Pushed(false) ==>
              && run[k].threads[t].pos == run[k].enqueue >= capacity
              && run[k].phase[run[k].enqueue - capacity] != Freed
  {
    Reachable(capacity, run, steps, k);
    var q := run[k];
    var pos := q.threads[t].pos;
    assert ThreadOk(q, t, q.threads[t]);
    if pos < q.enqueue {
      assert PositionOk(q, pos);
    } else if pos >= capacity {
      assert PositionOk(q, pos - capacity);
    } else {
      assert Slot(q, pos) == pos;
    }
  }

  /** A pop is refused only when the next position to take has not been published. */
  lemma PopFailsOnlyWhenNothingIsPublished<T>(capacity: nat, run: seq<Queue<T>>, steps: seq<Step<T>>, k: nat, t: Tid)
    requires capacity >= 2 && IsRun(capacity, run, steps) && k < |run|
    requires t in run[k].threads && run[k].threads[t].PopLook?
    ensures |run[k].cells| == capacity && |run[k].phase| == run[k].enqueue
    ensures MoveThread(run[k], t, run[k].threads[t], false).pc == Popped(None) ==>
              && run[k].threads[t].pos == run[k].dequeue
              && (run[k].dequeue == run[k].enqueue || (run[k].dequeue < |run[k].phase| && run[k].phase[run[k].dequeue].Writing?))
  {
    Reachable(capacity, run, steps, k);
    var q := run[k];
    assert ThreadOk(q, t, q.threads[t]);
    if q.threads[t].pos < q.enqueue {
      assert PositionOk(q, q.threads[t].pos);
    }
  }

  // ---------------------------------------------------------------- a single cell is too few

  /** One cell, two pushes in a row: both succeed, the second over the first. */
  function SingleCell(k: nat): (q: Queue<nat>)
  {
    var push: seq<Pc<nat>> := [
      PushLoad(7), PushLook(7, 0), PushClaim(7, 0), PushWrite(7, 0), PushPublish(0), Pushed(true),
      PushLoad(8), PushLook(8, 1), PushClaim(8, 1), PushWrite(8, 1)];
    var cell := if k < 5 then Cell(0, 0) else if k < 6 then Cell(0, 7) else Cell(1, 7);
    Queue([cell], if k < 4 then 0 else if k < 10 then 1 else 2, 0,
          if k == 0 then map[] else map[0 := push[if k <= 10 then k - 1 else 9]],
          if k < 4 then [] else if k < 10 then [7] else [7, 8],
          if k < 4 then [] else if k < 6 then [Writing(0)] else if k < 10 then [Ready] else [Ready, Writing(0)],
          map[])
  }

  const SINGLE_STEPS: seq<Step<nat>> := [
    Push(0, 7), Run(0, false), Run(0, false), Run(0, false), Run(0, false), Run(0, false),
    Push(0, 8), Run(0, false), Run(0, false), Run(0, false)]

  lemma SingleStep(k: nat)
    requires k < 10
    ensures Next(SingleCell(k), SINGLE_STEPS[k], SingleCell(k + 1))
  {
    assert Select(1, 1) == Select(0, 1) == 0;
  }

  lemma SingleCellOverwrites() returns (run: seq<Queue<nat>>)
    ensures IsRun(1, run, SINGLE_STEPS) && |run| == 11
    ensures run[10].enqueue == 2 && run[10].dequeue == 0
  {
    run := seq(11, k requires 0 <= k => SingleCell(k));
    forall k: nat ensures StepAt(run, SINGLE_STEPS, k) {
      if k < 10 {
        SingleStep(k);
      }
    }
  }

  /** The size check admits a single cell, but the queue keeps its bound if and only if it
      has at least two: with one, "published" and "free for the next lap" look the same. */
  lemma BoundHoldsIffTwoCells(capacity: nat)
    requires capacity > 0
    ensures (forall run: seq<Queue<nat>>, steps: seq<Step<nat>>, k: nat ::
               IsRun(capacity, run, steps) && k < |run| ==> run[k].enqueue <= run[k].dequeue + capacity)
            <==> capacity >= 2
  {
    if capacity >= 2 {
      forall run: seq<Queue<nat>>, steps: seq<Step<nat>>, k: nat | IsRun(capacity, run, steps) && k < |run|
        ensures run[k].enqueue <= run[k].dequeue + capacity
      {
        CapacityIsRespected(capacity, run, steps, k);
      }
    } else {
      var run := SingleCellOverwrites();
      assert run[10].enqueue > run[10].dequeue + capacity;
    }
  }
}
