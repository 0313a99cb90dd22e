/**
 * The 32-bit queue beyond the bound of MpmcQueue.Run32: for every capacity there is a run of the code in which
 * a push sleeps through 2^32 other pushes and then overfills the queue. On the way: an operation that runs
 * alone succeeds.
 */
module MpmcOverflow {
  import opened Common
  import opened MpmcQueue

  /** Reachable by the code in a run that is also one of the model. */
  ghost predicate Reachable(s: State) {
    exists states, steps :: IsRun(states, steps) && IsRun32(states, steps) && states[|states| - 1] == s
  }

  lemma ReachableInv(s: State)
    requires Reachable(s)
    ensures Inv(s) && WORD % |s.cells| == 0
  {
    var states, steps :| IsRun(states, steps) && IsRun32(states, steps) && states[|states| - 1] == s;
    RunInv(states, steps, |states| - 1);
    CellsKept(states, steps, |states| - 1);
  }

  lemma ReachNext(s: State, s': State, t: ThreadId, choice: Choice)
    requires Reachable(s) && t < |s.threads| && Recent(s, t) && Next(s, s', t, choice)
    ensures Reachable(s')
  {
    ReachableInv(s);
    Push32(s, s', t, choice);
    Pop32(s, s', t, choice);
    var states, steps :| IsRun(states, steps) && IsRun32(states, steps) && states[|states| - 1] == s;
    Extended(states, steps, s', Step(t, choice));
  }

  lemma Extended(states: seq<State>, steps: seq<Step>, s': State, step: Step)
    requires IsRun32(states, steps) && Next32(states[|states| - 1], s', step.t, step.choice)
    ensures IsRun32(states + [s'], steps + [step])
    ensures IsRun(states, steps) && Next(states[|states| - 1], s', step.t, step.choice) ==>
              IsRun(states + [s'], steps + [step])
  {
  }

  // ---------------------------------------------------------------------------------------------
  // Operations that run alone
  // ---------------------------------------------------------------------------------------------

  /** No thread is busy with a cell. */
  ghost predicate Calm(s: State) {
    forall t :: 0 <= t < |s.threads| ==>
      !s.threads[t].PushWrite? && !s.threads[t].PushStore? && !s.threads[t].PopRead? && !s.threads[t].PopStore?
  }

  predicate Resting(pc: Pc) {
    pc == Idle || pc.Pushed? || pc.Popped?
  }

  lemma RoomIsFree(s: State)
    requires Inv(s) && Calm(s) && s.tail - s.head < |s.cells|
    ensures TailFree(s)
  {
    var i := Index(s, s.tail);
    assert AnyCell(i);
    SameSlot(|s.cells|, s.cells[i].pos, s.tail);
  }

  lemma FirstIsFull(s: State)
    requires Inv(s) && Calm(s) && s.head < s.tail
    ensures HeadFull(s)
  {
    var i := Index(s, s.head);
    assert AnyCell(i);
    SameSlot(|s.cells|, s.cells[i].pos, s.head);
  }

  /** The thread has looked at a free cell and has yet to claim it. */
  lemma PushArrives(s: State, t: ThreadId, v: Value)
    requires Reachable(s) && Calm(s) && t < |s.threads| && Resting(s.threads[t])
    requires s.tail - s.head < |s.cells| < 0x8000_0000
    ensures Reachable(Goto(s, t, PushCas(v, s.tail)))
  {
    ReachableInv(s);
    RoomIsFree(s);
    assert AnyCell(Index(s, s.tail));
    var a, b, c := Goto(s, t, PushLoad(v)), Goto(s, t, PushLook(v, s.tail)), Goto(s, t, PushCas(v, s.tail));
    ReachNext(s, a, t, StartPush(v));
    assert a.threads[t := b.threads[t]] == b.threads && b.threads[t := c.threads[t]] == c.threads;
    ReachNext(a, b, t, Go);
    ReachNext(b, c, t, Go);
  }

  /** The claimed cell is filled. */
  lemma PushFills(s: State, t: ThreadId, v: Value, tail: nat) returns (s': State)
    requires Reachable(s) && t < |s.threads| && s.threads[t] == PushWrite(v, tail)
    ensures Reachable(s') && s'.threads == s.threads[t := Pushed(true)]
    ensures |s'.cells| == |s.cells| && s'.head == s.head && s'.tail == s.tail && s'.items == s.items
  {
    ReachableInv(s);
    var i := Index(s, tail);
    var e := SetCell(Goto(s, t, PushStore(v, tail)), i, s.cells[i].(data := v));
    ReachNext(s, e, t, Go);
    s' := SetCell(Goto(e, t, Pushed(true)), i, e.cells[i].(sequence := tail + 1, full := true, claim := None));
    ReachNext(e, s', t, Go);
  }

  /** A push that runs alone succeeds if the queue is not full. */
  lemma SoloPush(s: State, t: ThreadId, v: Value) returns (s': State)
    requires Reachable(s) && Calm(s) && t < |s.threads| && Resting(s.threads[t])
    requires s.tail - s.head < |s.cells| < 0x8000_0000
    ensures Reachable(s') && Calm(s') && s'.threads == s.threads[t := Pushed(true)]
    ensures |s'.cells| == |s.cells| && s'.head == s.head && s'.tail == s.tail + 1 && s'.items == s.items + [v]
  {
    ReachableInv(s);
    PushArrives(s, t, v);
    var i := Index(s, s.tail);
    var c := Goto(s, t, PushCas(v, s.tail));
    var d := SetCell(Goto(c, t, PushWrite(v, s.tail)), i, s.cells[i].(claim := Some(t)))
             .(tail := s.tail + 1, items := s.items + [v]);
    ReachNext(c, d, t, Go);
    s' := PushFills(d, t, v, s.tail);
  }

  lemma PopArrives(s: State, t: ThreadId)
    requires Reachable(s) && Calm(s) && t < |s.threads| && Resting(s.threads[t])
    requires s.head < s.tail && |s.cells| < 0x8000_0000
    ensures Reachable(Goto(s, t, PopCas(s.head)))
  {
    ReachableInv(s);
    FirstIsFull(s);
    assert AnyCell(Index(s, s.head));
    var a, b, c := Goto(s, t, PopLoad), Goto(s, t, PopLook(s.head)), Goto(s, t, PopCas(s.head));
    ReachNext(s, a, t, StartPop);
    assert a.threads[t := b.threads[t]] == b.threads && b.threads[t := c.threads[t]] == c.threads;
    ReachNext(a, b, t, Go);
    ReachNext(b, c, t, Go);
  }

  /** The claimed cell is emptied. */
  lemma PopEmpties(s: State, t: ThreadId, head: nat) returns (s': State)
    requires Reachable(s) && t < |s.threads| && s.threads[t] == PopRead(head)
    ensures head < |s.items| && Reachable(s') && s'.threads == s.threads[t := Popped(Some(s.items[head]))]
    ensures |s'.cells| == |s.cells| && s'.head == s.head && s'.tail == s.tail && s'.items == s.items
  {
    ReachableInv(s);
    var i, next := Index(s, head), head + |s.cells|;
    assert AnyThread(t) && AnyCell(i);
    var data := s.items[head];
    var e := Goto(s, t, PopStore(head, data));
    ReachNext(s, e, t, Go);
    s' := SetCell(Goto(e, t, Popped(Some(data))), i,
                  e.cells[i].(sequence := next, pos := next, full := false, claim := None));
    ReachNext(e, s', t, Go);
  }

  /** A pop that runs alone succeeds if the queue is not empty. */
  lemma SoloPop(s: State, t: ThreadId) returns (s': State)
    requires Reachable(s) && Calm(s) && t < |s.threads| && Resting(s.threads[t])
    requires s.head < s.tail && |s.cells| < 0x8000_0000
    ensures s.head < |s.items| && s'.threads == s.threads[t := Popped(Some(s.items[s.head]))]
    ensures Reachable(s') && Calm(s')
    ensures |s'.cells| == |s.cells| && s'.head == s.head + 1 && s'.tail == s.tail && s'.items == s.items
  {
    ReachableInv(s);
    PopArrives(s, t);
    var i := Index(s, s.head);
    var c := Goto(s, t, PopCas(s.head));
    var d := SetCell(Goto(c, t, PopRead(s.head)), i, s.cells[i].(claim := Some(t))).(head := s.head + 1);
    ReachNext(c, d, t, Go);
    s' := PopEmpties(d, t, s.head);
  }

  // ---------------------------------------------------------------------------------------------
  // The overflow
  // ---------------------------------------------------------------------------------------------

  /** Thread 0 has loaded the tail at 0 and is about to claim it; thread 1 is at rest. */
  ghost predicate Asleep(s: State, capacity: nat, n: nat) {
    && Reachable(s) && Calm(s) && |s.cells| == capacity
    && |s.threads| == 2 && s.threads[0] == PushCas(0, 0) && Resting(s.threads[1])
    && s.tail == n && s.head == if n <= capacity then 0 else n - capacity
  }

  lemma FallsAsleep(capacity: nat) returns (s: State)
    requires 2 <= capacity < 0x8000_0000 && WORD % capacity == 0
    ensures Asleep(s, capacity, 0)
  {
    var cells := seq(capacity, i requires 0 <= i < capacity => Cell(i, 0, i, false, None));
    var start := State(cells, 0, 0, [Idle, Idle], []);
    assert IsRun([start], []) && IsRun32([start], []);
    PushArrives(start, 0, 0);
    s := Goto(start, 0, PushCas(0, 0));
  }

  /** Meanwhile thread 1 pushes `n` elements, and pops one before each push once the queue is full. */
  lemma {:induction false} SleepsOn(capacity: nat, n: nat) returns (s: State)
    requires 2 <= capacity < 0x8000_0000 && WORD % capacity == 0
    ensures Asleep(s, capacity, n)
  {
    if n == 0 {
      s := FallsAsleep(capacity);
    } else {
      s := SleepsOn(capacity, n - 1);
      ReachableInv(s);
      if n > capacity {
        s := SoloPop(s, 1);
      }
      s := SoloPush(s, 1, 0);
    }
  }

  /**
   * For every capacity (a divisor of 2^32, as powers of two are) the code has a run, all of it within the bound
   * but for the last step, after which the queue holds one element more than its capacity.
   */
  lemma OverflowIsReachable(capacity: nat) returns (states: seq<State>, steps: seq<Step>)
    requires 2 <= capacity < 0x8000_0000 && WORD % capacity == 0
    ensures IsRun32(states, steps) && |steps| > 0 && IsRun(states[..|steps|], steps[..|steps| - 1])
    ensures var s' := states[|steps|];
            |s'.cells| == capacity && s'.head <= s'.tail <= |s'.items| && |Queue(s')| == capacity + 1
  {
    var s := SleepsOn(capacity, WORD);
    ReachableInv(s);
    var before, sofar :| IsRun(before, sofar) && IsRun32(before, sofar) && before[|before| - 1] == s;
    var i := Find(false, s, 0);
    var s' := SetCell(Goto(s, 0, PushWrite(0, s.tail)), i, s.cells[i].(claim := Some(0)))
              .(tail := s.tail + 1, items := s.items + [0]);
    StalePush(s, s', 0, 0, 0, 1);
    Extended(before, sofar, s', Step(0, Go));
    states, steps := before + [s'], sofar + [Step(0, Go)];
    assert states[..|steps|] == before && steps[..|steps| - 1] == sofar;
  }
}
