/**
 * The bounded multi-producer multi-consumer queue (src/fev_bounded_mpmc_queue.h), with any number of
 * threads. Positions are unbounded. The steps are defined twice over: with tests on exact positions, and
 * with the code's tests on 32-bit words, where the exact positions are history; Run32 relates the two.
 */
module MpmcQueue {
  import opened Common

  type Value = int
  type ThreadId = nat

  /** `pos`, `full` and `claim` are history; the sequence number is what the threads see. */
  datatype Cell = Cell(sequence: nat, data: Value, pos: nat, full: bool, claim: Option<ThreadId>)

  datatype Pc =
    | Idle
    | PushLoad(v: Value) | PushLook(v: Value, tail: nat) | PushCas(v: Value, tail: nat)
    | PushWrite(v: Value, tail: nat) | PushStore(v: Value, tail: nat) | Pushed(ok: bool)
    | PopLoad | PopLook(head: nat) | PopCas(head: nat)
    | PopRead(head: nat) | PopStore(head: nat, data: Value) | Popped(result: Option<Value>)

  datatype State = State(
    cells: seq<Cell>, head: nat, tail: nat, threads: seq<Pc>,
    items: seq<Value>       // history: what was pushed at each position
  )

  /** Choices: which operation to start, and whether a weak CAS fails for no reason. */
  datatype Choice = Go | StartPush(v: Value) | StartPop | Spurious

  function Index(s: State, pos: nat): (i: nat)
    requires |s.cells| > 0
    ensures i < |s.cells|
  {
    pos % |s.cells|
  }

  /** The cell of a position, found with the counter as it is seen. */
  function Find(exact: bool, s: State, pos: nat): (i: nat)
    requires |s.cells| > 0
    ensures i < |s.cells|
  {
    Index(s, if exact then pos else Word(pos))
  }

  /** (int32_t)(a - b), or the exact difference. */
  function Diff(exact: bool, a: nat, b: nat): int {
    var d := Word(Word(a) - Word(b));
    if exact then a - b else if d < 0x8000_0000 then d else d - WORD
  }

  ghost predicate Init(s: State) {
    && |s.cells| >= 2 && s.head == 0 && s.tail == 0 && s.items == []
    && (forall i :: 0 <= i < |s.cells| ==>
          s.cells[i].sequence == i && s.cells[i].pos == i && !s.cells[i].full && s.cells[i].claim == None)
    && (forall t :: 0 <= t < |s.threads| ==> s.threads[t] == Idle)
  }

  function Goto(s: State, t: ThreadId, pc: Pc): State
    requires t < |s.threads|
  {
    s.(threads := s.threads[t := pc])
  }

  function SetCell(s: State, i: nat, cell: Cell): State
    requires i < |s.cells|
  {
    s.(cells := s.cells[i := cell])
  }

  ghost predicate Start(s: State, s': State, t: ThreadId, choice: Choice) {
    && t < |s.threads| && (s.threads[t] == Idle || s.threads[t].Pushed? || s.threads[t].Popped?)
    && match choice
       case StartPush(v) => s' == Goto(s, t, PushLoad(v))
       case StartPop => s' == Goto(s, t, PopLoad)
       case _ => false
  }

  // src/fev_bounded_mpmc_queue.h:133-154; a failed CAS reloads the tail.
  ghost predicate PushStepsAs(exact: bool, s: State, s': State, t: ThreadId, choice: Choice) {
    && t < |s.threads| && |s.cells| > 0
    && match s.threads[t]
       case PushLoad(v) => s' == Goto(s, t, PushLook(v, s.tail))
       case PushLook(v, tail) =>
         var diff := Diff(exact, s.cells[Find(exact, s, tail)].sequence, tail);
         s' == Goto(s, t, if diff == 0 then PushCas(v, tail) else if diff < 0 then Pushed(false) else PushLoad(v))
       case PushCas(v, tail) =>
         if Seen(exact, s.tail) == Seen(exact, tail) && choice != Spurious then
           var i := Find(exact, s, tail);
           s' == SetCell(Goto(s, t, PushWrite(v, s.tail)), i, s.cells[i].(claim := Some(t)))
                 .(tail := s.tail + 1, items := s.items + [v])
         else s' == Goto(s, t, PushLook(v, s.tail))
       case PushWrite(v, tail) =>
         var i := Find(exact, s, tail);
         s' == SetCell(Goto(s, t, PushStore(v, tail)), i, s.cells[i].(data := v))
       case PushStore(v, tail) =>
         var i := Find(exact, s, tail);
         s' == SetCell(Goto(s, t, Pushed(true)), i, s.cells[i].(sequence := tail + 1, full := true, claim := None))
       case _ => false
  }

  // src/fev_bounded_mpmc_queue.h:101-123
  ghost predicate PopStepsAs(exact: bool, s: State, s': State, t: ThreadId, choice: Choice) {
    && t < |s.threads| && |s.cells| > 0
    && match s.threads[t]
       case PopLoad => s' == Goto(s, t, PopLook(s.head))
       case PopLook(head) =>
         var diff := Diff(exact, s.cells[Find(exact, s, head)].sequence, head + 1);
         s' == Goto(s, t, if diff == 0 then PopCas(head) else if diff < 0 then Popped(None) else PopLoad)
       case PopCas(head) =>
         if Seen(exact, s.head) == Seen(exact, head) && choice != Spurious then
           var i := Find(exact, s, head);
           s' == SetCell(Goto(s, t, PopRead(s.head)), i, s.cells[i].(claim := Some(t))).(head := s.head + 1)
         else s' == Goto(s, t, PopLook(s.head))
       case PopRead(head) => s' == Goto(s, t, PopStore(head, s.cells[Find(exact, s, head)].data))
       case PopStore(head, data) =>
         var i, next := Find(exact, s, head), head + |s.cells|;
         s' == SetCell(Goto(s, t, Popped(Some(data))), i,
                       s.cells[i].(sequence := next, pos := next, full := false, claim := None))
       case _ => false
  }

  ghost predicate PushSteps(s: State, s': State, t: ThreadId, choice: Choice) {
    PushStepsAs(true, s, s', t, choice)
  }

  ghost predicate PopSteps(s: State, s': State, t: ThreadId, choice: Choice) {
    PopStepsAs(true, s, s', t, choice)
  }

  ghost predicate Next(s: State, s': State, t: ThreadId, choice: Choice) {
    Start(s, s', t, choice) || PushSteps(s, s', t, choice) || PopSteps(s, s', t, choice)
  }

  /** The code's step, with all tests in 32 bits. */
  ghost predicate Next32(s: State, s': State, t: ThreadId, choice: Choice) {
    Start(s, s', t, choice) || PushStepsAs(false, s, s', t, choice) || PopStepsAs(false, s, s', t, choice)
  }

  // ---------------------------------------------------------------------------------------------

  predicate AnyCell(i: int) { true }
  predicate AnyThread(t: int) { true }

  /** The thread has claimed the cell of position `pos` and is filling it. */
  predicate Filling(pc: Pc, pos: int) {
    (pc.PushWrite? || pc.PushStore?) && pc.tail == pos
  }

  predicate Emptying(pc: Pc, pos: int) {
    (pc.PopRead? || pc.PopStore?) && pc.head == pos
  }

  /** A cell serves one position at a time: it is free for it, being filled, full, or being emptied. */
  ghost predicate CellOk(s: State, i: nat) {
    && i < |s.cells|
    && var c := s.cells[i];
       && Index(s, c.pos) == i && s.tail <= c.pos + |s.cells|
       && c.sequence == (if c.full then c.pos + 1 else c.pos)
       && (c.claim.Some? ==> c.claim.value < |s.threads|)
       && if c.full then
            && c.pos < s.tail && c.pos < |s.items| && c.data == s.items[c.pos]
            && (if c.pos < s.head then c.claim.Some? && Emptying(s.threads[c.claim.value], c.pos) else c.claim == None)
          else
            && s.head <= c.pos < s.head + |s.cells|
            && (if c.pos < s.tail then c.claim.Some? && Filling(s.threads[c.claim.value], c.pos) else c.claim == None)
  }

  ghost predicate ThreadOk(s: State, t: ThreadId) {
    && t < |s.threads| && |s.cells| > 0
    && match s.threads[t]
       case PushLook(_, tail) => tail <= s.tail
       case PushCas(_, tail) =>
         tail <= s.tail && (s.tail == tail ==> s.cells[Index(s, tail)].pos == tail && !s.cells[Index(s, tail)].full)
       case PushWrite(v, tail) =>
         var c := s.cells[Index(s, tail)];
         tail < s.tail && tail < |s.items| && s.items[tail] == v && c.pos == tail && !c.full && c.claim == Some(t)
       case PushStore(v, tail) =>
         var c := s.cells[Index(s, tail)];
         && tail < s.tail && tail < |s.items| && s.items[tail] == v && c.pos == tail && !c.full && c.claim == Some(t)
         && c.data == v
       case PopLook(head) => head <= s.head
       case PopCas(head) =>
         head <= s.head && (s.head == head ==> s.cells[Index(s, head)].pos == head && s.cells[Index(s, head)].full)
       case PopRead(head) =>
         var c := s.cells[Index(s, head)];
         head < s.head && c.pos == head && c.full && c.claim == Some(t)
       case PopStore(head, data) =>
         var c := s.cells[Index(s, head)];
         head < s.head && c.pos == head && c.full && c.claim == Some(t) && head < |s.items| && data == s.items[head]
       case _ => true
  }

  ghost predicate Inv(s: State) {
    && |s.cells| >= 2 && s.head <= s.tail <= s.head + |s.cells| && |s.items| == s.tail
    && (forall i {:trigger AnyCell(i)} :: AnyCell(i) && 0 <= i < |s.cells| ==> CellOk(s, i))
    && (forall t {:trigger AnyThread(t)} :: AnyThread(t) && 0 <= t < |s.threads| ==> ThreadOk(s, t))
  }

  lemma InitInv(s: State)
    requires Init(s)
    ensures Inv(s)
  {
    forall i | AnyCell(i) && 0 <= i < |s.cells| ensures CellOk(s, i) {
      assert i % |s.cells| == i;
    }
  }

  /** The cell's position, from the sequence number that a thread compares with. */
  lemma FreeCell(s: State, pos: nat)
    requires Inv(s) && s.cells[Index(s, pos)].sequence == pos
    ensures s.cells[Index(s, pos)].pos == pos && !s.cells[Index(s, pos)].full
  {
    var i := Index(s, pos);
    assert AnyCell(i);
    SameSlot(|s.cells|, s.cells[i].pos, pos);
  }

  lemma FullCell(s: State, pos: nat)
    requires Inv(s) && s.cells[Index(s, pos)].sequence == pos + 1
    ensures s.cells[Index(s, pos)].pos == pos && s.cells[Index(s, pos)].full
  {
    var i := Index(s, pos);
    assert AnyCell(i);
    SameSlot(|s.cells|, s.cells[i].pos, pos);
  }

  /** Steps that change only what the thread itself knows. */
  lemma LocalInv(s: State, s': State, t: ThreadId)
    requires Inv(s) && t < |s.threads| == |s'.threads| && s' == Goto(s, t, s'.threads[t])
    requires ThreadOk(s', t)
    requires forall pos: nat :: !Filling(s.threads[t], pos)
    requires s.threads[t].PopRead? ==> s'.threads[t].PopStore? && s'.threads[t].head == s.threads[t].head
    requires !s.threads[t].PopStore?
    ensures Inv(s')
  {
    forall i | AnyCell(i) && 0 <= i < |s.cells| ensures CellOk(s', i) {
    }
    forall u | AnyThread(u) && 0 <= u < |s.threads| ensures ThreadOk(s', u) {
    }
  }

  /** Steps that neither claim a cell nor work on one. */
  ghost predicate Looks(s: State, t: ThreadId, choice: Choice) {
    && t < |s.threads|
    && match s.threads[t]
       case PushCas(_, tail) => s.tail != tail || choice == Spurious
       case PopCas(head) => s.head != head || choice == Spurious
       case PushWrite(_, _) | PushStore(_, _) | PopStore(_, _) => false
       case _ => true
  }

  lemma PushLooks(s: State, s': State, t: ThreadId, choice: Choice)
    requires Inv(s) && Looks(s, t, choice) && PushSteps(s, s', t, choice)
    ensures Inv(s')
  {
    assert AnyThread(t);
    if s.threads[t].PushLook? && s.cells[Index(s, s.threads[t].tail)].sequence == s.threads[t].tail {
      FreeCell(s, s.threads[t].tail);
    }
    LocalInv(s, s', t);
  }

  lemma PopLooks(s: State, s': State, t: ThreadId, choice: Choice)
    requires Inv(s) && Looks(s, t, choice) && PopSteps(s, s', t, choice)
    ensures Inv(s')
  {
    assert AnyThread(t);
    if s.threads[t].PopLook? && s.cells[Index(s, s.threads[t].head)].sequence == s.threads[t].head + 1 {
      FullCell(s, s.threads[t].head);
    }
    if s.threads[t].PopRead? {
      assert AnyCell(Index(s, s.threads[t].head));
    }
    LocalInv(s, s', t);
  }

  lemma LookInv(s: State, s': State, t: ThreadId, choice: Choice)
    requires Inv(s) && Looks(s, t, choice) && Next(s, s', t, choice)
    ensures Inv(s')
  {
    if PushSteps(s, s', t, choice) {
      PushLooks(s, s', t, choice);
    } else if PopSteps(s, s', t, choice) {
      PopLooks(s, s', t, choice);
    } else {
      LocalInv(s, s', t);
    }
  }

  lemma ClaimCell(s: State, s': State, t: ThreadId, choice: Choice, i: nat)
    requires Inv(s) && t < |s.threads| && s.threads[t].PushCas? && s.tail == s.threads[t].tail && choice != Spurious
    requires PushSteps(s, s', t, choice) && i < |s.cells|
    ensures CellOk(s', i)
  {
    assert AnyThread(t) && AnyCell(i) && AnyCell(Index(s, s.tail));
    NextLap(|s.cells|, s.cells[i].pos);
  }

  lemma ClaimThread(s: State, s': State, t: ThreadId, choice: Choice, u: ThreadId)
    requires Inv(s) && t < |s.threads| && s.threads[t].PushCas? && s.tail == s.threads[t].tail && choice != Spurious
    requires PushSteps(s, s', t, choice) && u < |s.threads|
    ensures ThreadOk(s', u)
  {
    assert AnyThread(t) && AnyThread(u) && AnyCell(Index(s, s.tail));
  }

  lemma ClaimInv(s: State, s': State, t: ThreadId, choice: Choice)
    requires Inv(s) && t < |s.threads| && s.threads[t].PushCas? && s.tail == s.threads[t].tail && choice != Spurious
    requires PushSteps(s, s', t, choice)
    ensures Inv(s')
  {
    assert AnyThread(t) && AnyCell(Index(s, s.tail));
    forall i | AnyCell(i) && 0 <= i < |s.cells| ensures CellOk(s', i) {
      ClaimCell(s, s', t, choice, i);
    }
    forall u | AnyThread(u) && 0 <= u < |s.threads| ensures ThreadOk(s', u) {
      ClaimThread(s, s', t, choice, u);
    }
  }

  lemma TakeCell(s: State, s': State, t: ThreadId, choice: Choice, i: nat)
    requires Inv(s) && t < |s.threads| && s.threads[t].PopCas? && s.head == s.threads[t].head && choice != Spurious
    requires PopSteps(s, s', t, choice) && i < |s.cells|
    ensures CellOk(s', i)
  {
    assert AnyThread(t) && AnyCell(i) && AnyCell(Index(s, s.head));
  }

  lemma TakeThread(s: State, s': State, t: ThreadId, choice: Choice, u: ThreadId)
    requires Inv(s) && t < |s.threads| && s.threads[t].PopCas? && s.head == s.threads[t].head && choice != Spurious
    requires PopSteps(s, s', t, choice) && u < |s.threads|
    ensures ThreadOk(s', u)
  {
    assert AnyThread(t) && AnyThread(u) && AnyCell(Index(s, s.head));
  }

  lemma TakeInv(s: State, s': State, t: ThreadId, choice: Choice)
    requires Inv(s) && t < |s.threads| && s.threads[t].PopCas? && s.head == s.threads[t].head && choice != Spurious
    requires PopSteps(s, s', t, choice)
    ensures Inv(s')
  {
    assert AnyThread(t) && AnyCell(Index(s, s.head));
    forall i | AnyCell(i) && 0 <= i < |s.cells| ensures CellOk(s', i) {
      TakeCell(s, s', t, choice, i);
    }
    forall u | AnyThread(u) && 0 <= u < |s.threads| ensures ThreadOk(s', u) {
      TakeThread(s, s', t, choice, u);
    }
  }

  /** A claimant works on its cell, which stays out of the others' way. */
  lemma FillCell(s: State, s': State, t: ThreadId, choice: Choice, i: nat)
    requires ThreadOk(s, t) && CellOk(s, i) && (s.threads[t].PushWrite? || s.threads[t].PushStore?)
    requires CellOk(s, Index(s, s.threads[t].tail)) && PushSteps(s, s', t, choice)
    ensures CellOk(s', i)
  {
  }

  lemma FillThread(s: State, s': State, t: ThreadId, choice: Choice, u: ThreadId)
    requires ThreadOk(s, t) && ThreadOk(s, u) && (s.threads[t].PushWrite? || s.threads[t].PushStore?)
    requires CellOk(s, Index(s, s.threads[t].tail)) && PushSteps(s, s', t, choice)
    ensures ThreadOk(s', u)
  {
  }

  lemma FillInv(s: State, s': State, t: ThreadId, choice: Choice)
    requires Inv(s) && t < |s.threads| && (s.threads[t].PushWrite? || s.threads[t].PushStore?)
    requires PushSteps(s, s', t, choice)
    ensures Inv(s')
  {
    assert AnyThread(t) && AnyCell(Index(s, s.threads[t].tail));
    forall i | AnyCell(i) && 0 <= i < |s.cells| ensures CellOk(s', i) {
      FillCell(s, s', t, choice, i);
    }
    forall u | AnyThread(u) && 0 <= u < |s.threads| ensures ThreadOk(s', u) {
      FillThread(s, s', t, choice, u);
    }
  }

  lemma EmptyInv(s: State, s': State, t: ThreadId, choice: Choice)
    requires Inv(s) && t < |s.threads| && s.threads[t].PopStore? && PopSteps(s, s', t, choice)
    ensures Inv(s')
  {
    assert AnyThread(t) && AnyCell(Index(s, s.threads[t].head));
    NextLap(|s.cells|, s.threads[t].head);
    forall i | AnyCell(i) && 0 <= i < |s.cells| ensures CellOk(s', i) {
    }
    forall u | AnyThread(u) && 0 <= u < |s.threads| ensures ThreadOk(s', u) {
    }
  }

  lemma NextInv(s: State, s': State, t: ThreadId, choice: Choice)
    requires Inv(s) && Next(s, s', t, choice)
    ensures Inv(s')
  {
    var pc := s.threads[t];
    if pc.PushCas? && s.tail == pc.tail && choice != Spurious {
      ClaimInv(s, s', t, choice);
    } else if pc.PopCas? && s.head == pc.head && choice != Spurious {
      TakeInv(s, s', t, choice);
    } else if pc.PushWrite? || pc.PushStore? {
      FillInv(s, s', t, choice);
    } else if pc.PopStore? {
      EmptyInv(s, s', t, choice);
    } else {
      LookInv(s, s', t, choice);
    }
  }

  // ---------------------------------------------------------------------------------------------
  // Every run
  // ---------------------------------------------------------------------------------------------

  datatype Step = Step(t: ThreadId, choice: Choice)

  ghost predicate IsRun(states: seq<State>, steps: seq<Step>) {
    && |states| == |steps| + 1
    && Init(states[0])
    && forall i {:trigger steps[i]} :: 0 <= i < |steps| ==> Next(states[i], states[i + 1], steps[i].t, steps[i].choice)
  }

  lemma {:induction false} RunInv(states: seq<State>, steps: seq<Step>, i: nat)
    requires IsRun(states, steps) && i < |states|
    ensures Inv(states[i])
  {
    if i == 0 {
      InitInv(states[0]);
    } else {
      RunInv(states, steps, i - 1);
      NextInv(states[i - 1], states[i], steps[i - 1].t, steps[i - 1].choice);
    }
  }

  /** The queue that the machine implements. */
  function Queue(s: State): seq<Value>
    requires s.head <= s.tail <= |s.items|
  {
    s.items[s.head..s.tail]
  }

  /**
   * Refinement: a push takes effect at the CAS of the tail and appends to the queue, a pop takes
   * effect at the CAS of the head and removes the first element, which is what it will return; no
   * other step changes the queue, and the queue never has more than `capacity` elements.
   */
  lemma RefinesFifo(states: seq<State>, steps: seq<Step>, i: nat)
    requires IsRun(states, steps) && i < |steps|
    ensures var s, s', t := states[i], states[i + 1], steps[i].t;
            && t < |s.threads| == |s'.threads|
            && s.head <= s.tail <= |s.items| && s'.head <= s'.tail <= |s'.items|
            && |Queue(s')| <= |s'.cells| == |s.cells|
            && Effect(s, s', t)
  {
    RunInv(states, steps, i);
    RunInv(states, steps, i + 1);
    StepEffect(states[i], states[i + 1], steps[i].t, steps[i].choice);
  }

  /** What the step does to the queue. */
  ghost predicate Effect(s: State, s': State, t: ThreadId)
    requires t < |s.threads| == |s'.threads|
    requires s.head <= s.tail <= |s.items| && s'.head <= s'.tail <= |s'.items|
  {
    match (s.threads[t], s'.threads[t])
    case (PushCas(v, _), PushWrite(u, _)) => u == v && Queue(s') == Queue(s) + [v]
    case (PopCas(_), PopRead(pos)) =>
      Queue(s) != [] && Queue(s') == Queue(s)[1..] && pos < |s'.items| && Queue(s)[0] == s'.items[pos]
    case _ => Queue(s') == Queue(s)
  }

  lemma PushEffect(s: State, s': State, t: ThreadId, choice: Choice)
    requires Inv(s) && PushSteps(s, s', t, choice) && s'.head <= s'.tail <= |s'.items|
    ensures |s'.threads| == |s.threads| && |s'.cells| == |s.cells| && Effect(s, s', t)
  {
    if s.threads[t].PushCas? {
      var v := s.threads[t].v;
      assert (s.items + [v])[s.head..s.tail + 1] == s.items[s.head..s.tail] + [v];
    }
  }

  lemma PopEffect(s: State, s': State, t: ThreadId, choice: Choice)
    requires Inv(s) && PopSteps(s, s', t, choice) && s'.head <= s'.tail <= |s'.items|
    ensures |s'.threads| == |s.threads| && |s'.cells| == |s.cells| && Effect(s, s', t)
  {
    assert AnyThread(t);
    if s.threads[t].PopCas? {
      assert AnyCell(Index(s, s.head));
    }
  }

  lemma StepEffect(s: State, s': State, t: ThreadId, choice: Choice)
    requires Inv(s) && Next(s, s', t, choice) && s'.head <= s'.tail <= |s'.items|
    ensures t < |s.threads| == |s'.threads| && |s'.cells| == |s.cells| && Effect(s, s', t)
  {
    if PushSteps(s, s', t, choice) {
      PushEffect(s, s', t, choice);
    } else if PopSteps(s, s', t, choice) {
      PopEffect(s, s', t, choice);
    }
  }

  /** What was pushed at a position is never changed, so the pop of position k returns the k-th push. */
  lemma PopReturnsItem(states: seq<State>, steps: seq<Step>, i: nat, t: ThreadId)
    requires IsRun(states, steps) && i < |states| && t < |states[i].threads| && states[i].threads[t].PopStore?
    ensures var s, pc := states[i], states[i].threads[t];
            pc.head < |s.items| && pc.data == s.items[pc.head]
  {
    RunInv(states, steps, i);
    assert AnyThread(t);
  }

  lemma {:induction false} ItemsStay(states: seq<State>, steps: seq<Step>, i: nat, k: nat)
    requires IsRun(states, steps) && i <= k < |states|
    ensures |states[i].items| <= |states[k].items| && states[k].items[..|states[i].items|] == states[i].items
  {
    if i < k {
      ItemsStay(states, steps, i, k - 1);
      var s, s', step := states[k - 1], states[k], steps[k - 1];
      assert Next(s, s', step.t, step.choice);
    }
  }

  /** A pop returns what was first in the queue when its CAS of the head succeeded. */
  lemma PopYieldsFirst(states: seq<State>, steps: seq<Step>, i: nat, k: nat, t: ThreadId, pos: nat, data: Value)
    requires IsRun(states, steps) && i < |steps| && steps[i].t == t < |states[i].threads|
    requires states[i].threads[t].PopCas? && states[i + 1].threads[t] == PopRead(pos)
    requires i < k < |states| && t < |states[k].threads| && states[k].threads[t] == PopStore(pos, data)
    ensures states[i].head <= states[i].tail <= |states[i].items|
    ensures Queue(states[i]) != [] && Queue(states[i])[0] == data
  {
    RefinesFifo(states, steps, i);
    PopReturnsItem(states, steps, k, t);
    ItemsStay(states, steps, i, k);
    RunInv(states, steps, i);
    assert states[i].items[pos] == states[k].items[..|states[i].items|][pos];
  }

  /** The cell that the thread may touch without synchronisation. */
  predicate Owns(s: State, t: ThreadId, i: nat) {
    && t < |s.threads| && |s.cells| > 0
    && match s.threads[t]
       case PushWrite(_, tail) => Index(s, tail) == i
       case PushStore(_, tail) => Index(s, tail) == i
       case PopRead(head) => Index(s, head) == i
       case PopStore(head, _) => Index(s, head) == i
       case _ => false
  }

  /** A cell's data is touched by its claimant only. */
  lemma CellsExclusive(states: seq<State>, steps: seq<Step>, i: nat, t: ThreadId, u: ThreadId, c: nat)
    requires IsRun(states, steps) && i < |states| && Owns(states[i], t, c) && Owns(states[i], u, c)
    ensures t == u
  {
    RunInv(states, steps, i);
    assert AnyThread(t) && AnyThread(u);
  }

  /** When push returns false the queue is full, or a pop is still busy with the cell. */
  lemma PushFails(states: seq<State>, steps: seq<Step>, i: nat)
    requires IsRun(states, steps) && i < |steps| && steps[i].t < |states[i].threads|
    requires states[i].threads[steps[i].t].PushLook? && states[i + 1].threads[steps[i].t] == Pushed(false)
    ensures var s, tail := states[i], states[i].threads[steps[i].t].tail;
            && s.head <= s.tail <= |s.items| && |s.cells| > 0
            && (|| |Queue(s)| == |s.cells|
                || exists u: ThreadId ::
                     u < |s.threads| && Emptying(s.threads[u], tail - |s.cells|) && Owns(s, u, Index(s, tail)))
  {
    RunInv(states, steps, i);
    var s, tail := states[i], states[i].threads[steps[i].t].tail;
    var c := s.cells[Index(s, tail)];
    assert AnyThread(steps[i].t) && AnyCell(Index(s, tail));
    SameSlot(|s.cells|, c.pos, tail);
    assert c.pos == tail - |s.cells|;
    if c.claim.Some? {
      assert AnyThread(c.claim.value);
    }
  }

  /** When pop returns false the queue is empty, or a push is still busy with the cell. */
  lemma PopFails(states: seq<State>, steps: seq<Step>, i: nat)
    requires IsRun(states, steps) && i < |steps| && steps[i].t < |states[i].threads|
    requires states[i].threads[steps[i].t].PopLook? && states[i + 1].threads[steps[i].t] == Popped(None)
    ensures var s, head := states[i], states[i].threads[steps[i].t].head;
            && s.head <= s.tail <= |s.items| && |s.cells| > 0
            && (|| Queue(s) == []
                || exists u: ThreadId :: u < |s.threads| && Filling(s.threads[u], head) && Owns(s, u, Index(s, head)))
  {
    RunInv(states, steps, i);
    var s, head := states[i], states[i].threads[steps[i].t].head;
    var c := s.cells[Index(s, head)];
    assert AnyThread(steps[i].t) && AnyCell(Index(s, head));
    SameSlot(|s.cells|, c.pos, head);
    if c.claim.Some? {
      assert AnyThread(c.claim.value);
    }
  }

  // ---------------------------------------------------------------------------------------------
  // 32-bit counters
  // ---------------------------------------------------------------------------------------------

  /** The signed 32-bit difference is the exact one as long as the operands are less than 2^31 apart. */
  lemma DiffExact(a: nat, b: nat)
    requires -0x8000_0000 <= a - b < 0x8000_0000
    ensures Diff(false, a, b) == a - b
  {
    WordDifference(a, b);
  }

  /** With a power of two as capacity, the 32-bit counter and the exact position name the same cell. */
  lemma IndexExact(s: State, pos: nat)
    requires |s.cells| > 0 && WORD % |s.cells| == 0
    ensures Find(false, s, pos) == Index(s, pos)
  {
    WordSlot(|s.cells|, pos);
  }

  /** How far the counters have gone on since the thread loaded them is small enough for 32 bits. */
  predicate Recent(s: State, t: ThreadId)
    requires t < |s.threads|
  {
    match s.threads[t]
    case PushLook(_, tail) => s.tail - tail < 0x8000_0000 - |s.cells|
    case PushCas(_, tail) => s.tail - tail < WORD
    case PopLook(head) => s.head - head < 0x8000_0000 - |s.cells|
    case PopCas(head) => s.head - head < WORD
    case _ => true
  }

  /** What a thread that looks at a cell can see there. */
  lemma SequenceNear(s: State, pos: nat, i: nat)
    requires Inv(s) && i == Index(s, pos) && pos <= s.tail
    ensures -|s.cells| <= s.cells[i].sequence - pos <= s.tail - pos + |s.cells|
  {
    assert AnyCell(i);
  }

  lemma Push32(s: State, s': State, t: ThreadId, choice: Choice)
    requires Inv(s) && WORD % |s.cells| == 0 && t < |s.threads| && Recent(s, t)
    ensures PushStepsAs(false, s, s', t, choice) <==> PushSteps(s, s', t, choice)
  {
    assert AnyThread(t);
    match s.threads[t]
    case PushLook(_, tail) =>
      IndexExact(s, tail);
      SequenceNear(s, tail, Index(s, tail));
      DiffExact(s.cells[Index(s, tail)].sequence, tail);
    case PushCas(_, tail) =>
      IndexExact(s, tail);
      WordInjective(s.tail, tail);
    case PushWrite(_, tail) => IndexExact(s, tail);
    case PushStore(_, tail) => IndexExact(s, tail);
    case _ =>
  }

  lemma Pop32(s: State, s': State, t: ThreadId, choice: Choice)
    requires Inv(s) && WORD % |s.cells| == 0 && t < |s.threads| && Recent(s, t)
    ensures PopStepsAs(false, s, s', t, choice) <==> PopSteps(s, s', t, choice)
  {
    assert AnyThread(t);
    match s.threads[t]
    case PopLook(head) =>
      IndexExact(s, head);
      HeadSequenceNear(s, head, Index(s, head));
      DiffExact(s.cells[Index(s, head)].sequence, head + 1);
    case PopCas(head) =>
      IndexExact(s, head);
      WordInjective(s.head, head);
    case PopRead(head) => IndexExact(s, head);
    case PopStore(head, _) => IndexExact(s, head);
    case _ =>
  }

  lemma HeadSequenceNear(s: State, pos: nat, i: nat)
    requires Inv(s) && i == Index(s, pos) && pos <= s.head
    ensures -|s.cells| <= s.cells[i].sequence - pos <= s.head - pos + |s.cells|
  {
    assert AnyCell(i);
  }

  /** The cell of the tail is free for the next push, the cell of the head is full for the next pop. */
  predicate TailFree(s: State)
    requires |s.cells| > 0
  {
    var c := s.cells[Index(s, s.tail)];
    c.pos == s.tail && !c.full
  }

  predicate HeadFull(s: State)
    requires |s.cells| > 0
  {
    var c := s.cells[Index(s, s.head)];
    c.pos == s.head && c.full
  }

  /** A claimant's cell serves the claimed position. */
  lemma ClaimantsCell(s: State, t: ThreadId)
    requires Inv(s) && t < |s.threads|
    ensures s.threads[t].PushWrite? ==>
              var c := s.cells[Index(s, s.threads[t].tail)]; c.pos == s.threads[t].tail && !c.full
    ensures s.threads[t].PopRead? ==>
              var c := s.cells[Index(s, s.threads[t].head)]; c.pos == s.threads[t].head && c.full
  {
    assert AnyThread(t);
  }

  /**
   * What happens beyond the bound: the CAS of a push that lags behind by a multiple of 2^32 succeeds. It
   * keeps the invariant exactly if the cell of the tail is free, as if the thread had looked just now, and it
   * keeps the queue within its capacity exactly if the queue was not full.
   */
  lemma StalePush(s: State, s': State, t: ThreadId, v: Value, tail: nat, k: nat)
    requires Inv(s) && WORD % |s.cells| == 0 && t < |s.threads| && s.threads[t] == PushCas(v, tail)
    requires s.tail == tail + k * WORD && PushStepsAs(false, s, s', t, Go)
    ensures t < |s'.threads| && s'.threads[t] == PushWrite(v, s.tail)
    ensures Inv(s') <==> TailFree(s)
    ensures s'.head <= s'.tail <= |s'.items| && (|Queue(s')| <= |s'.cells| <==> |Queue(s)| < |s.cells|)
  {
    WordPeriodic(tail, k);
    IndexExact(s, tail);
    IndexExact(s, s.tail);
    assert Find(false, s, tail) == Find(false, s, s.tail);
    if TailFree(s) {
      var current := Goto(s, t, PushCas(v, s.tail));
      LocalInv(s, current, t);
      ClaimInv(current, s', t, Go);
    }
    if Inv(s') {
      ClaimantsCell(s', t);
    }
  }

  /** The same for a pop. */
  lemma StalePop(s: State, s': State, t: ThreadId, head: nat, k: nat)
    requires Inv(s) && WORD % |s.cells| == 0 && t < |s.threads| && s.threads[t] == PopCas(head)
    requires s.head == head + k * WORD && PopStepsAs(false, s, s', t, Go)
    ensures t < |s'.threads| && s'.threads[t] == PopRead(s.head)
    ensures Inv(s') <==> HeadFull(s)
    ensures s'.head <= s'.tail <==> Queue(s) != []
  {
    WordPeriodic(head, k);
    IndexExact(s, head);
    IndexExact(s, s.head);
    assert Find(false, s, head) == Find(false, s, s.head);
    if HeadFull(s) {
      var current := Goto(s, t, PopCas(s.head));
      LocalInv(s, current, t);
      TakeInv(current, s', t, Go);
    }
    if Inv(s') {
      ClaimantsCell(s', t);
    }
  }

  ghost predicate IsRun32(states: seq<State>, steps: seq<Step>) {
    && |states| == |steps| + 1
    && Init(states[0]) && WORD % |states[0].cells| == 0
    && forall i {:trigger steps[i]} :: 0 <= i < |steps| ==>
         Next32(states[i], states[i + 1], steps[i].t, steps[i].choice)
  }

  /** No thread sleeps through 2^31 operations, less the capacity, between a load and the test of what it loaded. */
  ghost predicate AllRecent(states: seq<State>, steps: seq<Step>)
    requires |states| == |steps| + 1
  {
    forall i {:trigger steps[i]} :: 0 <= i < |steps| ==>
      steps[i].t < |states[i].threads| && Recent(states[i], steps[i].t)
  }

  /**
   * The code with its 32-bit counters does what the model does: a run in which no thread lags that far
   * behind is a run of the model, so that all of the above holds of it. The capacity divides 2^32, as a
   * power of two does.
   */
  lemma {:induction false} Run32(states: seq<State>, steps: seq<Step>)
    requires IsRun32(states, steps) && AllRecent(states, steps)
    ensures IsRun(states, steps)
  {
    if steps != [] {
      var n := |steps| - 1;
      var before, sofar := states[..n + 1], steps[..n];
      forall i {:trigger sofar[i]} | 0 <= i < n
        ensures Next32(before[i], before[i + 1], sofar[i].t, sofar[i].choice)
        ensures sofar[i].t < |before[i].threads| && Recent(before[i], sofar[i].t)
      {
        assert sofar[i] == steps[i];
      }
      Run32(before, sofar);
      RunInv(before, sofar, n);
      CellsKept(before, sofar, n);
      var s, s', step := states[n], states[n + 1], steps[n];
      Push32(s, s', step.t, step.choice);
      Pop32(s, s', step.t, step.choice);
      forall i {:trigger steps[i]} | 0 <= i < |steps|
        ensures Next(states[i], states[i + 1], steps[i].t, steps[i].choice)
      {
        if i < n {
          assert sofar[i] == steps[i];
        }
      }
    }
  }

  lemma {:induction false} CellsKept(states: seq<State>, steps: seq<Step>, i: nat)
    requires IsRun(states, steps) && i < |states|
    ensures |states[i].cells| == |states[0].cells|
  {
    if i > 0 {
      CellsKept(states, steps, i - 1);
      RefinesFifo(states, steps, i - 1);
    }
  }
}
