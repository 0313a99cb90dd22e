/**
 * The bounded single-producer multi-consumer queue (src/fev_bounded_spmc_queue.h), with any number of
 * consumers, of which the producer may be one. A push of one element is a push of a list of one: it makes
 * the same loads and the same test. Positions are unbounded. The steps are defined twice over: with tests on
 * exact positions, and with the code's tests on 32-bit words, where the exact positions are history; Run32
 * relates the two.
 */
module SpmcQueue {
  import opened Common

  type Value = int
  type ThreadId = nat

  datatype ProducerPc =
    | Idle
    | Load(list: seq<Value>)
    | Write(list: seq<Value>, n: nat, i: nat)
    | Pushed(n: nat, rest: seq<Value>)

  datatype ConsumerPc =
    | Out
    | LoadHead | LoadTail(head: nat) | Read(head: nat) | Cas(head: nat, data: Value)
    | Popped(result: Option<Value>)

  datatype State = State(
    buffer: seq<Value>, head: nat, tail: nat,
    producer: ProducerPc, consumers: seq<ConsumerPc>,
    items: seq<Value>       // history: what was pushed at each position
  )

  datatype Step =
    | StartPush(list: seq<Value>)
    | Produce
    | StartPop(c: ThreadId)
    | Consume(c: ThreadId, spurious: bool)

  function Slot(s: State, pos: nat): (i: nat)
    requires |s.buffer| > 0
    ensures i < |s.buffer|
  {
    pos % |s.buffer|
  }

  ghost predicate Init(s: State) {
    && |s.buffer| >= 2 && s.head == 0 && s.tail == 0 && s.items == [] && s.producer == Idle
    && forall c :: 0 <= c < |s.consumers| ==> s.consumers[c] == Out
  }

  /** The slot of a position, found with the counter as it is seen. */
  function Find(exact: bool, s: State, pos: nat): (i: nat)
    requires |s.buffer| > 0
    ensures i < |s.buffer|
  {
    Slot(s, if exact then pos else Word(pos))
  }

  /** The number of free slots, which the code computes with wrap-around. */
  function Free(exact: bool, s: State): int {
    if exact then |s.buffer| - (s.tail - s.head) else Word(|s.buffer| - Word(Word(s.tail) - Word(s.head)))
  }

  // src/fev_bounded_spmc_queue.h:135-159
  ghost predicate ProduceStepsAs(exact: bool, s: State, s': State) {
    && |s.buffer| > 0
    && match s.producer
       case Load(list) =>
         var free := Free(exact, s);
         s' == s.(producer := Write(list, if 0 <= free < |list| then free else |list|, 0))
       case Write(list, n, i) =>
         && n <= |list|
         && s' == if i < n
                  then s.(producer := Write(list, n, i + 1), buffer := s.buffer[Find(exact, s, s.tail + i) := list[i]])
                  else s.(producer := Pushed(n, list[n..]), tail := s.tail + n, items := s.items + list[..n])
       case _ => false
  }

  // src/fev_bounded_spmc_queue.h:83-101; a failed CAS reloads the head.
  ghost predicate ConsumeStepsAs(exact: bool, s: State, s': State, c: ThreadId, spurious: bool) {
    && c < |s.consumers| && |s.buffer| > 0
    && match s.consumers[c]
       case LoadHead => s' == s.(consumers := s.consumers[c := LoadTail(s.head)])
       case LoadTail(head) =>
         var empty := Seen(exact, head) == Seen(exact, s.tail);
         s' == s.(consumers := s.consumers[c := if empty then Popped(None) else Read(head)])
       case Read(head) => s' == s.(consumers := s.consumers[c := Cas(head, s.buffer[Find(exact, s, head)])])
       case Cas(head, data) =>
         s' == if Seen(exact, s.head) == Seen(exact, head) && !spurious
               then s.(head := s.head + 1, consumers := s.consumers[c := Popped(Some(data))])
               else s.(consumers := s.consumers[c := LoadTail(s.head)])
       case _ => false
  }

  ghost predicate ProduceSteps(s: State, s': State) {
    ProduceStepsAs(true, s, s')
  }

  ghost predicate ConsumeSteps(s: State, s': State, c: ThreadId, spurious: bool) {
    ConsumeStepsAs(true, s, s', c, spurious)
  }

  ghost predicate NextAs(exact: bool, s: State, s': State, step: Step) {
    match step
    case StartPush(list) =>
      (s.producer == Idle || s.producer.Pushed?) && s' == s.(producer := Load(list))
    case Produce => ProduceStepsAs(exact, s, s')
    case StartPop(c) =>
      && c < |s.consumers| && (s.consumers[c] == Out || s.consumers[c].Popped?)
      && s' == s.(consumers := s.consumers[c := LoadHead])
    case Consume(c, spurious) => ConsumeStepsAs(exact, s, s', c, spurious)
  }

  ghost predicate Next(s: State, s': State, step: Step) {
    NextAs(true, s, s', step)
  }

  // ---------------------------------------------------------------------------------------------

  predicate AnyConsumer(c: int) { true }

  /** The slots of the queue's positions hold its elements. */
  ghost predicate Stored(s: State)
    requires |s.buffer| > 0
  {
    forall p: nat {:trigger s.items[p]} :: s.head <= p < s.tail && p < |s.items| ==> s.buffer[Slot(s, p)] == s.items[p]
  }

  /** What the producer has written beyond the tail is in place, and only there. */
  ghost predicate Writing(s: State)
    requires |s.buffer| > 0
  {
    match s.producer
    case Write(list, n, i) =>
      && i <= n <= |list| && s.tail + n <= s.head + |s.buffer|
      && forall j: nat {:trigger list[j]} :: j < i ==> s.buffer[Slot(s, s.tail + j)] == list[j]
    case _ => true
  }

  ghost predicate ConsumerOk(s: State, c: ThreadId) {
    && c < |s.consumers|
    && match s.consumers[c]
       case LoadTail(head) => head <= s.head
       case Read(head) => head <= s.head && head < s.tail
       case Cas(head, data) =>
         head <= s.head && head < s.tail && (s.head == head && head < |s.items| ==> data == s.items[head])
       case _ => true
  }

  ghost predicate Inv(s: State) {
    && |s.buffer| >= 2 && s.head <= s.tail <= s.head + |s.buffer| && |s.items| == s.tail
    && Stored(s) && Writing(s)
    && forall c {:trigger AnyConsumer(c)} :: AnyConsumer(c) && 0 <= c < |s.consumers| ==> ConsumerOk(s, c)
  }

  /** The next slot to write belongs to no element, published or about to be. */
  lemma WriteSlot(s: State, p: nat)
    requires Inv(s) && s.producer.Write? && s.producer.i < s.producer.n && s.head <= p < s.tail + s.producer.i
    ensures Slot(s, p) != Slot(s, s.tail + s.producer.i)
  {
    if Slot(s, p) == Slot(s, s.tail + s.producer.i) {
      SameSlot(|s.buffer|, p, s.tail + s.producer.i);
    }
  }

  lemma WriteInv(s: State, s': State)
    requires Inv(s) && s.producer.Write? && s.producer.i < s.producer.n && ProduceSteps(s, s')
    ensures Inv(s')
  {
    var list, i := s.producer.list, s.producer.i;
    forall p: nat {:trigger s.items[p]} | s.head <= p < s.tail && p < |s.items|
      ensures s'.buffer[Slot(s', p)] == s'.items[p]
    {
      WriteSlot(s, p);
    }
    forall j: nat {:trigger list[j]} | j <= i ensures s'.buffer[Slot(s', s.tail + j)] == list[j] {
      if j < i {
        WriteSlot(s, s.tail + j);
      }
    }
    forall c | AnyConsumer(c) && 0 <= c < |s.consumers| ensures ConsumerOk(s', c) {
    }
  }

  lemma PublishInv(s: State, s': State)
    requires Inv(s) && s.producer.Write? && s.producer.i == s.producer.n && ProduceSteps(s, s')
    ensures Inv(s')
  {
    var list, n := s.producer.list, s.producer.n;
    forall p: nat {:trigger s'.items[p]} | s'.head <= p < s'.tail && p < |s'.items|
      ensures s'.buffer[Slot(s', p)] == s'.items[p]
    {
      if p < s.tail {
        assert s'.items[p] == s.items[p];
      } else {
        assert s'.items[p] == list[p - s.tail];
      }
    }
    forall c | AnyConsumer(c) && 0 <= c < |s.consumers| ensures ConsumerOk(s', c) {
    }
  }

  lemma ConsumeShared(s: State, s': State, c: ThreadId, spurious: bool)
    requires Inv(s) && ConsumeSteps(s, s', c, spurious)
    ensures |s'.buffer| >= 2 && s'.head <= s'.tail <= s'.head + |s'.buffer| && |s'.items| == s'.tail
    ensures Stored(s') && Writing(s')
  {
    assert AnyConsumer(c);
  }

  lemma ConsumeOwn(s: State, s': State, c: ThreadId, spurious: bool)
    requires s.head <= s.tail == |s.items| && |s.buffer| > 0 && Stored(s) && ConsumerOk(s, c)
    requires ConsumeSteps(s, s', c, spurious)
    ensures ConsumerOk(s', c)
  {
    if s.consumers[c].Read? && s.consumers[c].head == s.head {
      assert s.items[s.head] == s.buffer[Slot(s, s.head)];
    }
  }

  lemma ConsumeOther(s: State, s': State, c: ThreadId, spurious: bool, d: ThreadId)
    requires ConsumerOk(s, c) && ConsumerOk(s, d) && d != c && ConsumeSteps(s, s', c, spurious)
    ensures ConsumerOk(s', d)
  {
  }

  lemma ConsumeInv(s: State, s': State, c: ThreadId, spurious: bool)
    requires Inv(s) && ConsumeSteps(s, s', c, spurious)
    ensures Inv(s')
  {
    assert AnyConsumer(c);
    ConsumeShared(s, s', c, spurious);
    ConsumeOwn(s, s', c, spurious);
    forall d | AnyConsumer(d) && 0 <= d < |s.consumers| && d != c ensures ConsumerOk(s', d) {
      ConsumeOther(s, s', c, spurious, d);
    }
  }

  lemma LoadInv(s: State, s': State)
    requires Inv(s) && s.producer.Load? && ProduceSteps(s, s')
    ensures Inv(s')
  {
    forall c | AnyConsumer(c) && 0 <= c < |s.consumers| ensures ConsumerOk(s', c) {
    }
  }

  lemma StartInv(s: State, s': State, step: Step)
    requires Inv(s) && (step.StartPush? || step.StartPop?) && Next(s, s', step)
    ensures Inv(s')
  {
    forall c | AnyConsumer(c) && 0 <= c < |s.consumers| ensures ConsumerOk(s', c) {
    }
  }

  lemma NextInv(s: State, s': State, step: Step)
    requires Inv(s) && Next(s, s', step)
    ensures Inv(s')
  {
    match step
    case Produce =>
      if s.producer.Load? {
        LoadInv(s, s');
      } else if s.producer.i < s.producer.n {
        WriteInv(s, s');
      } else {
        PublishInv(s, s');
      }
    case Consume(c, spurious) => ConsumeInv(s, s', c, spurious);
    case _ => StartInv(s, s', step);
  }

  // ---------------------------------------------------------------------------------------------
  // Every run
  // ---------------------------------------------------------------------------------------------

  ghost predicate IsRun(states: seq<State>, steps: seq<Step>) {
    && |states| == |steps| + 1
    && Init(states[0])
    && forall i {:trigger steps[i]} :: 0 <= i < |steps| ==> Next(states[i], states[i + 1], steps[i])
  }

  lemma {:induction false} RunInv(states: seq<State>, steps: seq<Step>, i: nat)
    requires IsRun(states, steps) && i < |states|
    ensures Inv(states[i])
  {
    if i > 0 {
      RunInv(states, steps, i - 1);
      NextInv(states[i - 1], states[i], steps[i - 1]);
    }
  }

  /** The queue that the machine implements. */
  function Queue(s: State): seq<Value>
    requires s.head <= s.tail <= |s.items|
  {
    s.items[s.head..s.tail]
  }

  /** What the step does to the queue. */
  ghost predicate Effect(s: State, s': State, step: Step)
    requires s.head <= s.tail <= |s.items| && s'.head <= s'.tail <= |s'.items|
  {
    match step
    case Produce =>
      (match s'.producer
       case Pushed(n, rest) =>
         s.producer.Write? && n <= |s.producer.list| && rest == s.producer.list[n..]
         && Queue(s') == Queue(s) + s.producer.list[..n]
       case _ => Queue(s') == Queue(s))
    case Consume(c, _) =>
      c < |s'.consumers| &&
      (match s'.consumers[c]
       case Popped(Some(data)) => Queue(s) != [] && data == Queue(s)[0] && Queue(s') == Queue(s)[1..]
       case Popped(None) => Queue(s) == [] && Queue(s') == []
       case _ => Queue(s') == Queue(s))
    case _ => Queue(s') == Queue(s)
  }

  /**
   * Refinement: a push takes effect at the store of the tail and appends a prefix of its list; a pop
   * takes effect at the CAS of the head and returns the first element, although it read it before; a
   * pop that returns false loaded the tail when the queue was empty. The queue never holds more than
   * `capacity` elements.
   */
  lemma RefinesFifo(states: seq<State>, steps: seq<Step>, i: nat)
    requires IsRun(states, steps) && i < |steps|
    ensures var s, s' := states[i], states[i + 1];
            && s.head <= s.tail <= |s.items| && s'.head <= s'.tail <= |s'.items|
            && |Queue(s')| <= |s'.buffer| == |s.buffer|
            && Effect(s, s', steps[i])
  {
    RunInv(states, steps, i);
    RunInv(states, steps, i + 1);
    StepEffect(states[i], states[i + 1], steps[i]);
  }

  lemma ProduceEffect(s: State, s': State)
    requires Inv(s) && ProduceSteps(s, s') && s'.head <= s'.tail <= |s'.items|
    ensures Effect(s, s', Produce) && |s'.buffer| == |s.buffer|
  {
    if s.producer.Write? && s.producer.i >= s.producer.n {
      var list := s.producer.list[..s.producer.n];
      assert (s.items + list)[s.head..] == s.items[s.head..] + list;
    }
  }

  lemma ConsumeEffect(s: State, s': State, c: ThreadId, spurious: bool)
    requires Inv(s) && ConsumeSteps(s, s', c, spurious) && s'.head <= s'.tail <= |s'.items|
    ensures Effect(s, s', Consume(c, spurious)) && |s'.buffer| == |s.buffer|
  {
    assert AnyConsumer(c);
  }

  lemma StepEffect(s: State, s': State, step: Step)
    requires Inv(s) && Next(s, s', step) && s'.head <= s'.tail <= |s'.items|
    ensures Effect(s, s', step) && |s'.buffer| == |s.buffer|
  {
    match step
    case Produce => ProduceEffect(s, s');
    case Consume(c, spurious) => ConsumeEffect(s, s', c, spurious);
    case _ =>
  }

  lemma {:induction false} WriteSpan(states: seq<State>, steps: seq<Step>, i: nat, k: nat)
    requires IsRun(states, steps) && i <= k < |states| && forall m :: i <= m <= k ==> states[m].producer.Write?
    ensures states[k].producer.list == states[i].producer.list && states[k].producer.n == states[i].producer.n
  {
    if i < k {
      WriteSpan(states, steps, i, k - 1);
      assert Next(states[k - 1], states[k], steps[k - 1]);
      assert states[k].producer.Write?;
    }
  }

  /**
   * How much a push publishes: the longest prefix of the list that fitted when it loaded the head. The
   * rest stays in the list.
   */
  lemma PublishesLongestPrefix(states: seq<State>, steps: seq<Step>, i: nat, k: nat)
    requires IsRun(states, steps) && i < k < |steps| && steps[i] == Produce && states[i].producer.Load?
    requires (forall m :: i < m <= k ==> states[m].producer.Write?) && states[k + 1].producer.Pushed?
    ensures states[i].head <= states[i].tail <= |states[i].items|
    ensures states[k].head <= states[k].tail <= |states[k].items|
    ensures states[k + 1].head <= states[k + 1].tail <= |states[k + 1].items|
    ensures var list, pushed := states[i].producer.list, states[k + 1].producer;
            var free := |states[i].buffer| - |Queue(states[i])|;
            && pushed.n == (if |list| <= free then |list| else free)
            && pushed.rest == list[pushed.n..]
            && Queue(states[k + 1]) == Queue(states[k]) + list[..pushed.n]
  {
    RunInv(states, steps, i);
    assert Next(states[i], states[i + 1], steps[i]);
    WriteSpan(states, steps, i + 1, k);
    RefinesFifo(states, steps, k);
    assert Next(states[k], states[k + 1], steps[k]);
  }

  // ---------------------------------------------------------------------------------------------
  // 32-bit counters
  // ---------------------------------------------------------------------------------------------

  lemma SlotExact(s: State, pos: nat)
    requires |s.buffer| > 0 && WORD % |s.buffer| == 0
    ensures Find(false, s, pos) == Slot(s, pos)
  {
    WordSlot(|s.buffer|, pos);
  }

  /** The producer's arithmetic never wraps around: at most `capacity` elements are in the queue. */
  lemma FreeExact(s: State)
    requires s.head <= s.tail <= s.head + |s.buffer| && |s.buffer| < WORD
    ensures Free(false, s) == Free(true, s)
  {
    WordDifference(s.tail, s.head);
    WordSmall(s.tail - s.head);
    WordSmall(|s.buffer| - (s.tail - s.head));
  }

  /** How far the counters have gone on since the consumer loaded the head is small enough for 32 bits. */
  predicate Recent(s: State, step: Step) {
    step.Consume? && step.c < |s.consumers| ==>
      match s.consumers[step.c]
      case LoadTail(head) => s.tail - head < WORD
      case Cas(head, _) => s.head - head < WORD
      case _ => true
  }

  lemma Step32(s: State, s': State, step: Step)
    requires Inv(s) && WORD % |s.buffer| == 0 && |s.buffer| < WORD && Recent(s, step)
    ensures NextAs(false, s, s', step) <==> Next(s, s', step)
  {
    match step
    case Produce =>
      FreeExact(s);
      if s.producer.Write? {
        SlotExact(s, s.tail + s.producer.i);
      }
    case Consume(c, _) =>
      if c < |s.consumers| {
        assert AnyConsumer(c);
        match s.consumers[c]
        case LoadTail(head) => WordInjective(head, s.tail);
        case Read(head) => SlotExact(s, head);
        case Cas(head, _) => WordInjective(s.head, head);
        case _ =>
      }
    case _ =>
  }

  ghost predicate IsRun32(states: seq<State>, steps: seq<Step>) {
    && |states| == |steps| + 1
    && Init(states[0]) && WORD % |states[0].buffer| == 0 && |states[0].buffer| < WORD
    && forall i {:trigger steps[i]} :: 0 <= i < |steps| ==> NextAs(false, states[i], states[i + 1], steps[i])
  }

  /** No consumer sleeps through 2^32 operations between its load of the head and the test of it. */
  ghost predicate AllRecent(states: seq<State>, steps: seq<Step>)
    requires |states| == |steps| + 1
  {
    forall i {:trigger steps[i]} :: 0 <= i < |steps| ==> Recent(states[i], steps[i])
  }

  lemma {:induction false} BufferKept(states: seq<State>, steps: seq<Step>, i: nat)
    requires IsRun(states, steps) && i < |states|
    ensures |states[i].buffer| == |states[0].buffer|
  {
    if i > 0 {
      BufferKept(states, steps, i - 1);
      RefinesFifo(states, steps, i - 1);
    }
  }

  /**
   * The code with its 32-bit counters does what the model does: a run in which no consumer lags that far
   * behind is a run of the model, so that all of the above holds of it. The capacity divides 2^32, as a
   * power of two does.
   */
  lemma {:induction false} Run32(states: seq<State>, steps: seq<Step>)
    requires IsRun32(states, steps) && AllRecent(states, steps)
    ensures IsRun(states, steps)
  {
    if steps != [] {
      var n := |steps| - 1;
      var before, sofar := states[..n + 1], steps[..n];
      forall i {:trigger sofar[i]} | 0 <= i < n
        ensures NextAs(false, before[i], before[i + 1], sofar[i]) && Recent(before[i], sofar[i])
      {
        assert sofar[i] == steps[i];
      }
      Run32(before, sofar);
      RunInv(before, sofar, n);
      BufferKept(before, sofar, n);
      Step32(states[n], states[n + 1], steps[n]);
      forall i {:trigger steps[i]} | 0 <= i < |steps| ensures Next(states[i], states[i + 1], steps[i]) {
        if i < n {
          assert sofar[i] == steps[i];
        }
      }
    }
  }
}
