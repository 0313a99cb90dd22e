/**
 * How the workers of the scheduler go to sleep: the counter of runnable fibers, the number of waiting
 * workers, the poller's role, and why the last worker cannot fall asleep while a fiber is runnable.
 */
module SchedulerSleep {
  import opened Common
  import opened Scheduler
  import Fibers = SchedulerFibers

  // ---------------------------------------------------------------------------------------------
  // The counter of runnable fibers
  // ---------------------------------------------------------------------------------------------

  function RunnableFlags(places: seq<Place>): (flags: seq<bool>)
    ensures |flags| == |places|
  {
    seq(|places|, f requires 0 <= f < |places| => places[f] != Outside)
  }

  /** How many fibers are runnable: in a run queue, in a stolen batch or on a processor. */
  function Runnable(places: seq<Place>): nat {
    Count(RunnableFlags(places))
  }

  /** By how much the counter will still have to change for what the worker has already done. */
  function Credit(wk: Worker): int {
    (if wk.pc.Leaving? then -1 else if wk.pc == LatePost then 1 else 0)
    - (match wk.push
       case Appended(n) => n
       case Counting(n) => n
       case _ => 0)
  }

  function Credits(workers: seq<Worker>): (credits: seq<int>)
    ensures |credits| == |workers|
  {
    seq(|workers|, w requires 0 <= w < |workers| => Credit(workers[w]))
  }

  ghost predicate Accounting(s: State) {
    s.numRun == Word(Runnable(s.places) + Sum(Credits(s.workers)))
  }

  /** Moving runnable fibers around does not change their number. */
  lemma MoveRunnable(places: seq<Place>, batch: seq<FiberId>, to: Place)
    requires to != Outside && forall f :: f in batch ==> f < |places| && places[f] != Outside
    ensures Runnable(Move(places, batch, to)) == Runnable(places)
  {
    assert RunnableFlags(Move(places, batch, to)) == RunnableFlags(places);
  }

  lemma MoveOut(places: seq<Place>, f: FiberId)
    requires f < |places| && places[f] != Outside
    ensures Runnable(Move(places, [f], Outside)) == Runnable(places) - 1
  {
    assert RunnableFlags(Move(places, [f], Outside)) == RunnableFlags(places)[f := false];
    CountUpdate(RunnableFlags(places), f, false);
  }

  lemma {:induction false} MoveIn(places: seq<Place>, batch: seq<FiberId>, to: Place)
    requires to != Outside && Distinct(batch) && forall f :: f in batch ==> f < |places| && places[f] == Outside
    ensures Runnable(Move(places, batch, to)) == Runnable(places) + |batch|
    decreases |batch|
  {
    if batch == [] {
      assert Move(places, batch, to) == places;
    } else {
      var last := |batch| - 1;
      var f := batch[last];
      assert f in batch && f !in batch[..last] && batch == batch[..last] + [f];
      assert forall g :: g in batch[..last] ==> g in batch;
      MoveIn(places, batch[..last], to);
      var flags := RunnableFlags(Move(places, batch[..last], to));
      assert RunnableFlags(Move(places, batch, to)) == flags[f := true];
      CountUpdate(flags, f, true);
    }
  }

  lemma WordShift(x: int, d: int)
    ensures Word(Word(x) + d) == Word(x + d)
  {
  }

  /** One worker's step changes the counter by `d` and the exact number by as much. */
  lemma AccountStep(s: State, s': State, w: WorkerId, d: int)
    requires Accounting(s) && w < |s.workers| == |s'.workers| && s'.workers == s.workers[w := s'.workers[w]]
    requires Runnable(s'.places) + Credit(s'.workers[w]) == Runnable(s.places) + Credit(s.workers[w]) + d
    requires s'.numRun == (if d == 0 then s.numRun else Word(s.numRun + d))
    ensures Accounting(s')
  {
    assert Credits(s'.workers) == Credits(s.workers)[w := Credit(s'.workers[w])];
    SumUpdate(Credits(s.workers), w, Credit(s'.workers[w]));
    WordShift(Runnable(s.places) + Sum(Credits(s.workers)), d);
  }

  lemma PushAccounting(s: State, s': State, w: WorkerId, batch: seq<FiberId>)
    requires Accounting(s) && StartPush(s, s', w, batch)
    ensures Accounting(s')
  {
    MoveIn(s.places, batch, Queued(w));
    AccountStep(s, s', w, 0);
  }

  lemma PushStepsAccounting(s: State, s': State, w: WorkerId)
    requires Accounting(s) && PushSteps(s, s', w)
    ensures Accounting(s')
  {
    AccountStep(s, s', w, if s.workers[w].push.Counting? then s.workers[w].push.n else 0);
  }

  lemma PopAccounting(s: State, s': State, w: WorkerId, choice: Choice)
    requires Fibers.QueueOk(s, w)
    requires Accounting(s) && s.workers[w].push == NoPush && s.workers[w].pc == GetLocal && RunSteps(s, s', w, choice)
    ensures Accounting(s')
  {
    if s.queues[w].list != [] {
      assert s.queues[w].list[0] in s.queues[w].list;
      MoveRunnable(s.places, [s.queues[w].list[0]], OnWorker(w));
    }
    AccountStep(s, s', w, 0);
  }

  lemma LeaveAccounting(s: State, s': State, w: WorkerId, choice: Choice)
    requires Fibers.WorkerOk(s, w)
    requires Accounting(s) && s.workers[w].push == NoPush && RunSteps(s, s', w, choice)
    requires s.workers[w].pc.Leaving? || (s.workers[w].pc.Running? && choice == SwitchFirst)
    ensures Accounting(s')
  {
    MoveOut(s.places, s.workers[w].pc.f);
    AccountStep(s, s', w, 0);
  }

  lemma CountdownAccounting(s: State, s': State, w: WorkerId, choice: Choice)
    requires Accounting(s) && At(s, w) && s.workers[w].push == NoPush && RunSteps(s, s', w, choice)
    requires s.workers[w].pc == LatePost || (s.workers[w].pc.Running? && choice != SwitchFirst)
    ensures Accounting(s')
  {
    AccountStep(s, s', w, -1);
  }

  lemma RunAccounting(s: State, s': State, w: WorkerId, choice: Choice)
    requires Fibers.WorkerOk(s, w) && Fibers.QueueOk(s, w)
    requires Accounting(s) && s.workers[w].push == NoPush && RunSteps(s, s', w, choice)
    ensures Accounting(s')
  {
    var pc := s.workers[w].pc;
    if pc == GetLocal {
      PopAccounting(s, s', w, choice);
    } else if pc.Leaving? || (pc.Running? && choice == SwitchFirst) {
      LeaveAccounting(s, s', w, choice);
    } else if pc == LatePost || pc.Running? {
      CountdownAccounting(s, s', w, choice);
    } else {
      AccountStep(s, s', w, 0);
    }
  }

  lemma StealAccounting(s: State, s': State, w: WorkerId, choice: Choice)
    requires Fibers.Inv(s) && Accounting(s) && At(s, w) && s.workers[w].push == NoPush && StealSteps(s, s', w, choice)
    ensures Accounting(s')
  {
    assert Fibers.AnyWorker(w);
    match s.workers[w].pc
    case Steal(rnd, i) =>
      var v := Victim(s, rnd, i);
      if i < |s.workers| && v != w {
        assert Fibers.AnyQueue(v);
        var batch := Taken(s.queues[v].list, s.stealCount);
        assert forall f :: f in batch ==> f in s.queues[v].list;
        MoveRunnable(s.places, batch, Stolen(w));
      }
      AccountStep(s, s', w, 0);
    case Install(batch) =>
      MoveRunnable(s.places, batch, Queued(w));
      AccountStep(s, s', w, 0);
    case _ => AccountStep(s, s', w, 0);
  }

  lemma SleepAccounting(s: State, s': State, w: WorkerId, choice: Choice)
    requires Accounting(s) && SleepSteps(s, s', w, choice)
    ensures Accounting(s')
  {
    AccountStep(s, s', w, 0);
  }

  lemma WakeAccounting(s: State, s': State, w: WorkerId)
    requires Accounting(s) && WakeSteps(s, s', w)
    ensures Accounting(s')
  {
    AccountStep(s, s', w, 0);
  }

  lemma NextAccounting(s: State, s': State, w: WorkerId, choice: Choice)
    requires Fibers.Inv(s) && Accounting(s) && Next(s, s', w, choice)
    ensures Accounting(s')
  {
    if choice.PushFibers? {
      PushAccounting(s, s', w, choice.batch);
    } else if s.workers[w].push != NoPush {
      PushStepsAccounting(s, s', w);
    } else {
      match s.workers[w].pc
      case GetLocal | PopSize(_) | Running(_) | Leaving(_) | Post | LatePost =>
        assert Fibers.AnyWorker(w) && Fibers.AnyQueue(w);
        RunAccounting(s, s', w, choice);
      case Check | LoadSize | Steal(_, _) | StealSize(_, _, _) | Install(_) | InstallSize(_) =>
        StealAccounting(s, s', w, choice);
      case Committed(_) | PollWoken | WakeStore | WakeDec(_) | WakeSize => WakeAccounting(s, s', w);
      case _ => SleepAccounting(s, s', w, choice);
    }
  }

  // ---------------------------------------------------------------------------------------------
  // Announcing, the second look, and the poller's role
  // ---------------------------------------------------------------------------------------------

  /** The worker is counted in num_waiting. */
  predicate Counted(pc: Pc) {
    match pc
    case Announced(_, _) | Committed(_) | UndoStore | UndoDec | PollWoken | WakeStore | WakeDec(_) => true
    case _ => false
  }

  function CountedFlags(workers: seq<Worker>): (flags: seq<bool>)
    ensures |flags| == |workers|
  {
    seq(|workers|, w requires 0 <= w < |workers| => Counted(workers[w].pc))
  }

  /** The worker set poller_waiting and has not cleared it. */
  predicate HasRole(pc: Pc) {
    match pc
    case Exchanged(role) => role
    case Announced(_, role) => role
    case Committed(role) => role
    case UndoStore | PollWoken | WakeStore => true
    case _ => false
  }

  /** The worker has announced itself and neither given up nor woken. */
  predicate Down(pc: Pc) {
    pc.Announced? || pc.Committed?
  }

  ghost predicate AllDown(workers: seq<Worker>) {
    forall w :: 0 <= w < |workers| ==> Down(workers[w].pc)
  }

  ghost predicate AllPastExchange(workers: seq<Worker>) {
    forall w :: 0 <= w < |workers| ==> workers[w].pc.Exchanged? || Down(workers[w].pc)
  }

  /** The worker announced itself last and has yet to look at the counter again. */
  predicate LastLook(workers: seq<Worker>, w: WorkerId) {
    w < |workers| && workers[w].pc.Announced? && workers[w].pc.seen == |workers| - 1
  }

  ghost predicate WaitingOk(s: State) {
    |s.workers| < WORD && s.numWaiting == Count(CountedFlags(s.workers))
  }

  ghost predicate PollerOk(s: State) {
    && (s.poller.Some? <==> s.pollerWaiting)
    && (s.poller.Some? ==> s.poller.value < |s.workers| && HasRole(s.workers[s.poller.value].pc))
    && (forall w :: 0 <= w < |s.workers| && HasRole(s.workers[w].pc) ==> s.poller == Some(w))
    && (AllPastExchange(s.workers) ==> s.pollerWaiting)
  }

  /** With every worker down, the counter is 0 or the last one has yet to see it. */
  ghost predicate LastOk(s: State) {
    AllDown(s.workers) ==> s.numRun == 0 || exists w: WorkerId :: LastLook(s.workers, w)
  }

  ghost predicate Control(s: State) {
    |s.workers| > 0 && WaitingOk(s) && PollerOk(s) && LastOk(s)
  }

  lemma {:induction false} AllCounted(flags: seq<bool>, w: nat)
    requires w < |flags| && !flags[w] && forall i :: 0 <= i < |flags| && i != w ==> flags[i]
    ensures Count(flags) == |flags| - 1
  {
    var last := |flags| - 1;
    if w == last {
      CountFull(flags[..last]);
    } else {
      AllCounted(flags[..last], w);
    }
  }

  lemma {:induction false} CountFull(flags: seq<bool>)
    requires forall i :: 0 <= i < |flags| ==> flags[i]
    ensures Count(flags) == |flags|
  {
    if flags != [] {
      CountFull(flags[..|flags| - 1]);
    }
  }

  /** The number of waiting workers after a step of worker `w`. */
  lemma WaitingStep(s: State, s': State, w: WorkerId)
    requires WaitingOk(s) && w < |s.workers| == |s'.workers| && s'.workers == s.workers[w := s'.workers[w]]
    requires var d := (if Counted(s'.workers[w].pc) then 1 else 0) - (if Counted(s.workers[w].pc) then 1 else 0);
             s'.numWaiting == if d == 0 then s.numWaiting else Word(s.numWaiting + d)
    ensures WaitingOk(s')
  {
    FlagsStep(s.workers, s'.workers, w);
    WordSmall(Count(CountedFlags(s'.workers)));
  }

  lemma FlagsStep(a: seq<Worker>, c: seq<Worker>, w: WorkerId)
    requires w < |a| == |c| && c == a[w := c[w]]
    ensures Count(CountedFlags(c)) == Count(CountedFlags(a)) - (if Counted(a[w].pc) then 1 else 0)
                                      + (if Counted(c[w].pc) then 1 else 0)
  {
    assert CountedFlags(c) == CountedFlags(a)[w := Counted(c[w].pc)];
    CountUpdate(CountedFlags(a), w, Counted(c[w].pc));
  }

  /** Steps of a worker that is awake before and after. */
  lemma AwakeControl(s: State, s': State, w: WorkerId)
    requires Control(s) && w < |s.workers| == |s'.workers| && s'.workers == s.workers[w := s'.workers[w]]
    requires !Counted(s.workers[w].pc) && !Counted(s'.workers[w].pc)
    requires !HasRole(s.workers[w].pc) && !HasRole(s'.workers[w].pc) && !s'.workers[w].pc.Exchanged?
    requires s'.numWaiting == s.numWaiting && s'.pollerWaiting == s.pollerWaiting && s'.poller == s.poller
    ensures Control(s')
  {
    WaitingStep(s, s', w);
    assert !Down(s'.workers[w].pc) && !s'.workers[w].pc.Exchanged?;
  }

  lemma PushControl(s: State, s': State, w: WorkerId)
    requires Control(s) && Fibers.WorkerOk(s, w) && s.workers[w].push != NoPush && PushSteps(s, s', w)
    ensures Control(s')
  {
    WaitingStep(s, s', w);
    assert !Down(s'.workers[w].pc) && !s'.workers[w].pc.Exchanged?;
  }

  lemma StartPushControl(s: State, s': State, w: WorkerId, batch: seq<FiberId>)
    requires Control(s) && StartPush(s, s', w, batch)
    ensures Control(s')
  {
    WaitingStep(s, s', w);
    assert !Down(s'.workers[w].pc) && !s'.workers[w].pc.Exchanged?;
  }

  /** Everyone else is down when the last worker announces itself. */
  lemma AnnounceLast(s: State, s': State, w: WorkerId)
    requires Control(s) && w < |s.workers| == |s'.workers| && s'.workers == s.workers[w := s'.workers[w]]
    requires s.workers[w].pc.Exchanged? && s'.workers[w].pc.Announced? && s'.workers[w].pc.seen == s.numWaiting
    ensures AllDown(s'.workers) ==> LastLook(s'.workers, w)
  {
    if AllDown(s'.workers) {
      var flags := CountedFlags(s.workers);
      forall u | 0 <= u < |flags| && u != w ensures flags[u] {
        assert Down(s'.workers[u].pc);
      }
      AllCounted(flags, w);
    }
  }

  lemma ExchangedControl(s: State, s': State, w: WorkerId, choice: Choice)
    requires Control(s) && At(s, w) && s.workers[w].pc.Exchanged? && SleepSteps(s, s', w, choice)
    ensures Control(s')
  {
    WaitingStep(s, s', w);
    AnnounceLast(s, s', w);
    if AllPastExchange(s'.workers) {
      PastExchangeBefore(s, s', w);
    }
  }

  lemma PastExchangeBefore(s: State, s': State, w: WorkerId)
    requires w < |s.workers| == |s'.workers| && s'.workers == s.workers[w := s'.workers[w]]
    requires (s.workers[w].pc.Exchanged? || Down(s.workers[w].pc)) && AllPastExchange(s'.workers)
    ensures AllPastExchange(s.workers)
  {
    forall u | 0 <= u < |s.workers| ensures s.workers[u].pc.Exchanged? || Down(s.workers[u].pc) {
      if u != w {
        assert s'.workers[u] == s.workers[u];
      }
    }
  }

  lemma DownBefore(s: State, s': State, w: WorkerId)
    requires w < |s.workers| == |s'.workers| && s'.workers == s.workers[w := s'.workers[w]]
    requires Down(s.workers[w].pc) && AllDown(s'.workers)
    ensures AllDown(s.workers)
  {
    forall u | 0 <= u < |s.workers| ensures Down(s.workers[u].pc) {
      if u != w {
        assert s'.workers[u] == s.workers[u];
      }
    }
  }

  lemma ExchangeControl(s: State, s': State, w: WorkerId, choice: Choice)
    requires Control(s) && At(s, w) && s.workers[w].pc == Exchange && SleepSteps(s, s', w, choice)
    ensures Control(s')
  {
    WaitingStep(s, s', w);
    assert !Down(s'.workers[w].pc);
  }

  /** The second look: the worker that announced itself last stays down only if the counter is 0. */
  lemma AnnouncedControl(s: State, s': State, w: WorkerId, choice: Choice)
    requires Control(s) && At(s, w) && s.workers[w].pc.Announced? && SleepSteps(s, s', w, choice)
    ensures Control(s')
  {
    WaitingStep(s, s', w);
    if AllPastExchange(s'.workers) {
      PastExchangeBefore(s, s', w);
    }
    if AllDown(s'.workers) {
      DownBefore(s, s', w);
      if s.numRun != 0 {
        var u: WorkerId :| LastLook(s.workers, u);
        assert u != w by {
          WordSmall(1);
        }
        assert LastLook(s'.workers, u);
      }
    }
  }

  lemma UndoControl(s: State, s': State, w: WorkerId, choice: Choice)
    requires Control(s) && At(s, w) && (s.workers[w].pc == UndoStore || s.workers[w].pc == UndoDec)
    requires SleepSteps(s, s', w, choice)
    ensures Control(s')
  {
    WaitingStep(s, s', w);
    assert !Down(s'.workers[w].pc) && !s'.workers[w].pc.Exchanged?;
  }

  lemma WakeStoreControl(s: State, s': State, w: WorkerId)
    requires Control(s) && At(s, w) && s.workers[w].pc == WakeStore && WakeSteps(s, s', w)
    ensures Control(s')
  {
    WaitingStep(s, s', w);
    assert !Down(s'.workers[w].pc) && !s'.workers[w].pc.Exchanged?;
  }

  lemma WakeDecControl(s: State, s': State, w: WorkerId)
    requires Control(s) && At(s, w) && s.workers[w].pc.WakeDec? && WakeSteps(s, s', w)
    ensures Control(s')
  {
    WaitingStep(s, s', w);
    assert !Down(s'.workers[w].pc) && !s'.workers[w].pc.Exchanged?;
  }

  lemma RoleKept(s: State, s': State, w: WorkerId)
    requires Control(s) && w < |s.workers| == |s'.workers| && s'.workers == s.workers[w := s'.workers[w]]
    requires s'.numWaiting == s.numWaiting && s'.pollerWaiting == s.pollerWaiting && s'.poller == s.poller
    requires Counted(s'.workers[w].pc) == Counted(s.workers[w].pc)
    requires HasRole(s'.workers[w].pc) == HasRole(s.workers[w].pc)
    requires !Down(s'.workers[w].pc) && !s'.workers[w].pc.Exchanged?
    ensures Control(s')
  {
    WaitingStep(s, s', w);
  }

  lemma WakeControl(s: State, s': State, w: WorkerId)
    requires Control(s) && At(s, w) && WakeSteps(s, s', w)
    ensures Control(s')
  {
    if s.workers[w].pc == WakeStore {
      WakeStoreControl(s, s', w);
    } else if s.workers[w].pc.WakeDec? {
      WakeDecControl(s, s', w);
    } else {
      RoleKept(s, s', w);
    }
  }

  lemma SleepControl(s: State, s': State, w: WorkerId, choice: Choice)
    requires Control(s) && At(s, w) && SleepSteps(s, s', w, choice)
    ensures Control(s')
  {
    match s.workers[w].pc
    case Exchange => ExchangeControl(s, s', w, choice);
    case Exchanged(_) => ExchangedControl(s, s', w, choice);
    case Announced(_, _) => AnnouncedControl(s, s', w, choice);
    case UndoStore => UndoControl(s, s', w, choice);
    case UndoDec => UndoControl(s, s', w, choice);
    case _ => AwakeControl(s, s', w);
  }

  lemma NextControl(s: State, s': State, w: WorkerId, choice: Choice)
    requires Fibers.Inv(s) && Control(s) && Next(s, s', w, choice)
    ensures Control(s')
  {
    if choice.PushFibers? {
      StartPushControl(s, s', w, choice.batch);
    } else if s.workers[w].push != NoPush {
      assert Fibers.AnyWorker(w);
      PushControl(s, s', w);
    } else {
      match s.workers[w].pc
      case GetLocal | PopSize(_) | Running(_) | Leaving(_) | Post | LatePost => RunControl(s, s', w, choice);
      case Check | LoadSize | Steal(_, _) | StealSize(_, _, _) | Install(_) | InstallSize(_) =>
        StealControl(s, s', w, choice);
      case Committed(_) | PollWoken | WakeStore | WakeDec(_) | WakeSize => WakeControl(s, s', w);
      case _ => SleepControl(s, s', w, choice);
    }
  }

  lemma RunControl(s: State, s': State, w: WorkerId, choice: Choice)
    requires Control(s) && RunSteps(s, s', w, choice)
    ensures Control(s')
  {
    AwakeControl(s, s', w);
  }

  lemma StealControl(s: State, s': State, w: WorkerId, choice: Choice)
    requires Control(s) && StealSteps(s, s', w, choice)
    ensures Control(s')
  {
    AwakeControl(s, s', w);
  }

  // ---------------------------------------------------------------------------------------------
  // Every run
  // ---------------------------------------------------------------------------------------------

  ghost predicate Inv(s: State) {
    Fibers.Inv(s) && Accounting(s) && Control(s) && |s.places| < WORD
  }

  lemma {:induction false} NothingCounted(flags: seq<bool>)
    requires forall i :: 0 <= i < |flags| ==> !flags[i]
    ensures Count(flags) == 0
  {
    if flags != [] {
      NothingCounted(flags[..|flags| - 1]);
    }
  }

  lemma InitInv(s: State)
    requires Init(s)
    ensures Inv(s)
  {
    Fibers.InitInv(s);
    NothingCounted(CountedFlags(s.workers));
    var nobody := seq(|s.places|, f => Outside);
    NothingCounted(RunnableFlags(nobody));
    MoveIn(nobody, s.queues[0].list, Queued(0));
    assert Move(nobody, s.queues[0].list, Queued(0)) == s.places;
    SumOfZeros(Credits(s.workers));
    WordSmall(Runnable(s.places));
    assert !Down(s.workers[0].pc) && !s.workers[0].pc.Exchanged?;
  }

  lemma PlacesKept(s: State, s': State, w: WorkerId, choice: Choice)
    requires Next(s, s', w, choice)
    ensures |s'.places| == |s.places|
  {
  }

  lemma NextInv(s: State, s': State, w: WorkerId, choice: Choice)
    requires Inv(s) && Next(s, s', w, choice)
    ensures Inv(s')
  {
    Fibers.NextInv(s, s', w, choice);
    NextAccounting(s, s', w, choice);
    NextControl(s, s', w, choice);
    PlacesKept(s, s', w, choice);
  }

  lemma {:induction false} EveryRun(states: seq<State>, steps: seq<Fibers.Step>, i: nat)
    requires Fibers.IsRun(states, steps) && i < |states|
    ensures Inv(states[i])
  {
    if i == 0 {
      InitInv(states[0]);
    } else {
      EveryRun(states, steps, i - 1);
      NextInv(states[i - 1], states[i], steps[i - 1].w, steps[i - 1].choice);
    }
  }

  ghost predicate AllCommitted(workers: seq<Worker>) {
    forall w :: 0 <= w < |workers| ==> workers[w].pc.Committed?
  }

  /**
   * The counter: num_run_fibers is the number of runnable fibers, up to the pushes that have yet to be
   * counted and the switches that were counted before they happened or have yet to be counted.
   */
  lemma CounterIsRunnable(states: seq<State>, steps: seq<Fibers.Step>, i: nat)
    requires Fibers.IsRun(states, steps) && i < |states|
    ensures states[i].numRun == Word(Runnable(states[i].places) + Sum(Credits(states[i].workers)))
    ensures (forall w :: 0 <= w < |states[i].workers| ==> Credit(states[i].workers[w]) == 0) ==>
              states[i].numRun == Runnable(states[i].places)
  {
    EveryRun(states, steps, i);
    CounterExact(states[i]);
  }

  lemma CounterExact(s: State)
    requires Accounting(s) && |s.places| < WORD
    ensures (forall w :: 0 <= w < |s.workers| ==> Credit(s.workers[w]) == 0) ==> s.numRun == Runnable(s.places)
  {
    if forall w :: 0 <= w < |s.workers| ==> Credit(s.workers[w]) == 0 {
      SumOfZeros(Credits(s.workers));
      WordSmall(Runnable(s.places));
    }
  }

  /**
   * Nobody sleeps on work: when all workers are past the second look, every fiber is blocked, dead or
   * unborn, all run queues are empty, and exactly one worker waits in the poller.
   */
  lemma NoSleepWithWork(states: seq<State>, steps: seq<Fibers.Step>, i: nat)
    requires Fibers.IsRun(states, steps) && i < |states| && AllCommitted(states[i].workers)
    ensures forall f :: 0 <= f < |states[i].places| ==> states[i].places[f] == Outside
    ensures forall w :: 0 <= w < |states[i].queues| ==> states[i].queues[w].list == []
    ensures exists h: WorkerId ::
              && h < |states[i].workers| && states[i].workers[h].pc == Committed(true)
              && forall w :: 0 <= w < |states[i].workers| && w != h ==> states[i].workers[w].pc == Committed(false)
  {
    var s := states[i];
    EveryRun(states, steps, i);
    forall w | 0 <= w < |s.workers| ensures Credit(s.workers[w]) == 0 {
      assert Fibers.AnyWorker(w);
    }
    CounterIsRunnable(states, steps, i);
    assert AllDown(s.workers) && AllPastExchange(s.workers);
    assert s.numRun == 0;
    forall f | 0 <= f < |s.places| ensures s.places[f] == Outside {
      CountZero(RunnableFlags(s.places), f);
    }
    forall w | 0 <= w < |s.queues| ensures s.queues[w].list == [] {
      NobodyQueued(s, w);
    }
    var h := s.poller.value;
    assert s.workers[h].pc == Committed(true);
  }

  lemma NobodyQueued(s: State, w: WorkerId)
    requires Fibers.Inv(s) && w < |s.queues| && forall f :: 0 <= f < |s.places| ==> s.places[f] == Outside
    ensures s.queues[w].list == []
  {
    assert Fibers.AnyQueue(w);
    SomeElement(s.queues[w].list);
  }

  lemma SomeElement(list: seq<FiberId>)
    ensures list != [] ==> exists f :: f in list
  {
    if list != [] {
      assert list[0] in list;
    }
  }

  lemma {:induction false} CountZero(flags: seq<bool>, i: nat)
    requires i < |flags| && Count(flags) == 0
    ensures !flags[i]
  {
    if i < |flags| - 1 {
      CountZero(flags[..|flags| - 1], i);
    }
  }
}
