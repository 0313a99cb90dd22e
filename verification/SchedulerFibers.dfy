/**
 * Where the fibers are: every step of the scheduler keeps each fiber in exactly one place, and the
 * size of a run queue is the length of its list whenever its lock is free.
 */
module SchedulerFibers {
  import opened Common
  import opened Scheduler

  predicate AnyWorker(w: int) { true }
  predicate AnyQueue(w: int) { true }
  predicate AnyFiber(f: int) { true }

  /** The fiber that the worker has taken and not left. */
  function Current(pc: Pc): Option<FiberId> {
    match pc
    case PopSize(f) => Some(f)
    case Running(f) => Some(f)
    case Leaving(f) => Some(f)
    case _ => None
  }

  /** The fibers that the worker has stolen and not put into its queue. */
  function Batch(pc: Pc): seq<FiberId> {
    match pc
    case StealSize(_, _, batch) => batch
    case Install(batch) => batch
    case _ => []
  }

  predicate Stealing(pc: Pc) {
    pc.Steal? || pc.StealSize? || pc.Install?
  }

  /** The run queue whose lock the worker holds, if any. */
  function LockOf(s: State, w: WorkerId): Option<WorkerId>
    requires w < |s.workers|
  {
    var wk := s.workers[w];
    if wk.push.Appended? then Some(w)
    else match wk.pc
         case PopSize(_) => Some(w)
         case InstallSize(_) => Some(w)
         case StealSize(rnd, i, _) => Some(Victim(s, rnd, i))
         case _ => None
  }

  /** Fibers are woken only where they can be, and at least one at a time. */
  predicate PushOk(wk: Worker) {
    wk.push != NoPush ==> CanPush(wk.pc) && wk.push.n > 0
  }

  ghost predicate WorkerOk(s: State, w: WorkerId) {
    && At(s, w)
    && var wk := s.workers[w];
       && PushOk(wk)
       && (Current(wk.pc).Some? ==> Current(wk.pc).value < |s.places| && s.places[Current(wk.pc).value] == OnWorker(w))
       && Distinct(Batch(wk.pc))
       && (forall f :: f in Batch(wk.pc) ==> f < |s.places| && s.places[f] == Stolen(w))
       && (LockOf(s, w).Some? ==> s.queues[LockOf(s, w).value].lock == Some(w))
       && (wk.pc.StealSize? ==> Victim(s, wk.pc.rnd, wk.pc.i) != w)
       && (Stealing(wk.pc) ==> s.queues[w].list == [] && s.queues[w].size == 0)
  }

  /** What the size lacks to the length of the list, by what the holder of the lock is doing. */
  ghost predicate SizeOk(s: State, w: WorkerId)
    requires At(s, w)
  {
    var q := s.queues[w];
    match q.lock
    case None => q.size == |q.list|
    case Some(l) =>
      && l < |s.workers| && LockOf(s, l) == Some(w)
      && if s.workers[l].push.Appended? then q.size + s.workers[l].push.n == |q.list|
         else match s.workers[l].pc
              case PopSize(_) => q.size == |q.list| + 1
              case InstallSize(batch) => q.size == 0 && q.list == batch
              case StealSize(_, _, batch) => q.size == |q.list| + |batch|
              case _ => false
  }

  ghost predicate QueueOk(s: State, w: WorkerId) {
    && At(s, w) && Distinct(s.queues[w].list) && SizeOk(s, w)
    && forall f :: f in s.queues[w].list ==> f < |s.places| && s.places[f] == Queued(w)
  }

  ghost predicate FiberOk(s: State, f: FiberId) {
    && f < |s.places| && |s.queues| == |s.workers|
    && match s.places[f]
       case Outside => true
       case Queued(w) => w < |s.queues| && f in s.queues[w].list
       case Stolen(w) => w < |s.workers| && f in Batch(s.workers[w].pc)
       case OnWorker(w) => w < |s.workers| && Current(s.workers[w].pc) == Some(f)
  }

  ghost predicate Inv(s: State) {
    && 0 < |s.workers| == |s.queues|
    && (forall w {:trigger AnyWorker(w)} :: AnyWorker(w) && 0 <= w < |s.workers| ==> WorkerOk(s, w))
    && (forall w {:trigger AnyQueue(w)} :: AnyQueue(w) && 0 <= w < |s.queues| ==> QueueOk(s, w))
    && (forall f {:trigger AnyFiber(f)} :: AnyFiber(f) && 0 <= f < |s.places| ==> FiberOk(s, f))
  }

  lemma InitInv(s: State)
    requires Init(s)
    ensures Inv(s)
  {
  }

  // ---------------------------------------------------------------------------------------------
  // Steps that move no fiber and touch no run queue
  // ---------------------------------------------------------------------------------------------

  ghost predicate Aside(s: State, s': State, w: WorkerId) {
    && w < |s.workers| == |s'.workers| && s'.workers == s.workers[w := s'.workers[w]]
    && s'.queues == s.queues && s'.places == s.places
    && LockOf(s, w) == None && LockOf(s', w) == None
    && Current(s'.workers[w].pc) == Current(s.workers[w].pc)
    && Batch(s.workers[w].pc) == [] && Batch(s'.workers[w].pc) == []
    && (Stealing(s'.workers[w].pc) ==>
          Stealing(s.workers[w].pc) || (w < |s.queues| && s.queues[w].list == [] && s.queues[w].size == 0))
    && PushOk(s'.workers[w])
  }

  lemma AsideWorker(s: State, s': State, w: WorkerId, u: WorkerId)
    requires Aside(s, s', w) && WorkerOk(s, w) && WorkerOk(s, u)
    ensures WorkerOk(s', u)
  {
  }

  lemma AsideQueue(s: State, s': State, w: WorkerId, u: WorkerId)
    requires Aside(s, s', w) && QueueOk(s, u)
    ensures QueueOk(s', u)
  {
  }

  lemma AsideInv(s: State, s': State, w: WorkerId)
    requires Inv(s) && Aside(s, s', w)
    ensures Inv(s')
  {
    assert AnyWorker(w);
    forall u | AnyWorker(u) && 0 <= u < |s.workers| ensures WorkerOk(s', u) {
      AsideWorker(s, s', w, u);
    }
    forall u | AnyQueue(u) && 0 <= u < |s.queues| ensures QueueOk(s', u) {
      AsideQueue(s, s', w, u);
    }
  }

  // ---------------------------------------------------------------------------------------------
  // Steps that change one run queue
  // ---------------------------------------------------------------------------------------------

  /** Only worker `w`, queue `v` and the fibers of `moved` change. */
  ghost predicate Changes(s: State, s': State, w: WorkerId, v: WorkerId, moved: seq<FiberId>, to: Place) {
    && At(s, w) && v < |s.queues| && |s'.workers| == |s.workers| && |s'.queues| == |s.queues|
    && s'.workers == s.workers[w := s'.workers[w]] && s'.queues == s.queues[v := s'.queues[v]]
    && s'.places == Move(s.places, moved, to)
    && (s'.queues[v] == s.queues[v] ||
        (&& (s.queues[v].lock == None || s.queues[v].lock == Some(w))
         && (s'.queues[v].lock == None || s'.queues[v].lock == Some(w))))
  }

  lemma OtherWorker(s: State, s': State, w: WorkerId, v: WorkerId, moved: seq<FiberId>, to: Place, u: WorkerId)
    requires Changes(s, s', w, v, moved, to) && WorkerOk(s, u) && u != w
    requires forall f :: f in moved ==> f < |s.places| && s.places[f] != OnWorker(u) && s.places[f] != Stolen(u)
    requires u == v && s.queues[v].list == [] && s.queues[v].size == 0 ==>
               s'.queues[v].list == [] && s'.queues[v].size == 0
    ensures WorkerOk(s', u)
  {
  }

  lemma OtherQueue(s: State, s': State, w: WorkerId, v: WorkerId, moved: seq<FiberId>, to: Place, u: WorkerId)
    requires Changes(s, s', w, v, moved, to) && QueueOk(s, u) && u != v
    requires forall f :: f in moved ==> f < |s.places| && s.places[f] != Queued(u)
    requires s.queues[u].lock != Some(w)
    ensures QueueOk(s', u)
  {
  }

  lemma OtherFiber(s: State, s': State, w: WorkerId, v: WorkerId, moved: seq<FiberId>, to: Place, f: FiberId)
    requires Changes(s, s', w, v, moved, to) && FiberOk(s, f) && f !in moved
    requires f in s.queues[v].list ==> f in s'.queues[v].list
    requires Current(s.workers[w].pc) == Some(f) ==> Current(s'.workers[w].pc) == Some(f)
    requires f in Batch(s.workers[w].pc) ==> f in Batch(s'.workers[w].pc)
    ensures FiberOk(s', f)
  {
  }

  /** A worker holds at most one lock of a run queue. */
  lemma LockedElsewhere(s: State, w: WorkerId, v: WorkerId, u: WorkerId)
    requires Inv(s) && w < |s.workers| && u < |s.queues| && u != v
    requires LockOf(s, w) == None || LockOf(s, w) == Some(v)
    ensures s.queues[u].lock != Some(w)
  {
    assert AnyQueue(u);
  }

  /** The general case, given what holds of the worker, the queue and the fibers that the step changes. */
  lemma ChangesInv(s: State, s': State, w: WorkerId, v: WorkerId, moved: seq<FiberId>, to: Place)
    requires Inv(s) && Changes(s, s', w, v, moved, to)
    requires LockOf(s, w) == None || LockOf(s, w) == Some(v)
    requires WorkerOk(s', w) && QueueOk(s', v)
    requires forall f :: f in moved ==> f < |s.places| && FiberOk(s', f)
    requires forall f :: f in moved ==>
               || s.places[f] == Outside || s.places[f] == Queued(v)
               || s.places[f] == Stolen(w) || s.places[f] == OnWorker(w)
    requires s.queues[v].list == [] && s.queues[v].size == 0 && v != w ==>
               s'.queues[v].list == [] && s'.queues[v].size == 0
    requires forall f :: f in s.queues[v].list && f !in moved ==> f in s'.queues[v].list
    requires Current(s.workers[w].pc).Some? ==>
               Current(s.workers[w].pc).value in moved || Current(s'.workers[w].pc) == Current(s.workers[w].pc)
    requires forall f :: f in Batch(s.workers[w].pc) && f !in moved ==> f in Batch(s'.workers[w].pc)
    ensures Inv(s')
  {
    forall u | AnyWorker(u) && 0 <= u < |s.workers| ensures WorkerOk(s', u) {
      if u != w {
        OtherWorker(s, s', w, v, moved, to, u);
      }
    }
    forall u | AnyQueue(u) && 0 <= u < |s.queues| ensures QueueOk(s', u) {
      if u != v {
        LockedElsewhere(s, w, v, u);
        OtherQueue(s, s', w, v, moved, to, u);
      }
    }
    forall f | AnyFiber(f) && 0 <= f < |s.places| ensures FiberOk(s', f) {
      if f !in moved {
        OtherFiber(s, s', w, v, moved, to, f);
      }
    }
  }

  lemma StartPushInv(s: State, s': State, w: WorkerId, batch: seq<FiberId>)
    requires Inv(s) && StartPush(s, s', w, batch)
    ensures Inv(s')
  {
    assert AnyWorker(w) && AnyQueue(w);
    DistinctConcat(s.queues[w].list, batch);
    ChangesInv(s, s', w, w, batch, Queued(w));
  }

  lemma AppendedInv(s: State, s': State, w: WorkerId)
    requires Inv(s) && At(s, w) && s.workers[w].push.Appended? && PushSteps(s, s', w)
    ensures Inv(s')
  {
    assert AnyWorker(w) && AnyQueue(w);
    ChangesInv(s, s', w, w, [], Outside);
  }

  lemma PushInv(s: State, s': State, w: WorkerId)
    requires Inv(s) && PushSteps(s, s', w)
    ensures Inv(s')
  {
    if s.workers[w].push.Appended? {
      AppendedInv(s, s', w);
    } else {
      assert AnyWorker(w);
      AsideInv(s, s', w);
    }
  }

  /** Taking a prefix off a list of distinct fibers. */
  lemma Prefix(list: seq<FiberId>, n: nat)
    requires Distinct(list) && n <= |list|
    ensures Distinct(list[..n]) && Distinct(list[n..])
    ensures forall f :: f in list <==> f in list[..n] || f in list[n..]
    ensures forall f :: f in list[..n] ==> f !in list[n..]
  {
    assert list == list[..n] + list[n..];
  }

  lemma PopInv(s: State, s': State, w: WorkerId, choice: Choice)
    requires Inv(s) && At(s, w) && s.workers[w].push == NoPush && s.workers[w].pc == GetLocal
    requires RunSteps(s, s', w, choice)
    requires s.queues[w].list != []
    ensures Inv(s')
  {
    assert AnyWorker(w) && AnyQueue(w);
    var list := s.queues[w].list;
    Prefix(list, 1);
    assert list[..1] == [list[0]] && list[0] in list;
    ChangesInv(s, s', w, w, [list[0]], OnWorker(w));
  }

  lemma PopSizeInv(s: State, s': State, w: WorkerId, choice: Choice)
    requires Inv(s) && At(s, w) && s.workers[w].push == NoPush && s.workers[w].pc.PopSize? && RunSteps(s, s', w, choice)
    ensures Inv(s')
  {
    assert AnyWorker(w) && AnyQueue(w);
    ChangesInv(s, s', w, w, [], Outside);
  }

  lemma LeaveQueue(s: State, s': State, w: WorkerId, f: FiberId)
    requires QueueOk(s, w) && Changes(s, s', w, w, [f], Outside) && s'.queues == s.queues
    requires f < |s.places| && s.places[f] == OnWorker(w) && LockOf(s, w) == None && LockOf(s', w) == None
    ensures QueueOk(s', w)
  {
  }

  lemma LeaveInv(s: State, s': State, w: WorkerId, choice: Choice)
    requires Inv(s) && At(s, w) && s.workers[w].push == NoPush && RunSteps(s, s', w, choice)
    requires s.workers[w].pc.Leaving? || (s.workers[w].pc.Running? && choice == SwitchFirst)
    ensures Inv(s')
  {
    assert AnyWorker(w) && AnyQueue(w);
    var f := s.workers[w].pc.f;
    LeaveQueue(s, s', w, f);
    ChangesInv(s, s', w, w, [f], Outside);
  }

  lemma RunInv(s: State, s': State, w: WorkerId, choice: Choice)
    requires Inv(s) && At(s, w) && s.workers[w].push == NoPush && RunSteps(s, s', w, choice)
    ensures Inv(s')
  {
    var pc := s.workers[w].pc;
    if pc == GetLocal && s.queues[w].list != [] {
      PopInv(s, s', w, choice);
    } else if pc.PopSize? {
      PopSizeInv(s, s', w, choice);
    } else if pc.Leaving? || (pc.Running? && choice == SwitchFirst) {
      LeaveInv(s, s', w, choice);
    } else {
      AsideInv(s, s', w);
    }
  }

  lemma StealListInv(s: State, s': State, w: WorkerId, choice: Choice)
    requires Inv(s) && At(s, w) && s.workers[w].push == NoPush && s.workers[w].pc.Steal? && StealSteps(s, s', w, choice)
    requires s.workers[w].pc.i < |s.workers| && Victim(s, s.workers[w].pc.rnd, s.workers[w].pc.i) != w
    ensures Inv(s')
  {
    var v := Victim(s, s.workers[w].pc.rnd, s.workers[w].pc.i);
    assert AnyWorker(w) && AnyQueue(v);
    var list := s.queues[v].list;
    var batch := Taken(list, s.stealCount);
    Prefix(list, |batch|);
    ChangesInv(s, s', w, v, batch, Stolen(w));
  }

  lemma StealSizeInv(s: State, s': State, w: WorkerId, choice: Choice)
    requires Inv(s) && At(s, w) && s.workers[w].push == NoPush && s.workers[w].pc.StealSize?
    requires StealSteps(s, s', w, choice)
    ensures Inv(s')
  {
    var v := Victim(s, s.workers[w].pc.rnd, s.workers[w].pc.i);
    assert AnyWorker(w) && AnyQueue(v);
    ChangesInv(s, s', w, v, [], Outside);
  }

  lemma InstallInv(s: State, s': State, w: WorkerId, choice: Choice)
    requires Inv(s) && At(s, w) && s.workers[w].push == NoPush && s.workers[w].pc.Install?
    requires StealSteps(s, s', w, choice)
    ensures Inv(s')
  {
    assert AnyWorker(w) && AnyQueue(w);
    ChangesInv(s, s', w, w, s.workers[w].pc.batch, Queued(w));
  }

  lemma InstallSizeInv(s: State, s': State, w: WorkerId, choice: Choice)
    requires Inv(s) && At(s, w) && s.workers[w].push == NoPush && s.workers[w].pc.InstallSize?
    requires StealSteps(s, s', w, choice)
    ensures Inv(s')
  {
    assert AnyWorker(w) && AnyQueue(w);
    ChangesInv(s, s', w, w, [], Outside);
  }

  /** The size of the own queue is read without its lock; 0 means that the list is empty. */
  lemma EmptyBySize(s: State, w: WorkerId)
    requires Inv(s) && w < |s.workers| && LockOf(s, w) == None && s.queues[w].size <= 0
    ensures s.queues[w].size == 0 && s.queues[w].list == []
  {
    assert AnyQueue(w);
    if s.queues[w].lock.Some? {
      assert AnyWorker(s.queues[w].lock.value);
    }
  }

  lemma StealInv(s: State, s': State, w: WorkerId, choice: Choice)
    requires Inv(s) && At(s, w) && s.workers[w].push == NoPush && StealSteps(s, s', w, choice)
    ensures Inv(s')
  {
    var pc := s.workers[w].pc;
    if pc.Steal? && pc.i < |s.workers| && Victim(s, pc.rnd, pc.i) != w {
      StealListInv(s, s', w, choice);
    } else if pc.StealSize? {
      StealSizeInv(s, s', w, choice);
    } else if pc.Install? {
      InstallInv(s, s', w, choice);
    } else if pc.InstallSize? {
      InstallSizeInv(s, s', w, choice);
    } else {
      if pc == LoadSize && s.queues[w].size <= 0 {
        EmptyBySize(s, w);
      }
      AsideInv(s, s', w);
    }
  }

  lemma SleepInv(s: State, s': State, w: WorkerId, choice: Choice)
    requires Inv(s) && At(s, w) && s.workers[w].push == NoPush && SleepSteps(s, s', w, choice)
    ensures Inv(s')
  {
    AsideInv(s, s', w);
  }

  lemma WakeInv(s: State, s': State, w: WorkerId)
    requires Inv(s) && At(s, w) && s.workers[w].push == NoPush && WakeSteps(s, s', w)
    ensures Inv(s')
  {
    AsideInv(s, s', w);
  }

  lemma NextInv(s: State, s': State, w: WorkerId, choice: Choice)
    requires Inv(s) && Next(s, s', w, choice)
    ensures Inv(s')
  {
    if choice.PushFibers? {
      StartPushInv(s, s', w, choice.batch);
    } else if s.workers[w].push != NoPush {
      PushInv(s, s', w);
    } else {
      match s.workers[w].pc
      case GetLocal | PopSize(_) | Running(_) | Leaving(_) | Post | LatePost => RunInv(s, s', w, choice);
      case Check | LoadSize | Steal(_, _) | StealSize(_, _, _) | Install(_) | InstallSize(_) =>
        StealInv(s, s', w, choice);
      case Committed(_) | PollWoken | WakeStore | WakeDec(_) | WakeSize => WakeInv(s, s', w);
      case _ => SleepInv(s, s', w, choice);
    }
  }

  // ---------------------------------------------------------------------------------------------
  // Every run
  // ---------------------------------------------------------------------------------------------

  datatype Step = Step(w: WorkerId, choice: Choice)

  ghost predicate IsRun(states: seq<State>, steps: seq<Step>) {
    && |states| == |steps| + 1
    && Init(states[0])
    && forall i {:trigger steps[i]} :: 0 <= i < |steps| ==> Next(states[i], states[i + 1], steps[i].w, steps[i].choice)
  }

  lemma {:induction false} EveryRun(states: seq<State>, steps: seq<Step>, i: nat)
    requires IsRun(states, steps) && i < |states|
    ensures Inv(states[i])
  {
    if i == 0 {
      InitInv(states[0]);
    } else {
      EveryRun(states, steps, i - 1);
      NextInv(states[i - 1], states[i], steps[i - 1].w, steps[i - 1].choice);
    }
  }

  /** The fiber is in the list, in the stolen batch or on the processor of a worker. */
  predicate In(s: State, f: FiberId, place: Place) {
    match place
    case Outside => false
    case Queued(w) => w < |s.queues| && f in s.queues[w].list
    case Stolen(w) => w < |s.workers| && f in Batch(s.workers[w].pc)
    case OnWorker(w) => w < |s.workers| && Current(s.workers[w].pc) == Some(f)
  }

  /**
   * Conservation: in every run a fiber is in at most one run queue, stolen batch or processor, and
   * there only once; it is where its history says.
   */
  lemma OnePlace(states: seq<State>, steps: seq<Step>, i: nat, f: FiberId, place: Place)
    requires IsRun(states, steps) && i < |states| && f < |states[i].places| && place != Outside
    ensures In(states[i], f, place) <==> states[i].places[f] == place
    ensures place.Queued? && place.w < |states[i].queues| ==> Distinct(states[i].queues[place.w].list)
    ensures place.Stolen? && place.w < |states[i].workers| ==> Distinct(Batch(states[i].workers[place.w].pc))
  {
    EveryRun(states, steps, i);
    assert AnyFiber(f);
    assert AnyWorker(place.w) && AnyQueue(place.w);
  }

  lemma RunKeeps(s: State, s': State, w: WorkerId, choice: Choice, f: FiberId)
    requires RunSteps(s, s', w, choice) && f < |s.places| && s.places[f] != Outside
    ensures f < |s'.places|
    ensures s'.places[f] == Outside ==> s.workers[w].pc == Running(f) || s.workers[w].pc == Leaving(f)
  {
  }

  lemma StealKeeps(s: State, s': State, w: WorkerId, choice: Choice, f: FiberId)
    requires StealSteps(s, s', w, choice) && f < |s.places| && s.places[f] != Outside
    ensures f < |s'.places| && s'.places[f] != Outside
  {
  }

  lemma StepKeeps(s: State, s': State, w: WorkerId, choice: Choice, f: FiberId)
    requires Next(s, s', w, choice) && f < |s.places| && s.places[f] != Outside
    ensures f < |s'.places|
    ensures s'.places[f] == Outside ==> s.workers[w].pc == Running(f) || s.workers[w].pc == Leaving(f)
  {
    if !choice.PushFibers? && s.workers[w].push == NoPush {
      match s.workers[w].pc
      case GetLocal | PopSize(_) | Running(_) | Leaving(_) | Post | LatePost => RunKeeps(s, s', w, choice, f);
      case Check | LoadSize | Steal(_, _) | StealSize(_, _, _) | Install(_) | InstallSize(_) =>
        StealKeeps(s, s', w, choice, f);
      case _ =>
    }
  }

  /** A fiber stops being runnable only by switching away from its worker; no push, pop or steal loses one. */
  lemma NoneLost(states: seq<State>, steps: seq<Step>, i: nat, f: FiberId)
    requires IsRun(states, steps) && i < |steps| && f < |states[i].places| && states[i].places[f] != Outside
    ensures f < |states[i + 1].places|
    ensures states[i + 1].places[f] == Outside ==>
              && steps[i].w < |states[i].workers|
              && Current(states[i].workers[steps[i].w].pc) == Some(f)
  {
    StepKeeps(states[i], states[i + 1], steps[i].w, steps[i].choice, f);
  }

  /** Whenever a run queue's lock is free its size is the length of its list. */
  lemma SizeIsLength(states: seq<State>, steps: seq<Step>, i: nat, w: WorkerId)
    requires IsRun(states, steps) && i < |states| && w < |states[i].queues| && states[i].queues[w].lock == None
    ensures states[i].queues[w].size == |states[i].queues[w].list|
  {
    EveryRun(states, steps, i);
    assert AnyQueue(w);
  }

  /**
   * The assertions of the worker loop and of fev_sched_steal(); and fev_wake_workers_slow() has at least
   * one worker to wake, so that its counter does not wrap around.
   */
  lemma AssertionsHold(states: seq<State>, steps: seq<Step>, i: nat, w: WorkerId)
    requires IsRun(states, steps) && i < |states| && w < |states[i].workers|
    ensures var s, pc := states[i], states[i].workers[w].pc;
            && |s.queues| == |s.workers|
            && (s.workers[w].push.Waking? ==> s.workers[w].push.n > 0)
            && (pc.PopSize? ==> s.queues[w].size > 0)
            && (pc.StealSize? ==> s.queues[Victim(s, pc.rnd, pc.i)].size >= |pc.batch|)
            && (pc.Install? ==> s.queues[w].list == [] && s.queues[w].size == 0)
            && (pc.InstallSize? ==> s.queues[w].size == 0)
  {
    EveryRun(states, steps, i);
    var s, pc := states[i], states[i].workers[w].pc;
    assert AnyWorker(w) && AnyQueue(w);
    if pc.StealSize? {
      assert AnyQueue(Victim(s, pc.rnd, pc.i));
    }
  }
}
