/**
 * The work-stealing scheduler with locked run queues (src/fev_sched_steal_locking.c,
 * src/fev_sched_steal_locking_impl.h, src/fev_sched_impl.h): worker loop, stealing, the counter of
 * runnable fibers and the way workers go to sleep.
 *
 * There may be any number of workers and fibers. What a fiber does is left open: while it runs, while
 * its post routine runs and while its worker polls, other fibers may be woken; it stops running either by
 * decreasing the counter before it switches (src/fev_waiter_impl.h:93, src/fev_fiber.c:300) or after
 * (src/fev_ilock.c:36, src/fev_fiber.c:181). A fiber that is blocked, dead or not born yet is Outside.
 *
 * Taking a run queue's lock is one step with the change of the list, and releasing it is one step with
 * the change of the size.
 */
module Scheduler {
  import opened Common

  type WorkerId = nat
  type FiberId = nat

  datatype Pc =
    | GetLocal | PopSize(f: FiberId)
    | Running(f: FiberId) | Leaving(f: FiberId) | Post | LatePost
    | Check | LoadSize
    | Steal(rnd: nat, i: nat) | StealSize(rnd: nat, i: nat, batch: seq<FiberId>)
    | Install(batch: seq<FiberId>) | InstallSize(batch: seq<FiberId>)
    | LoadRun | LoadWaiting(run: nat)
    | Exchange | Exchanged(role: bool) | Announced(seen: nat, role: bool) | Committed(role: bool)
    | UndoStore | UndoDec
    | PollWoken | WakeStore | WakeDec(role: bool) | WakeSize
    | Exited

  /** fev_wake_one() and fev_wake_stq(), called by whatever runs on the worker. */
  datatype Push = NoPush | Appended(n: nat) | Counting(n: nat) | Looking(n: nat) | Waking(n: nat)

  datatype Worker = Worker(pc: Pc, push: Push, backoff: nat)

  datatype RunQueue = RunQueue(lock: Option<WorkerId>, list: seq<FiberId>, size: int)

  datatype Place = Outside | Queued(w: WorkerId) | Stolen(w: WorkerId) | OnWorker(w: WorkerId)

  datatype State = State(
    workers: seq<Worker>, queues: seq<RunQueue>,
    numRun: nat, numWaiting: nat, pollerWaiting: bool, sem: nat, interrupts: nat,
    stealCount: nat,             // FEV_SCHED_STEAL_LOCKING_STEAL_COUNT
    places: seq<Place>,          // history: where each fiber is
    poller: Option<WorkerId>     // history: who set poller_waiting
  )

  /** The choices that a step leaves open. */
  datatype Choice =
    | Go
    | PushFibers(batch: seq<FiberId>)   // wake fibers
    | Random(rnd: nat)                  // the next random number of the worker
    | SwitchFirst                       // the fiber switches first and the counter is decreased after
    | Finish                            // num_fibers was 0

  predicate At(s: State, w: WorkerId) {
    w < |s.workers| == |s.queues|
  }

  /** Before the workers start, some fibers are in the first run queue (fev_sched_put()). */
  ghost predicate Init(s: State) {
    && 0 < |s.workers| == |s.queues| < WORD && |s.places| < WORD
    && (forall w :: 0 <= w < |s.workers| ==> s.workers[w] == Worker(GetLocal, NoPush, 0))
    && (forall w :: 1 <= w < |s.queues| ==> s.queues[w] == RunQueue(None, [], 0))
    && s.queues[0].lock == None && s.queues[0].size == |s.queues[0].list|
    && Distinct(s.queues[0].list)
    && (forall f :: f in s.queues[0].list ==> f < |s.places|)
    && (forall f :: 0 <= f < |s.places| ==> s.places[f] == if f in s.queues[0].list then Queued(0) else Outside)
    && s.numRun == |s.queues[0].list|
    && s.numWaiting == 0 && !s.pollerWaiting && s.poller == None && s.sem == 0 && s.interrupts == 0
  }

  function SetWorker(s: State, w: WorkerId, wk: Worker): State
    requires w < |s.workers|
  {
    s.(workers := s.workers[w := wk])
  }

  function Goto(s: State, w: WorkerId, pc: Pc): State
    requires w < |s.workers|
  {
    SetWorker(s, w, s.workers[w].(pc := pc))
  }

  function SetQueue(s: State, w: WorkerId, q: RunQueue): State
    requires w < |s.queues|
  {
    s.(queues := s.queues[w := q])
  }

  /** Moves the fibers of `batch` to `place`. */
  function Move(places: seq<Place>, batch: seq<FiberId>, place: Place): (r: seq<Place>)
    ensures |r| == |places|
    ensures forall f :: 0 <= f < |places| ==> r[f] == if f in batch then place else places[f]
  {
    seq(|places|, f requires 0 <= f < |places| => if f in batch then place else places[f])
  }

  // ---------------------------------------------------------------------------------------------
  // Waking fibers: fev_push_stq() and fev_wake_up_waiting_workers()
  // ---------------------------------------------------------------------------------------------

  /** Where fibers can be woken: in a fiber, in a post routine and in the poller. */
  predicate CanPush(pc: Pc) {
    pc.Running? || pc == Post || pc == Check || pc == PollWoken
  }

  ghost predicate StartPush(s: State, s': State, w: WorkerId, batch: seq<FiberId>) {
    && At(s, w) && s.workers[w].push == NoPush && CanPush(s.workers[w].pc)
    && batch != [] && Distinct(batch) && (forall f :: f in batch ==> f < |s.places| && s.places[f] == Outside)
    && s.queues[w].lock == None
    && s' == SetQueue(SetWorker(s, w, s.workers[w].(push := Appended(|batch|))), w,
                      RunQueue(Some(w), s.queues[w].list + batch, s.queues[w].size))
             .(places := Move(s.places, batch, Queued(w)))
  }

  datatype Issued = Issued(interrupts: nat, posts: nat)

  /** The wake-ups for `n` workers: one goes to the poller if a worker waits there. */
  function WakeUps(n: nat, pollerWaiting: bool): (issued: Issued)
    requires n > 0
    ensures issued.interrupts + issued.posts == n
  {
    if pollerWaiting then Issued(1, n - 1) else Issued(0, n)
  }

  /** fev_wake_workers_slow(): as many workers are woken as wait, but no more than there are fibers. */
  method WakeWorkersSlow(numWaiting: nat, numFibers: nat, pollerWaiting: bool) returns (interrupts: nat, posts: nat)
    requires numWaiting > 0 && numFibers > 0
    ensures var n := if numFibers > numWaiting then numWaiting else numFibers;
            Issued(interrupts, posts) == WakeUps(n, pollerWaiting)
  {
    var n := numFibers;
    if n > numWaiting {
      n := numWaiting;
    }
    ghost var total := n;
    interrupts, posts := 0, 0;
    if pollerWaiting {
      interrupts, n := 1, n - 1;
    }
    while n > 0
      invariant 0 <= n && interrupts + posts + n == total && interrupts == if pollerWaiting then 1 else 0
    {
      n, posts := n - 1, posts + 1;
    }
  }

  ghost predicate PushSteps(s: State, s': State, w: WorkerId) {
    && At(s, w)
    && var wk := s.workers[w];
       match wk.push
       case Appended(n) =>
         s' == SetQueue(SetWorker(s, w, wk.(push := Counting(n))), w,
                        s.queues[w].(lock := None, size := s.queues[w].size + n))
       case Counting(n) => s' == SetWorker(s, w, wk.(push := Looking(n))).(numRun := Word(s.numRun + n))
       case Looking(n) =>
         s' == SetWorker(s, w, wk.(push := if s.numWaiting == 0 then NoPush
                                           else Waking(if n > s.numWaiting then s.numWaiting else n)))
       case Waking(n) =>
         && n > 0
         && s' == SetWorker(s, w, wk.(push := NoPush))
                  .(interrupts := s.interrupts + WakeUps(n, s.pollerWaiting).interrupts,
                    sem := s.sem + WakeUps(n, s.pollerWaiting).posts)
       case NoPush => false
  }

  // ---------------------------------------------------------------------------------------------
  // Running fibers
  // ---------------------------------------------------------------------------------------------

  /** src/fev_sched_steal_locking.c:121-124 */
  function AfterSwitch(wk: Worker): Worker {
    if wk.backoff == 0 then wk.(pc := Check) else wk.(pc := GetLocal, backoff := wk.backoff - 1)
  }

  ghost predicate RunSteps(s: State, s': State, w: WorkerId, choice: Choice) {
    && At(s, w)
    && var wk := s.workers[w];
    && var q := s.queues[w];
       match wk.pc
       case GetLocal =>
         && q.lock == None
         && s' == if q.list == [] then Goto(s, w, Check)
                  else SetQueue(Goto(s, w, PopSize(q.list[0])), w, RunQueue(Some(w), q.list[1..], q.size))
                       .(places := Move(s.places, [q.list[0]], OnWorker(w)))
       case PopSize(f) => s' == SetQueue(Goto(s, w, Running(f)), w, q.(lock := None, size := q.size - 1))
       case Running(f) =>
         s' == if choice == SwitchFirst then Goto(s, w, LatePost).(places := Move(s.places, [f], Outside))
               else Goto(s, w, Leaving(f)).(numRun := Word(s.numRun - 1))
       case Leaving(f) => s' == Goto(s, w, Post).(places := Move(s.places, [f], Outside))
       case Post => s' == SetWorker(s, w, AfterSwitch(wk))
       case LatePost => s' == SetWorker(s, w, AfterSwitch(wk)).(numRun := Word(s.numRun - 1))
       case _ => false
  }

  // ---------------------------------------------------------------------------------------------
  // Stealing
  // ---------------------------------------------------------------------------------------------

  function Victim(s: State, rnd: nat, i: nat): (v: WorkerId)
    requires |s.workers| > 0
    ensures v < |s.workers|
  {
    Word(rnd + i) % |s.workers|
  }

  function Taken(list: seq<FiberId>, count: nat): seq<FiberId> {
    if |list| <= count then list else list[..count]
  }

  ghost predicate StealSteps(s: State, s': State, w: WorkerId, choice: Choice) {
    && At(s, w)
    && var wk := s.workers[w];
       match wk.pc
       case Check => s' == Goto(s, w, LoadSize)
       case LoadSize =>
         && choice.Random?
         && var size := s.queues[w].size;
            s' == SetWorker(s, w, wk.(backoff := if size >= 0 then size else 0,
                                      pc := if size > 0 then GetLocal else Steal(choice.rnd, 0)))
       case Steal(rnd, i) =>
         if i >= |s.workers| then s' == Goto(s, w, LoadRun)
         else
           var v := Victim(s, rnd, i);
           if v == w then s' == Goto(s, w, Steal(rnd, i + 1))
           else
             && s.queues[v].lock == None
             && var list := s.queues[v].list;
             && var batch := Taken(list, s.stealCount);
                s' == SetQueue(Goto(s, w, StealSize(rnd, i, batch)), v,
                               RunQueue(Some(w), list[|batch|..], s.queues[v].size))
                      .(places := Move(s.places, batch, Stolen(w)))
       case StealSize(rnd, i, batch) =>
         var v := Victim(s, rnd, i);
         s' == SetQueue(Goto(s, w, if batch == [] then Steal(rnd, i + 1) else Install(batch)), v,
                        s.queues[v].(lock := None, size := s.queues[v].size - |batch|))
       case Install(batch) =>
         && s.queues[w].lock == None
         && s' == SetQueue(Goto(s, w, InstallSize(batch)), w, RunQueue(Some(w), batch, s.queues[w].size))
                  .(places := Move(s.places, batch, Queued(w)))
       case InstallSize(batch) =>
         s' == SetQueue(SetWorker(s, w, wk.(pc := GetLocal, backoff := |batch|)), w,
                        s.queues[w].(lock := None, size := |batch|))
       case _ => false
  }

  // ---------------------------------------------------------------------------------------------
  // Sleeping
  // ---------------------------------------------------------------------------------------------

  /** The test at src/fev_sched_steal_locking.c:158 and :179, in 32-bit arithmetic. */
  predicate MustStay(s: State, run: nat, waiting: nat) {
    run >= Word(|s.workers| - waiting)
  }

  ghost predicate SleepSteps(s: State, s': State, w: WorkerId, choice: Choice) {
    && At(s, w)
    && var wk := s.workers[w];
       match wk.pc
       case LoadRun => s' == Goto(s, w, LoadWaiting(s.numRun))
       case LoadWaiting(run) =>
         s' == Goto(s, w, if MustStay(s, run, s.numWaiting) then Check
                          else if run == 0 && choice == Finish then Exited else Exchange)
       case Exchange =>
         s' == if s.pollerWaiting then Goto(s, w, Exchanged(false))
               else Goto(s, w, Exchanged(true)).(pollerWaiting := true, poller := Some(w))
       case Exchanged(role) =>
         s' == Goto(s, w, Announced(s.numWaiting, role)).(numWaiting := Word(s.numWaiting + 1))
       case Announced(seen, role) =>
         s' == Goto(s, w, if MustStay(s, s.numRun, seen) then (if role then UndoStore else UndoDec)
                          else Committed(role))
       case UndoStore => s' == Goto(s, w, UndoDec).(pollerWaiting := false, poller := None)
       case UndoDec => s' == Goto(s, w, Check).(numWaiting := Word(s.numWaiting - 1))
       case _ => false
  }

  ghost predicate WakeSteps(s: State, s': State, w: WorkerId) {
    && At(s, w)
    && var wk := s.workers[w];
       match wk.pc
       case Committed(role) =>
         if role then s' == Goto(s, w, PollWoken)
         else s.sem > 0 && s' == Goto(s, w, WakeDec(false)).(sem := s.sem - 1)
       case PollWoken => s' == Goto(s, w, WakeStore)
       case WakeStore => s' == Goto(s, w, WakeDec(true)).(pollerWaiting := false, poller := None)
       case WakeDec(role) =>
         s' == Goto(s, w, if role then WakeSize else Check).(numWaiting := Word(s.numWaiting - 1))
       case WakeSize =>
         s' == SetWorker(s, w, wk.(pc := GetLocal, backoff := if s.queues[w].size >= 0 then s.queues[w].size else 0))
       case _ => false
  }

  ghost predicate Next(s: State, s': State, w: WorkerId, choice: Choice) {
    && At(s, w)
    && if choice.PushFibers? then StartPush(s, s', w, choice.batch)
       else if s.workers[w].push != NoPush then PushSteps(s, s', w)
       else match s.workers[w].pc
            case GetLocal | PopSize(_) | Running(_) | Leaving(_) | Post | LatePost => RunSteps(s, s', w, choice)
            case Check | LoadSize | Steal(_, _) | StealSize(_, _, _) | Install(_) | InstallSize(_) =>
              StealSteps(s, s', w, choice)
            case Committed(_) | PollWoken | WakeStore | WakeDec(_) | WakeSize => WakeSteps(s, s', w)
            case Exited => false
            case _ => SleepSteps(s, s', w, choice)
  }
}
