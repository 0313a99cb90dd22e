/**
 * Blocking a fiber (src/fev_waiter_impl.h, src/fev_waiters_queue_impl.h, src/fev_timers.c and the
 * timeout handler of src/fev_poller_epoll.c) as one interleaving machine.
 *
 * A wait is one call of fev_waiters_queue_wait(): its number names the stack frame that holds the
 * call's node, waiter and timer, and is never reused, so a step that touches the frame of a wait
 * that has returned would touch dead memory. There may be any number of waits, of calls of
 * fev_waiters_queue_wake(), of timeout events in flight, of queues and of timer buckets.
 *
 * Internal locks, bucket locks and min locks are taken as mutual exclusion. Taking a lock is one step with the first
 * access made under it, and releasing it is one step with the last. Timer heaps are known by their
 * contents and their root. The fields of a wait marked "history" are never read by a step.
 */
module TimedWait {
  import opened Common

  type WaitId = nat
  type JobId = nat
  type WakerId = nat
  type HandlerId = nat

  /** enum fev_waiter_wake_reason */
  datatype Reason = NoReason | Ready | TimedOutCheck | TimedOutNoCheck

  /** What fev_waiters_queue_wait() returns: 0, -ETIMEDOUT or -EAGAIN. */
  datatype Result = Success | TimedOut | Again

  /** The fiber inside fev_waiters_queue_wait(). */
  datatype FiberPc =
    | Start | Recheck | Insert                                  // src/fev_waiters_queue_impl.h:71-90
    | AddHeap | AddSetMin | AddArm                              // fev_timers_add()
    | Prepare | Switch | Suspended | Spin | LoadReason          // fev_waiter_wait()
    | DelHeap | DelSetMin | DelArm                              // fev_timers_del()
    | ProcLock | ProcClear | ProcLoop(now: int) | ProcWake(now: int, j: JobId)
    | ProcSetMin(res: Result) | ProcArm(res: Result) | ProcPush(res: Result)  // fev_timers_process()
    | Unqueue(res: Result)                                      // src/fev_waiters_queue_impl.h:111-118
    | Refused                                                   // returned: the recheck said not to wait
    | Done(res: Result)                                         // returned after waiting

  /** The post routine fev_waiter_enable_wake_ups(), run by the worker the fiber left. */
  datatype PostPc =
    | PostNone | PostArm | PostLoad | PostTake(r: Reason) | PostRecord(r: Reason)
    | PostClear(mine: bool) | PostPush | PostDone

  /** History: who may make the fiber runnable. */
  datatype Claim = Unclaimed | Armed | ByPost | ByJob | Resumed

  datatype NodePlace = NodeUnset | InQueue | Popped | Unlinked
  datatype TimerPlace = TimerUnset | InHeap | Removed | Expired

  datatype Wait = Wait(
    q: nat, b: nat, timed: bool, deadline: int,
    fpc: FiberPc, post: PostPc,
    reason: Reason, doWake: bool, wakeReason: Reason, waitPost: bool, waitWake: bool,
    node: NodePlace, timer: TimerPlace,
    claim: Claim,                // history
    setter: Option<JobId>,       // history: the call of fev_waiter_wake() that set `reason`
    popper: Option<JobId>,       // history: the call made for the node when it left the queue
    expirer: Option<JobId>       // history: the call made for the timer when it expired
  )

  /** One call of fev_waiter_wake(), and what its caller then does with the fiber. */
  datatype Stage = Try | Take | Record | Clear(mine: bool) | ReadFiber | ToPush | Over(won: bool)

  datatype Caller = FromWaker(k: WakerId) | FromHandler(h: HandlerId) | FromFiber(w: WaitId)

  datatype Job = Job(v: WaitId, why: Reason, caller: Caller, stage: Stage)

  datatype WakerPc = WakerStart | WakerLoop | WakerWake(j: JobId) | WakerPush

  /** One call of fev_waiters_queue_wake(); `nodes` and `popped` are history. */
  datatype Waker = Waker(q: nat, limit: nat, pc: WakerPc, woken: nat, nodes: seq<WaitId>, popped: nat)

  datatype HandlerPc = HandlerReady | HandlerWake(j: JobId) | HandlerPush | HandlerDone

  /** One timeout event of a bucket, taken from the poller by some worker. */
  datatype Handler = Handler(b: nat, pc: HandlerPc)

  datatype QueueOwner = QueueFiber(w: WaitId) | QueueWaker(k: WakerId)

  datatype Queue = Queue(lock: Option<QueueOwner>, nodes: seq<WaitId>)

  /** The poller's timer of a bucket. */
  datatype Fd = Idle | Ticking(deadline: int) | Fired

  datatype Bucket = Bucket(
    lock: Option<WaitId>, minLock: Option<HandlerId>, min: Option<WaitId>, root: Option<WaitId>, fd: Fd,
    watch: Option<HandlerId>     // history: the last event taken from the poller
  )

  datatype State = State(
    waits: seq<Wait>, jobs: seq<Job>, wakers: seq<Waker>, handlers: seq<Handler>,
    queues: seq<Queue>, buckets: seq<Bucket>
  )

  // ---------------------------------------------------------------------------------------------
  // Steps of a waiting fiber
  // ---------------------------------------------------------------------------------------------

  ghost predicate Init(s: State) {
    && s.waits == [] && s.jobs == [] && s.wakers == [] && s.handlers == []
    && (forall q :: 0 <= q < |s.queues| ==> s.queues[q] == Queue(None, []))
    && (forall b :: 0 <= b < |s.buckets| ==> s.buckets[b] == Bucket(None, None, None, None, Idle, None))
  }

  function Fresh(q: nat, b: nat, timed: bool, deadline: int): Wait {
    Wait(q, b, timed, deadline, Start, PostNone, NoReason, false, NoReason, false, true,
         NodeUnset, TimerUnset, Unclaimed, None, None, None)
  }

  predicate At(s: State, w: WaitId) {
    w < |s.waits| && s.waits[w].q < |s.queues| && s.waits[w].b < |s.buckets|
  }

  function SetWait(s: State, w: WaitId, wt: Wait): State
    requires w < |s.waits|
  {
    s.(waits := s.waits[w := wt])
  }

  function SetQueue(s: State, q: nat, queue: Queue): State
    requires q < |s.queues|
  {
    s.(queues := s.queues[q := queue])
  }

  function SetBucket(s: State, b: nat, bucket: Bucket): State
    requires b < |s.buckets|
  {
    s.(buckets := s.buckets[b := bucket])
  }

  ghost predicate CallWait(s: State, s': State, q: nat, b: nat, timed: bool, deadline: int) {
    && q < |s.queues| && b < |s.buckets|
    && s' == s.(waits := s.waits + [Fresh(q, b, timed, deadline)])
  }

  ghost predicate LockQueue(s: State, s': State, w: WaitId) {
    && At(s, w) && s.waits[w].fpc == Start
    && var wt := s.waits[w];
       && s.queues[wt.q].lock == None
       && s' == SetQueue(SetWait(s, w, wt.(fpc := Recheck)), wt.q,
                         s.queues[wt.q].(lock := Some(QueueFiber(w))))
  }

  // The recheck callback runs here; it decides whether to wait.
  ghost predicate RunRecheck(s: State, s': State, w: WaitId, wait: bool) {
    && At(s, w) && s.waits[w].fpc == Recheck
    && var wt := s.waits[w];
       s' == if wait then SetWait(s, w, wt.(fpc := Insert))
             else SetQueue(SetWait(s, w, wt.(fpc := Refused)), wt.q, s.queues[wt.q].(lock := None))
  }

  ghost predicate InsertNode(s: State, s': State, w: WaitId) {
    && At(s, w) && s.waits[w].fpc == Insert
    && var wt := s.waits[w];
       s' == SetQueue(SetWait(s, w, wt.(fpc := if wt.timed then AddHeap else Prepare, node := InQueue)),
                      wt.q, Queue(None, s.queues[wt.q].nodes + [w]))
  }

  /** `root` is a timer with the least deadline in bucket `b`, or None if the bucket is empty. */
  ghost predicate IsRoot(waits: seq<Wait>, b: nat, root: Option<WaitId>) {
    && (root.Some? ==> root.value < |waits| && waits[root.value].timer == InHeap && waits[root.value].b == b)
    && (forall u :: 0 <= u < |waits| && waits[u].timer == InHeap && waits[u].b == b ==>
          root.Some? && waits[root.value].deadline <= waits[u].deadline)
  }

  // fev_timers_bucket_add() reports a new minimum only if the timer is strictly earlier than the root.
  ghost predicate AddToHeap(s: State, s': State, w: WaitId) {
    && At(s, w) && s.waits[w].fpc == AddHeap
    && var wt := s.waits[w];
    && var bk := s.buckets[wt.b];
    && bk.lock == None
    && (bk.root.Some? ==> bk.root.value < |s.waits|)
    && var first := bk.root == None || wt.deadline < s.waits[bk.root.value].deadline;
       s' == if first
             then SetBucket(SetWait(s, w, wt.(fpc := AddSetMin, timer := InHeap)), wt.b,
                            bk.(lock := Some(w), root := Some(w)))
             else SetWait(s, w, wt.(fpc := Prepare, timer := InHeap))
  }

  ghost predicate AddSetsMin(s: State, s': State, w: WaitId) {
    && At(s, w) && s.waits[w].fpc == AddSetMin
    && var wt := s.waits[w];
       && s.buckets[wt.b].minLock == None
       && s' == SetBucket(SetWait(s, w, wt.(fpc := AddArm)), wt.b, s.buckets[wt.b].(min := Some(w)))
  }

  ghost predicate AddArms(s: State, s': State, w: WaitId) {
    && At(s, w) && s.waits[w].fpc == AddArm
    && var wt := s.waits[w];
       s' == SetBucket(SetWait(s, w, wt.(fpc := Prepare)), wt.b,
                       s.buckets[wt.b].(lock := None, fd := Ticking(wt.deadline)))
  }

  ghost predicate PrepareWait(s: State, s': State, w: WaitId) {
    && At(s, w) && s.waits[w].fpc == Prepare
    && s' == SetWait(s, w, s.waits[w].(fpc := Switch, waitPost := true))
  }

  // The context is saved; from now on the worker runs the post routine.
  ghost predicate SwitchOut(s: State, s': State, w: WaitId) {
    && At(s, w) && s.waits[w].fpc == Switch
    && s' == SetWait(s, w, s.waits[w].(fpc := Suspended, post := PostArm))
  }

  // While `wait` is not 0 the fiber yields and comes back to the same test.
  ghost predicate SpinWait(s: State, s': State, w: WaitId) {
    && At(s, w) && s.waits[w].fpc == Spin
    && var wt := s.waits[w];
       s' == if wt.waitPost || wt.waitWake then s else SetWait(s, w, wt.(fpc := LoadReason))
  }

  ghost predicate ReadReason(s: State, s': State, w: WaitId) {
    && At(s, w) && s.waits[w].fpc == LoadReason
    && var wt := s.waits[w];
       s' == SetWait(s, w, wt.(fpc := if !wt.timed then Done(Success)
                                      else match wt.wakeReason
                                           case Ready => DelHeap
                                           case TimedOutNoCheck => Unqueue(TimedOut)
                                           case _ => ProcLock))
  }

  ghost predicate DeleteTimer(s: State, s': State, w: WaitId, root: Option<WaitId>) {
    && At(s, w) && s.waits[w].fpc == DelHeap
    && var wt := s.waits[w];
    && var bk := s.buckets[wt.b];
    && bk.lock == None
    && if wt.timer == Expired then
         s' == SetWait(s, w, wt.(fpc := Done(Success)))
       else if bk.root != Some(w) then
         s' == SetWait(s, w, wt.(fpc := Done(Success), timer := Removed))
       else
         && s' == SetBucket(SetWait(s, w, wt.(fpc := DelSetMin, timer := Removed)), wt.b,
                            bk.(lock := Some(w), root := root))
         && IsRoot(s'.waits, wt.b, root)
  }

  ghost predicate DelSetsMin(s: State, s': State, w: WaitId) {
    && At(s, w) && s.waits[w].fpc == DelSetMin
    && var wt := s.waits[w];
    && var bk := s.buckets[wt.b];
       && bk.minLock == None
       && s' == if bk.root == None
                then SetBucket(SetWait(s, w, wt.(fpc := Done(Success))), wt.b, bk.(lock := None, min := None))
                else SetBucket(SetWait(s, w, wt.(fpc := DelArm)), wt.b, bk.(min := bk.root))
  }

  ghost predicate Arms(s: State, s': State, w: WaitId, fpc: FiberPc) {
    && At(s, w)
    && var wt := s.waits[w];
    && var bk := s.buckets[wt.b];
       && bk.root.Some? && bk.root.value < |s.waits|
       && s' == SetBucket(SetWait(s, w, wt.(fpc := fpc)), wt.b,
                          bk.(lock := None, fd := Ticking(s.waits[bk.root.value].deadline)))
  }

  ghost predicate DelArms(s: State, s': State, w: WaitId) {
    At(s, w) && s.waits[w].fpc == DelArm && Arms(s, s', w, Done(Success))
  }

  ghost predicate LockBucket(s: State, s': State, w: WaitId) {
    && At(s, w) && s.waits[w].fpc == ProcLock
    && var wt := s.waits[w];
       && s.buckets[wt.b].lock == None
       && s' == SetBucket(SetWait(s, w, wt.(fpc := ProcClear)), wt.b, s.buckets[wt.b].(lock := Some(w)))
  }

  ghost predicate ClearMin(s: State, s': State, w: WaitId, now: int) {
    && At(s, w) && s.waits[w].fpc == ProcClear
    && var wt := s.waits[w];
       && s.buckets[wt.b].minLock == None
       && s' == SetBucket(SetWait(s, w, wt.(fpc := ProcLoop(now))), wt.b, s.buckets[wt.b].(min := None))
  }

  // The timer is deleted and marked expired before its waiter is woken.
  ghost predicate ExpireRoot(s: State, s': State, w: WaitId, v: WaitId, root: Option<WaitId>) {
    && At(s, w) && s.waits[w].fpc.ProcLoop? && v < |s.waits|
    && var wt := s.waits[w];
    && var j := |s.jobs|;
    && s.buckets[wt.b].root == Some(v) && s.waits[v].deadline <= wt.fpc.now
    && var expired := s.waits[v := s.waits[v].(timer := Expired, expirer := Some(j))];
       && s' == SetBucket(s, wt.b, s.buckets[wt.b].(root := root))
                .(waits := expired[w := expired[w].(fpc := ProcWake(wt.fpc.now, j))],
                  jobs := s.jobs + [Job(v, TimedOutNoCheck, FromFiber(w), Try)])
       && IsRoot(s'.waits, wt.b, root)
  }

  /** The caller of fev_waiter_wake() takes the fiber, if it must wake it up. */
  function Collect(jobs: seq<Job>, j: JobId): seq<Job>
    requires j < |jobs|
  {
    if jobs[j].stage == ReadFiber then jobs[j := jobs[j].(stage := ToPush)] else jobs
  }

  predicate Returned(job: Job) {
    job.stage == ReadFiber || job.stage.Over?
  }

  ghost predicate NextExpired(s: State, s': State, w: WaitId) {
    && At(s, w) && s.waits[w].fpc.ProcWake? && s.waits[w].fpc.j < |s.jobs|
    && var wt := s.waits[w];
       && Returned(s.jobs[wt.fpc.j])
       && s' == SetWait(s, w, wt.(fpc := ProcLoop(wt.fpc.now))).(jobs := Collect(s.jobs, wt.fpc.j))
  }

  // No expired timer is left; delete the own timer if it is still there.
  ghost predicate EndExpired(s: State, s': State, w: WaitId, root: Option<WaitId>) {
    && At(s, w) && s.waits[w].fpc.ProcLoop?
    && var wt := s.waits[w];
    && var bk := s.buckets[wt.b];
    && (bk.root.Some? ==> bk.root.value < |s.waits| && s.waits[bk.root.value].deadline > wt.fpc.now)
    && var res := if wt.timer == Expired then TimedOut else Again;
    && var timer := if wt.timer == Expired then Expired else Removed;
       && (bk.root != Some(w) ==> root == bk.root)
       && s' == SetBucket(SetWait(s, w, wt.(fpc := if root == None then ProcPush(res) else ProcSetMin(res),
                                            timer := timer)), wt.b,
                          bk.(root := root, lock := if root == None then None else bk.lock))
       && IsRoot(s'.waits, wt.b, root)
  }

  ghost predicate ProcSetsMin(s: State, s': State, w: WaitId) {
    && At(s, w) && s.waits[w].fpc.ProcSetMin?
    && var wt := s.waits[w];
    && var bk := s.buckets[wt.b];
       && bk.minLock == None
       && s' == SetBucket(SetWait(s, w, wt.(fpc := ProcArm(wt.fpc.res))), wt.b, bk.(min := bk.root))
  }

  ghost predicate ProcArms(s: State, s': State, w: WaitId) {
    At(s, w) && s.waits[w].fpc.ProcArm? && Arms(s, s', w, ProcPush(s.waits[w].fpc.res))
  }

  ghost predicate EndProcess(s: State, s': State, w: WaitId) {
    && At(s, w) && s.waits[w].fpc.ProcPush?
    && (forall j :: 0 <= j < |s.jobs| && s.jobs[j].caller == FromFiber(w) ==> s.jobs[j].stage != ToPush)
    && s' == SetWait(s, w, s.waits[w].(fpc := Unqueue(s.waits[w].fpc.res)))
  }

  function Without(nodes: seq<WaitId>, w: WaitId): seq<WaitId> {
    if nodes == [] then []
    else if nodes[0] == w then nodes[1..]
    else [nodes[0]] + Without(nodes[1..], w)
  }

  ghost predicate RemoveNode(s: State, s': State, w: WaitId) {
    && At(s, w) && s.waits[w].fpc.Unqueue?
    && var wt := s.waits[w];
    && var qu := s.queues[wt.q];
       && qu.lock == None
       && s' == if wt.node == Popped then SetWait(s, w, wt.(fpc := Done(wt.fpc.res)))
                else SetQueue(SetWait(s, w, wt.(fpc := Done(wt.fpc.res), node := Unlinked)), wt.q,
                              qu.(nodes := Without(qu.nodes, w)))
  }

  // ---------------------------------------------------------------------------------------------
  // Steps of the post routine
  // ---------------------------------------------------------------------------------------------

  ghost predicate PostArms(s: State, s': State, w: WaitId) {
    && At(s, w) && s.waits[w].post == PostArm
    && s' == SetWait(s, w, s.waits[w].(post := PostLoad, doWake := true, claim := Armed))
  }

  ghost predicate PostLoads(s: State, s': State, w: WaitId) {
    && At(s, w) && s.waits[w].post == PostLoad
    && var wt := s.waits[w];
       s' == SetWait(s, w, wt.(post := if wt.reason == NoReason then PostClear(false) else PostTake(wt.reason)))
  }

  ghost predicate PostTakes(s: State, s': State, w: WaitId) {
    && At(s, w) && s.waits[w].post.PostTake?
    && var wt := s.waits[w];
       s' == SetWait(s, w, if wt.doWake
                           then wt.(post := PostRecord(wt.post.r), doWake := false, claim := ByPost)
                           else wt.(post := PostClear(false)))
  }

  ghost predicate PostRecords(s: State, s': State, w: WaitId) {
    && At(s, w) && s.waits[w].post.PostRecord?
    && s' == SetWait(s, w, s.waits[w].(post := PostClear(true), wakeReason := s.waits[w].post.r))
  }

  ghost predicate PostClears(s: State, s': State, w: WaitId) {
    && At(s, w) && s.waits[w].post.PostClear?
    && var wt := s.waits[w];
       s' == SetWait(s, w, wt.(post := if wt.post.mine then PostPush else PostDone, waitPost := false))
  }

  ghost predicate PostPushes(s: State, s': State, w: WaitId) {
    && At(s, w) && s.waits[w].post == PostPush
    && s' == SetWait(s, w, s.waits[w].(post := PostDone, fpc := Spin, claim := Resumed))
  }

  // ---------------------------------------------------------------------------------------------
  // Steps of fev_waiter_wake()
  // ---------------------------------------------------------------------------------------------

  predicate JobAt(s: State, j: JobId) {
    j < |s.jobs| && s.jobs[j].v < |s.waits|
  }

  function SetJob(s: State, j: JobId, stage: Stage): State
    requires j < |s.jobs|
  {
    s.(jobs := s.jobs[j := s.jobs[j].(stage := stage)])
  }

  ghost predicate JobTries(s: State, s': State, j: JobId) {
    && JobAt(s, j) && s.jobs[j].stage == Try
    && var v := s.jobs[j].v;
    && var wt := s.waits[v];
       s' == if wt.reason == NoReason
             then SetWait(SetJob(s, j, Take), v, wt.(reason := s.jobs[j].why, setter := Some(j)))
             else SetJob(s, j, Over(false))
  }

  ghost predicate JobTakes(s: State, s': State, j: JobId) {
    && JobAt(s, j) && s.jobs[j].stage == Take
    && var v := s.jobs[j].v;
    && var wt := s.waits[v];
       s' == if wt.doWake
             then SetWait(SetJob(s, j, Record), v, wt.(doWake := false, claim := ByJob))
             else SetJob(s, j, Clear(false))
  }

  ghost predicate JobRecords(s: State, s': State, j: JobId) {
    && JobAt(s, j) && s.jobs[j].stage == Record
    && var v := s.jobs[j].v;
       s' == SetWait(SetJob(s, j, Clear(true)), v, s.waits[v].(wakeReason := s.jobs[j].why))
  }

  ghost predicate JobClears(s: State, s': State, j: JobId) {
    && JobAt(s, j) && s.jobs[j].stage.Clear?
    && var v := s.jobs[j].v;
       s' == SetWait(SetJob(s, j, if s.jobs[j].stage.mine then ReadFiber else Over(true)), v,
                     s.waits[v].(waitWake := false))
  }

  ghost predicate Pushing(s: State, caller: Caller) {
    match caller
    case FromWaker(k) => k < |s.wakers| && s.wakers[k].pc == WakerPush
    case FromHandler(h) => h < |s.handlers| && s.handlers[h].pc == HandlerPush
    case FromFiber(w) => w < |s.waits| && s.waits[w].fpc.ProcPush?
  }

  // The caller pushes a collected fiber onto a run queue.
  ghost predicate JobPushes(s: State, s': State, j: JobId) {
    && JobAt(s, j) && s.jobs[j].stage == ToPush && Pushing(s, s.jobs[j].caller)
    && var v := s.jobs[j].v;
       s' == SetWait(SetJob(s, j, Over(true)), v, s.waits[v].(fpc := Spin, claim := Resumed))
  }

  // ---------------------------------------------------------------------------------------------
  // Steps of fev_waiters_queue_wake()
  // ---------------------------------------------------------------------------------------------

  ghost predicate CallWake(s: State, s': State, q: nat, limit: nat) {
    && q < |s.queues|
    && s' == s.(wakers := s.wakers + [Waker(q, limit, WakerStart, 0, [], 0)])
  }

  predicate WakerAt(s: State, k: WakerId) {
    k < |s.wakers| && s.wakers[k].q < |s.queues|
  }

  ghost predicate WakerLocks(s: State, s': State, k: WakerId) {
    && WakerAt(s, k) && s.wakers[k].pc == WakerStart
    && var wk := s.wakers[k];
    && var qu := s.queues[wk.q];
       && qu.lock == None
       && s' == SetQueue(s, wk.q, qu.(lock := Some(QueueWaker(k))))
                .(wakers := s.wakers[k := wk.(pc := WakerLoop, nodes := qu.nodes)])
  }

  ghost predicate WakerPops(s: State, s': State, k: WakerId) {
    && WakerAt(s, k) && s.wakers[k].pc == WakerLoop
    && var wk := s.wakers[k];
    && var qu := s.queues[wk.q];
    && wk.woken < wk.limit && qu.nodes != [] && qu.nodes[0] < |s.waits|
    && var v := qu.nodes[0];
    && var j := |s.jobs|;
       s' == SetQueue(s, wk.q, qu.(nodes := qu.nodes[1..]))
             .(waits := s.waits[v := s.waits[v].(node := Popped, popper := Some(j))],
               jobs := s.jobs + [Job(v, Ready, FromWaker(k), Try)],
               wakers := s.wakers[k := wk.(pc := WakerWake(j), popped := wk.popped + 1)])
  }

  ghost predicate WakerNext(s: State, s': State, k: WakerId) {
    && WakerAt(s, k) && s.wakers[k].pc.WakerWake? && s.wakers[k].pc.j < |s.jobs|
    && var wk := s.wakers[k];
    && var job := s.jobs[wk.pc.j];
       && Returned(job)
       && s' == s.(jobs := Collect(s.jobs, wk.pc.j),
                   wakers := s.wakers[k := wk.(pc := WakerLoop,
                                               woken := if job.stage == Over(false) then wk.woken else wk.woken + 1)])
  }

  // The callback runs here; the queue lock is released.
  ghost predicate WakerUnlocks(s: State, s': State, k: WakerId) {
    && WakerAt(s, k) && s.wakers[k].pc == WakerLoop
    && var wk := s.wakers[k];
    && var qu := s.queues[wk.q];
       && (wk.woken >= wk.limit || qu.nodes == [])
       && s' == SetQueue(s, wk.q, qu.(lock := None)).(wakers := s.wakers[k := wk.(pc := WakerPush)])
  }

  // ---------------------------------------------------------------------------------------------
  // Steps of the poller
  // ---------------------------------------------------------------------------------------------

  // The timer may fire at any time: early firing is treated like a real timeout.
  ghost predicate Fire(s: State, s': State, b: nat) {
    && b < |s.buckets| && s.buckets[b].fd.Ticking?
    && s' == SetBucket(s, b, s.buckets[b].(fd := Fired))
  }

  ghost predicate Harvest(s: State, s': State, b: nat) {
    && b < |s.buckets| && s.buckets[b].fd == Fired
    && s' == SetBucket(s, b, s.buckets[b].(fd := Idle, watch := Some(|s.handlers|)))
             .(handlers := s.handlers + [Handler(b, HandlerReady)])
  }

  predicate HandlerAt(s: State, h: HandlerId) {
    h < |s.handlers| && s.handlers[h].b < |s.buckets|
  }

  ghost predicate HandlerReads(s: State, s': State, h: HandlerId) {
    && HandlerAt(s, h) && s.handlers[h].pc == HandlerReady
    && var b := s.handlers[h].b;
    && var bk := s.buckets[b];
    && var j := |s.jobs|;
       && bk.minLock == None
       && s' == if bk.min == None
                then s.(handlers := s.handlers[h := Handler(b, HandlerDone)])
                else SetBucket(s, b, bk.(minLock := Some(h)))
                     .(handlers := s.handlers[h := Handler(b, HandlerWake(j))],
                       jobs := s.jobs + [Job(bk.min.value, TimedOutCheck, FromHandler(h), Try)])
  }

  ghost predicate HandlerUnlocks(s: State, s': State, h: HandlerId) {
    && HandlerAt(s, h) && s.handlers[h].pc.HandlerWake? && s.handlers[h].pc.j < |s.jobs|
    && var b := s.handlers[h].b;
    && var j := s.handlers[h].pc.j;
       && Returned(s.jobs[j])
       && s' == SetBucket(s, b, s.buckets[b].(minLock := None))
                .(handlers := s.handlers[h := Handler(b, HandlerPush)], jobs := Collect(s.jobs, j))
  }

  // ---------------------------------------------------------------------------------------------

  /** A step; the parameters say which, and make the choices it leaves open. */
  datatype Step =
    | DoCallWait(q: nat, b: nat, timed: bool, deadline: int)
    | DoRecheck(w: WaitId, wait: bool)
    | DoFiber(w: WaitId, root: Option<WaitId>, v: WaitId, now: int)
    | DoPost(w: WaitId)
    | DoJob(j: JobId)
    | DoCallWake(q: nat, limit: nat)
    | DoWaker(k: WakerId)
    | DoFire(b: nat)
    | DoHarvest(b: nat)
    | DoHandler(h: HandlerId)

  ghost predicate FiberStep(s: State, s': State, w: WaitId, root: Option<WaitId>, v: WaitId, now: int) {
    && At(s, w)
    && match s.waits[w].fpc
       case Start => LockQueue(s, s', w)
       case Insert => InsertNode(s, s', w)
       case AddHeap => AddToHeap(s, s', w)
       case AddSetMin => AddSetsMin(s, s', w)
       case AddArm => AddArms(s, s', w)
       case Prepare => PrepareWait(s, s', w)
       case Switch => SwitchOut(s, s', w)
       case Spin => SpinWait(s, s', w)
       case LoadReason => ReadReason(s, s', w)
       case DelHeap => DeleteTimer(s, s', w, root)
       case DelSetMin => DelSetsMin(s, s', w)
       case DelArm => DelArms(s, s', w)
       case ProcLock => LockBucket(s, s', w)
       case ProcClear => ClearMin(s, s', w, now)
       case ProcLoop(_) => ExpireRoot(s, s', w, v, root) || EndExpired(s, s', w, root)
       case ProcWake(_, _) => NextExpired(s, s', w)
       case ProcSetMin(_) => ProcSetsMin(s, s', w)
       case ProcArm(_) => ProcArms(s, s', w)
       case ProcPush(_) => EndProcess(s, s', w)
       case Unqueue(_) => RemoveNode(s, s', w)
       case _ => false
  }

  ghost predicate PostStep(s: State, s': State, w: WaitId) {
    && At(s, w)
    && match s.waits[w].post
       case PostArm => PostArms(s, s', w)
       case PostLoad => PostLoads(s, s', w)
       case PostTake(_) => PostTakes(s, s', w)
       case PostRecord(_) => PostRecords(s, s', w)
       case PostClear(_) => PostClears(s, s', w)
       case PostPush => PostPushes(s, s', w)
       case _ => false
  }

  ghost predicate JobStep(s: State, s': State, j: JobId) {
    && JobAt(s, j)
    && match s.jobs[j].stage
       case Try => JobTries(s, s', j)
       case Take => JobTakes(s, s', j)
       case Record => JobRecords(s, s', j)
       case Clear(_) => JobClears(s, s', j)
       case ToPush => JobPushes(s, s', j)
       case _ => false
  }

  ghost predicate WakerStep(s: State, s': State, k: WakerId) {
    WakerLocks(s, s', k) || WakerPops(s, s', k) || WakerNext(s, s', k) || WakerUnlocks(s, s', k)
  }

  ghost predicate Next(s: State, s': State, step: Step) {
    match step
    case DoCallWait(q, b, timed, deadline) => CallWait(s, s', q, b, timed, deadline)
    case DoRecheck(w, wait) => RunRecheck(s, s', w, wait)
    case DoFiber(w, root, v, now) => FiberStep(s, s', w, root, v, now)
    case DoPost(w) => PostStep(s, s', w)
    case DoJob(j) => JobStep(s, s', j)
    case DoCallWake(q, limit) => CallWake(s, s', q, limit)
    case DoWaker(k) => WakerStep(s, s', k)
    case DoFire(b) => Fire(s, s', b)
    case DoHarvest(b) => Harvest(s, s', b)
    case DoHandler(h) => HandlerReads(s, s', h) || HandlerUnlocks(s, s', h)
  }
}
