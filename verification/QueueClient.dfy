/**
 * What the owner of a waiters queue, a mutex or a semaphore, sees of the blocking machine: the calls
 * of its recheck and of its callback, and which waits were woken by the queue.
 */
module QueueClient {
  import opened Common
  import opened TimedWait
  import opened TimedWaitInvariant
  import opened WakeOrder

  /** The call of fev_waiter_wake() was made by a wake of queue `q`. */
  predicate FromQueue(s: State, j: JobId, q: nat) {
    && j < |s.jobs| && s.jobs[j].caller.FromWaker?
    && s.jobs[j].caller.k < |s.wakers| && s.wakers[s.jobs[j].caller.k].q == q
  }

  /** The step sets the reason of a wait of queue `q` to Ready. */
  ghost predicate Grants(s: State, s': State, j: JobId, q: nat) {
    FromQueue(s, j, q) && JobTries(s, s', j) && s.waits[s.jobs[j].v].reason == NoReason
  }

  /** Steps that run no code of the owner of `q` and grant nothing to its waits. */
  predicate Foreign(s: State, step: Step, q: nat) {
    match step
    case DoRecheck(w, _) => w < |s.waits| && s.waits[w].q != q
    case DoCallWake(p, _) => p != q
    case DoJob(j) =>
      FromQueue(s, j, q) && s.jobs[j].stage == Try ==>
        s.jobs[j].v < |s.waits| && s.waits[s.jobs[j].v].reason != NoReason
    case DoWaker(k) =>
      k < |s.wakers| && (s.wakers[k].q == q && s.wakers[k].pc == WakerLoop && q < |s.queues| ==>
        s.wakers[k].woken < s.wakers[k].limit && s.queues[q].nodes != [])
    case _ => true
  }

  /** The call has set a wait's reason. */
  predicate Granted(s: State, k: WakerId)
    requires k < |s.wakers|
  {
    var wk := s.wakers[k];
    wk.woken > 0 || (wk.pc.WakerWake? && wk.pc.j < |s.jobs| && Won(s.jobs[wk.pc.j].stage))
  }

  predicate InSection(pc: WakerPc) {
    pc == WakerLoop || pc.WakerWake?
  }

  /** The wait looks the same to the owner of its queue. */
  predicate SameWait(a: Wait, c: Wait) {
    && (c.reason == Ready <==> a.reason == Ready)
    && (c.fpc == Refused <==> a.fpc == Refused)
    && (c.fpc == Insert ==> a.fpc == Insert)
    && (a.fpc == Recheck ==> c.fpc == Recheck)
    && (Gone(a.fpc) ==> Gone(c.fpc))
  }

  ghost predicate SameWaker(s: State, s': State, k: WakerId) {
    && k < |s.wakers| && k < |s'.wakers|
    && var a, c := s.wakers[k], s'.wakers[k];
       && c.q == a.q && c.limit == a.limit && (c.pc == WakerPush <==> a.pc == WakerPush)
       && (Granted(s', k) <==> Granted(s, k))
       && (InSection(c.pc) && c.popped > 0 ==>
             InSection(a.pc) && (a.popped > 0 || (a.q < |s.queues| && s.queues[a.q].nodes != [])))
  }

  ghost predicate Inserting(s: State, q: nat, w: WaitId) {
    w < |s.waits| && s.waits[w].q == q && s.waits[w].fpc == Insert
  }

  ghost predicate QuietWaits(s: State, s': State, q: nat) {
    && |s.waits| <= |s'.waits|
    && forall w {:trigger AnyWait(w)} :: AnyWait(w) && 0 <= w < |s'.waits| ==>
         if w < |s.waits|
         then s'.waits[w].q == s.waits[w].q && (s.waits[w].q == q ==> SameWait(s.waits[w], s'.waits[w]))
         else s'.waits[w].reason == NoReason && s'.waits[w].fpc == Start
  }

  ghost predicate QuietWakers(s: State, s': State, q: nat) {
    && |s.wakers| <= |s'.wakers|
    && forall k {:trigger AnyWaker(k)} :: AnyWaker(k) && 0 <= k < |s'.wakers| ==>
         if k < |s.wakers|
         then s'.wakers[k].q == s.wakers[k].q && (s.wakers[k].q == q ==> SameWaker(s, s', k))
         else s'.wakers[k].q != q
  }

  ghost predicate QuietNodes(s: State, s': State, q: nat) {
    && q < |s.queues| == |s'.queues|
    && (s'.queues[q].nodes != [] ==> s.queues[q].nodes != [] || exists w :: Inserting(s, q, w))
  }

  /** What a step of others leaves to the owner of queue `q`. */
  ghost predicate Quiet(s: State, s': State, q: nat) {
    QuietWaits(s, s', q) && QuietWakers(s, s', q) && QuietNodes(s, s', q)
  }

  /** No call made by a wake of queue `q` begins to hold, or ceases to hold, the reason it set. */
  ghost predicate SameJobs(s: State, s': State, q: nat) {
    && |s.jobs| <= |s'.jobs|
    && forall j :: 0 <= j < |s.jobs| && FromQueue(s, j, q) ==> (Won(s'.jobs[j].stage) <==> Won(s.jobs[j].stage))
  }

  lemma SameJobsWakers(s: State, s': State, q: nat)
    requires Wakers(s) && SameJobs(s, s', q) && |s.wakers| <= |s'.wakers|
    requires forall k :: 0 <= k < |s'.wakers| ==>
               if k < |s.wakers| then s'.wakers[k] == s.wakers[k] else s'.wakers[k].q != q
    ensures QuietWakers(s, s', q)
  {
  }

  lemma QuietLocal(s: State, s': State, w: WaitId, q: nat)
    requires Wakers(s) && LocalStep(s, s', w) && q < |s.queues|
    requires s'.waits[w].reason == s.waits[w].reason || s'.waits[w].reason != Ready || s.waits[w].q != q
    requires SameJobs(s, s', q)
    ensures Quiet(s, s', q)
  {
    SameJobsWakers(s, s', q);
  }

  /** A step that changes one wait and no waker. */
  lemma QuietOne(s: State, s': State, w: WaitId, q: nat)
    requires Wakers(s) && w < |s.waits| == |s'.waits| && s'.waits == s.waits[w := s'.waits[w]] && s'.wakers == s.wakers
    requires s'.waits[w].q == s.waits[w].q && SameWait(s.waits[w], s'.waits[w])
    requires SameJobs(s, s', q) && QuietNodes(s, s', q)
    ensures Quiet(s, s', q)
  {
    SameJobsWakers(s, s', q);
  }

  lemma QuietQueueStep(s: State, s': State, w: WaitId, q: nat)
    requires Wakers(s) && (LockQueue(s, s', w) || InsertNode(s, s', w) || RemoveNode(s, s', w)) && q < |s.queues|
    ensures Quiet(s, s', q)
  {
    if s.waits[w].fpc == Insert && s.waits[w].q == q {
      assert Inserting(s, q, w);
    }
    QuietOne(s, s', w, q);
  }

  lemma QuietExpire(s: State, s': State, w: WaitId, v: WaitId, root: Option<WaitId>, q: nat)
    requires Wakers(s) && ExpireRoot(s, s', w, v, root) && q < |s.queues|
    ensures Quiet(s, s', q)
  {
    SameJobsWakers(s, s', q);
  }

  lemma QuietNextExpired(s: State, s': State, w: WaitId, q: nat)
    requires Wakers(s) && NextExpired(s, s', w) && q < |s.queues|
    ensures Quiet(s, s', q)
  {
    QuietOne(s, s', w, q);
  }

  lemma QuietSwitch(s: State, s': State, w: WaitId, q: nat)
    requires Wakers(s) && q < |s.queues|
    requires PrepareWait(s, s', w) || SwitchOut(s, s', w) || SpinWait(s, s', w) || ReadReason(s, s', w)
    ensures Quiet(s, s', q)
  {
    QuietOne(s, s', w, q);
  }

  lemma QuietAdd(s: State, s': State, w: WaitId, q: nat)
    requires Wakers(s) && (AddToHeap(s, s', w) || AddSetsMin(s, s', w) || AddArms(s, s', w)) && q < |s.queues|
    ensures Quiet(s, s', q)
  {
    QuietOne(s, s', w, q);
  }

  lemma QuietDeleteTimer(s: State, s': State, w: WaitId, root: Option<WaitId>, q: nat)
    requires Wakers(s) && DeleteTimer(s, s', w, root) && q < |s.queues|
    ensures Quiet(s, s', q)
  {
    QuietOne(s, s', w, q);
  }

  lemma QuietDelRest(s: State, s': State, w: WaitId, q: nat)
    requires Wakers(s) && (DelSetsMin(s, s', w) || DelArms(s, s', w)) && q < |s.queues|
    ensures Quiet(s, s', q)
  {
    QuietOne(s, s', w, q);
  }

  lemma QuietProcess(s: State, s': State, w: WaitId, root: Option<WaitId>, now: int, q: nat)
    requires Wakers(s) && q < |s.queues|
    requires || LockBucket(s, s', w) || ClearMin(s, s', w, now) || EndExpired(s, s', w, root)
             || ProcSetsMin(s, s', w) || ProcArms(s, s', w) || EndProcess(s, s', w)
    ensures Quiet(s, s', q)
  {
    QuietOne(s, s', w, q);
  }

  lemma QuietFiber(s: State, s': State, w: WaitId, root: Option<WaitId>, v: WaitId, now: int, q: nat)
    requires Wakers(s) && FiberStep(s, s', w, root, v, now) && q < |s.queues|
    ensures Quiet(s, s', q)
  {
    match s.waits[w].fpc
    case Start | Insert | Unqueue(_) => QuietQueueStep(s, s', w, q);
    case AddHeap | AddSetMin | AddArm => QuietAdd(s, s', w, q);
    case Prepare | Switch | Spin | LoadReason => QuietSwitch(s, s', w, q);
    case DelHeap => QuietDeleteTimer(s, s', w, root, q);
    case DelSetMin | DelArm => QuietDelRest(s, s', w, q);
    case ProcWake(_, _) => QuietNextExpired(s, s', w, q);
    case _ =>
      if ExpireRoot(s, s', w, v, root) {
        QuietExpire(s, s', w, v, root, q);
      } else {
        QuietProcess(s, s', w, root, now, q);
      }
  }

  /** A call that is not one of the queue's changes nothing that its owner sees. */
  lemma JobView(s: State, s': State, j: JobId, q: nat)
    requires JobOk(s, j) && JobStep(s, s', j) && Foreign(s, DoJob(j), q)
    ensures var v := s.jobs[j].v;
            && v < |s'.waits|
            && (s'.waits[v].reason == s.waits[v].reason || s'.waits[v].reason != Ready || s.waits[v].q != q)
    ensures SameJobs(s, s', q)
  {
  }

  lemma QuietJob(s: State, s': State, j: JobId, q: nat)
    requires Inv(s) && JobStep(s, s', j) && Foreign(s, DoJob(j), q) && q < |s.queues|
    ensures Quiet(s, s', q)
  {
    JobStepInv(s, s', j);
    assert AnyJob(j);
    JobView(s, s', j, q);
    QuietLocal(s, s', s.jobs[j].v, q);
  }

  lemma QuietWaker(s: State, s': State, k: WakerId, q: nat)
    requires Wakers(s) && Jobs(s) && Orders(s) && WakerStep(s, s', k) && Foreign(s, DoWaker(k), q) && q < |s.queues|
    ensures Quiet(s, s', q)
  {
    assert AnyWaker(k);
    QuietOwnWaker(s, s', k, q);
    forall l | AnyWaker(l) && 0 <= l < |s.wakers| && l != k
      ensures s'.wakers[l] == s.wakers[l] && SameWaker(s, s', l)
    {
      QuietOtherWaker(s, s', k, l);
    }
  }

  lemma QuietOtherWaker(s: State, s': State, k: WakerId, l: WakerId)
    requires WakerOk(s, l) && WakerStep(s, s', k) && l != k
    ensures s'.wakers[l] == s.wakers[l] && SameWaker(s, s', l)
  {
  }

  lemma QuietOwnWaker(s: State, s': State, k: WakerId, q: nat)
    requires Wakers(s) && Jobs(s) && WakerStep(s, s', k) && Foreign(s, DoWaker(k), q) && q < |s.queues|
    requires s.wakers[k].pc == WakerStart ==> s.wakers[k].popped == 0
    ensures s'.wakers[k].q == s.wakers[k].q && (s.wakers[k].q == q ==> SameWaker(s, s', k))
  {
  }

  lemma QuietRest(s: State, s': State, step: Step, q: nat)
    requires Wakers(s) && Next(s, s', step) && Foreign(s, step, q) && q < |s.queues|
    requires !step.DoFiber? && !step.DoJob? && !step.DoWaker? && !step.DoRecheck? && !step.DoPost?
    ensures Quiet(s, s', q)
  {
    SameJobsWakers(s, s', q);
  }

  lemma QuietRecheck(s: State, s': State, w: WaitId, wait: bool, q: nat)
    requires Wakers(s) && RunRecheck(s, s', w, wait) && s.waits[w].q != q && q < |s.queues|
    ensures Quiet(s, s', q)
  {
    SameJobsWakers(s, s', q);
  }

  lemma QuietPost(s: State, s': State, w: WaitId, q: nat)
    requires Inv(s) && PostStep(s, s', w) && q < |s.queues|
    ensures Quiet(s, s', q)
  {
    PostStepInv(s, s', w);
    QuietLocal(s, s', w, q);
  }

  lemma ForeignQuiet(s: State, s': State, step: Step, q: nat)
    requires Inv(s) && Orders(s) && Next(s, s', step) && Foreign(s, step, q) && q < |s.queues|
    ensures Quiet(s, s', q)
  {
    match step
    case DoFiber(w, root, v, now) => QuietFiber(s, s', w, root, v, now, q);
    case DoJob(j) => QuietJob(s, s', j, q);
    case DoWaker(k) => QuietWaker(s, s', k, q);
    case DoRecheck(w, wait) => QuietRecheck(s, s', w, wait, q);
    case DoPost(w) => QuietPost(s, s', w, q);
    case _ => QuietRest(s, s', step, q);
  }

  /** Someone who holds the lock of the queue holds it alone. */
  lemma LockIsFibers(s: State, q: nat, w: WaitId)
    requires Inv(s) && w < |s.waits| && s.waits[w].q == q && HoldsQueue(s.waits[w].fpc)
    ensures forall u :: 0 <= u < |s.waits| && s.waits[u].q == q && HoldsQueue(s.waits[u].fpc) ==> u == w
    ensures forall k :: 0 <= k < |s.wakers| && s.wakers[k].q == q ==> !InSection(s.wakers[k].pc)
  {
    assert AnyWait(w);
    forall u | 0 <= u < |s.waits| && s.waits[u].q == q && HoldsQueue(s.waits[u].fpc) ensures u == w {
      assert AnyWait(u);
    }
    forall k | 0 <= k < |s.wakers| && s.wakers[k].q == q ensures !InSection(s.wakers[k].pc) {
      assert AnyWaker(k);
    }
  }

  lemma LockIsWakers(s: State, q: nat, k: WakerId)
    requires Inv(s) && k < |s.wakers| && s.wakers[k].q == q && InSection(s.wakers[k].pc)
    ensures forall u :: 0 <= u < |s.waits| && s.waits[u].q == q ==> !HoldsQueue(s.waits[u].fpc)
    ensures forall l :: 0 <= l < |s.wakers| && s.wakers[l].q == q && InSection(s.wakers[l].pc) ==> l == k
  {
    assert AnyWaker(k);
    forall u | 0 <= u < |s.waits| && s.waits[u].q == q ensures !HoldsQueue(s.waits[u].fpc) {
      assert AnyWait(u);
    }
    forall l | 0 <= l < |s.wakers| && s.wakers[l].q == q && InSection(s.wakers[l].pc) ensures l == k {
      assert AnyWaker(l);
    }
  }
}
