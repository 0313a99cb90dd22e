/**
 * The inductive invariant of the blocking machine, and the proof that every step keeps it.
 */
module TimedWaitInvariant {
  import opened Common
  import opened TimedWait

  // ---------------------------------------------------------------------------------------------
  // Invariant
  // ---------------------------------------------------------------------------------------------

  /** The fiber has not left for the scheduler yet, or never will. */
  predicate Before(fpc: FiberPc) {
    match fpc
    case Start | Recheck | Insert | AddHeap | AddSetMin | AddArm | Prepare | Switch | Refused => true
    case _ => false
  }

  /** The fiber is out of the loop at src/fev_waiter_impl.h:106. */
  predicate Past(fpc: FiberPc) {
    !Before(fpc) && fpc != Suspended && fpc != Spin
  }

  predicate Gone(fpc: FiberPc) {
    fpc.Refused? || fpc.Done?
  }

  /** The fiber's own words agree on how far the handshake has got. */
  ghost predicate Handshake(wt: Wait) {
    && (Before(wt.fpc) <==> wt.post == PostNone)
    && (wt.claim == Unclaimed <==> wt.post == PostNone || wt.post == PostArm)
    && (wt.claim == Armed <==> wt.doWake)
    && (wt.claim == ByPost <==> wt.post.PostRecord? || wt.post == PostClear(true) || wt.post == PostPush)
    && (wt.fpc == Suspended <==> wt.post != PostNone && wt.claim != Resumed)
    && (wt.waitPost <==> wt.fpc == Switch || !(wt.post == PostNone || wt.post == PostPush || wt.post == PostDone))
    && (wt.reason == NoReason <==> wt.setter == None)
    && (wt.setter == None ==> wt.waitWake)
    && (Past(wt.fpc) ==> !wt.waitPost && !wt.waitWake)
    && (wt.post.PostTake? || wt.post.PostRecord? ==> wt.post.r == wt.reason)
    && (wt.claim == ByPost || wt.claim == ByJob || wt.claim == Resumed || wt.post.PostTake? ==> wt.reason != NoReason)
    && (wt.post == PostClear(true) || wt.post == PostPush || wt.claim == Resumed ==> wt.wakeReason == wt.reason)
  }

  predicate Inside(node: NodePlace) {
    node == InQueue || node == Popped
  }

  /** Where the node and the timer are, and why the fiber was woken, by what the fiber is doing. */
  ghost predicate Path(wt: Wait) {
    && (wt.popper.Some? <==> wt.node == Popped)
    && (wt.expirer.Some? <==> wt.timer == Expired)
    && (wt.reason == Ready ==> wt.popper == wt.setter)
    && (wt.reason == TimedOutNoCheck ==> wt.expirer == wt.setter)
    && (wt.reason == TimedOutCheck ==> wt.timed)
    && match wt.fpc
       case Start | Recheck | Insert | Refused => wt.node == NodeUnset && wt.timer == TimerUnset
       case AddHeap => wt.timed && Inside(wt.node) && wt.timer == TimerUnset
       case AddSetMin | AddArm => wt.timed && Inside(wt.node) && wt.timer == InHeap
       case Prepare | Switch | Suspended | Spin | LoadReason =>
         && Inside(wt.node)
         && (if wt.timed then wt.timer == InHeap || wt.timer == Expired else wt.timer == TimerUnset)
       case DelHeap => wt.timed && wt.reason == Ready && (wt.timer == InHeap || wt.timer == Expired)
       case DelSetMin | DelArm => wt.timed && wt.reason == Ready && wt.timer == Removed
       case ProcLock | ProcClear | ProcLoop(_) | ProcWake(_, _) =>
         && wt.timed && Inside(wt.node) && wt.reason == TimedOutCheck
         && (wt.timer == InHeap || wt.timer == Expired)
       case ProcSetMin(_) | ProcArm(_) | ProcPush(_) =>
         && wt.timed && Inside(wt.node) && wt.reason == TimedOutCheck
         && wt.timer == (if wt.fpc.res == TimedOut then Expired else Removed) && wt.fpc.res != Success
       case Unqueue(res) =>
         && wt.timed && Inside(wt.node) && res != Success
         && (wt.reason == TimedOutCheck || wt.reason == TimedOutNoCheck)
         && wt.timer == (if res == TimedOut then Expired else Removed)
       case Done(res) =>
         && wt.timer != InHeap && (wt.node == Popped || wt.node == Unlinked)
         && (if res == Success then wt.reason == Ready
             else wt.timed && (wt.reason == TimedOutCheck || wt.reason == TimedOutNoCheck)
                  && wt.timer == (if res == TimedOut then Expired else Removed))
  }

  predicate Won(stage: Stage) {
    stage != Try && stage != Over(false)
  }

  /** The call has the fiber and has not made it runnable yet. */
  predicate Holding(stage: Stage) {
    stage == Record || stage == Clear(true) || stage == ReadFiber || stage == ToPush
  }

  /** The call has not stored wait_for_wake = 0 yet. */
  predicate Inspecting(stage: Stage) {
    stage == Take || stage == Record || stage.Clear?
  }

  /** The call that set the reason, seen from the wait. */
  ghost predicate SetterOk(wt: Wait, w: WaitId, jobs: seq<Job>) {
    && (wt.claim == ByJob ==> wt.setter.Some?)
    && (wt.setter.Some? ==>
          && wt.setter.value < |jobs|
          && var job := jobs[wt.setter.value];
             && job.v == w && Won(job.stage) && job.why == wt.reason
             && (wt.waitWake <==> Inspecting(job.stage))
             && (wt.claim == ByJob <==> Holding(job.stage))
             && (wt.claim == ByJob && job.stage != Record ==> wt.wakeReason == wt.reason)
             && (wt.claim == Armed ==> wt.post == PostLoad || wt.post.PostTake? || job.stage == Take))
  }

  ghost predicate WaitOk(s: State, w: WaitId) {
    && w < |s.waits|
    && Handshake(s.waits[w]) && Path(s.waits[w]) && SetterOk(s.waits[w], w, s.jobs)
  }

  /** The caller is inside fev_waiter_wake(), or has just returned from it with the fiber. */
  predicate Running(stage: Stage) {
    stage != ToPush && !stage.Over?
  }

  /** The fiber has not visited its bucket after being woken. */
  predicate PreVisit(fpc: FiberPc) {
    match fpc
    case Prepare | Switch | Suspended | Spin | LoadReason | DelHeap | ProcLock => true
    case _ => false
  }

  predicate Processing(fpc: FiberPc) {
    fpc.ProcLoop? || fpc.ProcWake? || fpc.ProcSetMin? || fpc.ProcArm? || fpc.ProcPush?
  }

  /** Who called fev_waiter_wake(), and why the frame it was given cannot go away meanwhile. */
  ghost predicate JobOk(s: State, j: JobId) {
    && j < |s.jobs| && s.jobs[j].v < |s.waits|
    && var job := s.jobs[j];
    && var wt := s.waits[job.v];
       && (Won(job.stage) ==> wt.setter == Some(j))
       && match job.caller
          case FromWaker(k) =>
            && k < |s.wakers| && job.why == Ready && wt.popper == Some(j) && wt.q == s.wakers[k].q
            && (Running(job.stage) ==> s.wakers[k].pc == WakerWake(j))
            && (job.stage == ToPush ==> s.wakers[k].pc != WakerStart)
            && (job.stage == Try ==> !Gone(wt.fpc))
          case FromHandler(h) =>
            && h < |s.handlers| && job.why == TimedOutCheck && wt.timed && wt.b == s.handlers[h].b < |s.buckets|
            && (Running(job.stage) ==> s.handlers[h].pc == HandlerWake(j) && s.buckets[wt.b].min == Some(job.v))
            && (job.stage == ToPush ==> s.handlers[h].pc == HandlerPush)
          case FromFiber(u) =>
            && u < |s.waits| && job.why == TimedOutNoCheck && wt.expirer == Some(j) && wt.b == s.waits[u].b
            && (Running(job.stage) ==> s.waits[u].fpc.ProcWake? && s.waits[u].fpc.j == j)
            && (job.stage == ToPush ==> Processing(s.waits[u].fpc))
            && (job.stage == Try ==> job.v == u || PreVisit(wt.fpc))
  }

  ghost predicate CallsJob(jobs: seq<Job>, j: JobId, caller: Caller) {
    j < |jobs| && jobs[j].caller == caller && jobs[j].stage != ToPush
  }

  /** The fiber holds the lock of its queue. */
  predicate HoldsQueue(fpc: FiberPc) {
    fpc == Recheck || fpc == Insert
  }

  /** The fiber holds the lock of its bucket. */
  predicate HoldsBucket(fpc: FiberPc) {
    match fpc
    case AddSetMin | AddArm | DelSetMin | DelArm | ProcClear | ProcLoop(_) | ProcWake(_, _)
       | ProcSetMin(_) | ProcArm(_) => true
    case _ => false
  }

  ghost predicate FiberOk(s: State, w: WaitId) {
    && w < |s.waits| && s.waits[w].q < |s.queues| && s.waits[w].b < |s.buckets|
    && var wt := s.waits[w];
       && (wt.node == InQueue ==> w in s.queues[wt.q].nodes)
       && (HoldsQueue(wt.fpc) ==> s.queues[wt.q].lock == Some(QueueFiber(w)))
       && (HoldsBucket(wt.fpc) ==> s.buckets[wt.b].lock == Some(w))
       && (wt.fpc.ProcWake? ==> CallsJob(s.jobs, wt.fpc.j, FromFiber(w)))
  }

  ghost predicate WakerOk(s: State, k: WakerId) {
    && k < |s.wakers| && s.wakers[k].q < |s.queues|
    && var wk := s.wakers[k];
       && (wk.pc == WakerLoop || wk.pc.WakerWake? ==> s.queues[wk.q].lock == Some(QueueWaker(k)))
       && (wk.pc.WakerWake? ==> CallsJob(s.jobs, wk.pc.j, FromWaker(k)))
  }

  ghost predicate HandlerOk(s: State, h: HandlerId) {
    && h < |s.handlers| && s.handlers[h].b < |s.buckets|
    && var hd := s.handlers[h];
       hd.pc.HandlerWake? ==>
         s.buckets[hd.b].minLock == Some(h) && CallsJob(s.jobs, hd.pc.j, FromHandler(h))
  }

  ghost predicate QueueOk(s: State, q: nat) {
    && q < |s.queues|
    && Distinct(s.queues[q].nodes)
    && forall w :: w in s.queues[q].nodes ==>
         w < |s.waits| && s.waits[w].node == InQueue && s.waits[w].q == q
  }

  /** The root's deadline is being looked after, or its fiber has been told to come and look. */
  ghost predicate Covered(s: State, b: nat, r: WaitId)
    requires b < |s.buckets| && r < |s.waits|
  {
    var bk := s.buckets[b];
    || bk.fd == Ticking(s.waits[r].deadline)
    || bk.fd == Fired
    || s.waits[r].reason != NoReason
    || (&& bk.watch.Some? && bk.watch.value < |s.handlers|
        && var h := s.handlers[bk.watch.value];
           && h.b == b
           && (|| h.pc == HandlerReady
               || (h.pc.HandlerWake? && h.pc.j < |s.jobs| && s.jobs[h.pc.j].v == r && s.jobs[h.pc.j].stage == Try)))
  }

  predicate InBucket(waits: seq<Wait>, b: nat, v: Option<WaitId>) {
    v.Some? ==> v.value < |waits| && waits[v.value].timer == InHeap && waits[v.value].b == b
  }

  /** No holder of the bucket's lock has changed the bucket yet. */
  predicate Clean(s: State, b: nat)
    requires b < |s.buckets|
  {
    var lock := s.buckets[b].lock;
    lock.Some? ==> lock.value < |s.waits| && s.waits[lock.value].fpc == ProcClear
  }

  /** What bucket->min is, by what the holder of the bucket's lock is doing. */
  ghost predicate MinOk(bk: Bucket, b: nat, waits: seq<Wait>)
    requires bk.lock.Some? && bk.lock.value < |waits|
  {
    match waits[bk.lock.value].fpc
    case AddSetMin => bk.root == bk.lock && InBucket(waits, b, bk.min)
    case AddArm => bk.root == bk.lock && bk.min == bk.root
    case DelSetMin => bk.min == bk.lock
    case DelArm | ProcArm(_) => bk.min == bk.root && bk.root.Some?
    case ProcLoop(_) | ProcWake(_, _) => bk.min == None
    case ProcSetMin(_) => bk.min == None && bk.root.Some?
    case ProcClear => bk.min == bk.root
    case _ => false
  }

  ghost predicate BucketOk(s: State, b: nat) {
    && b < |s.buckets|
    && var bk := s.buckets[b];
       && IsRoot(s.waits, b, bk.root)
       && (if bk.lock == None then bk.min == bk.root
           else bk.lock.value < |s.waits| && s.waits[bk.lock.value].b == b && MinOk(bk, b, s.waits))
       && (Clean(s, b) && bk.root.Some? ==> Covered(s, b, bk.root.value))
  }

  // The invariant is used only at the indices a proof names with these.
  predicate AnyWait(w: int) { true }
  predicate AnyJob(j: int) { true }
  predicate AnyWaker(k: int) { true }
  predicate AnyHandler(h: int) { true }
  predicate AnyQueue(q: int) { true }
  predicate AnyBucket(b: int) { true }

  ghost predicate Waits(s: State) {
    forall w {:trigger AnyWait(w)} :: AnyWait(w) && 0 <= w < |s.waits| ==> WaitOk(s, w)
  }

  ghost predicate Fibers(s: State) {
    forall w {:trigger AnyWait(w)} :: AnyWait(w) && 0 <= w < |s.waits| ==> FiberOk(s, w)
  }

  ghost predicate Jobs(s: State) {
    forall j {:trigger AnyJob(j)} :: AnyJob(j) && 0 <= j < |s.jobs| ==> JobOk(s, j)
  }

  ghost predicate Wakers(s: State) {
    forall k {:trigger AnyWaker(k)} :: AnyWaker(k) && 0 <= k < |s.wakers| ==> WakerOk(s, k)
  }

  ghost predicate Handlers(s: State) {
    forall h {:trigger AnyHandler(h)} :: AnyHandler(h) && 0 <= h < |s.handlers| ==> HandlerOk(s, h)
  }

  ghost predicate Queues(s: State) {
    forall q {:trigger AnyQueue(q)} :: AnyQueue(q) && 0 <= q < |s.queues| ==> QueueOk(s, q)
  }

  ghost predicate Buckets(s: State) {
    forall b {:trigger AnyBucket(b)} :: AnyBucket(b) && 0 <= b < |s.buckets| ==> BucketOk(s, b)
  }

  ghost predicate Inv(s: State) {
    Waits(s) && Fibers(s) && Jobs(s) && Wakers(s) && Handlers(s) && Queues(s) && Buckets(s)
  }

  /** The recheck has run and said to wait. */
  predicate Rechecked(fpc: FiberPc) {
    fpc != Start && fpc != Recheck && fpc != Refused
  }

  /** What no step undoes. */
  predicate Kept(a: Wait, c: Wait) {
    && c.q == a.q && c.b == a.b && c.timed == a.timed && c.deadline == a.deadline
    && (a.reason != NoReason ==> c.reason == a.reason)
    && (a.claim == Resumed ==> c.claim == Resumed)
    && (Rechecked(a.fpc) ==> Rechecked(c.fpc))
  }

  ghost predicate AllKept(s: State, s': State) {
    && |s.waits| <= |s'.waits|
    && forall w :: 0 <= w < |s.waits| ==> Kept(s.waits[w], s'.waits[w])
  }

  // ---------------------------------------------------------------------------------------------
  // Steps that change one wait, and at most the call of fev_waiter_wake() made for it
  // ---------------------------------------------------------------------------------------------

  /** What the rest of the system sees of a fiber stays the same, or only moves towards its bucket. */
  predicate SameView(a: Wait, c: Wait) {
    && c.q == a.q && c.b == a.b && c.timed == a.timed && c.deadline == a.deadline
    && c.node == a.node && c.timer == a.timer && c.popper == a.popper && c.expirer == a.expirer
    && (c.fpc == a.fpc || (PreVisit(a.fpc) && PreVisit(c.fpc)))
    && (a.reason != NoReason ==> c.reason == a.reason) && (a.claim == Resumed ==> c.claim == Resumed)
  }

  ghost predicate LocalStep(s: State, s': State, w: WaitId) {
    && w < |s.waits| == |s'.waits| && s' == s.(waits := s'.waits, jobs := s'.jobs)
    && s'.waits == s.waits[w := s'.waits[w]] && SameView(s.waits[w], s'.waits[w])
    && |s'.jobs| == |s.jobs|
    && forall j :: 0 <= j < |s.jobs| ==>
         || s'.jobs[j] == s.jobs[j]
         || (&& s'.jobs[j] == s.jobs[j].(stage := s'.jobs[j].stage) && s.jobs[j].v == w
             && s'.jobs[j].stage != Try && s'.jobs[j].stage != ToPush
             && (s'.jobs[j].stage == Over(false) ==> s.jobs[j].stage == Try)
             && (Running(s.jobs[j].stage) || (s.jobs[j].stage == ToPush && s'.jobs[j].stage == Over(true)))
             && s'.waits[w].reason != NoReason
             && (Won(s'.jobs[j].stage) ==> s'.waits[w].setter == Some(j)))
  }

  lemma LocalJob(s: State, s': State, w: WaitId, j: JobId)
    requires LocalStep(s, s', w) && JobOk(s, j)
    requires s.waits[w].setter.Some? ==> s'.waits[w].setter == s.waits[w].setter
    ensures JobOk(s', j)
  {
  }

  lemma LocalFiber(s: State, s': State, w: WaitId, u: WaitId)
    requires LocalStep(s, s', w) && FiberOk(s, u)
    ensures FiberOk(s', u)
  {
  }

  lemma LocalWait(s: State, s': State, w: WaitId, u: WaitId)
    requires LocalStep(s, s', w) && WaitOk(s, u) && u != w
    ensures WaitOk(s', u)
  {
  }

  lemma LocalBucket(s: State, s': State, w: WaitId, b: nat)
    requires LocalStep(s, s', w) && BucketOk(s, b)
    ensures BucketOk(s', b)
  {
  }

  lemma LocalWaits(s: State, s': State, w: WaitId)
    requires Waits(s) && Fibers(s) && LocalStep(s, s', w) && WaitOk(s', w)
    ensures Waits(s') && Fibers(s')
  {
    forall u | AnyWait(u) && 0 <= u < |s'.waits| ensures WaitOk(s', u) && FiberOk(s', u) {
      LocalFiber(s, s', w, u);
      if u != w {
        LocalWait(s, s', w, u);
      }
    }
  }

  lemma LocalInv(s: State, s': State, w: WaitId)
    requires Inv(s) && LocalStep(s, s', w) && WaitOk(s', w)
    requires s.waits[w].setter.Some? ==> s'.waits[w].setter == s.waits[w].setter
    ensures Inv(s') && AllKept(s, s')
  {
    LocalWaits(s, s', w);
    forall j | AnyJob(j) && 0 <= j < |s'.jobs| ensures JobOk(s', j) {
      LocalJob(s, s', w, j);
    }
    forall b | AnyBucket(b) && 0 <= b < |s'.buckets| ensures BucketOk(s', b) {
      LocalBucket(s, s', w, b);
    }
    LocalRest(s, s', w);
  }

  lemma LocalRest(s: State, s': State, w: WaitId)
    requires Wakers(s) && Handlers(s) && Queues(s) && LocalStep(s, s', w)
    ensures Wakers(s') && Handlers(s') && Queues(s') && AllKept(s, s')
  {
  }

  lemma InitInv(s: State)
    requires Init(s)
    ensures Inv(s)
  {
  }

  lemma PrepareWaitLocal(s: State, s': State, w: WaitId)
    requires PrepareWait(s, s', w) && WaitOk(s, w)
    ensures LocalOk(s, s', w)
  {
  }

  lemma PrepareWaitInv(s: State, s': State, w: WaitId)
    requires Inv(s) && PrepareWait(s, s', w)
    ensures Inv(s') && AllKept(s, s')
    ensures LocalStep(s, s', w)
  {
    assert AnyWait(w);
    PrepareWaitLocal(s, s', w);
    LocalInv(s, s', w);
  }

  lemma SwitchOutLocal(s: State, s': State, w: WaitId)
    requires SwitchOut(s, s', w) && WaitOk(s, w)
    ensures LocalOk(s, s', w)
  {
  }

  lemma SwitchOutInv(s: State, s': State, w: WaitId)
    requires Inv(s) && SwitchOut(s, s', w)
    ensures Inv(s') && AllKept(s, s')
    ensures LocalStep(s, s', w)
  {
    assert AnyWait(w);
    SwitchOutLocal(s, s', w);
    LocalInv(s, s', w);
  }

  lemma SpinWaitLocal(s: State, s': State, w: WaitId)
    requires SpinWait(s, s', w) && WaitOk(s, w)
    ensures LocalOk(s, s', w)
  {
  }

  lemma SpinWaitInv(s: State, s': State, w: WaitId)
    requires Inv(s) && SpinWait(s, s', w)
    ensures Inv(s') && AllKept(s, s')
    ensures LocalStep(s, s', w)
  {
    assert AnyWait(w);
    SpinWaitLocal(s, s', w);
    LocalInv(s, s', w);
  }

  /** A step that does not touch what Path speaks about. */
  lemma PathSame(a: Wait, c: Wait)
    requires Path(a) && SameView(a, c) && c.fpc == a.fpc && c.reason == a.reason && c.setter == a.setter
    ensures Path(c)
  {
  }

  lemma PostArmsInv(s: State, s': State, w: WaitId)
    requires Inv(s) && PostArms(s, s', w)
    ensures Inv(s') && AllKept(s, s')
    ensures LocalStep(s, s', w)
  {
    assert AnyWait(w);
    PathSame(s.waits[w], s'.waits[w]);
    LocalInv(s, s', w);
  }

  lemma PostLoadsInv(s: State, s': State, w: WaitId)
    requires Inv(s) && PostLoads(s, s', w)
    ensures Inv(s') && AllKept(s, s')
    ensures LocalStep(s, s', w)
  {
    assert AnyWait(w);
    PathSame(s.waits[w], s'.waits[w]);
    LocalInv(s, s', w);
  }

  lemma PostTakesInv(s: State, s': State, w: WaitId)
    requires Inv(s) && PostTakes(s, s', w)
    ensures Inv(s') && AllKept(s, s')
    ensures LocalStep(s, s', w)
  {
    assert AnyWait(w);
    PathSame(s.waits[w], s'.waits[w]);
    LocalInv(s, s', w);
  }

  lemma PostRecordsInv(s: State, s': State, w: WaitId)
    requires Inv(s) && PostRecords(s, s', w)
    ensures Inv(s') && AllKept(s, s')
    ensures LocalStep(s, s', w)
  {
    assert AnyWait(w);
    PathSame(s.waits[w], s'.waits[w]);
    LocalInv(s, s', w);
  }

  lemma PostClearsInv(s: State, s': State, w: WaitId)
    requires Inv(s) && PostClears(s, s', w)
    ensures Inv(s') && AllKept(s, s')
    ensures LocalStep(s, s', w)
  {
    assert AnyWait(w);
    PathSame(s.waits[w], s'.waits[w]);
    LocalInv(s, s', w);
  }

  lemma PostPushesInv(s: State, s': State, w: WaitId)
    requires Inv(s) && PostPushes(s, s', w)
    ensures Inv(s') && AllKept(s, s')
    ensures LocalStep(s, s', w)
  {
    assert AnyWait(w);
    PostPushesLocal(s, s', w);
    LocalInv(s, s', w);
  }

  lemma PostPushesLocal(s: State, s': State, w: WaitId)
    requires PostPushes(s, s', w) && WaitOk(s, w)
    ensures LocalOk(s, s', w)
  {
    ResumedPath(s.waits[w]);
    PathSame(s.waits[w].(fpc := Spin), s'.waits[w]);
  }

  lemma PostStepInv(s: State, s': State, w: WaitId)
    requires Inv(s) && PostStep(s, s', w)
    ensures Inv(s') && AllKept(s, s')
    ensures LocalStep(s, s', w)
  {
    match s.waits[w].post
    case PostArm => PostArmsInv(s, s', w);
    case PostLoad => PostLoadsInv(s, s', w);
    case PostTake(_) => PostTakesInv(s, s', w);
    case PostRecord(_) => PostRecordsInv(s, s', w);
    case PostClear(_) => PostClearsInv(s, s', w);
    case PostPush => PostPushesInv(s, s', w);
  }

  /** A step that changes one wait leaves that wait in order. */
  ghost predicate LocalOk(s: State, s': State, w: WaitId) {
    && LocalStep(s, s', w) && WaitOk(s', w)
    && (s.waits[w].setter.Some? ==> s'.waits[w].setter == s.waits[w].setter)
  }

  lemma SetPath(wt: Wait, why: Reason, j: JobId)
    requires Handshake(wt) && Path(wt) && wt.reason == NoReason && why != NoReason
    requires why == Ready ==> wt.popper == Some(j)
    requires why == TimedOutNoCheck ==> wt.expirer == Some(j)
    requires why == TimedOutCheck ==> wt.timed
    ensures Path(wt.(reason := why, setter := Some(j)))
  {
  }

  lemma ResumedPath(wt: Wait)
    requires Path(wt) && wt.fpc == Suspended
    ensures Path(wt.(fpc := Spin))
  {
  }

  lemma JobTriesLocal(s: State, s': State, j: JobId)
    requires JobTries(s, s', j) && WaitOk(s, s.jobs[j].v) && JobOk(s, j)
    ensures LocalOk(s, s', s.jobs[j].v)
  {
    var v := s.jobs[j].v;
    if s.waits[v].reason == NoReason {
      SetPath(s.waits[v], s.jobs[j].why, j);
    }
  }

  lemma JobTriesInv(s: State, s': State, j: JobId)
    requires Inv(s) && JobTries(s, s', j)
    ensures Inv(s') && AllKept(s, s')
    ensures LocalStep(s, s', s.jobs[j].v)
  {
    assert AnyJob(j) && AnyWait(s.jobs[j].v);
    JobTriesLocal(s, s', j);
    LocalInv(s, s', s.jobs[j].v);
  }

  lemma JobTakesLocal(s: State, s': State, j: JobId)
    requires JobTakes(s, s', j) && WaitOk(s, s.jobs[j].v) && JobOk(s, j)
    ensures LocalOk(s, s', s.jobs[j].v)
  {
    PathSame(s.waits[s.jobs[j].v], s'.waits[s.jobs[j].v]);
  }

  lemma JobTakesInv(s: State, s': State, j: JobId)
    requires Inv(s) && JobTakes(s, s', j)
    ensures Inv(s') && AllKept(s, s')
    ensures LocalStep(s, s', s.jobs[j].v)
  {
    assert AnyJob(j) && AnyWait(s.jobs[j].v);
    JobTakesLocal(s, s', j);
    LocalInv(s, s', s.jobs[j].v);
  }

  lemma JobRecordsLocal(s: State, s': State, j: JobId)
    requires JobRecords(s, s', j) && WaitOk(s, s.jobs[j].v) && JobOk(s, j)
    ensures LocalOk(s, s', s.jobs[j].v)
  {
    PathSame(s.waits[s.jobs[j].v], s'.waits[s.jobs[j].v]);
  }

  lemma JobRecordsInv(s: State, s': State, j: JobId)
    requires Inv(s) && JobRecords(s, s', j)
    ensures Inv(s') && AllKept(s, s')
    ensures LocalStep(s, s', s.jobs[j].v)
  {
    assert AnyJob(j) && AnyWait(s.jobs[j].v);
    JobRecordsLocal(s, s', j);
    LocalInv(s, s', s.jobs[j].v);
  }

  lemma JobClearsLocal(s: State, s': State, j: JobId)
    requires JobClears(s, s', j) && WaitOk(s, s.jobs[j].v) && JobOk(s, j)
    ensures LocalOk(s, s', s.jobs[j].v)
  {
    PathSame(s.waits[s.jobs[j].v], s'.waits[s.jobs[j].v]);
  }

  lemma JobClearsInv(s: State, s': State, j: JobId)
    requires Inv(s) && JobClears(s, s', j)
    ensures Inv(s') && AllKept(s, s')
    ensures LocalStep(s, s', s.jobs[j].v)
  {
    assert AnyJob(j) && AnyWait(s.jobs[j].v);
    JobClearsLocal(s, s', j);
    LocalInv(s, s', s.jobs[j].v);
  }

  lemma JobPushesLocal(s: State, s': State, j: JobId)
    requires JobPushes(s, s', j) && WaitOk(s, s.jobs[j].v) && JobOk(s, j)
    ensures LocalOk(s, s', s.jobs[j].v)
  {
    var v := s.jobs[j].v;
    ResumedPath(s.waits[v]);
    PathSame(s.waits[v].(fpc := Spin), s'.waits[v]);
  }

  lemma JobPushesInv(s: State, s': State, j: JobId)
    requires Inv(s) && JobPushes(s, s', j)
    ensures Inv(s') && AllKept(s, s')
    ensures LocalStep(s, s', s.jobs[j].v)
  {
    assert AnyJob(j) && AnyWait(s.jobs[j].v);
    JobPushesLocal(s, s', j);
    LocalInv(s, s', s.jobs[j].v);
  }

  lemma JobStepInv(s: State, s': State, j: JobId)
    requires Inv(s) && JobStep(s, s', j)
    ensures Inv(s') && AllKept(s, s')
    ensures LocalStep(s, s', s.jobs[j].v)
  {
    match s.jobs[j].stage
    case Try => JobTriesInv(s, s', j);
    case Take => JobTakesInv(s, s', j);
    case Record => JobRecordsInv(s, s', j);
    case Clear(_) => JobClearsInv(s, s', j);
    case ToPush => JobPushesInv(s, s', j);
  }

  // ---------------------------------------------------------------------------------------------
  // Steps under the lock of a bucket
  // ---------------------------------------------------------------------------------------------

  /** The way of a fiber through the critical sections of its bucket. */
  predicate Moves(a: FiberPc, c: FiberPc) {
    match a
    case AddHeap => c == AddSetMin || c == Prepare
    case AddSetMin => c == AddArm
    case AddArm => c == Prepare
    case DelHeap => c == DelSetMin || c == Done(Success)
    case DelSetMin => c == DelArm || c == Done(Success)
    case DelArm => c == Done(Success)
    case ProcLock => c == ProcClear
    case ProcClear => c.ProcLoop?
    case ProcLoop(_) => c.ProcSetMin? || c.ProcPush?
    case ProcSetMin(res) => c == ProcArm(res)
    case ProcArm(res) => c == ProcPush(res)
    case _ => false
  }

  lemma MovesFacts(a: FiberPc, c: FiberPc)
    requires Moves(a, c)
    ensures Processing(a) ==> Processing(c)
    ensures !a.ProcWake? && !c.ProcWake? && !HoldsQueue(a) && !HoldsQueue(c)
    ensures (Past(a) <==> Past(c)) && (Before(a) <==> Before(c))
    ensures a != Switch && c != Switch && a != Suspended && c != Suspended
    ensures Gone(c) ==> a == DelHeap || a == DelSetMin || a == DelArm
  {
  }

  ghost predicate BucketStep(s: State, s': State, w: WaitId) {
    && At(s, w) && |s'.waits| == |s.waits| && |s'.buckets| == |s.buckets|
    && var wt, wt', b := s.waits[w], s'.waits[w], s.waits[w].b;
    && var bk, bk' := s.buckets[b], s'.buckets[b];
       && s' == s.(waits := s.waits[w := wt'], buckets := s.buckets[b := bk'])
       && wt' == wt.(fpc := wt'.fpc, timer := wt'.timer)
       && (wt'.timer == Expired <==> wt.timer == Expired)
       && Moves(wt.fpc, wt'.fpc)
       && (bk.lock == None || bk.lock == Some(w)) && (bk'.lock == None || bk'.lock == Some(w))
       && bk'.minLock == bk.minLock && bk'.watch == bk.watch && (bk'.min == bk.min || bk.minLock == None)
  }

  lemma BucketStepWaits(s: State, s': State, w: WaitId)
    requires Inv(s) && BucketStep(s, s', w) && Path(s'.waits[w])
    ensures Waits(s')
  {
    assert AnyWait(w);
    MovesFacts(s.waits[w].fpc, s'.waits[w].fpc);
  }

  /** What keeps the target of a call of fev_waiter_wake() in place until the call is over. */
  ghost predicate Context(s: State, j: JobId) {
    && JobOk(s, j)
    && var job := s.jobs[j];
    && var wt := s.waits[job.v];
       && wt.q < |s.queues| && wt.b < |s.buckets|
       && match job.caller
          case FromWaker(k) =>
            && (job.stage == Try ==> wt.reason != Ready && wt.node == Popped)
            && (Running(job.stage) ==> s.queues[wt.q].lock == Some(QueueWaker(k)))
          case FromHandler(h) =>
            Running(job.stage) ==> s.buckets[wt.b].minLock == Some(h)
          case FromFiber(u) =>
            && (job.stage == Try ==> wt.reason != TimedOutNoCheck && wt.timer == Expired)
            && (Running(job.stage) ==> s.buckets[wt.b].lock == Some(u))
  }

  lemma JobContext(s: State, j: JobId)
    requires Inv(s) && j < |s.jobs|
    ensures Context(s, j)
  {
    assert AnyJob(j);
    assert AnyWait(s.jobs[j].v);
    match s.jobs[j].caller
    case FromWaker(k) => assert AnyWaker(k);
    case FromHandler(h) => assert AnyHandler(h);
    case FromFiber(u) => assert AnyWait(u);
  }

  lemma BucketStepJob(s: State, s': State, w: WaitId, j: JobId)
    requires Context(s, j) && BucketStep(s, s', w) && (Gone(s'.waits[w].fpc) ==> s.waits[w].reason == Ready)
    ensures JobOk(s', j)
  {
    MovesFacts(s.waits[w].fpc, s'.waits[w].fpc);
  }

  lemma BucketStepJobs(s: State, s': State, w: WaitId)
    requires Inv(s) && BucketStep(s, s', w)
    ensures Jobs(s')
  {
    assert AnyWait(w);
    MovesFacts(s.waits[w].fpc, s'.waits[w].fpc);
    forall j | AnyJob(j) && 0 <= j < |s.jobs| ensures JobOk(s', j) {
      JobContext(s, j);
      BucketStepJob(s, s', w, j);
    }
  }

  lemma BucketStepFibers(s: State, s': State, w: WaitId)
    requires Inv(s) && BucketStep(s, s', w) && FiberOk(s', w)
    ensures Fibers(s') && Wakers(s') && Handlers(s') && Queues(s')
  {
    MovesFacts(s.waits[w].fpc, s'.waits[w].fpc);
  }

  /** A bucket that the step does not concern. */
  lemma BucketStepOther(s: State, s': State, w: WaitId, b: nat)
    requires BucketStep(s, s', w) && BucketOk(s, b) && b != s.waits[w].b
    requires HoldsBucket(s.waits[w].fpc) ==> s.buckets[b].lock != Some(w)
    ensures BucketOk(s', b)
  {
  }

  lemma BucketStepBuckets(s: State, s': State, w: WaitId)
    requires Buckets(s) && BucketStep(s, s', w) && BucketOk(s', s.waits[w].b)
    ensures Buckets(s')
  {
    forall b | AnyBucket(b) && 0 <= b < |s.buckets| && b != s.waits[w].b ensures BucketOk(s', b) {
      BucketStepOther(s, s', w, b);
    }
  }

  lemma BucketStepInv(s: State, s': State, w: WaitId)
    requires Inv(s) && BucketStep(s, s', w)
    requires Path(s'.waits[w]) && FiberOk(s', w) && BucketOk(s', s.waits[w].b)
    ensures Inv(s') && AllKept(s, s')
  {
    BucketStepWaits(s, s', w);
    BucketStepJobs(s, s', w);
    BucketStepFibers(s, s', w);
    BucketStepBuckets(s, s', w);
  }

  /** What a step under the lock of a bucket may rely on. */
  ghost predicate Locally(s: State, w: WaitId) {
    At(s, w) && WaitOk(s, w) && FiberOk(s, w) && BucketOk(s, s.waits[w].b)
  }

  lemma AddToHeapInv(s: State, s': State, w: WaitId)
    requires Inv(s) && AddToHeap(s, s', w)
    ensures Inv(s') && AllKept(s, s')
    ensures BucketStep(s, s', w)
  {
    assert AnyWait(w) && AnyBucket(s.waits[w].b);
    BucketStepInv(s, s', w);
  }

  lemma AddSetsMinInv(s: State, s': State, w: WaitId)
    requires Inv(s) && AddSetsMin(s, s', w)
    ensures Inv(s') && AllKept(s, s')
    ensures BucketStep(s, s', w)
  {
    assert AnyWait(w) && AnyBucket(s.waits[w].b);
    BucketStepInv(s, s', w);
  }

  lemma AddArmsInv(s: State, s': State, w: WaitId)
    requires Inv(s) && AddArms(s, s', w)
    ensures Inv(s') && AllKept(s, s')
    ensures BucketStep(s, s', w)
  {
    assert AnyWait(w) && AnyBucket(s.waits[w].b);
    BucketStepInv(s, s', w);
  }

  lemma DeleteTimerWait(s: State, s': State, w: WaitId, root: Option<WaitId>)
    requires WaitOk(s, w) && FiberOk(s, w) && DeleteTimer(s, s', w, root)
    ensures BucketStep(s, s', w) && FiberOk(s', w)
  {
  }

  lemma DeleteTimerPath(s: State, s': State, w: WaitId, root: Option<WaitId>)
    requires WaitOk(s, w) && DeleteTimer(s, s', w, root)
    ensures Path(s'.waits[w])
  {
  }

  /** The timer was the root: the bucket has a new root, and bucket->min still names the deleted timer. */
  lemma DeleteRootBucket(s: State, s': State, w: WaitId, root: Option<WaitId>)
    requires Locally(s, w) && DeleteTimer(s, s', w, root) && s'.waits[w].fpc == DelSetMin
    ensures BucketOk(s', s.waits[w].b)
  {
  }

  /** The root stays. */
  lemma DeleteOtherBucket(s: State, s': State, w: WaitId, root: Option<WaitId>)
    requires Locally(s, w) && DeleteTimer(s, s', w, root) && s'.waits[w].fpc != DelSetMin
    ensures BucketOk(s', s.waits[w].b)
  {
  }

  lemma DeleteTimerBucket(s: State, s': State, w: WaitId, root: Option<WaitId>)
    requires Locally(s, w) && DeleteTimer(s, s', w, root)
    ensures BucketOk(s', s.waits[w].b)
  {
    if s'.waits[w].fpc == DelSetMin {
      DeleteRootBucket(s, s', w, root);
    } else {
      DeleteOtherBucket(s, s', w, root);
    }
  }

  lemma DeleteTimerInv(s: State, s': State, w: WaitId, root: Option<WaitId>)
    requires Inv(s) && DeleteTimer(s, s', w, root)
    ensures Inv(s') && AllKept(s, s')
    ensures BucketStep(s, s', w)
  {
    assert AnyWait(w) && AnyBucket(s.waits[w].b);
    DeleteTimerWait(s, s', w, root);
    DeleteTimerPath(s, s', w, root);
    DeleteTimerBucket(s, s', w, root);
    BucketStepInv(s, s', w);
  }

  lemma DelSetsMinWait(s: State, s': State, w: WaitId)
    requires WaitOk(s, w) && FiberOk(s, w) && DelSetsMin(s, s', w)
    ensures BucketStep(s, s', w) && Path(s'.waits[w]) && FiberOk(s', w)
  {
  }

  lemma DelSetsMinBucket(s: State, s': State, w: WaitId)
    requires Locally(s, w) && DelSetsMin(s, s', w)
    ensures BucketOk(s', s.waits[w].b)
  {
  }

  lemma DelSetsMinInv(s: State, s': State, w: WaitId)
    requires Inv(s) && DelSetsMin(s, s', w)
    ensures Inv(s') && AllKept(s, s')
    ensures BucketStep(s, s', w)
  {
    assert AnyWait(w) && AnyBucket(s.waits[w].b);
    DelSetsMinWait(s, s', w);
    DelSetsMinBucket(s, s', w);
    BucketStepInv(s, s', w);
  }

  lemma DelArmsInv(s: State, s': State, w: WaitId)
    requires Inv(s) && DelArms(s, s', w)
    ensures Inv(s') && AllKept(s, s')
    ensures BucketStep(s, s', w)
  {
    assert AnyWait(w) && AnyBucket(s.waits[w].b);
    DelArmsWait(s, s', w);
    DelArmsBucket(s, s', w);
    BucketStepInv(s, s', w);
  }

  lemma DelArmsWait(s: State, s': State, w: WaitId)
    requires WaitOk(s, w) && FiberOk(s, w) && DelArms(s, s', w)
    ensures BucketStep(s, s', w) && Path(s'.waits[w]) && FiberOk(s', w)
  {
  }

  lemma DelArmsBucket(s: State, s': State, w: WaitId)
    requires Locally(s, w) && DelArms(s, s', w)
    ensures BucketOk(s', s.waits[w].b)
  {
  }

  lemma LockBucketWait(s: State, s': State, w: WaitId)
    requires WaitOk(s, w) && FiberOk(s, w) && LockBucket(s, s', w)
    ensures BucketStep(s, s', w) && Path(s'.waits[w]) && FiberOk(s', w)
  {
  }

  lemma LockBucketBucket(s: State, s': State, w: WaitId)
    requires Locally(s, w) && LockBucket(s, s', w)
    ensures BucketOk(s', s.waits[w].b)
  {
  }

  lemma LockBucketInv(s: State, s': State, w: WaitId)
    requires Inv(s) && LockBucket(s, s', w)
    ensures Inv(s') && AllKept(s, s')
    ensures BucketStep(s, s', w)
  {
    assert AnyWait(w) && AnyBucket(s.waits[w].b);
    LockBucketWait(s, s', w);
    LockBucketBucket(s, s', w);
    BucketStepInv(s, s', w);
  }

  lemma ClearMinWait(s: State, s': State, w: WaitId, now: int)
    requires WaitOk(s, w) && FiberOk(s, w) && ClearMin(s, s', w, now)
    ensures BucketStep(s, s', w) && Path(s'.waits[w]) && FiberOk(s', w)
  {
  }

  lemma ClearMinBucket(s: State, s': State, w: WaitId, now: int)
    requires Locally(s, w) && ClearMin(s, s', w, now)
    ensures BucketOk(s', s.waits[w].b)
  {
  }

  lemma ClearMinInv(s: State, s': State, w: WaitId, now: int)
    requires Inv(s) && ClearMin(s, s', w, now)
    ensures Inv(s') && AllKept(s, s')
    ensures BucketStep(s, s', w)
  {
    assert AnyWait(w) && AnyBucket(s.waits[w].b);
    ClearMinWait(s, s', w, now);
    ClearMinBucket(s, s', w, now);
    BucketStepInv(s, s', w);
  }

  lemma EndExpiredWait(s: State, s': State, w: WaitId, root: Option<WaitId>)
    requires WaitOk(s, w) && FiberOk(s, w) && EndExpired(s, s', w, root)
    ensures BucketStep(s, s', w) && Path(s'.waits[w]) && FiberOk(s', w)
  {
  }

  lemma EndExpiredBucket(s: State, s': State, w: WaitId, root: Option<WaitId>)
    requires Locally(s, w) && EndExpired(s, s', w, root)
    ensures BucketOk(s', s.waits[w].b)
  {
    var b := s.waits[w].b;
    if root == None {
      assert s'.buckets[b].min == None;
    } else {
      assert !Clean(s', b);
    }
  }

  lemma EndExpiredInv(s: State, s': State, w: WaitId, root: Option<WaitId>)
    requires Inv(s) && EndExpired(s, s', w, root)
    ensures Inv(s') && AllKept(s, s')
    ensures BucketStep(s, s', w)
  {
    assert AnyWait(w) && AnyBucket(s.waits[w].b);
    EndExpiredWait(s, s', w, root);
    EndExpiredBucket(s, s', w, root);
    BucketStepInv(s, s', w);
  }

  lemma ProcSetsMinWait(s: State, s': State, w: WaitId)
    requires WaitOk(s, w) && FiberOk(s, w) && ProcSetsMin(s, s', w)
    ensures BucketStep(s, s', w) && Path(s'.waits[w]) && FiberOk(s', w)
  {
  }

  lemma ProcSetsMinBucket(s: State, s': State, w: WaitId)
    requires Locally(s, w) && ProcSetsMin(s, s', w)
    ensures BucketOk(s', s.waits[w].b)
  {
  }

  lemma ProcSetsMinInv(s: State, s': State, w: WaitId)
    requires Inv(s) && ProcSetsMin(s, s', w)
    ensures Inv(s') && AllKept(s, s')
    ensures BucketStep(s, s', w)
  {
    assert AnyWait(w) && AnyBucket(s.waits[w].b);
    ProcSetsMinWait(s, s', w);
    ProcSetsMinBucket(s, s', w);
    BucketStepInv(s, s', w);
  }

  lemma ProcArmsWait(s: State, s': State, w: WaitId)
    requires WaitOk(s, w) && FiberOk(s, w) && ProcArms(s, s', w)
    ensures BucketStep(s, s', w) && Path(s'.waits[w]) && FiberOk(s', w)
  {
  }

  lemma ProcArmsBucket(s: State, s': State, w: WaitId)
    requires Locally(s, w) && ProcArms(s, s', w)
    ensures BucketOk(s', s.waits[w].b)
  {
  }

  lemma ProcArmsInv(s: State, s': State, w: WaitId)
    requires Inv(s) && ProcArms(s, s', w)
    ensures Inv(s') && AllKept(s, s')
    ensures BucketStep(s, s', w)
  {
    assert AnyWait(w) && AnyBucket(s.waits[w].b);
    ProcArmsWait(s, s', w);
    ProcArmsBucket(s, s', w);
    BucketStepInv(s, s', w);
  }

  // ---------------------------------------------------------------------------------------------
  // Steps of a fiber under the lock of a queue
  // ---------------------------------------------------------------------------------------------

  ghost predicate QueueStep(s: State, s': State, w: WaitId) {
    && At(s, w) && |s'.waits| == |s.waits| && |s'.queues| == |s.queues|
    && var wt, wt', q := s.waits[w], s'.waits[w], s.waits[w].q;
    && var qu, qu' := s.queues[q], s'.queues[q];
       && s' == s.(waits := s.waits[w := wt'], queues := s.queues[q := qu'])
       && wt' == wt.(fpc := wt'.fpc, node := wt'.node) && (wt'.node == Popped <==> wt.node == Popped)
       && (qu.lock == None || qu.lock == Some(QueueFiber(w)))
       && (forall u :: u in qu.nodes && u != w ==> u in qu'.nodes)
       && match wt.fpc
          case Start => wt'.fpc == Recheck
          case Recheck => wt'.fpc == Insert || wt'.fpc == Refused
          case Insert => wt'.fpc == AddHeap || wt'.fpc == Prepare
          case Unqueue(res) => wt'.fpc == Done(res)
          case _ => false
  }

  lemma QueueStepWaits(s: State, s': State, w: WaitId)
    requires Inv(s) && QueueStep(s, s', w) && Path(s'.waits[w])
    ensures Waits(s')
  {
    assert AnyWait(w);
  }

  lemma QueueStepJob(s: State, s': State, w: WaitId, j: JobId)
    requires Context(s, j) && QueueStep(s, s', w)
    requires Gone(s'.waits[w].fpc) && !s.waits[w].fpc.Unqueue? ==> s.waits[w].node != Popped
    ensures JobOk(s', j)
  {
  }

  lemma QueueStepJobs(s: State, s': State, w: WaitId)
    requires Inv(s) && QueueStep(s, s', w)
    ensures Jobs(s')
  {
    assert AnyWait(w);
    forall j | AnyJob(j) && 0 <= j < |s.jobs| ensures JobOk(s', j) {
      JobContext(s, j);
      QueueStepJob(s, s', w, j);
    }
  }

  lemma QueueStepFibers(s: State, s': State, w: WaitId)
    requires Inv(s) && QueueStep(s, s', w) && FiberOk(s', w) && QueueOk(s', s.waits[w].q)
    ensures Fibers(s') && Wakers(s') && Handlers(s') && Queues(s')
  {
  }

  lemma QueueStepBucket(s: State, s': State, w: WaitId, b: nat)
    requires BucketOk(s, b) && QueueStep(s, s', w)
    ensures BucketOk(s', b)
  {
  }

  lemma QueueStepBuckets(s: State, s': State, w: WaitId)
    requires Buckets(s) && QueueStep(s, s', w)
    ensures Buckets(s')
  {
    forall b | AnyBucket(b) && 0 <= b < |s.buckets| ensures BucketOk(s', b) {
      QueueStepBucket(s, s', w, b);
    }
  }

  lemma QueueStepInv(s: State, s': State, w: WaitId)
    requires Inv(s) && QueueStep(s, s', w)
    requires Path(s'.waits[w]) && FiberOk(s', w) && QueueOk(s', s.waits[w].q)
    ensures Inv(s') && AllKept(s, s')
  {
    QueueStepWaits(s, s', w);
    QueueStepJobs(s, s', w);
    QueueStepFibers(s, s', w);
    QueueStepBuckets(s, s', w);
  }

  lemma LockQueueInv(s: State, s': State, w: WaitId)
    requires Inv(s) && LockQueue(s, s', w)
    ensures Inv(s') && AllKept(s, s')
    ensures QueueStep(s, s', w)
  {
    assert AnyWait(w) && AnyQueue(s.waits[w].q);
    QueueStepInv(s, s', w);
  }

  lemma RunRecheckLocal(s: State, s': State, w: WaitId, wait: bool)
    requires RunRecheck(s, s', w, wait) && WaitOk(s, w) && FiberOk(s, w) && QueueOk(s, s.waits[w].q)
    ensures QueueStep(s, s', w) && Path(s'.waits[w]) && FiberOk(s', w) && QueueOk(s', s.waits[w].q)
  {
  }

  lemma RunRecheckInv(s: State, s': State, w: WaitId, wait: bool)
    requires Inv(s) && RunRecheck(s, s', w, wait)
    ensures Inv(s') && AllKept(s, s')
    ensures QueueStep(s, s', w)
  {
    assert AnyWait(w) && AnyQueue(s.waits[w].q);
    RunRecheckLocal(s, s', w, wait);
    QueueStepInv(s, s', w);
  }

  lemma InsertNodeInv(s: State, s': State, w: WaitId)
    requires Inv(s) && InsertNode(s, s', w)
    ensures Inv(s') && AllKept(s, s')
    ensures QueueStep(s, s', w)
  {
    assert AnyWait(w) && AnyQueue(s.waits[w].q);
    QueueStepInv(s, s', w);
  }

  lemma {:induction false} WithoutFacts(nodes: seq<WaitId>, w: WaitId)
    requires Distinct(nodes)
    ensures Distinct(Without(nodes, w))
    ensures forall u :: u in Without(nodes, w) <==> u in nodes && u != w
  {
    if nodes != [] && nodes[0] != w {
      WithoutFacts(nodes[1..], w);
      var rest := Without(nodes[1..], w);
      assert forall i :: 0 <= i < |rest| ==> rest[i] in nodes[1..];
    }
  }

  lemma UnqueuedPath(wt: Wait)
    requires Path(wt) && wt.fpc.Unqueue?
    ensures Path(wt.(fpc := Done(wt.fpc.res), node := if wt.node == Popped then Popped else Unlinked))
  {
  }

  lemma RemoveNodeWait(s: State, s': State, w: WaitId)
    requires FiberOk(s, w) && Path(s.waits[w]) && RemoveNode(s, s', w)
    ensures Path(s'.waits[w]) && FiberOk(s', w)
  {
    UnqueuedPath(s.waits[w]);
  }

  lemma RemoveNodeStep(s: State, s': State, w: WaitId)
    requires RemoveNode(s, s', w) && Distinct(s.queues[s.waits[w].q].nodes) && WaitOk(s, w)
    ensures QueueStep(s, s', w)
  {
    WithoutFacts(s.queues[s.waits[w].q].nodes, w);
  }

  lemma RemoveNodeQueue(s: State, s': State, w: WaitId)
    requires RemoveNode(s, s', w) && QueueOk(s, s.waits[w].q)
    ensures QueueOk(s', s.waits[w].q)
  {
    WithoutFacts(s.queues[s.waits[w].q].nodes, w);
  }

  lemma RemoveNodeInv(s: State, s': State, w: WaitId)
    requires Inv(s) && RemoveNode(s, s', w)
    ensures Inv(s') && AllKept(s, s')
    ensures QueueStep(s, s', w)
  {
    assert AnyWait(w) && AnyQueue(s.waits[w].q);
    RemoveNodeWait(s, s', w);
    RemoveNodeStep(s, s', w);
    RemoveNodeQueue(s, s', w);
    QueueStepInv(s, s', w);
  }

  /** A step that concerns no queue, no waker and no handler. */
  lemma OthersKept(s: State, s': State)
    requires Wakers(s) && Handlers(s) && Queues(s)
    requires s'.wakers == s.wakers && s'.handlers == s.handlers && s'.queues == s.queues
    requires |s'.waits| == |s.waits| && |s'.buckets| == |s.buckets| && s.jobs <= s'.jobs
    requires forall w :: 0 <= w < |s.waits| ==> s'.waits[w].node == s.waits[w].node && s'.waits[w].q == s.waits[w].q
    requires forall b :: 0 <= b < |s.buckets| ==> s'.buckets[b].minLock == s.buckets[b].minLock
    ensures Wakers(s') && Handlers(s') && Queues(s')
  {
  }

  // ---------------------------------------------------------------------------------------------
  // A fiber leaves the timers behind
  // ---------------------------------------------------------------------------------------------

  ghost predicate ExitStep(s: State, s': State, w: WaitId) {
    && At(s, w) && |s'.waits| == |s.waits| && s' == SetWait(s, w, s.waits[w].(fpc := s'.waits[w].fpc))
    && var a, c := s.waits[w].fpc, s'.waits[w].fpc;
       || (a == LoadReason && c == Done(Success) && !s.waits[w].timed && s.waits[w].reason == Ready)
       || (a == LoadReason && c == Unqueue(TimedOut) && s.waits[w].reason == TimedOutNoCheck)
       || (a.ProcPush? && c == Unqueue(a.res)
           && forall j :: 0 <= j < |s.jobs| && s.jobs[j].caller == FromFiber(w) ==> s.jobs[j].stage != ToPush)
  }

  lemma ExitStepJob(s: State, s': State, w: WaitId, j: JobId)
    requires Context(s, j) && ExitStep(s, s', w) && Path(s.waits[w])
    ensures JobOk(s', j)
  {
  }

  lemma ExitStepWait(s: State, s': State, w: WaitId)
    requires WaitOk(s, w) && ExitStep(s, s', w)
    ensures WaitOk(s', w)
  {
  }

  lemma ExitStepOther(s: State, s': State, w: WaitId, u: WaitId)
    requires ExitStep(s, s', w) && WaitOk(s, u) && FiberOk(s, u) && u != w
    ensures WaitOk(s', u) && FiberOk(s', u)
  {
  }

  lemma ExitStepFiber(s: State, s': State, w: WaitId)
    requires ExitStep(s, s', w) && FiberOk(s, w)
    ensures FiberOk(s', w)
  {
  }

  lemma ExitStepWaits(s: State, s': State, w: WaitId)
    requires Waits(s) && Fibers(s) && WaitOk(s', w) && ExitStep(s, s', w)
    ensures Waits(s') && Fibers(s')
  {
    assert AnyWait(w);
    ExitStepFiber(s, s', w);
    forall u | AnyWait(u) && 0 <= u < |s.waits| && u != w ensures WaitOk(s', u) && FiberOk(s', u) {
      ExitStepOther(s, s', w, u);
    }
  }

  lemma ExitStepBucket(s: State, s': State, w: WaitId, b: nat)
    requires BucketOk(s, b) && ExitStep(s, s', w)
    ensures BucketOk(s', b)
  {
  }

  lemma ExitStepJobs(s: State, s': State, w: WaitId)
    requires Inv(s) && ExitStep(s, s', w)
    ensures Jobs(s')
  {
    assert AnyWait(w);
    forall j | AnyJob(j) && 0 <= j < |s.jobs| ensures JobOk(s', j) {
      JobContext(s, j);
      ExitStepJob(s, s', w, j);
    }
  }

  lemma ExitStepBuckets(s: State, s': State, w: WaitId)
    requires Buckets(s) && ExitStep(s, s', w)
    ensures Buckets(s')
  {
    forall b | AnyBucket(b) && 0 <= b < |s.buckets| ensures BucketOk(s', b) {
      ExitStepBucket(s, s', w, b);
    }
  }

  lemma ExitStepInv(s: State, s': State, w: WaitId)
    requires Inv(s) && ExitStep(s, s', w)
    ensures Inv(s') && AllKept(s, s')
  {
    assert AnyWait(w);
    OthersKept(s, s');
    ExitStepWait(s, s', w);
    ExitStepWaits(s, s', w);
    ExitStepJobs(s, s', w);
    ExitStepBuckets(s, s', w);
  }

  lemma ReadPath(wt: Wait)
    requires Handshake(wt) && Path(wt) && wt.fpc == LoadReason && wt.timed
    ensures wt.wakeReason == Ready ==> Path(wt.(fpc := DelHeap))
    ensures wt.wakeReason == TimedOutCheck ==> Path(wt.(fpc := ProcLock))
  {
  }

  lemma ReadReasonLocal(s: State, s': State, w: WaitId)
    requires ReadReason(s, s', w) && WaitOk(s, w) && PreVisit(s'.waits[w].fpc)
    ensures LocalOk(s, s', w)
  {
    ReadPath(s.waits[w]);
  }

  lemma ReadReasonExit(s: State, s': State, w: WaitId)
    requires ReadReason(s, s', w) && WaitOk(s, w) && !PreVisit(s'.waits[w].fpc)
    ensures ExitStep(s, s', w)
  {
  }

  lemma ReadReasonInv(s: State, s': State, w: WaitId)
    requires Inv(s) && ReadReason(s, s', w)
    ensures Inv(s') && AllKept(s, s')
    ensures LocalStep(s, s', w) || ExitStep(s, s', w)
  {
    assert AnyWait(w);
    if PreVisit(s'.waits[w].fpc) {
      ReadReasonLocal(s, s', w);
      LocalInv(s, s', w);
    } else {
      ReadReasonExit(s, s', w);
      ExitStepInv(s, s', w);
    }
  }

  lemma EndProcessInv(s: State, s': State, w: WaitId)
    requires Inv(s) && EndProcess(s, s', w)
    ensures Inv(s') && AllKept(s, s')
    ensures ExitStep(s, s', w)
  {
    ExitStepInv(s, s', w);
  }

  // ---------------------------------------------------------------------------------------------
  // Calls of fev_waiter_wake() begin and end
  // ---------------------------------------------------------------------------------------------

  /** The root of a bucket, seen by the fiber that holds the lock and has cleared bucket->min. */
  lemma RootTarget(s: State, w: WaitId, v: WaitId)
    requires Inv(s) && At(s, w) && s.waits[w].fpc.ProcLoop? && s.buckets[s.waits[w].b].root == Some(v)
    ensures v < |s.waits| && s.waits[v].timer == InHeap && s.waits[v].b == s.waits[w].b
    ensures s.buckets[s.waits[w].b].lock == Some(w) && s.buckets[s.waits[w].b].min == None
    ensures v == w || PreVisit(s.waits[v].fpc)
    ensures WaitOk(s, v) && FiberOk(s, v) && WaitOk(s, w) && FiberOk(s, w)
  {
    assert AnyWait(w) && AnyBucket(s.waits[w].b);
    assert AnyWait(v);
  }

  lemma ExpiredPath(wt: Wait, j: JobId)
    requires Handshake(wt) && Path(wt) && wt.timer == InHeap && (PreVisit(wt.fpc) || wt.fpc.ProcLoop?)
    ensures Path(wt.(timer := Expired, expirer := Some(j)))
  {
  }

  lemma LoopPath(wt: Wait, fpc: FiberPc)
    requires Path(wt) && (wt.fpc.ProcLoop? || wt.fpc.ProcWake?) && (fpc.ProcLoop? || fpc.ProcWake?)
    ensures Path(wt.(fpc := fpc))
  {
  }

  /** What the step makes of one wait. */
  lemma ExpiredWait(wt: Wait, w: WaitId, jobs: seq<Job>, job: Job, wt': Wait)
    requires Handshake(wt) && Path(wt) && SetterOk(wt, w, jobs)
    requires wt' == wt.(fpc := wt'.fpc, timer := wt'.timer, expirer := wt'.expirer) && Path(wt')
    requires wt'.fpc == wt.fpc || (wt.fpc.ProcLoop? && wt'.fpc.ProcWake?)
    ensures Handshake(wt') && SetterOk(wt', w, jobs + [job])
  {
  }

  lemma ExpireRootWait(s: State, s': State, w: WaitId, v: WaitId, root: Option<WaitId>, u: WaitId)
    requires ExpireRoot(s, s', w, v, root) && WaitOk(s, u)
    requires s.waits[v].timer == InHeap && (v == w || PreVisit(s.waits[v].fpc))
    ensures WaitOk(s', u)
  {
    var wt := s.waits[u];
    if u == v {
      ExpiredPath(wt, |s.jobs|);
    }
    if u == w {
      LoopPath(if u == v then wt.(timer := Expired, expirer := Some(|s.jobs|)) else wt, s'.waits[u].fpc);
    }
    ExpiredWait(wt, u, s.jobs, s'.jobs[|s.jobs|], s'.waits[u]);
  }

  lemma ExpireRootFiber(s: State, s': State, w: WaitId, v: WaitId, root: Option<WaitId>, u: WaitId)
    requires ExpireRoot(s, s', w, v, root) && FiberOk(s, u)
    ensures FiberOk(s', u)
  {
  }

  lemma ExpireRootJob(s: State, s': State, w: WaitId, v: WaitId, root: Option<WaitId>, j: JobId)
    requires ExpireRoot(s, s', w, v, root) && Path(s.waits[v]) && s.waits[v].timer == InHeap
    requires s.waits[v].b == s.waits[w].b
    requires v == w || PreVisit(s.waits[v].fpc)
    requires if j < |s.jobs| then Context(s, j) else j == |s.jobs|
    ensures JobOk(s', j)
  {
  }

  lemma ExpireRootOwnBucket(s: State, s': State, w: WaitId, v: WaitId, root: Option<WaitId>)
    requires ExpireRoot(s, s', w, v, root) && BucketOk(s, s.waits[w].b)
    requires s.waits[v].b == s.waits[w].b && s.buckets[s.waits[w].b].lock == Some(w)
    ensures BucketOk(s', s.waits[w].b)
  {
  }

  lemma ExpireRootOtherBucket(s: State, s': State, w: WaitId, v: WaitId, root: Option<WaitId>, b: nat)
    requires ExpireRoot(s, s', w, v, root) && BucketOk(s, b) && b != s.waits[w].b && s.waits[v].b == s.waits[w].b
    ensures BucketOk(s', b)
  {
  }

  lemma ExpireRootBucket(s: State, s': State, w: WaitId, v: WaitId, root: Option<WaitId>, b: nat)
    requires ExpireRoot(s, s', w, v, root) && BucketOk(s, b)
    requires s.waits[v].b == s.waits[w].b && s.buckets[s.waits[w].b].lock == Some(w)
    ensures BucketOk(s', b)
  {
    if b == s.waits[w].b {
      ExpireRootOwnBucket(s, s', w, v, root);
    } else {
      ExpireRootOtherBucket(s, s', w, v, root, b);
    }
  }

  lemma ExpireRootKept(s: State, s': State, w: WaitId, v: WaitId, root: Option<WaitId>)
    requires ExpireRoot(s, s', w, v, root)
    ensures AllKept(s, s')
  {
  }

  lemma ExpireRootFibers(s: State, s': State, w: WaitId, v: WaitId, root: Option<WaitId>)
    requires Waits(s) && Fibers(s) && ExpireRoot(s, s', w, v, root)
    requires s.waits[v].timer == InHeap && (v == w || PreVisit(s.waits[v].fpc))
    ensures Waits(s') && Fibers(s')
  {
    forall u | AnyWait(u) && 0 <= u < |s.waits| ensures WaitOk(s', u) && FiberOk(s', u) {
      ExpireRootWait(s, s', w, v, root, u);
      ExpireRootFiber(s, s', w, v, root, u);
    }
  }

  lemma ExpireRootJobs(s: State, s': State, w: WaitId, v: WaitId, root: Option<WaitId>)
    requires Inv(s) && ExpireRoot(s, s', w, v, root)
    ensures Jobs(s')
  {
    RootTarget(s, w, v);
    forall j | AnyJob(j) && 0 <= j < |s'.jobs| ensures JobOk(s', j) {
      if j < |s.jobs| {
        JobContext(s, j);
      }
      ExpireRootJob(s, s', w, v, root, j);
    }
  }

  lemma ExpireRootBuckets(s: State, s': State, w: WaitId, v: WaitId, root: Option<WaitId>)
    requires Buckets(s) && ExpireRoot(s, s', w, v, root)
    requires s.waits[v].b == s.waits[w].b && s.buckets[s.waits[w].b].lock == Some(w)
    ensures Buckets(s')
  {
    forall b | AnyBucket(b) && 0 <= b < |s.buckets| ensures BucketOk(s', b) {
      ExpireRootBucket(s, s', w, v, root, b);
    }
  }

  lemma ExpireRootOthers(s: State, s': State, w: WaitId, v: WaitId, root: Option<WaitId>)
    requires Wakers(s) && Handlers(s) && Queues(s) && ExpireRoot(s, s', w, v, root)
    ensures Wakers(s') && Handlers(s') && Queues(s')
  {
    OthersKept(s, s');
  }

  lemma ExpireRootInv(s: State, s': State, w: WaitId, v: WaitId, root: Option<WaitId>)
    requires Inv(s) && ExpireRoot(s, s', w, v, root)
    ensures Inv(s') && AllKept(s, s')
  {
    RootTarget(s, w, v);
    ExpireRootKept(s, s', w, v, root);
    ExpireRootFibers(s, s', w, v, root);
    ExpireRootJobs(s, s', w, v, root);
    ExpireRootBuckets(s, s', w, v, root);
    ExpireRootOthers(s, s', w, v, root);
  }

  lemma NextExpiredWait(s: State, s': State, w: WaitId, u: WaitId)
    requires NextExpired(s, s', w) && WaitOk(s, u) && WaitOk(s, w)
    ensures WaitOk(s', u)
  {
    if u == w {
      LoopPath(s.waits[w], s'.waits[w].fpc);
    }
    CollectedSetter(s, s', w, u);
  }

  /** Taking the fiber out of a call changes nothing for the wait that the call was made for. */
  lemma CollectedSetter(s: State, s': State, w: WaitId, u: WaitId)
    requires NextExpired(s, s', w) && u < |s.waits| && SetterOk(s.waits[u], u, s.jobs)
    ensures SetterOk(s'.waits[u], u, s'.jobs)
  {
  }

  lemma NextExpiredFiber(s: State, s': State, w: WaitId, u: WaitId)
    requires NextExpired(s, s', w) && FiberOk(s, u) && FiberOk(s, w)
    ensures FiberOk(s', u)
  {
  }

  lemma NextExpiredJob(s: State, s': State, w: WaitId, j: JobId)
    requires NextExpired(s, s', w) && Context(s, j) && FiberOk(s, w)
    ensures JobOk(s', j)
  {
  }

  lemma NextExpiredBucket(s: State, s': State, w: WaitId, b: nat)
    requires NextExpired(s, s', w) && BucketOk(s, b)
    ensures BucketOk(s', b)
  {
  }

  lemma NextExpiredOthers(s: State, s': State, w: WaitId)
    requires Wakers(s) && Handlers(s) && Queues(s) && FiberOk(s, w) && NextExpired(s, s', w)
    ensures Wakers(s') && Handlers(s') && Queues(s')
  {
    forall k | AnyWaker(k) && 0 <= k < |s.wakers| ensures WakerOk(s', k) {
      CollectedElsewhere(s, s.waits[w].fpc.j, FromWaker(k));
    }
    forall h | AnyHandler(h) && 0 <= h < |s.handlers| ensures HandlerOk(s', h) {
      CollectedElsewhere(s, s.waits[w].fpc.j, FromHandler(h));
    }
  }

  lemma NextExpiredKept(s: State, s': State, w: WaitId)
    requires NextExpired(s, s', w)
    ensures AllKept(s, s')
  {
  }

  lemma NextExpiredFibers(s: State, s': State, w: WaitId)
    requires Waits(s) && Fibers(s) && NextExpired(s, s', w)
    ensures Waits(s') && Fibers(s')
  {
    assert AnyWait(w);
    forall u | AnyWait(u) && 0 <= u < |s.waits| ensures WaitOk(s', u) && FiberOk(s', u) {
      NextExpiredWait(s, s', w, u);
      NextExpiredFiber(s, s', w, u);
    }
  }

  lemma NextExpiredJobs(s: State, s': State, w: WaitId)
    requires Inv(s) && NextExpired(s, s', w)
    ensures Jobs(s')
  {
    assert AnyWait(w);
    forall j | AnyJob(j) && 0 <= j < |s'.jobs| ensures JobOk(s', j) {
      JobContext(s, j);
      NextExpiredJob(s, s', w, j);
    }
  }

  lemma NextExpiredInv(s: State, s': State, w: WaitId)
    requires Inv(s) && NextExpired(s, s', w)
    ensures Inv(s') && AllKept(s, s')
  {
    assert AnyWait(w);
    NextExpiredKept(s, s', w);
    NextExpiredFibers(s, s', w);
    NextExpiredJobs(s, s', w);
    forall b | AnyBucket(b) && 0 <= b < |s.buckets| ensures BucketOk(s', b) {
      NextExpiredBucket(s, s', w, b);
    }
    NextExpiredOthers(s, s', w);
  }

  /** Taking the fiber out of one call changes no call that anyone else made. */
  lemma CollectedElsewhere(s: State, called: JobId, caller: Caller)
    requires called < |s.jobs| && s.jobs[called].caller != caller
    ensures forall j: JobId :: CallsJob(s.jobs, j, caller) ==> CallsJob(Collect(s.jobs, called), j, caller)
  {
  }

  lemma PoppedPath(wt: Wait, j: JobId)
    requires Handshake(wt) && Path(wt) && wt.node == InQueue
    ensures Path(wt.(node := Popped, popper := Some(j)))
  {
  }

  lemma WakerPopsWait(s: State, s': State, k: WakerId, u: WaitId)
    requires WakerPops(s, s', k) && WaitOk(s, u) && s.waits[s.queues[s.wakers[k].q].nodes[0]].node == InQueue
    ensures WaitOk(s', u)
  {
    if u == s.queues[s.wakers[k].q].nodes[0] {
      PoppedPath(s.waits[u], |s.jobs|);
    }
  }

  lemma WakerPopsWaits(s: State, s': State, k: WakerId)
    requires Inv(s) && WakerPops(s, s', k)
    ensures Waits(s')
  {
    assert AnyQueue(s.wakers[k].q);
    forall u | AnyWait(u) && 0 <= u < |s.waits| ensures WaitOk(s', u) {
      WakerPopsWait(s, s', k, u);
    }
  }

  lemma WakerPopsFiber(s: State, s': State, k: WakerId, u: WaitId)
    requires WakerPops(s, s', k) && FiberOk(s, u) && QueueOk(s, s.wakers[k].q) && WakerOk(s, k)
    ensures FiberOk(s', u)
  {
  }

  lemma WakerPopsQueue(s: State, s': State, k: WakerId, p: nat)
    requires WakerPops(s, s', k) && QueueOk(s, p) && QueueOk(s, s.wakers[k].q)
    ensures QueueOk(s', p)
  {
    var nodes := s.queues[p].nodes;
    assert s.queues[s.wakers[k].q].nodes[0] in s.queues[s.wakers[k].q].nodes;
    if p == s.wakers[k].q {
      assert nodes == [nodes[0]] + nodes[1..];
      forall i | 0 <= i < |nodes| - 1 ensures nodes[1..][i] in nodes && nodes[1..][i] != nodes[0] {
        assert nodes[1..][i] == nodes[i + 1];
      }
    }
  }

  lemma WakerPopsFibers(s: State, s': State, k: WakerId)
    requires Fibers(s) && Queues(s) && Wakers(s) && WakerPops(s, s', k)
    ensures Fibers(s') && Queues(s')
  {
    assert AnyWaker(k) && AnyQueue(s.wakers[k].q);
    forall u | AnyWait(u) && 0 <= u < |s.waits| ensures FiberOk(s', u) {
      WakerPopsFiber(s, s', k, u);
    }
    forall p | AnyQueue(p) && 0 <= p < |s.queues| ensures QueueOk(s', p) {
      WakerPopsQueue(s, s', k, p);
    }
  }

  lemma WakerPopsOwners(s: State, s': State, k: WakerId)
    requires Wakers(s) && Handlers(s) && WakerPops(s, s', k)
    ensures Wakers(s') && Handlers(s')
  {
    assert AnyWaker(k);
  }

  lemma WakerPopsJob(s: State, s': State, k: WakerId, j: JobId)
    requires WakerPops(s, s', k) && WakerOk(s, k) && QueueOk(s, s.wakers[k].q)
    requires WaitOk(s, s.queues[s.wakers[k].q].nodes[0])
    requires if j < |s.jobs| then Context(s, j) else j == |s.jobs|
    ensures JobOk(s', j)
  {
  }

  lemma WakerPopsJobs(s: State, s': State, k: WakerId)
    requires Inv(s) && WakerPops(s, s', k)
    ensures Jobs(s')
  {
    assert AnyWaker(k) && AnyWait(s.queues[s.wakers[k].q].nodes[0]) && AnyQueue(s.wakers[k].q);
    forall j | AnyJob(j) && 0 <= j < |s'.jobs| ensures JobOk(s', j) {
      if j < |s.jobs| {
        JobContext(s, j);
      }
      WakerPopsJob(s, s', k, j);
    }
  }

  lemma WakerPopsBucket(s: State, s': State, k: WakerId, b: nat)
    requires BucketOk(s, b) && WakerPops(s, s', k)
    ensures BucketOk(s', b)
  {
  }

  lemma WakerPopsBuckets(s: State, s': State, k: WakerId)
    requires Inv(s) && WakerPops(s, s', k)
    ensures Buckets(s')
  {
    forall b | AnyBucket(b) && 0 <= b < |s.buckets| ensures BucketOk(s', b) {
      WakerPopsBucket(s, s', k, b);
    }
  }

  lemma WakerPopsInv(s: State, s': State, k: WakerId)
    requires Inv(s) && WakerPops(s, s', k)
    ensures Inv(s') && AllKept(s, s')
  {
    WakerPopsWaits(s, s', k);
    WakerPopsFibers(s, s', k);
    WakerPopsOwners(s, s', k);
    WakerPopsJobs(s, s', k);
    WakerPopsBuckets(s, s', k);
  }

  lemma WakerNextWaits(s: State, s': State, k: WakerId)
    requires Inv(s) && WakerNext(s, s', k)
    ensures Waits(s')
  {
    assert AnyWaker(k) && AnyJob(s.wakers[k].pc.j);
  }

  lemma WakerNextFiber(s: State, s': State, k: WakerId, u: WaitId)
    requires WakerNext(s, s', k) && WakerOk(s, k) && FiberOk(s, u)
    ensures FiberOk(s', u)
  {
    CollectedElsewhere(s, s.wakers[k].pc.j, FromFiber(u));
  }

  lemma WakerNextFibers(s: State, s': State, k: WakerId)
    requires Fibers(s) && Queues(s) && Wakers(s) && WakerNext(s, s', k)
    ensures Fibers(s') && Queues(s')
  {
    assert AnyWaker(k);
    forall u | AnyWait(u) && 0 <= u < |s.waits| ensures FiberOk(s', u) {
      WakerNextFiber(s, s', k, u);
    }
  }

  lemma WakerNextOwners(s: State, s': State, k: WakerId)
    requires Inv(s) && WakerNext(s, s', k)
    ensures Wakers(s') && Handlers(s')
  {
    assert AnyWaker(k) && AnyJob(s.wakers[k].pc.j);
  }

  lemma WakerNextJobs(s: State, s': State, k: WakerId)
    requires Inv(s) && WakerNext(s, s', k)
    ensures Jobs(s')
  {
    assert AnyWaker(k);
    forall j | AnyJob(j) && 0 <= j < |s'.jobs| ensures JobOk(s', j) {
      if j < |s.jobs| {
        JobContext(s, j);
      }
    }
  }

  lemma WakerNextBuckets(s: State, s': State, k: WakerId)
    requires Inv(s) && WakerNext(s, s', k)
    ensures Buckets(s')
  {
    assert AnyWaker(k) && AnyJob(s.wakers[k].pc.j);
  }

  lemma WakerNextInv(s: State, s': State, k: WakerId)
    requires Inv(s) && WakerNext(s, s', k)
    ensures Inv(s') && AllKept(s, s')
  {
    WakerNextWaits(s, s', k);
    WakerNextFibers(s, s', k);
    WakerNextOwners(s, s', k);
    WakerNextJobs(s, s', k);
    WakerNextBuckets(s, s', k);
  }

  lemma HandlerReadsWaits(s: State, s': State, h: HandlerId)
    requires Inv(s) && HandlerReads(s, s', h)
    ensures Waits(s')
  {
    assert AnyHandler(h) && AnyBucket(s.handlers[h].b);
  }

  lemma HandlerReadsFibers(s: State, s': State, h: HandlerId)
    requires Fibers(s) && Queues(s) && HandlerReads(s, s', h)
    ensures Fibers(s') && Queues(s')
  {
  }

  lemma HandlerReadsOwners(s: State, s': State, h: HandlerId)
    requires Wakers(s) && Handlers(s) && HandlerReads(s, s', h)
    ensures Wakers(s') && Handlers(s')
  {
    assert AnyHandler(h);
  }

  lemma HandlerReadsJobs(s: State, s': State, h: HandlerId)
    requires Inv(s) && HandlerReads(s, s', h)
    ensures Jobs(s')
  {
    var bk := s.buckets[s.handlers[h].b];
    assert AnyHandler(h) && AnyBucket(s.handlers[h].b);
    if bk.min.Some? {
      assert AnyWait(bk.min.value);
    }
    forall j | AnyJob(j) && 0 <= j < |s'.jobs| ensures JobOk(s', j) {
      if j < |s.jobs| {
        JobContext(s, j);
      }
    }
  }

  lemma HandlerReadsBuckets(s: State, s': State, h: HandlerId)
    requires Inv(s) && HandlerReads(s, s', h)
    ensures Buckets(s')
  {
    assert AnyHandler(h) && AnyBucket(s.handlers[h].b);
  }

  lemma HandlerReadsInv(s: State, s': State, h: HandlerId)
    requires Inv(s) && HandlerReads(s, s', h)
    ensures Inv(s') && AllKept(s, s')
  {
    HandlerReadsWaits(s, s', h);
    HandlerReadsFibers(s, s', h);
    HandlerReadsOwners(s, s', h);
    HandlerReadsJobs(s, s', h);
    HandlerReadsBuckets(s, s', h);
  }

  lemma HandlerUnlocksWaits(s: State, s': State, h: HandlerId)
    requires Inv(s) && HandlerUnlocks(s, s', h)
    ensures Waits(s')
  {
    assert AnyHandler(h) && AnyJob(s.handlers[h].pc.j);
  }

  lemma HandlerUnlocksFiber(s: State, s': State, h: HandlerId, u: WaitId)
    requires HandlerUnlocks(s, s', h) && HandlerOk(s, h) && FiberOk(s, u)
    ensures FiberOk(s', u)
  {
    CollectedElsewhere(s, s.handlers[h].pc.j, FromFiber(u));
  }

  lemma HandlerUnlocksWaker(s: State, s': State, h: HandlerId, k: WakerId)
    requires HandlerUnlocks(s, s', h) && HandlerOk(s, h) && WakerOk(s, k)
    ensures WakerOk(s', k)
  {
    CollectedElsewhere(s, s.handlers[h].pc.j, FromWaker(k));
  }

  lemma HandlerUnlocksHandler(s: State, s': State, h: HandlerId, g: HandlerId)
    requires HandlerUnlocks(s, s', h) && HandlerOk(s, h) && HandlerOk(s, g)
    ensures HandlerOk(s', g)
  {
    if g != h {
      CollectedElsewhere(s, s.handlers[h].pc.j, FromHandler(g));
    }
  }

  lemma HandlerUnlocksOwners(s: State, s': State, h: HandlerId)
    requires Fibers(s) && Wakers(s) && Handlers(s) && Queues(s) && HandlerUnlocks(s, s', h)
    ensures Fibers(s') && Wakers(s') && Handlers(s') && Queues(s')
  {
    assert AnyHandler(h);
    forall u | AnyWait(u) && 0 <= u < |s.waits| ensures FiberOk(s', u) {
      HandlerUnlocksFiber(s, s', h, u);
    }
    forall k | AnyWaker(k) && 0 <= k < |s.wakers| ensures WakerOk(s', k) {
      HandlerUnlocksWaker(s, s', h, k);
    }
    forall g | AnyHandler(g) && 0 <= g < |s.handlers| ensures HandlerOk(s', g) {
      HandlerUnlocksHandler(s, s', h, g);
    }
  }

  lemma HandlerUnlocksJobs(s: State, s': State, h: HandlerId)
    requires Inv(s) && HandlerUnlocks(s, s', h)
    ensures Jobs(s')
  {
    assert AnyHandler(h);
    forall j | AnyJob(j) && 0 <= j < |s'.jobs| ensures JobOk(s', j) {
      if j < |s.jobs| {
        JobContext(s, j);
      }
    }
  }

  lemma HandlerUnlocksBuckets(s: State, s': State, h: HandlerId)
    requires Inv(s) && HandlerUnlocks(s, s', h)
    ensures Buckets(s')
  {
    assert AnyHandler(h) && AnyJob(s.handlers[h].pc.j);
  }

  lemma HandlerUnlocksInv(s: State, s': State, h: HandlerId)
    requires Inv(s) && HandlerUnlocks(s, s', h)
    ensures Inv(s') && AllKept(s, s')
  {
    HandlerUnlocksWaits(s, s', h);
    HandlerUnlocksOwners(s, s', h);
    HandlerUnlocksJobs(s, s', h);
    HandlerUnlocksBuckets(s, s', h);
  }

  lemma WakerLocksInv(s: State, s': State, k: WakerId)
    requires Inv(s) && WakerLocks(s, s', k)
    ensures Inv(s') && AllKept(s, s')
  {
    assert AnyWaker(k) && AnyQueue(s.wakers[k].q);
  }

  lemma WakerUnlocksInv(s: State, s': State, k: WakerId)
    requires Inv(s) && WakerUnlocks(s, s', k)
    ensures Inv(s') && AllKept(s, s')
  {
    assert AnyWaker(k) && AnyQueue(s.wakers[k].q);
  }

  lemma FireInv(s: State, s': State, b: nat)
    requires Inv(s) && Fire(s, s', b)
    ensures Inv(s') && AllKept(s, s')
  {
  }

  lemma HarvestInv(s: State, s': State, b: nat)
    requires Inv(s) && Harvest(s, s', b)
    ensures Inv(s') && AllKept(s, s')
  {
  }

  lemma CallWaitFibers(s: State, s': State, q: nat, b: nat, timed: bool, deadline: int)
    requires Waits(s) && Fibers(s) && CallWait(s, s', q, b, timed, deadline)
    ensures Waits(s') && Fibers(s')
  {
  }

  lemma CallWaitJobs(s: State, s': State, q: nat, b: nat, timed: bool, deadline: int)
    requires Jobs(s) && CallWait(s, s', q, b, timed, deadline)
    ensures Jobs(s')
  {
  }

  lemma CallWaitRest(s: State, s': State, q: nat, b: nat, timed: bool, deadline: int)
    requires Wakers(s) && Handlers(s) && Queues(s) && Buckets(s) && CallWait(s, s', q, b, timed, deadline)
    ensures Wakers(s') && Handlers(s') && Queues(s') && Buckets(s')
  {
  }

  lemma CallWaitInv(s: State, s': State, q: nat, b: nat, timed: bool, deadline: int)
    requires Inv(s) && CallWait(s, s', q, b, timed, deadline)
    ensures Inv(s') && AllKept(s, s')
  {
    CallWaitFibers(s, s', q, b, timed, deadline);
    CallWaitJobs(s, s', q, b, timed, deadline);
    CallWaitRest(s, s', q, b, timed, deadline);
  }

  lemma CallWakeInv(s: State, s': State, q: nat, limit: nat)
    requires Inv(s) && CallWake(s, s', q, limit)
    ensures Inv(s') && AllKept(s, s')
  {
  }

  // ---------------------------------------------------------------------------------------------
  // Every step keeps the invariant
  // ---------------------------------------------------------------------------------------------

  /** The shape of a fiber's step. */
  ghost predicate Shaped(s: State, s': State, w: WaitId, root: Option<WaitId>, v: WaitId) {
    || LocalStep(s, s', w) || BucketStep(s, s', w) || QueueStep(s, s', w) || ExitStep(s, s', w)
    || ExpireRoot(s, s', w, v, root) || NextExpired(s, s', w)
  }

  lemma FiberStepInv(s: State, s': State, w: WaitId, root: Option<WaitId>, v: WaitId, now: int)
    requires Inv(s) && FiberStep(s, s', w, root, v, now)
    ensures Inv(s') && AllKept(s, s')
    ensures Shaped(s, s', w, root, v)
  {
    match s.waits[w].fpc
    case Start => LockQueueInv(s, s', w);
    case Insert => InsertNodeInv(s, s', w);
    case AddHeap => AddToHeapInv(s, s', w);
    case AddSetMin => AddSetsMinInv(s, s', w);
    case AddArm => AddArmsInv(s, s', w);
    case Prepare => PrepareWaitInv(s, s', w);
    case Switch => SwitchOutInv(s, s', w);
    case Spin => SpinWaitInv(s, s', w);
    case LoadReason => ReadReasonInv(s, s', w);
    case DelHeap => DeleteTimerInv(s, s', w, root);
    case DelSetMin => DelSetsMinInv(s, s', w);
    case DelArm => DelArmsInv(s, s', w);
    case ProcLock => LockBucketInv(s, s', w);
    case ProcClear => ClearMinInv(s, s', w, now);
    case ProcLoop(_) =>
      if EndExpired(s, s', w, root) {
        EndExpiredInv(s, s', w, root);
      } else {
        ExpireRootInv(s, s', w, v, root);
      }
    case ProcWake(_, _) => NextExpiredInv(s, s', w);
    case ProcSetMin(_) => ProcSetsMinInv(s, s', w);
    case ProcArm(_) => ProcArmsInv(s, s', w);
    case ProcPush(_) => EndProcessInv(s, s', w);
    case Unqueue(_) => RemoveNodeInv(s, s', w);
  }

  lemma WakerStepInv(s: State, s': State, k: WakerId)
    requires Inv(s) && WakerStep(s, s', k)
    ensures Inv(s') && AllKept(s, s')
  {
    if WakerLocks(s, s', k) {
      WakerLocksInv(s, s', k);
    } else if WakerPops(s, s', k) {
      WakerPopsInv(s, s', k);
    } else if WakerNext(s, s', k) {
      WakerNextInv(s, s', k);
    } else {
      WakerUnlocksInv(s, s', k);
    }
  }

  lemma NextInv(s: State, s': State, step: Step)
    requires Inv(s) && Next(s, s', step)
    ensures Inv(s') && AllKept(s, s')
  {
    match step
    case DoCallWait(q, b, timed, deadline) => CallWaitInv(s, s', q, b, timed, deadline);
    case DoRecheck(w, wait) => RunRecheckInv(s, s', w, wait);
    case DoFiber(w, root, v, now) => FiberStepInv(s, s', w, root, v, now);
    case DoPost(w) => PostStepInv(s, s', w);
    case DoJob(j) => JobStepInv(s, s', j);
    case DoCallWake(q, limit) => CallWakeInv(s, s', q, limit);
    case DoWaker(k) => WakerStepInv(s, s', k);
    case DoFire(b) => FireInv(s, s', b);
    case DoHarvest(b) => HarvestInv(s, s', b);
    case DoHandler(h) =>
      if HandlerReads(s, s', h) {
        HandlerReadsInv(s, s', h);
      } else {
        HandlerUnlocksInv(s, s', h);
      }
  }
}
