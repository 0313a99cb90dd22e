/**
 * What holds in every run of the blocking machine: stack-lifetime safety, the handshake, deadlines,
 * and the order in which fev_waiters_queue_wake() serves a queue.
 */
module TimedWaitTheorems {
  import opened Common
  import opened TimedWait
  import opened TimedWaitInvariant

  // ---------------------------------------------------------------------------------------------
  // Whole runs
  // ---------------------------------------------------------------------------------------------

  ghost predicate IsRun(states: seq<State>, steps: seq<Step>) {
    && |states| == |steps| + 1
    && Init(states[0])
    && forall i {:trigger steps[i]} :: 0 <= i < |steps| ==> Next(states[i], states[i + 1], steps[i])
  }

  lemma {:induction false} RunInv(states: seq<State>, steps: seq<Step>, i: nat)
    requires IsRun(states, steps) && i < |states|
    ensures Inv(states[i])
  {
    if i == 0 {
      InitInv(states[0]);
    } else {
      RunInv(states, steps, i - 1);
      NextInv(states[i - 1], states[i], steps[i - 1]);
    }
  }

  // Lifetime of stack frames.

  /** The caller of a finished fev_waiter_wake() reads waiter->fiber, if it must wake the fiber. */
  ghost predicate ReadsFiber(s: State, j: JobId, v: WaitId) {
    j < |s.jobs| && s.jobs[j].stage == ReadFiber && s.jobs[j].v == v
  }

  /** The step may read or write the node, waiter or timer in the frame of wait `v`. */
  ghost predicate Touches(s: State, step: Step, v: WaitId) {
    match step
    case DoRecheck(w, _) => v == w
    case DoFiber(w, _, _, _) =>
      && At(s, w)
      && var wt := s.waits[w];
         || v == w
         // the list's neighbours when a node is linked or unlinked
         || ((wt.fpc == Insert || wt.fpc.Unqueue?) && v in s.queues[wt.q].nodes)
         // timers that a heap operation compares or moves, and the root when the poller is armed
         || ((wt.fpc == AddHeap || wt.fpc == DelHeap || wt.fpc.ProcLoop? || wt.fpc == DelArm || wt.fpc.ProcArm?)
             && v < |s.waits| && s.waits[v].timer == InHeap && s.waits[v].b == wt.b)
         || (wt.fpc.ProcWake? && ReadsFiber(s, wt.fpc.j, v))
    case DoPost(w) => v == w && w < |s.waits| && s.waits[w].post != PostPush
    case DoJob(j) => j < |s.jobs| && v == s.jobs[j].v && Running(s.jobs[j].stage)
    case DoWaker(k) =>
      && WakerAt(s, k)
      && var wk := s.wakers[k];
         || (wk.pc == WakerLoop && v in s.queues[wk.q].nodes)
         || (wk.pc.WakerWake? && ReadsFiber(s, wk.pc.j, v))
    case DoHandler(h) =>
      && HandlerAt(s, h)
      && var hd := s.handlers[h];
         || (hd.pc == HandlerReady && s.buckets[hd.b].min == Some(v))
         || (hd.pc.HandlerWake? && ReadsFiber(s, hd.pc.j, v))
    case _ => false
  }

  ghost predicate Alive(s: State, v: WaitId) {
    v < |s.waits| && !Gone(s.waits[v].fpc)
  }

  /** The target of a call of fev_waiter_wake() stays alive until the call and its caller are done with it. */
  lemma TargetAlive(s: State, j: JobId)
    requires Inv(s) && j < |s.jobs| && Running(s.jobs[j].stage)
    ensures Alive(s, s.jobs[j].v)
  {
    var v := s.jobs[j].v;
    assert AnyJob(j);
    assert AnyWait(v);
    match s.jobs[j].caller
    case FromWaker(_) =>
    case FromHandler(_) => MinAlive(s, s.waits[v].b);
    case FromFiber(u) => assert AnyWait(u);
  }

  lemma MinInBucket(s: State, b: nat)
    requires BucketOk(s, b) && s.buckets[b].min.Some?
    ensures var m := s.buckets[b].min.value;
            m < |s.waits| && (s.waits[m].timer == InHeap || s.waits[m].fpc == DelSetMin)
  {
  }

  lemma MinAlive(s: State, b: nat)
    requires Buckets(s) && Waits(s) && b < |s.buckets| && s.buckets[b].min.Some?
    ensures Alive(s, s.buckets[b].min.value)
  {
    assert AnyBucket(b);
    MinInBucket(s, b);
    if s.waits[s.buckets[b].min.value].timer == InHeap {
      LinkedAlive(s, s.buckets[b].min.value);
    }
  }

  /** A queued node, a timer in a heap. */
  lemma LinkedAlive(s: State, v: WaitId)
    requires Waits(s) && v < |s.waits| && (s.waits[v].node == InQueue || s.waits[v].timer == InHeap)
    ensures Alive(s, v)
  {
    assert AnyWait(v);
  }

  lemma QueuedAlive(s: State, q: nat, v: WaitId)
    requires Waits(s) && Queues(s) && q < |s.queues| && v in s.queues[q].nodes
    ensures Alive(s, v)
  {
    assert AnyQueue(q);
    LinkedAlive(s, v);
  }

  /** The call whose result the fiber is about to use. */
  lemma ExpiredAlive(s: State, w: WaitId, v: WaitId)
    requires Inv(s) && w < |s.waits| && s.waits[w].fpc.ProcWake? && ReadsFiber(s, s.waits[w].fpc.j, v)
    ensures Alive(s, v)
  {
    TargetAlive(s, s.waits[w].fpc.j);
  }

  lemma TouchedByFiber(s: State, step: Step, v: WaitId)
    requires Inv(s) && step.DoFiber? && Alive(s, step.w) && Touches(s, step, v)
    ensures Alive(s, v)
  {
    var wt := s.waits[step.w];
    if v != step.w {
      if v in s.queues[wt.q].nodes {
        QueuedAlive(s, wt.q, v);
      } else if wt.fpc.ProcWake? {
        ExpiredAlive(s, step.w, v);
      } else {
        LinkedAlive(s, v);
      }
    }
  }

  lemma TouchedByWaker(s: State, k: WakerId, v: WaitId)
    requires Inv(s) && Touches(s, DoWaker(k), v)
    ensures Alive(s, v)
  {
    if s.wakers[k].pc.WakerWake? {
      TargetAlive(s, s.wakers[k].pc.j);
    } else {
      QueuedAlive(s, s.wakers[k].q, v);
    }
  }

  lemma TouchedByHandler(s: State, h: HandlerId, v: WaitId)
    requires Inv(s) && Touches(s, DoHandler(h), v)
    ensures Alive(s, v)
  {
    if s.handlers[h].pc.HandlerWake? {
      TargetAlive(s, s.handlers[h].pc.j);
    } else {
      MinAlive(s, s.handlers[h].b);
    }
  }

  lemma TouchedByPost(s: State, s': State, w: WaitId, v: WaitId)
    requires Waits(s) && PostStep(s, s', w) && Touches(s, DoPost(w), v)
    ensures Alive(s, v)
  {
    assert AnyWait(w);
  }

  lemma TouchedAlive(s: State, s': State, step: Step, v: WaitId)
    requires Inv(s) && Next(s, s', step) && Touches(s, step, v)
    ensures Alive(s, v)
  {
    match step
    case DoFiber(_, _, _, _) => TouchedByFiber(s, step, v);
    case DoPost(w) => TouchedByPost(s, s', w, v);
    case DoJob(j) => TargetAlive(s, j);
    case DoWaker(k) => TouchedByWaker(s, k, v);
    case DoHandler(h) => TouchedByHandler(s, h, v);
    case _ =>
  }

  /**
   * Stack-lifetime safety: in every run, whoever touches a node, waiter or timer does so before the
   * fiber whose frame holds it has returned from fev_waiters_queue_wait(), on every exit.
   */
  lemma LifetimeSafety(states: seq<State>, steps: seq<Step>, i: nat, v: WaitId)
    requires IsRun(states, steps) && i < |steps| && Touches(states[i], steps[i], v)
    ensures Alive(states[i], v)
  {
    RunInv(states, steps, i);
    TouchedAlive(states[i], states[i + 1], steps[i], v);
  }

  // Deadlines.

  /**
   * No stranded deadline: when the lock of a non-empty bucket is free, bucket->min is a timer with the
   * least deadline, and its deadline is armed in the poller, or its event is on the way to the
   * timer's waiter, or the waiter has a reason and its fiber has yet to visit the bucket.
   */
  lemma NoStrandedDeadline(states: seq<State>, steps: seq<Step>, i: nat, b: nat, u: WaitId)
    requires IsRun(states, steps) && i < |states|
    requires b < |states[i].buckets| && states[i].buckets[b].lock == None
    requires u < |states[i].waits| && states[i].waits[u].timer == InHeap && states[i].waits[u].b == b
    ensures DeadlineCovered(states[i], b, u)
  {
    RunInv(states, steps, i);
    InvCovers(states[i], b, u);
  }

  ghost predicate DeadlineCovered(s: State, b: nat, u: WaitId)
    requires b < |s.buckets| && u < |s.waits|
  {
    && s.buckets[b].min.Some?
    && var m := s.buckets[b].min.value;
       && m < |s.waits| && s.waits[m].timer == InHeap && s.waits[m].b == b
       && s.waits[m].deadline <= s.waits[u].deadline
       && (|| s.buckets[b].fd == Ticking(s.waits[m].deadline)
           || s.buckets[b].fd == Fired
           || (exists h :: 0 <= h < |s.handlers| && EventFor(s, h, b, m))
           || (s.waits[m].reason != NoReason && PreVisit(s.waits[m].fpc)))
  }

  lemma InvCovers(s: State, b: nat, u: WaitId)
    requires Inv(s) && b < |s.buckets| && s.buckets[b].lock == None
    requires u < |s.waits| && s.waits[u].timer == InHeap && s.waits[u].b == b
    ensures DeadlineCovered(s, b, u)
  {
    assert AnyBucket(b);
    var m := s.buckets[b].min.value;
    assert AnyWait(m);
    var watch := s.buckets[b].watch;
    if watch.Some? && watch.value < |s.handlers| && EventFor(s, watch.value, b, m) {
    }
  }

  /** A worker has the bucket's timeout event and is about to set the reason of wait `m`. */
  ghost predicate EventFor(s: State, h: HandlerId, b: nat, m: WaitId) {
    && h < |s.handlers| && s.handlers[h].b == b
    && (|| s.handlers[h].pc == HandlerReady
        || (&& s.handlers[h].pc.HandlerWake? && s.handlers[h].pc.j < |s.jobs|
            && s.jobs[s.handlers[h].pc.j].v == m && s.jobs[s.handlers[h].pc.j].stage == Try))
  }

  // The handshake.

  /** The step makes the fiber of wait `w` runnable. */
  ghost predicate Resumes(s: State, step: Step, w: WaitId) {
    match step
    case DoPost(u) => u == w && u < |s.waits| && s.waits[u].post == PostPush
    case DoJob(j) => j < |s.jobs| && s.jobs[j].v == w && s.jobs[j].stage == ToPush
    case _ => false
  }

  /** A fiber is made runnable only after its context was saved, and never while it already is. */
  lemma ResumesSuspended(s: State, s': State, step: Step, w: WaitId)
    requires Inv(s) && Next(s, s', step) && Resumes(s, step, w)
    ensures s.waits[w].fpc == Suspended && s.waits[w].claim != Resumed && s.waits[w].reason != NoReason
    ensures s'.waits[w].claim == Resumed
  {
    assert AnyWait(w);
    if step.DoJob? {
      assert AnyJob(step.j);
    }
  }

  /**
   * A reason that was set is not lost: while the fiber is suspended, someone has yet to make it runnable.
   * The wait says who; while do_wake is still 1, the post routine and the call that set the reason may both
   * be about to take it, and by ResumedOnce only one of them succeeds.
   */
  lemma WakeIsOwed(states: seq<State>, steps: seq<Step>, i: nat, w: WaitId)
    requires IsRun(states, steps) && i < |states|
    requires w < |states[i].waits| && states[i].waits[w].fpc == Suspended && states[i].waits[w].reason != NoReason
    ensures Owed(states[i], w)
  {
    RunInv(states, steps, i);
    InvOwes(states[i], w);
  }

  ghost predicate Owed(s: State, w: WaitId)
    requires w < |s.waits|
  {
    && s.waits[w].setter.Some? && s.waits[w].setter.value < |s.jobs|
    && var wt, job := s.waits[w], s.jobs[s.waits[w].setter.value];
       match wt.claim
       case Unclaimed => wt.post == PostArm
       case Armed => wt.doWake && (wt.post == PostLoad || wt.post.PostTake? || job.stage == Take)
       case ByPost => wt.post.PostRecord? || wt.post == PostClear(true) || wt.post == PostPush
       case ByJob => Holding(job.stage) && (job.stage == ToPush ==> StillPushing(s, job.caller))
       case Resumed => false
  }

  lemma InvOwes(s: State, w: WaitId)
    requires Inv(s) && w < |s.waits| && s.waits[w].fpc == Suspended && s.waits[w].reason != NoReason
    ensures Owed(s, w)
  {
    assert AnyWait(w);
    assert AnyJob(s.waits[w].setter.value);
  }

  /** The caller has not come to the end of its list of fibers to push. */
  ghost predicate StillPushing(s: State, caller: Caller) {
    match caller
    case FromWaker(k) => k < |s.wakers| && s.wakers[k].pc != WakerStart
    case FromHandler(h) => h < |s.handlers| && s.handlers[h].pc == HandlerPush
    case FromFiber(u) => u < |s.waits| && Processing(s.waits[u].fpc)
  }

  /** What fev_waiter_wait() returns is the reason that won, and never FEV_WAITER_NONE. */
  lemma ReturnedReason(states: seq<State>, steps: seq<Step>, i: nat, w: WaitId)
    requires IsRun(states, steps) && i < |states| && w < |states[i].waits| && states[i].waits[w].fpc == LoadReason
    ensures var wt := states[i].waits[w];
            && wt.wakeReason == wt.reason != NoReason
            && (!wt.timed ==> wt.wakeReason == Ready)
            && (wt.wakeReason == Ready ==> wt.node == Popped)
            && (wt.wakeReason == TimedOutNoCheck ==> wt.timer == Expired)
  {
    RunInv(states, steps, i);
    assert AnyWait(w);
  }

  /** How a wait that has returned got its result. */
  lemma ReturnedWait(s: State, w: WaitId)
    requires Waits(s) && w < |s.waits| && Gone(s.waits[w].fpc)
    ensures s.waits[w].reason == Ready <==> s.waits[w].fpc == Done(Success)
    ensures !s.waits[w].timed ==> s.waits[w].fpc == Refused || s.waits[w].fpc == Done(Success)
  {
    assert AnyWait(w);
  }

  lemma RunKept(states: seq<State>, steps: seq<Step>, i: nat)
    requires IsRun(states, steps) && i < |steps|
    ensures AllKept(states[i], states[i + 1])
  {
    RunInv(states, steps, i);
    NextInv(states[i], states[i + 1], steps[i]);
  }

  lemma {:induction false} ResumedStays(states: seq<State>, steps: seq<Step>, i: nat, k: nat, w: WaitId)
    requires IsRun(states, steps) && i <= k < |states|
    requires w < |states[i].waits| && states[i].waits[w].claim == Resumed
    ensures w < |states[k].waits| && states[k].waits[w].claim == Resumed
  {
    if i < k {
      ResumedStays(states, steps, i, k - 1, w);
      RunKept(states, steps, k - 1);
    }
  }

  /** In every run a wait's fiber is made runnable at most once. */
  lemma ResumedOnce(states: seq<State>, steps: seq<Step>, i: nat, k: nat, w: WaitId)
    requires IsRun(states, steps) && i < |steps| && k < |steps|
    requires Resumes(states[i], steps[i], w) && Resumes(states[k], steps[k], w)
    ensures i == k
  {
    RunInv(states, steps, i);
    RunInv(states, steps, k);
    ResumesSuspended(states[i], states[i + 1], steps[i], w);
    ResumesSuspended(states[k], states[k + 1], steps[k], w);
    if i < k {
      ResumedStays(states, steps, i + 1, k, w);
    } else if k < i {
      ResumedStays(states, steps, k + 1, i, w);
    }
  }
}
