/**
 * Which waits a call of fev_waiters_queue_wake() selects (src/fev_waiters_queue_impl.h:129-201), and
 * why an untimed fev_cond_wait() misses no notification (src/fev_cond.c:49-64).
 */
module WakeOrder {
  import opened Common
  import opened TimedWait
  import opened TimedWaitInvariant
  import opened TimedWaitTheorems

  /** How many of the first `n` nodes were woken by their queue. */
  function Readies(waits: seq<Wait>, nodes: seq<WaitId>, n: nat): nat
    requires n <= |nodes| && forall i :: 0 <= i < n ==> nodes[i] < |waits|
  {
    if n == 0 then 0
    else Readies(waits, nodes, n - 1) + (if waits[nodes[n - 1]].reason == Ready then 1 else 0)
  }

  /** Nodes that the call has dealt with. */
  function Settled(wk: Waker): int {
    if wk.pc.WakerWake? then wk.popped - 1 else wk.popped
  }

  ghost predicate AllSet(waits: seq<Wait>, nodes: seq<WaitId>, n: int) {
    forall i :: 0 <= i < n && i < |nodes| ==> nodes[i] < |waits| && waits[nodes[i]].reason != NoReason
  }

  ghost predicate OrderOk(s: State, k: WakerId) {
    && WakerAt(s, k)
    && var wk := s.wakers[k];
       && 0 <= Settled(wk) && wk.popped <= |wk.nodes| && wk.woken <= wk.limit
       && AllSet(s.waits, wk.nodes, Settled(wk))
       && wk.woken == Readies(s.waits, wk.nodes, Settled(wk))
       && (wk.pc == WakerStart ==> wk.popped == 0)
       && (wk.pc == WakerLoop || wk.pc.WakerWake? ==> s.queues[wk.q].nodes == wk.nodes[wk.popped..])
       && (wk.pc.WakerWake? ==> wk.woken < wk.limit && Serving(s, wk))
       && (wk.pc == WakerPush ==> wk.woken == wk.limit || wk.popped == |wk.nodes|)
       && (!wk.pc.WakerWake? && wk.woken == wk.limit > 0 ==>
             wk.popped > 0 && s.waits[wk.nodes[wk.popped - 1]].reason == Ready)
  }

  /** The call works on the node it popped last; once it failed, the node's waiter had timed out. */
  ghost predicate Serving(s: State, wk: Waker)
    requires wk.pc.WakerWake? && 0 < wk.popped <= |wk.nodes|
  {
    var v := wk.nodes[wk.popped - 1];
    && v < |s.waits| && wk.pc.j < |s.jobs| && s.jobs[wk.pc.j].v == v
    && (s.jobs[wk.pc.j].stage == Over(false) ==> s.waits[v].reason != NoReason && s.waits[v].reason != Ready)
  }

  ghost predicate Orders(s: State) {
    forall k {:trigger AnyWaker(k)} :: AnyWaker(k) && 0 <= k < |s.wakers| ==> OrderOk(s, k)
  }

  lemma {:induction false} ReadiesKept(a: seq<Wait>, c: seq<Wait>, nodes: seq<WaitId>, n: nat)
    requires n <= |nodes| && AllSet(a, nodes, n) && |a| <= |c|
    requires forall w :: 0 <= w < |a| ==> Kept(a[w], c[w])
    ensures AllSet(c, nodes, n) && Readies(c, nodes, n) == Readies(a, nodes, n)
  {
    if n > 0 {
      ReadiesKept(a, c, nodes, n - 1);
    }
  }

  /** A step of someone else: it may settle the call in progress, and leaves the locked queue alone. */
  ghost predicate Undisturbed(s: State, s': State, k: WakerId) {
    && k < |s.wakers| && k < |s'.wakers| && s'.wakers[k] == s.wakers[k] && |s'.queues| == |s.queues|
    && AllKept(s, s')
    && (s.wakers[k].q < |s.queues| && s.queues[s.wakers[k].q].lock == Some(QueueWaker(k)) ==>
          s'.queues[s.wakers[k].q].nodes == s.queues[s.wakers[k].q].nodes)
    && |s.jobs| <= |s'.jobs|
    && forall j :: 0 <= j < |s.jobs| ==>
         && s'.jobs[j].v == s.jobs[j].v
         && (s'.jobs[j].stage == Over(false) ==>
               || s.jobs[j].stage == Over(false)
               || (s.jobs[j].stage == Try && s'.jobs[j].v < |s'.waits| && s'.waits[s'.jobs[j].v].reason != NoReason))
  }

  lemma UndisturbedOrder(s: State, s': State, k: WakerId)
    requires Inv(s) && Inv(s') && OrderOk(s, k) && Undisturbed(s, s', k)
    ensures OrderOk(s', k)
  {
    var wk := s.wakers[k];
    assert AnyWaker(k);
    ReadiesKept(s.waits, s'.waits, wk.nodes, Settled(wk));
    if wk.pc.WakerWake? {
      assert AnyJob(wk.pc.j);
      assert AnyWait(wk.nodes[wk.popped - 1]);
    }
  }

  /** The queue stays as it is for the call that holds its lock. */
  lemma QueueUndisturbed(s: State, s': State, w: WaitId, k: WakerId)
    requires AllKept(s, s') && QueueStep(s, s', w) && k < |s.wakers|
    ensures Undisturbed(s, s', k)
  {
  }

  lemma ExpiryUndisturbed(s: State, s': State, w: WaitId, root: Option<WaitId>, v: WaitId, k: WakerId)
    requires AllKept(s, s') && (ExpireRoot(s, s', w, v, root) || NextExpired(s, s', w)) && k < |s.wakers|
    ensures Undisturbed(s, s', k)
  {
  }

  lemma FiberUndisturbed(s: State, s': State, w: WaitId, root: Option<WaitId>, v: WaitId, k: WakerId)
    requires AllKept(s, s') && Shaped(s, s', w, root, v) && k < |s.wakers|
    ensures Undisturbed(s, s', k)
  {
    if LocalStep(s, s', w) {
      LocalUndisturbed(s, s', w, k);
    } else if QueueStep(s, s', w) {
      QueueUndisturbed(s, s', w, k);
    } else if !BucketStep(s, s', w) && !ExitStep(s, s', w) {
      ExpiryUndisturbed(s, s', w, root, v, k);
    }
  }

  lemma LocalUndisturbed(s: State, s': State, w: WaitId, k: WakerId)
    requires AllKept(s, s') && LocalStep(s, s', w) && k < |s.wakers|
    ensures Undisturbed(s, s', k)
  {
  }

  lemma WakerUndisturbed(s: State, s': State, l: WakerId, k: WakerId)
    requires Inv(s) && WakerStep(s, s', l) && AllKept(s, s') && k < |s.wakers| && k != l
    ensures Undisturbed(s, s', k)
  {
    assert AnyWaker(l);
  }

  lemma WakerPopsOrder(s: State, s': State, k: WakerId)
    requires OrderOk(s, k) && QueueOk(s, s.wakers[k].q) && WakerPops(s, s', k)
    ensures OrderOk(s', k)
  {
    ReadiesKept(s.waits, s'.waits, s.wakers[k].nodes, s.wakers[k].popped);
  }

  /** A call of fev_waiter_wake() from a queue reports failure exactly if the wait did not get Ready. */
  lemma ServedReason(s: State, k: WakerId)
    requires Inv(s) && k < |s.wakers| && s.wakers[k].pc.WakerWake? && s.wakers[k].pc.j < |s.jobs|
    ensures var job := s.jobs[s.wakers[k].pc.j];
            job.v < |s.waits| && (Won(job.stage) ==> s.waits[job.v].reason == Ready)
  {
    assert AnyWaker(k) && AnyJob(s.wakers[k].pc.j);
    assert AnyWait(s.jobs[s.wakers[k].pc.j].v);
  }

  lemma WakerNextOrder(s: State, s': State, k: WakerId)
    requires Inv(s) && OrderOk(s, k) && WakerNext(s, s', k)
    ensures OrderOk(s', k)
  {
    ServedReason(s, k);
  }

  lemma WakerOwnOrder(s: State, s': State, k: WakerId)
    requires Inv(s) && OrderOk(s, k) && WakerStep(s, s', k)
    ensures OrderOk(s', k)
  {
    if WakerPops(s, s', k) {
      assert AnyQueue(s.wakers[k].q);
      WakerPopsOrder(s, s', k);
    } else if WakerNext(s, s', k) {
      WakerNextOrder(s, s', k);
    }
  }

  lemma StepUndisturbed(s: State, s': State, step: Step, k: WakerId)
    requires Inv(s) && Next(s, s', step) && AllKept(s, s') && k < |s.wakers| && step != DoWaker(k)
    ensures Undisturbed(s, s', k)
  {
    match step
    case DoFiber(w, root, v, now) =>
      FiberStepInv(s, s', w, root, v, now);
      FiberUndisturbed(s, s', w, root, v, k);
    case DoRecheck(w, wait) =>
      RunRecheckInv(s, s', w, wait);
      FiberUndisturbed(s, s', w, None, 0, k);
    case DoPost(w) =>
      PostStepInv(s, s', w);
      LocalUndisturbed(s, s', w, k);
    case DoJob(j) =>
      JobStepInv(s, s', j);
      LocalUndisturbed(s, s', s.jobs[j].v, k);
    case DoWaker(l) => WakerUndisturbed(s, s', l, k);
    case _ =>
  }

  lemma NextOrder(s: State, s': State, step: Step, k: WakerId)
    requires Inv(s) && Inv(s') && AllKept(s, s') && Next(s, s', step)
    requires if k < |s.wakers| then OrderOk(s, k) else k < |s'.wakers|
    ensures OrderOk(s', k)
  {
    if step == DoWaker(k) {
      WakerOwnOrder(s, s', k);
    } else if k < |s.wakers| {
      StepUndisturbed(s, s', step, k);
      UndisturbedOrder(s, s', k);
    } else {
      NewOrder(s, s', step, k);
    }
  }

  lemma FiberWakers(s: State, s': State, w: WaitId, root: Option<WaitId>, v: WaitId, now: int)
    requires FiberStep(s, s', w, root, v, now)
    ensures s'.wakers == s.wakers
  {
  }

  /** A new call has not done anything. */
  lemma NewOrder(s: State, s': State, step: Step, k: WakerId)
    requires Next(s, s', step) && |s.wakers| <= k < |s'.wakers|
    ensures OrderOk(s', k)
  {
    if step.DoFiber? {
      FiberWakers(s, s', step.w, step.root, step.v, step.now);
    }
  }

  lemma NextOrders(s: State, s': State, step: Step)
    requires Inv(s) && Orders(s) && Next(s, s', step)
    ensures Orders(s')
  {
    NextInv(s, s', step);
    forall k | AnyWaker(k) && 0 <= k < |s'.wakers| ensures OrderOk(s', k) {
      NextOrder(s, s', step, k);
    }
  }

  lemma {:induction false} RunOrders(states: seq<State>, steps: seq<Step>, i: nat)
    requires IsRun(states, steps) && i < |states|
    ensures Orders(states[i])
  {
    if i > 0 {
      RunOrders(states, steps, i - 1);
      RunInv(states, steps, i - 1);
      NextOrders(states[i - 1], states[i], steps[i - 1]);
    }
  }

  /**
   * Of the nodes that were queued when the call got the lock, it dealt with the first `popped`. Of
   * these it woke those that had not timed out, `woken` in all, which is at most the limit; it
   * stopped only at the limit, with the node it woke last, or at the end of the queue.
   */
  lemma WakeSelects(states: seq<State>, steps: seq<Step>, i: nat, k: WakerId)
    requires IsRun(states, steps) && i < |states| && k < |states[i].wakers| && states[i].wakers[k].pc == WakerPush
    ensures var s, wk := states[i], states[i].wakers[k];
            && wk.popped <= |wk.nodes|
            && AllSet(s.waits, wk.nodes, wk.popped)
            && wk.woken == Readies(s.waits, wk.nodes, wk.popped) <= wk.limit
            && (wk.woken == wk.limit || wk.popped == |wk.nodes|)
            && (wk.woken == wk.limit > 0 ==> s.waits[wk.nodes[wk.popped - 1]].reason == Ready)
  {
    RunOrders(states, steps, i);
    assert AnyWaker(k);
  }

  /**
   * No lost notification: when a call gets the lock of a queue, every wait whose recheck has run (so
   * that, for a condition variable, the mutex is released) is
   * among the nodes it will go through, unless another call took the node before or, if the wait is
   * timed, the fiber unlinked it after a timeout.
   */
  lemma RegisteredBeforeWake(s: State, s': State, k: WakerId, w: WaitId)
    requires Inv(s) && WakerLocks(s, s', k)
    requires w < |s.waits| && s.waits[w].q == s.wakers[k].q && Rechecked(s.waits[w].fpc)
    ensures || w in s'.wakers[k].nodes
            || s.waits[w].node == Popped
            || (s.waits[w].timed && s.waits[w].fpc.Done? && s.waits[w].reason != Ready)
  {
    assert AnyWait(w);
  }

  /**
   * For an untimed wait, as in fev_cond_wait(): the fiber is inside its recheck, where it releases the
   * mutex. Any call that gets the queue's lock from then on, be it of a notifier that could lock the
   * mutex only because of that, finds the node, unless an earlier call has already chosen the wait. The
   * recheck of a condition variable always says to wait.
   */
  lemma NoLostNotification(states: seq<State>, steps: seq<Step>, i: nat, n: nat, k: WakerId, w: WaitId)
    requires IsRun(states, steps) && i <= n < |steps|
    requires w < |states[i].waits| && states[i].waits[w].fpc == Recheck && !states[i].waits[w].timed
    requires WakerLocks(states[n], states[n + 1], k) && states[n].wakers[k].q == states[i].waits[w].q
    requires w < |states[n].waits| && states[n].waits[w].fpc != Refused
    ensures w in states[n + 1].wakers[k].nodes || states[n].waits[w].popper.Some?
  {
    RunInv(states, steps, n);
    KeptAlong(states, steps, i, n, w);
    assert AnyWait(w);
    RegisteredBeforeWake(states[n], states[n + 1], k, w);
  }

  lemma {:induction false} KeptAlong(states: seq<State>, steps: seq<Step>, i: nat, n: nat, w: WaitId)
    requires IsRun(states, steps) && i <= n < |states| && w < |states[i].waits|
    ensures w < |states[n].waits| && states[n].waits[w].q == states[i].waits[w].q
    ensures states[n].waits[w].timed == states[i].waits[w].timed
    ensures states[i].waits[w].fpc != Start ==> states[n].waits[w].fpc != Start
  {
    if i < n {
      KeptAlong(states, steps, i, n - 1, w);
      RunKept(states, steps, n - 1);
      if states[n - 1].waits[w].fpc != Start {
        RunStarted(states, steps, n - 1, w);
      }
    }
  }

  lemma RunStarted(states: seq<State>, steps: seq<Step>, i: nat, w: WaitId)
    requires IsRun(states, steps) && i < |steps| && w < |states[i].waits| && states[i].waits[w].fpc != Start
    ensures w < |states[i + 1].waits| && states[i + 1].waits[w].fpc != Start
  {
    RunInv(states, steps, i);
    StepStarted(states[i], states[i + 1], steps[i], w);
  }

  lemma ShapedStarted(s: State, s': State, u: WaitId, root: Option<WaitId>, v: WaitId, w: WaitId)
    requires Shaped(s, s', u, root, v) && w < |s.waits| && s.waits[w].fpc != Start
    ensures w < |s'.waits| && s'.waits[w].fpc != Start
  {
    if BucketStep(s, s', u) {
      MovesFacts(s.waits[u].fpc, s'.waits[u].fpc);
    } else if !LocalStep(s, s', u) && !QueueStep(s, s', u) && !ExitStep(s, s', u) {
      ExpiringStarted(s, s', u, root, v, w);
    }
  }

  lemma ExpiringStarted(s: State, s': State, u: WaitId, root: Option<WaitId>, v: WaitId, w: WaitId)
    requires (ExpireRoot(s, s', u, v, root) || NextExpired(s, s', u)) && w < |s.waits| && s.waits[w].fpc != Start
    ensures w < |s'.waits| && s'.waits[w].fpc != Start
  {
  }

  /** A fiber that has taken the queue's lock does not start over. */
  lemma StepStarted(s: State, s': State, step: Step, w: WaitId)
    requires Inv(s) && Next(s, s', step) && w < |s.waits| && s.waits[w].fpc != Start
    ensures w < |s'.waits| && s'.waits[w].fpc != Start
  {
    match step
    case DoFiber(u, root, v, now) =>
      FiberStepInv(s, s', u, root, v, now);
      ShapedStarted(s, s', u, root, v, w);
    case DoRecheck(u, wait) =>
    case DoPost(u) =>
      PostStepInv(s, s', u);
      ShapedStarted(s, s', u, None, 0, w);
    case DoJob(j) =>
      JobStepInv(s, s', j);
      ShapedStarted(s, s', s.jobs[j].v, None, 0, w);
    case _ =>
  }
}
