/**
 * The semaphore (src/fev_sem.c) on top of the blocking machine.
 *
 * The semaphore uses one queue `q` of the machine. Its value is touched only in the recheck and in the
 * callback, which run under the queue's lock. A wait may start at any time, so a retry after -EAGAIN
 * is just another wait.
 */
module Semaphore {
  import opened Common
  import TW = TimedWait
  import TI = TimedWaitInvariant
  import TT = TimedWaitTheorems
  import WO = WakeOrder
  import QC = QueueClient

  datatype State = State(
    sys: TW.State,
    value: int,          // sem->value
    posts: nat           // history: calls of fev_sem_post()
  )

  datatype Step =
    | Recheck(w: TW.WaitId)
    | Post
    | Grant(j: TW.JobId)
    | Callback(k: TW.WakerId)
    | Other(step: TW.Step)

  ghost predicate Init(s: State, q: nat, initial: int) {
    TW.Init(s.sys) && q < |s.sys.queues| && s.value == initial && s.posts == 0
  }

  // src/fev_sem.c:60-70
  ghost predicate DoRecheck(s: State, s': State, q: nat, w: TW.WaitId) {
    && w < |s.sys.waits| && s.sys.waits[w].q == q
    && TW.RunRecheck(s.sys, s'.sys, w, s.value <= 0)
    && s' == s.(sys := s'.sys, value := if s.value > 0 then s.value - 1 else s.value)
  }

  // src/fev_sem.c:110-113
  ghost predicate DoPost(s: State, s': State, q: nat) {
    TW.CallWake(s.sys, s'.sys, q, 1) && s' == s.(sys := s'.sys, posts := s.posts + 1)
  }

  // A permit is given to a waiter by setting its reason.
  ghost predicate DoGrant(s: State, s': State, q: nat, j: TW.JobId) {
    QC.Grants(s.sys, s'.sys, j, q) && s' == s.(sys := s'.sys)
  }

  // src/fev_sem.c:98-108
  ghost predicate DoCallback(s: State, s': State, q: nat, k: TW.WakerId) {
    && k < |s.sys.wakers| && s.sys.wakers[k].q == q && TW.WakerUnlocks(s.sys, s'.sys, k)
    && s' == s.(sys := s'.sys, value := if s.sys.wakers[k].woken == 0 then s.value + 1 else s.value)
  }

  ghost predicate Next(s: State, s': State, q: nat, step: Step) {
    match step
    case Recheck(w) => DoRecheck(s, s', q, w)
    case Post => DoPost(s, s', q)
    case Grant(j) => DoGrant(s, s', q, j)
    case Callback(k) => DoCallback(s, s', q, k)
    case Other(t) => QC.Foreign(s.sys, t, q) && TW.Next(s.sys, s'.sys, t) && s' == s.(sys := s'.sys)
  }

  // ---------------------------------------------------------------------------------------------

  /** The wait has a permit: its recheck took one, or a post gave it one (whether it has returned or not). */
  predicate HasPermit(wt: TW.Wait, q: nat) {
    wt.q == q && (wt.reason == TW.Ready || wt.fpc == TW.Refused)
  }

  /** The post has neither woken a waiter nor incremented the value yet. */
  predicate InFlight(sys: TW.State, q: nat, k: TW.WakerId)
    requires k < |sys.wakers|
  {
    sys.wakers[k].q == q && sys.wakers[k].pc != TW.WakerPush && !QC.Granted(sys, k)
  }

  function PermitFlags(sys: TW.State, q: nat): (flags: seq<bool>)
    ensures |flags| == |sys.waits|
  {
    seq(|sys.waits|, w requires 0 <= w < |sys.waits| => HasPermit(sys.waits[w], q))
  }

  function PostFlags(sys: TW.State, q: nat): (flags: seq<bool>)
    ensures |flags| == |sys.wakers|
  {
    seq(|sys.wakers|, k requires 0 <= k < |sys.wakers| => InFlight(sys, q, k))
  }

  ghost predicate Balanced(s: State, q: nat, initial: int) {
    initial + s.posts == s.value + Count(PermitFlags(s.sys, q)) + Count(PostFlags(s.sys, q))
  }

  ghost predicate Own(s: State, q: nat, initial: int) {
    && q < |s.sys.queues| && (s.value >= 0 || s.value >= initial)
    && (s.value > 0 ==> s.sys.queues[q].nodes == [])
    && (forall w {:trigger TI.AnyWait(w)} :: TI.AnyWait(w) && 0 <= w < |s.sys.waits| ==>
          QC.Inserting(s.sys, q, w) ==> s.value <= 0)
    && (forall k {:trigger TI.AnyWaker(k)} :: TI.AnyWaker(k) && 0 <= k < |s.sys.wakers| ==>
          s.sys.wakers[k].q == q ==> s.sys.wakers[k].limit == 1)
  }

  ghost predicate Inv(s: State, q: nat, initial: int) {
    TI.Inv(s.sys) && WO.Orders(s.sys) && Own(s, q, initial) && Balanced(s, q, initial)
  }

  lemma InitInv(s: State, q: nat, initial: int)
    requires Init(s, q, initial)
    ensures Inv(s, q, initial)
  {
    TI.InitInv(s.sys);
  }

  lemma RecheckBalance(s: State, s': State, q: nat, initial: int, w: TW.WaitId)
    requires TI.Inv(s.sys) && Balanced(s, q, initial) && DoRecheck(s, s', q, w)
    ensures Balanced(s', q, initial)
  {
    assert TI.AnyWait(w);
    var refused := s.value > 0;
    assert PermitFlags(s'.sys, q) == PermitFlags(s.sys, q)[w := refused];
    CountUpdate(PermitFlags(s.sys, q), w, refused);
    assert PostFlags(s'.sys, q) == PostFlags(s.sys, q);
  }

  lemma RecheckOwn(s: State, s': State, q: nat, initial: int, w: TW.WaitId)
    requires Own(s, q, initial) && DoRecheck(s, s', q, w)
    ensures Own(s', q, initial)
  {
  }

  lemma PostBalance(s: State, s': State, q: nat, initial: int)
    requires TI.Inv(s.sys) && Balanced(s, q, initial) && DoPost(s, s', q)
    ensures Balanced(s', q, initial)
  {
    assert PermitFlags(s'.sys, q) == PermitFlags(s.sys, q);
    assert PostFlags(s'.sys, q) == PostFlags(s.sys, q) + [true];
    CountAppend(PostFlags(s.sys, q), true);
  }

  lemma GrantBalance(s: State, s': State, q: nat, initial: int, j: TW.JobId)
    requires TI.Inv(s.sys) && WO.Orders(s.sys) && Own(s, q, initial) && Balanced(s, q, initial) && DoGrant(s, s', q, j)
    ensures Balanced(s', q, initial)
  {
    var v, k := s.sys.jobs[j].v, s.sys.jobs[j].caller.k;
    GrantFlags(s, s', q, initial, j);
    CountUpdate(PermitFlags(s.sys, q), v, true);
    CountUpdate(PostFlags(s.sys, q), k, false);
  }

  lemma GrantFlags(s: State, s': State, q: nat, initial: int, j: TW.JobId)
    requires TI.Inv(s.sys) && WO.Orders(s.sys) && Own(s, q, initial) && DoGrant(s, s', q, j)
    ensures var v, k := s.sys.jobs[j].v, s.sys.jobs[j].caller.k;
            && !PermitFlags(s.sys, q)[v] && PermitFlags(s'.sys, q) == PermitFlags(s.sys, q)[v := true]
            && PostFlags(s.sys, q)[k] && PostFlags(s'.sys, q) == PostFlags(s.sys, q)[k := false]
  {
    var v, k := s.sys.jobs[j].v, s.sys.jobs[j].caller.k;
    assert TI.AnyJob(j) && TI.AnyWait(v);
    assert TI.AnyWaker(k);
    assert PermitFlags(s'.sys, q) == PermitFlags(s.sys, q)[v := true];
    forall l | 0 <= l < |s.sys.wakers| ensures PostFlags(s'.sys, q)[l] == PostFlags(s.sys, q)[k := false][l] {
      assert TI.AnyWaker(l);
    }
  }

  lemma CallbackBalance(s: State, s': State, q: nat, initial: int, k: TW.WakerId)
    requires Balanced(s, q, initial) && DoCallback(s, s', q, k)
    ensures Balanced(s', q, initial)
  {
    assert PermitFlags(s'.sys, q) == PermitFlags(s.sys, q);
    assert PostFlags(s'.sys, q) == PostFlags(s.sys, q)[k := false];
    CountUpdate(PostFlags(s.sys, q), k, false);
  }

  lemma CallbackOwn(s: State, s': State, q: nat, initial: int, k: TW.WakerId)
    requires TI.Inv(s.sys) && Own(s, q, initial) && DoCallback(s, s', q, k)
    ensures Own(s', q, initial)
  {
    QC.LockIsWakers(s.sys, q, k);
    assert TI.AnyWaker(k);
  }

  lemma GrantOwn(s: State, s': State, q: nat, initial: int, j: TW.JobId)
    requires Own(s, q, initial) && DoGrant(s, s', q, j)
    ensures Own(s', q, initial)
  {
  }

  lemma QuietOwn(s: State, s': State, q: nat, initial: int)
    requires Own(s, q, initial) && QC.Quiet(s.sys, s'.sys, q) && s' == s.(sys := s'.sys)
    ensures Own(s', q, initial)
  {
    if s'.sys.queues[q].nodes != [] && s.sys.queues[q].nodes == [] {
      var w: TW.WaitId :| QC.Inserting(s.sys, q, w);
      assert TI.AnyWait(w);
    }
  }

  /** New waits and wakers of other queues add nothing. */
  lemma {:induction false} CountExtended(a: seq<bool>, c: seq<bool>)
    requires |a| <= |c| && a == c[..|a|] && forall i :: |a| <= i < |c| ==> !c[i]
    ensures Count(c) == Count(a)
    decreases |c|
  {
    if |a| == |c| {
      assert c == a;
    } else {
      assert c[..|c| - 1][..|a|] == a;
      CountExtended(a, c[..|c| - 1]);
    }
  }

  lemma QuietBalance(s: State, s': State, q: nat, initial: int)
    requires Balanced(s, q, initial) && QC.Quiet(s.sys, s'.sys, q) && s' == s.(sys := s'.sys)
    ensures Balanced(s', q, initial)
  {
    var a, c := PermitFlags(s.sys, q), PermitFlags(s'.sys, q);
    forall w | 0 <= w < |c| ensures c[w] == (w < |a| && a[w]) {
      assert TI.AnyWait(w);
    }
    CountExtended(a, c);
    var d, e := PostFlags(s.sys, q), PostFlags(s'.sys, q);
    forall k | 0 <= k < |e| ensures e[k] == (k < |d| && d[k]) {
      assert TI.AnyWaker(k);
    }
    CountExtended(d, e);
  }

  lemma NextOwnBalance(s: State, s': State, q: nat, initial: int, step: Step)
    requires Inv(s, q, initial) && Next(s, s', q, step)
    ensures Own(s', q, initial) && Balanced(s', q, initial)
  {
    match step
    case Recheck(w) =>
      RecheckOwn(s, s', q, initial, w);
      RecheckBalance(s, s', q, initial, w);
    case Post => PostBalance(s, s', q, initial);
    case Grant(j) =>
      GrantOwn(s, s', q, initial, j);
      GrantBalance(s, s', q, initial, j);
    case Callback(k) =>
      CallbackOwn(s, s', q, initial, k);
      CallbackBalance(s, s', q, initial, k);
    case Other(t) =>
      QC.ForeignQuiet(s.sys, s'.sys, t, q);
      QuietOwn(s, s', q, initial);
      QuietBalance(s, s', q, initial);
  }

  /** The step of the blocking machine that a step of the semaphore consists of. */
  function Base(s: State, q: nat, step: Step): TW.Step {
    match step
    case Recheck(w) => TW.DoRecheck(w, s.value <= 0)
    case Post => TW.DoCallWake(q, 1)
    case Grant(j) => TW.DoJob(j)
    case Callback(k) => TW.DoWaker(k)
    case Other(t) => t
  }

  lemma NextRefines(s: State, s': State, q: nat, step: Step)
    requires Next(s, s', q, step)
    ensures TW.Next(s.sys, s'.sys, Base(s, q, step))
  {
  }

  lemma NextInv(s: State, s': State, q: nat, initial: int, step: Step)
    requires Inv(s, q, initial) && Next(s, s', q, step)
    ensures Inv(s', q, initial)
  {
    NextOwnBalance(s, s', q, initial, step);
    NextRefines(s, s', q, step);
    TI.NextInv(s.sys, s'.sys, Base(s, q, step));
    WO.NextOrders(s.sys, s'.sys, Base(s, q, step));
  }

  // ---------------------------------------------------------------------------------------------
  // Every run
  // ---------------------------------------------------------------------------------------------

  ghost predicate IsRun(states: seq<State>, steps: seq<Step>, q: nat, initial: int) {
    && |states| == |steps| + 1
    && Init(states[0], q, initial)
    && forall i {:trigger steps[i]} :: 0 <= i < |steps| ==> Next(states[i], states[i + 1], q, steps[i])
  }

  lemma {:induction false} RunInv(states: seq<State>, steps: seq<Step>, q: nat, initial: int, i: nat)
    requires IsRun(states, steps, q, initial) && i < |states|
    ensures Inv(states[i], q, initial)
  {
    if i == 0 {
      InitInv(states[0], q, initial);
    } else {
      RunInv(states, steps, q, initial, i - 1);
      NextInv(states[i - 1], states[i], q, initial, steps[i - 1]);
    }
  }

  /**
   * Conservation: the initial value and the posts are the value, the permits that waits have been
   * given and the posts that have yet to decide. The value is never negative, and while it is
   * positive the queue is empty.
   */
  lemma Conservation(states: seq<State>, steps: seq<Step>, q: nat, initial: int, i: nat)
    requires IsRun(states, steps, q, initial) && i < |states|
    ensures var s := states[i];
            && q < |s.sys.queues|
            && initial + s.posts == s.value + Count(PermitFlags(s.sys, q)) + Count(PostFlags(s.sys, q))
            && (initial >= 0 ==> s.value >= 0)
            && (s.value > 0 ==> s.sys.queues[q].nodes == [])
  {
    RunInv(states, steps, q, initial, i);
  }

  /** A post is in flight only until its callback has run; with none in flight the books are even. */
  lemma Settled(states: seq<State>, steps: seq<Step>, q: nat, initial: int, i: nat)
    requires IsRun(states, steps, q, initial) && i < |states|
    requires forall k :: 0 <= k < |states[i].sys.wakers| && states[i].sys.wakers[k].q == q ==>
               states[i].sys.wakers[k].pc == TW.WakerPush
    ensures initial + states[i].posts == states[i].value + Count(PermitFlags(states[i].sys, q))
  {
    RunInv(states, steps, q, initial, i);
    CountExtended([], PostFlags(states[i].sys, q));
  }

  /** What the calls return: success exactly with a permit, and an untimed wait returns only with one. */
  lemma ReturnsPermit(states: seq<State>, steps: seq<Step>, q: nat, initial: int, i: nat, w: TW.WaitId)
    requires IsRun(states, steps, q, initial) && i < |states|
    requires w < |states[i].sys.waits| && states[i].sys.waits[w].q == q && TI.Gone(states[i].sys.waits[w].fpc)
    ensures var wt := states[i].sys.waits[w];
            HasPermit(wt, q) <==> wt.fpc == TW.Refused || wt.fpc == TW.Done(TW.Success)
    ensures !states[i].sys.waits[w].timed ==> HasPermit(states[i].sys.waits[w], q)
  {
    RunInv(states, steps, q, initial, i);
    TT.ReturnedWait(states[i].sys, w);
  }

  /** The assertion of fev_sem_post_callback(). */
  lemma CallbackAssertion(states: seq<State>, steps: seq<Step>, q: nat, initial: int, i: nat, k: TW.WakerId)
    requires IsRun(states, steps, q, initial) && i < |steps| && steps[i] == Callback(k)
    ensures states[i].sys.wakers[k].woken <= 1
    ensures states[i].sys.wakers[k].woken == 0 ==> states[i].sys.queues[q].nodes == []
  {
    RunInv(states, steps, q, initial, i);
    assert TI.AnyWaker(k);
  }

  /** The waits of a semaphore are as safe as all others; see TimedWaitTheorems. */
  lemma LifetimeSafety(states: seq<State>, steps: seq<Step>, q: nat, initial: int, i: nat, v: TW.WaitId)
    requires IsRun(states, steps, q, initial) && i < |steps|
    requires TT.Touches(states[i].sys, Base(states[i], q, steps[i]), v)
    ensures TT.Alive(states[i].sys, v)
  {
    RunInv(states, steps, q, initial, i);
    NextRefines(states[i], states[i + 1], q, steps[i]);
    TT.TouchedAlive(states[i].sys, states[i + 1].sys, Base(states[i], q, steps[i]), v);
  }
}
