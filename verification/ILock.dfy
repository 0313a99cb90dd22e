/**
 * The internal lock (src/fev_ilock.c, src/fev_ilock_impl.h): a state word, an inner lock and a list of
 * waiting fibers, with the lock handed to the first of them. Any number of fibers lock and unlock it.
 */
module ILock {
  import opened Common

  type FiberId = nat

  datatype Pc =
    | Out                                          // not using the lock
    | SlowLock | Exchange | StoreOne | LeaveOwning // fev_ilock_lock_slow()
    | Append | SwitchOut | Suspended | Resumed
    | Owning                                       // fev_ilock_lock() has returned
    | SlowUnlock | Dequeue | StoreNone(next: FiberId) | Leave(next: FiberId)  // fev_ilock_unlock_slow()
    | Wake(next: FiberId)                          // fev_ilock_unlock() has returned a fiber

  /** `post`: the worker has yet to run fev_ilock_lock_post() for the fiber it left. */
  datatype Fiber = Fiber(pc: Pc, post: bool)

  datatype State = State(
    fibers: seq<Fiber>,
    word: nat,                       // ilock->state
    inner: Option<FiberId>,          // who holds ilock->lock
    waiters: seq<FiberId>,
    owner: Option<FiberId>,          // history
    waker: Option<FiberId>,          // history: who must wake the owner
    arrivals: seq<FiberId>,          // history: appended to the list, in order
    handed: seq<FiberId>             // history: given the lock from the list, in order
  )

  datatype Action = TryLock(weak: bool) | Proceed | RunPost

  ghost predicate Init(s: State) {
    && (forall f :: 0 <= f < |s.fibers| ==> s.fibers[f] == Fiber(Out, false))
    && s.word == 0 && s.inner == None && s.waiters == [] && s.owner == None && s.waker == None
    && s.arrivals == [] && s.handed == []
  }

  function At(s: State, f: FiberId, pc: Pc): State
    requires f < |s.fibers|
  {
    s.(fibers := s.fibers[f := s.fibers[f].(pc := pc)])
  }

  // src/fev_ilock_impl.h:66-70; the weak CAS may fail although the state is 0.
  ghost predicate DoTryLock(s: State, s': State, f: FiberId, weak: bool) {
    && f < |s.fibers| && s.fibers[f].pc == Out
    && s' == if s.word == 0 && !weak then At(s, f, Owning).(word := 1, owner := Some(f)) else At(s, f, SlowLock)
  }

  // src/fev_ilock.c:53-66
  ghost predicate LockSteps(s: State, s': State, f: FiberId) {
    && f < |s.fibers|
    && match s.fibers[f].pc
       case SlowLock => s.inner == None && s' == At(s, f, Exchange).(inner := Some(f))
       case Exchange =>
         s' == if s.word == 0 then At(s, f, StoreOne).(word := 2, owner := Some(f))
               else At(s, f, Append).(word := 2)
       case StoreOne => s' == At(s, f, LeaveOwning).(word := 1)
       case LeaveOwning => s' == At(s, f, Owning).(inner := None)
       case _ => false
  }

  // src/fev_ilock.c:69-83; the context is saved in the second step.
  ghost predicate WaitSteps(s: State, s': State, f: FiberId) {
    && f < |s.fibers|
    && match s.fibers[f].pc
       case Append => s' == At(s, f, SwitchOut).(waiters := s.waiters + [f], arrivals := s.arrivals + [f])
       case SwitchOut => s' == s.(fibers := s.fibers[f := Fiber(Suspended, true)])
       case Resumed => s' == At(s, f, Owning)
       case _ => false
  }

  // src/fev_ilock.c:24-39
  ghost predicate DoPost(s: State, s': State, f: FiberId) {
    && f < |s.fibers| && s.fibers[f].post
    && s' == s.(fibers := s.fibers[f := s.fibers[f].(post := false)], inner := None)
  }

  // src/fev_ilock_impl.h:84-88 and src/fev_ilock.c:92-117. The fiber that is dequeued owns the lock.
  ghost predicate UnlockSteps(s: State, s': State, f: FiberId) {
    && f < |s.fibers|
    && match s.fibers[f].pc
       case Owning =>
         s' == if s.word == 1 then At(s, f, Out).(word := 0, owner := None) else At(s, f, SlowUnlock)
       case SlowUnlock => s.inner == None && s' == At(s, f, Dequeue).(inner := Some(f))
       case Dequeue =>
         && s.waiters != []
         && var g := s.waiters[0];
            s' == At(s, f, if |s.waiters| == 1 then StoreNone(g) else Leave(g))
                  .(waiters := s.waiters[1..], owner := Some(g), waker := Some(f), handed := s.handed + [g])
       case StoreNone(g) => s' == At(s, f, Leave(g)).(word := 1)
       case Leave(g) => s' == At(s, f, Wake(g)).(inner := None)
       case Wake(g) =>
         g < |s.fibers| && g != f && s' == At(At(s, f, Out), g, Resumed).(waker := None)
       case _ => false
  }

  ghost predicate Next(s: State, s': State, f: FiberId, action: Action) {
    match action
    case TryLock(weak) => DoTryLock(s, s', f, weak)
    case Proceed => LockSteps(s, s', f) || WaitSteps(s, s', f) || UnlockSteps(s, s', f)
    case RunPost => DoPost(s, s', f)
  }

  // ---------------------------------------------------------------------------------------------

  predicate AnyFiber(f: int) { true }

  /** The fiber, or the post routine run for it, is between locking and unlocking the inner lock. */
  predicate Inside(fiber: Fiber) {
    match fiber.pc
    case Exchange | StoreOne | LeaveOwning | Append | SwitchOut | Dequeue | StoreNone(_) | Leave(_) => true
    case _ => fiber.post
  }

  /** The fiber has the lock and is not on its way to it any more. */
  predicate Has(pc: Pc) {
    pc == StoreOne || pc == LeaveOwning || pc == Resumed || pc == Owning || pc == SlowUnlock || pc == Dequeue
  }

  predicate HandsOver(pc: Pc) {
    pc.StoreNone? || pc.Leave? || pc.Wake?
  }

  /** The fiber's context is saved and the inner lock that it took is released. */
  predicate Parked(s: State, g: FiberId) {
    g < |s.fibers| && s.fibers[g] == Fiber(Suspended, false)
  }

  ghost predicate FiberOk(s: State, f: FiberId) {
    && f < |s.fibers|
    && var fiber := s.fibers[f];
       && (fiber.post ==> fiber.pc == Suspended)
       && (Inside(fiber) ==> s.inner == Some(f))
       && (Has(fiber.pc) ==> s.owner == Some(f))
       && (fiber.pc == SlowUnlock || fiber.pc == Dequeue ==> s.word == 2)
       && (HandsOver(fiber.pc) ==> s.waker == Some(f) && s.owner == Some(fiber.pc.next) && Parked(s, fiber.pc.next))
       && (f in s.waiters ==> fiber.pc == SwitchOut || fiber.pc == Suspended)
       && (fiber.pc == SwitchOut || (fiber.pc == Suspended && s.owner != Some(f)) ==> f in s.waiters)
  }

  /** State 2 says that the list is not empty, but for the moment between the two changes. */
  ghost predicate WordOk(s: State) {
    && s.word <= 2
    && (s.word == 0 <==> s.owner == None)
    && (s.inner.Some? ==> s.inner.value < |s.fibers| && Inside(s.fibers[s.inner.value]))
    && var pc := if s.inner.Some? then s.fibers[s.inner.value].pc else Out;
       match pc
       case StoreOne | StoreNone(_) => s.word == 2 && s.waiters == []
       case Append => s.word == 2
       case _ => s.word == 2 <==> s.waiters != []
  }

  ghost predicate OwnerOk(s: State) {
    && (s.owner.Some? ==>
          && s.owner.value < |s.fibers| && s.owner.value !in s.waiters
          && (Has(s.fibers[s.owner.value].pc) || (s.fibers[s.owner.value].pc == Suspended && s.waker.Some?)))
    && (s.waker.Some? ==> s.waker.value < |s.fibers| && HandsOver(s.fibers[s.waker.value].pc))
  }

  ghost predicate ListOk(s: State) {
    && Distinct(s.waiters) && (forall f :: f in s.waiters ==> f < |s.fibers|)
    && s.arrivals == s.handed + s.waiters
  }

  ghost predicate Global(s: State) {
    WordOk(s) && OwnerOk(s) && ListOk(s)
  }

  ghost predicate Inv(s: State) {
    && Global(s)
    && forall f {:trigger AnyFiber(f)} :: AnyFiber(f) && 0 <= f < |s.fibers| ==> FiberOk(s, f)
  }

  lemma TryLockFiber(s: State, s': State, f: FiberId, weak: bool, u: FiberId)
    requires Global(s) && FiberOk(s, f) && FiberOk(s, u) && DoTryLock(s, s', f, weak)
    ensures FiberOk(s', u)
  {
  }

  lemma TryLockInv(s: State, s': State, f: FiberId, weak: bool)
    requires Inv(s) && DoTryLock(s, s', f, weak)
    ensures Inv(s')
  {
    assert AnyFiber(f);
    forall u | AnyFiber(u) && 0 <= u < |s.fibers| ensures FiberOk(s', u) {
      TryLockFiber(s, s', f, weak, u);
    }
  }

  lemma LockGlobal(s: State, s': State, f: FiberId)
    requires Global(s) && FiberOk(s, f) && LockSteps(s, s', f)
    ensures Global(s')
  {
  }

  lemma LockFiber(s: State, s': State, f: FiberId, u: FiberId)
    requires Global(s) && FiberOk(s, f) && FiberOk(s, u) && LockSteps(s, s', f)
    ensures FiberOk(s', u)
  {
  }

  lemma LockInv(s: State, s': State, f: FiberId)
    requires Inv(s) && LockSteps(s, s', f)
    ensures Inv(s')
  {
    assert AnyFiber(f);
    LockGlobal(s, s', f);
    forall u | AnyFiber(u) && 0 <= u < |s.fibers| ensures FiberOk(s', u) {
      LockFiber(s, s', f, u);
    }
  }

  lemma WaitGlobal(s: State, s': State, f: FiberId)
    requires Global(s) && FiberOk(s, f) && WaitSteps(s, s', f)
    ensures Global(s')
  {
  }

  lemma WaitFiber(s: State, s': State, f: FiberId, u: FiberId)
    requires Global(s) && FiberOk(s, f) && FiberOk(s, u) && WaitSteps(s, s', f)
    ensures FiberOk(s', u)
  {
  }

  lemma WaitInv(s: State, s': State, f: FiberId)
    requires Inv(s) && WaitSteps(s, s', f)
    ensures Inv(s')
  {
    assert AnyFiber(f);
    WaitGlobal(s, s', f);
    forall u | AnyFiber(u) && 0 <= u < |s.fibers| ensures FiberOk(s', u) {
      WaitFiber(s, s', f, u);
    }
  }

  lemma PostInv(s: State, s': State, f: FiberId)
    requires Inv(s) && DoPost(s, s', f)
    ensures Inv(s')
  {
    assert AnyFiber(f);
  }

  /** The first waiting fiber, seen by whoever is inside the inner lock. */
  lemma FirstParked(s: State, f: FiberId)
    requires Inv(s) && f < |s.fibers| && s.fibers[f].pc == Dequeue && s.waiters != []
    ensures Parked(s, s.waiters[0])
  {
    var g := s.waiters[0];
    assert g in s.waiters && AnyFiber(f) && AnyFiber(g);
  }

  lemma DequeueList(s: State, s': State)
    requires ListOk(s) && s.waiters != [] && |s'.fibers| == |s.fibers|
    requires s'.waiters == s.waiters[1..] && s'.arrivals == s.arrivals && s'.handed == s.handed + [s.waiters[0]]
    ensures ListOk(s') && s.waiters[0] !in s'.waiters
    ensures forall u :: u in s'.waiters <==> u in s.waiters && u != s.waiters[0]
  {
    assert s.waiters == [s.waiters[0]] + s'.waiters;
    assert forall u :: u in s'.waiters ==> u in s.waiters;
  }

  lemma UnlockGlobal(s: State, s': State, f: FiberId)
    requires Global(s) && FiberOk(s, f) && UnlockSteps(s, s', f)
    requires s.fibers[f].pc == Dequeue ==> s.waiters != [] && Parked(s, s.waiters[0])
    ensures Global(s')
  {
    if s.fibers[f].pc == Dequeue {
      DequeueList(s, s');
    }
  }

  lemma DequeueFiber(s: State, s': State, f: FiberId, u: FiberId)
    requires Global(s) && FiberOk(s, f) && FiberOk(s, u) && UnlockSteps(s, s', f)
    requires s.fibers[f].pc == Dequeue && s.waiters != [] && Parked(s, s.waiters[0])
    ensures FiberOk(s', u)
  {
    DequeueList(s, s');
  }

  lemma WakeFiber(s: State, s': State, f: FiberId, u: FiberId)
    requires Global(s) && FiberOk(s, f) && FiberOk(s, u) && s.fibers[f].pc.Wake? && UnlockSteps(s, s', f)
    ensures FiberOk(s', u)
  {
  }

  lemma ReleaseFiber(s: State, s': State, f: FiberId, u: FiberId)
    requires Global(s) && FiberOk(s, f) && FiberOk(s, u) && UnlockSteps(s, s', f)
    requires s.fibers[f].pc == Owning || s.fibers[f].pc == SlowUnlock
    ensures FiberOk(s', u)
  {
  }

  lemma UnlockFiber(s: State, s': State, f: FiberId, u: FiberId)
    requires Global(s) && FiberOk(s, f) && FiberOk(s, u) && UnlockSteps(s, s', f)
    requires s.fibers[f].pc == Dequeue ==> s.waiters != [] && Parked(s, s.waiters[0])
    ensures FiberOk(s', u)
  {
    match s.fibers[f].pc
    case Owning => ReleaseFiber(s, s', f, u);
    case SlowUnlock => ReleaseFiber(s, s', f, u);
    case Dequeue => DequeueFiber(s, s', f, u);
    case Wake(_) => WakeFiber(s, s', f, u);
    case _ =>
  }

  lemma UnlockInv(s: State, s': State, f: FiberId)
    requires Inv(s) && UnlockSteps(s, s', f)
    ensures Inv(s')
  {
    assert AnyFiber(f);
    if s.fibers[f].pc == Dequeue {
      FirstParked(s, f);
    }
    UnlockGlobal(s, s', f);
    forall u | AnyFiber(u) && 0 <= u < |s.fibers| ensures FiberOk(s', u) {
      UnlockFiber(s, s', f, u);
    }
  }

  lemma NextInv(s: State, s': State, f: FiberId, action: Action)
    requires Inv(s) && Next(s, s', f, action)
    ensures Inv(s')
  {
    match action
    case TryLock(weak) => TryLockInv(s, s', f, weak);
    case RunPost => PostInv(s, s', f);
    case Proceed =>
      if LockSteps(s, s', f) {
        LockInv(s, s', f);
      } else if WaitSteps(s, s', f) {
        WaitInv(s, s', f);
      } else {
        UnlockInv(s, s', f);
      }
  }

  // ---------------------------------------------------------------------------------------------
  // Every run
  // ---------------------------------------------------------------------------------------------

  datatype Step = Step(f: FiberId, action: Action)

  ghost predicate IsRun(states: seq<State>, steps: seq<Step>) {
    && |states| == |steps| + 1
    && Init(states[0])
    && forall i {:trigger steps[i]} :: 0 <= i < |steps| ==> Next(states[i], states[i + 1], steps[i].f, steps[i].action)
  }

  lemma {:induction false} RunInv(states: seq<State>, steps: seq<Step>, i: nat)
    requires IsRun(states, steps) && i < |states|
    ensures Inv(states[i])
  {
    if i > 0 {
      RunInv(states, steps, i - 1);
      NextInv(states[i - 1], states[i], steps[i - 1].f, steps[i - 1].action);
    }
  }

  /** The fiber has the lock: it runs with it, or was given it while it waits to be resumed. */
  predicate Holds(s: State, f: FiberId) {
    && f < |s.fibers|
    && (Has(s.fibers[f].pc) || (s.fibers[f].pc == Suspended && f !in s.waiters))
  }

  /** At most one fiber has the lock, and the state is 0 exactly if none has it. */
  lemma OneOwner(states: seq<State>, steps: seq<Step>, i: nat, f: FiberId, g: FiberId)
    requires IsRun(states, steps) && i < |states| && Holds(states[i], f)
    ensures Holds(states[i], g) ==> f == g
    ensures states[i].word != 0
  {
    RunInv(states, steps, i);
    assert AnyFiber(f) && AnyFiber(g);
  }

  lemma FreeWhenZero(states: seq<State>, steps: seq<Step>, i: nat)
    requires IsRun(states, steps) && i < |states| && forall f: FiberId :: !Holds(states[i], f)
    ensures states[i].word == 0
  {
    RunInv(states, steps, i);
    var s := states[i];
    assert s.owner.Some? ==> Holds(s, s.owner.value);
  }

  /** While nobody is inside the inner lock, state 2 means that fibers are waiting, and conversely. */
  lemma TwoMeansWaiters(states: seq<State>, steps: seq<Step>, i: nat)
    requires IsRun(states, steps) && i < |states| && states[i].inner == None
    ensures states[i].word == 2 <==> states[i].waiters != []
  {
    RunInv(states, steps, i);
  }

  /** The lock goes to the waiting fibers in the order in which they were appended, each once. */
  lemma HandedInOrder(states: seq<State>, steps: seq<Step>, i: nat)
    requires IsRun(states, steps) && i < |states|
    ensures states[i].arrivals == states[i].handed + states[i].waiters && Distinct(states[i].waiters)
  {
    RunInv(states, steps, i);
  }

  /**
   * The assertions of fev_ilock_unlock_slow() and fev_ilock_lock_slow() hold, and the fiber that is
   * dequeued has been switched out and its post routine is over.
   */
  lemma AssertionsHold(states: seq<State>, steps: seq<Step>, i: nat, f: FiberId)
    requires IsRun(states, steps) && i < |states| && f < |states[i].fibers|
    ensures var s := states[i];
            && (s.fibers[f].pc == Resumed || s.fibers[f].pc == Owning ==> s.word > 0 && s.owner == Some(f))
            && (s.fibers[f].pc == Dequeue ==> s.word == 2 && s.waiters != [] && Parked(s, s.waiters[0]))
  {
    RunInv(states, steps, i);
    assert AnyFiber(f);
    var s := states[i];
    if s.waiters != [] {
      assert s.waiters[0] in s.waiters && AnyFiber(s.waiters[0]);
    }
  }

  /** A fiber is woken only with its switch finished and as the owner, by exactly one fiber. */
  lemma WokenAsOwner(states: seq<State>, steps: seq<Step>, i: nat, f: FiberId)
    requires IsRun(states, steps) && i < |states| && f < |states[i].fibers| && states[i].fibers[f].pc.Wake?
    ensures var s, g := states[i], states[i].fibers[f].pc.next;
            && Parked(s, g) && s.owner == Some(g) && g !in s.waiters
            && forall h :: 0 <= h < |s.fibers| && HandsOver(s.fibers[h].pc) ==> h == f
  {
    RunInv(states, steps, i);
    var s := states[i];
    assert AnyFiber(f);
    forall h | 0 <= h < |s.fibers| && HandsOver(s.fibers[h].pc) ensures h == f {
      assert AnyFiber(h);
    }
  }
}
