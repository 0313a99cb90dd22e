/**
 * The mutex (src/fev_mutex.c) on top of the blocking machine.
 *
 * The mutex uses one queue `q` of the machine; the other queues, all timers and the poller go on
 * around it. The two atomic operations of fev_mutex_lock_recheck() are two steps; the store of
 * fev_mutex_unlock_callback() is one step with the release of the queue lock that follows it. A wait
 * may start at any time, so a retry after -EAGAIN is just another wait.
 */
module Mutex {
  import opened Common
  import TW = TimedWait
  import TI = TimedWaitInvariant
  import TT = TimedWaitTheorems
  import WO = WakeOrder
  import QC = QueueClient

  /**
   * Who may have the mutex: a call of fev_mutex_try_lock(), a wait, or a call of fev_mutex_unlock() that
   * has yet to give it on.
   */
  datatype Party = Try(t: nat) | Wait(w: TW.WaitId) | Release(k: TW.WakerId)

  /** What has become of a call of fev_mutex_try_lock(). */
  datatype Attempt = Failed | Holding | Released

  datatype State = State(
    sys: TW.State,
    word: nat,                       // mutex->state
    exchanged: Option<TW.WaitId>,    // the wait that found state 0 and has yet to store 1
    tries: seq<Attempt>,             // history: the calls of fev_mutex_try_lock()
    released: set<TW.WaitId>,        // history: waits that got the mutex and have called unlock
    owner: Option<Party>             // history, for the proof only
  )

  datatype Step =
    | TryLock
    | Exchange(w: TW.WaitId)
    | StoreOne(w: TW.WaitId)
    | Unlock(who: Party)
    | HandOff(j: TW.JobId)
    | Callback(k: TW.WakerId)
    | Other(step: TW.Step)

  ghost predicate Init(s: State, q: nat) {
    && TW.Init(s.sys) && q < |s.sys.queues| && s.word == 0 && s.exchanged == None
    && s.tries == [] && s.released == {} && s.owner == None
  }

  // src/fev_mutex.c:49-54; the call's number is |s.tries|.
  ghost predicate DoTryLock(s: State, s': State) {
    s' == if s.word == 0 then s.(word := 1, tries := s.tries + [Holding], owner := Some(Try(|s.tries|)))
          else s.(tries := s.tries + [Failed])
  }

  // src/fev_mutex.c:65; when the old state is not 0 the recheck is over and the fiber will wait.
  ghost predicate DoExchange(s: State, s': State, q: nat, w: TW.WaitId) {
    && w < |s.sys.waits| && s.sys.waits[w].q == q && s.sys.waits[w].fpc == TW.Recheck && s.exchanged != Some(w)
    && if s.word == 0 then s' == s.(word := 2, exchanged := Some(w), owner := Some(Wait(w)))
       else s' == s.(word := 2, sys := s'.sys) && TW.RunRecheck(s.sys, s'.sys, w, true)
  }

  // src/fev_mutex.c:72-73
  ghost predicate DoStoreOne(s: State, s': State, w: TW.WaitId) {
    s.exchanged == Some(w) && s' == s.(word := 1, exchanged := None, sys := s'.sys)
    && TW.RunRecheck(s.sys, s'.sys, w, false)
  }

  /** A call that took the mutex has returned and its caller has not unlocked since. */
  predicate MayUnlock(s: State, q: nat, who: Party) {
    match who
    case Try(t) => t < |s.tries| && s.tries[t] == Holding
    case Wait(w) =>
      && w < |s.sys.waits| && s.sys.waits[w].q == q && w !in s.released
      && (s.sys.waits[w].fpc == TW.Refused || s.sys.waits[w].fpc == TW.Done(TW.Success))
    case Release(_) => false
  }

  function Left(s: State, who: Party): State {
    match who
    case Try(t) => if t < |s.tries| then s.(tries := s.tries[t := Released]) else s
    case Wait(w) => s.(released := s.released + {w})
    case Release(_) => s
  }

  // src/fev_mutex.c:161-169: CAS from 1 to 0, or else fev_waiters_queue_wake() for one waiter.
  ghost predicate DoUnlock(s: State, s': State, q: nat, who: Party) {
    && MayUnlock(s, q, who)
    && if s.word == 1 then s' == Left(s, who).(word := 0, owner := None)
       else && s' == Left(s, who).(owner := Some(Release(|s.sys.wakers|)), sys := s'.sys)
            && TW.CallWake(s.sys, s'.sys, q, 1)
  }

  // The reason is set: the mutex belongs to the chosen wait from here on.
  ghost predicate DoHandOff(s: State, s': State, q: nat, j: TW.JobId) {
    && QC.Grants(s.sys, s'.sys, j, q)
    && s' == s.(sys := s'.sys, owner := Some(Wait(s.sys.jobs[j].v)))
  }

  // src/fev_mutex.c:137-153
  ghost predicate DoCallback(s: State, s': State, q: nat, k: TW.WakerId) {
    && k < |s.sys.wakers| && s.sys.wakers[k].q == q && TW.WakerUnlocks(s.sys, s'.sys, k)
    && s' == if s.sys.wakers[k].woken == 0 then s.(sys := s'.sys, word := 0, owner := None)
             else if s.sys.queues[q].nodes == [] then s.(sys := s'.sys, word := 1)
             else s.(sys := s'.sys)
  }

  ghost predicate Next(s: State, s': State, q: nat, step: Step) {
    match step
    case TryLock => DoTryLock(s, s')
    case Exchange(w) => DoExchange(s, s', q, w)
    case StoreOne(w) => DoStoreOne(s, s', w)
    case Unlock(who) => DoUnlock(s, s', q, who)
    case HandOff(j) => DoHandOff(s, s', q, j)
    case Callback(k) => DoCallback(s, s', q, k)
    case Other(t) => QC.Foreign(s.sys, t, q) && TW.Next(s.sys, s'.sys, t) && s' == s.(sys := s'.sys)
  }

  // ---------------------------------------------------------------------------------------------

  /** The unlock still has to give the mutex to a waiter or free it. */
  predicate Owes(sys: TW.State, k: TW.WakerId)
    requires k < |sys.wakers|
  {
    sys.wakers[k].pc != TW.WakerPush && !QC.Granted(sys, k)
  }

  /** The wait was handed the mutex, or took it in its recheck, and has not called unlock since. */
  predicate Holds(s: State, q: nat, w: TW.WaitId) {
    && w < |s.sys.waits| && s.sys.waits[w].q == q && w !in s.released
    && (s.sys.waits[w].reason == TW.Ready || s.sys.waits[w].fpc == TW.Refused || s.exchanged == Some(w))
  }

  /** An unlock on the slow path has neither woken a waiter nor freed the mutex yet. */
  predicate Unlocking(s: State, q: nat, k: TW.WakerId) {
    k < |s.sys.wakers| && s.sys.wakers[k].q == q && Owes(s.sys, k)
  }

  /** The party has the mutex, as told by its own record. */
  predicate Has(s: State, q: nat, who: Party) {
    match who
    case Try(t) => t < |s.tries| && s.tries[t] == Holding
    case Wait(w) => Holds(s, q, w)
    case Release(k) => Unlocking(s, q, k)
  }

  ghost predicate WaitHolds(s: State, q: nat, w: TW.WaitId) {
    && w < |s.sys.waits|
    && (Holds(s, q, w) ==> s.owner == Some(Wait(w)))
    && (s.sys.waits[w].q == q && s.sys.waits[w].fpc == TW.Insert ==> s.word == 2)
  }

  ghost predicate UnlockHolds(s: State, q: nat, k: TW.WakerId) {
    && k < |s.sys.wakers|
    && var wk := s.sys.wakers[k];
       wk.q == q ==>
         && wk.limit == 1
         && (Owes(s.sys, k) ==> s.owner == Some(Release(k)))
         && (QC.InSection(wk.pc) && wk.popped > 0 ==> s.word == 2)
  }

  ghost predicate WordOk(s: State, q: nat) {
    && q < |s.sys.queues| && s.word <= 2
    && (s.word == 0 <==> s.owner == None)
    && (s.owner.Some? ==> Has(s, q, s.owner.value))
    && (s.sys.queues[q].nodes != [] ==> s.word == 2)
    && (s.exchanged.Some? ==>
          && s.exchanged.value < |s.sys.waits| && s.sys.waits[s.exchanged.value].q == q
          && s.sys.waits[s.exchanged.value].fpc == TW.Recheck && s.sys.queues[q].nodes == []
          && s.owner == Some(Wait(s.exchanged.value)) && s.word == 2)
    && (forall w :: w in s.released ==> w < |s.sys.waits| && s.sys.waits[w].q == q && TI.Gone(s.sys.waits[w].fpc))
    && (forall t {:trigger s.tries[t]} :: 0 <= t < |s.tries| && s.tries[t] == Holding ==> s.owner == Some(Try(t)))
  }

  /** The invariant without that of the machine below. */
  ghost predicate Own(s: State, q: nat) {
    && WordOk(s, q)
    && (forall w {:trigger TI.AnyWait(w)} :: TI.AnyWait(w) && 0 <= w < |s.sys.waits| ==> WaitHolds(s, q, w))
    && (forall k {:trigger TI.AnyWaker(k)} :: TI.AnyWaker(k) && 0 <= k < |s.sys.wakers| ==> UnlockHolds(s, q, k))
  }

  ghost predicate Inv(s: State, q: nat) {
    TI.Inv(s.sys) && WO.Orders(s.sys) && Own(s, q)
  }

  lemma InitInv(s: State, q: nat)
    requires Init(s, q)
    ensures Inv(s, q)
  {
    TI.InitInv(s.sys);
  }

  lemma TryLockInv(s: State, s': State, q: nat)
    requires Own(s, q) && DoTryLock(s, s')
    ensures Own(s', q)
  {
  }

  lemma ExchangeInv(s: State, s': State, q: nat, w: TW.WaitId)
    requires Own(s, q) && DoExchange(s, s', q, w)
    ensures Own(s', q)
  {
  }

  lemma StoreOneInv(s: State, s': State, q: nat, w: TW.WaitId)
    requires TI.Inv(s.sys) && Own(s, q) && DoStoreOne(s, s', w)
    ensures Own(s', q)
  {
    QC.LockIsFibers(s.sys, q, w);
  }

  /** Whoever may unlock is the owner. */
  lemma UnlockerOwns(s: State, q: nat, who: Party)
    requires TI.Inv(s.sys) && Own(s, q) && MayUnlock(s, q, who)
    ensures s.owner == Some(who)
  {
    if who.Wait? {
      assert TI.AnyWait(who.w);
    }
  }

  lemma UnlockInv(s: State, s': State, q: nat, who: Party)
    requires Own(s, q) && s.owner == Some(who) && DoUnlock(s, s', q, who)
    ensures Own(s', q)
  {
  }

  lemma HandOffInv(s: State, s': State, q: nat, j: TW.JobId)
    requires TI.Inv(s.sys) && WO.Orders(s.sys) && Own(s, q) && DoHandOff(s, s', q, j)
    ensures Own(s', q)
  {
    assert TI.AnyJob(j);
    assert TI.AnyWaker(s.sys.jobs[j].caller.k);
  }

  /** What the callback finds. */
  lemma CallbackFinds(s: State, q: nat, k: TW.WakerId)
    requires TI.Inv(s.sys) && WO.Orders(s.sys) && Own(s, q)
    requires k < |s.sys.wakers| && s.sys.wakers[k].q == q && s.sys.wakers[k].pc == TW.WakerLoop
    requires s.sys.wakers[k].woken >= s.sys.wakers[k].limit || s.sys.queues[q].nodes == []
    ensures if s.sys.wakers[k].woken == 0 then s.owner == Some(Release(k)) && s.sys.queues[q].nodes == []
            else s.sys.wakers[k].woken == 1 && s.word == 2
    ensures forall u :: 0 <= u < |s.sys.waits| && s.sys.waits[u].q == q ==> s.sys.waits[u].fpc != TW.Insert
    ensures forall l :: 0 <= l < |s.sys.wakers| && s.sys.wakers[l].q == q && QC.InSection(s.sys.wakers[l].pc) ==> l == k
    ensures s.exchanged == None
  {
    QC.LockIsWakers(s.sys, q, k);
    assert TI.AnyWaker(k);
  }

  lemma CallbackInv(s: State, s': State, q: nat, k: TW.WakerId)
    requires TI.Inv(s.sys) && WO.Orders(s.sys) && Own(s, q) && DoCallback(s, s', q, k)
    ensures Own(s', q)
  {
    CallbackFinds(s, q, k);
    CallbackLeaves(s, s', q, k);
  }

  lemma CallbackLeaves(s: State, s': State, q: nat, k: TW.WakerId)
    requires Own(s, q) && DoCallback(s, s', q, k) && s.exchanged == None
    requires if s.sys.wakers[k].woken == 0 then s.owner == Some(Release(k)) && s.sys.queues[q].nodes == []
             else s.sys.wakers[k].woken == 1 && s.word == 2
    requires forall u :: 0 <= u < |s.sys.waits| && s.sys.waits[u].q == q ==> s.sys.waits[u].fpc != TW.Insert
    requires forall l :: 0 <= l < |s.sys.wakers| && s.sys.wakers[l].q == q && QC.InSection(s.sys.wakers[l].pc) ==>
               l == k
    ensures Own(s', q)
  {
  }

  lemma QuietWord(s: State, s': State, q: nat)
    requires Own(s, q) && QC.Quiet(s.sys, s'.sys, q) && s' == s.(sys := s'.sys)
    requires s.exchanged.Some? ==> s'.sys.queues[q].nodes == []
    ensures WordOk(s', q)
  {
    if s'.sys.queues[q].nodes != [] && s.sys.queues[q].nodes == [] {
      var w: TW.WaitId :| QC.Inserting(s.sys, q, w);
      assert TI.AnyWait(w);
    }
    if s.exchanged.Some? {
      assert TI.AnyWait(s.exchanged.value);
    }
    forall w | w in s.released
      ensures w < |s'.sys.waits| && s'.sys.waits[w].q == q && TI.Gone(s'.sys.waits[w].fpc)
    {
      assert TI.AnyWait(w);
    }
    match s.owner
    case Some(Wait(w)) => assert TI.AnyWait(w);
    case Some(Release(k)) => assert TI.AnyWaker(k);
    case _ =>
  }

  lemma ExchangedAlone(s: State, s': State, q: nat)
    requires TI.Inv(s.sys) && WordOk(s, q) && QC.Quiet(s.sys, s'.sys, q) && s.exchanged.Some?
    ensures s'.sys.queues[q].nodes == []
  {
    QC.LockIsFibers(s.sys, q, s.exchanged.value);
  }

  lemma OtherInv(s: State, s': State, q: nat, step: TW.Step)
    requires Inv(s, q) && Next(s, s', q, Other(step))
    ensures Own(s', q)
  {
    QC.ForeignQuiet(s.sys, s'.sys, step, q);
    if s.exchanged.Some? {
      ExchangedAlone(s, s', q);
    }
    QuietWord(s, s', q);
    QuietHolds(s, s', q);
  }

  lemma QuietHolds(s: State, s': State, q: nat)
    requires Own(s, q) && QC.Quiet(s.sys, s'.sys, q) && s' == s.(sys := s'.sys) && WordOk(s', q)
    ensures Own(s', q)
  {
  }

  /** The step of the blocking machine that a step of the mutex consists of, if any. */
  function Base(s: State, q: nat, step: Step): Option<TW.Step> {
    match step
    case TryLock => None
    case Exchange(w) => if s.word == 0 then None else Some(TW.DoRecheck(w, true))
    case StoreOne(w) => Some(TW.DoRecheck(w, false))
    case Unlock(_) => if s.word == 1 then None else Some(TW.DoCallWake(q, 1))
    case HandOff(j) => Some(TW.DoJob(j))
    case Callback(k) => Some(TW.DoWaker(k))
    case Other(t) => Some(t)
  }

  /** The mutex only does what the blocking machine allows. */
  lemma NextRefines(s: State, s': State, q: nat, step: Step)
    requires Next(s, s', q, step)
    ensures match Base(s, q, step)
            case None => s'.sys == s.sys
            case Some(t) => TW.Next(s.sys, s'.sys, t)
  {
  }

  lemma NextOwn(s: State, s': State, q: nat, step: Step)
    requires Inv(s, q) && Next(s, s', q, step)
    ensures Own(s', q)
  {
    match step
    case TryLock => TryLockInv(s, s', q);
    case Exchange(w) => ExchangeInv(s, s', q, w);
    case StoreOne(w) => StoreOneInv(s, s', q, w);
    case Unlock(who) =>
      UnlockerOwns(s, q, who);
      UnlockInv(s, s', q, who);
    case HandOff(j) => HandOffInv(s, s', q, j);
    case Callback(k) => CallbackInv(s, s', q, k);
    case Other(t) => OtherInv(s, s', q, t);
  }

  lemma NextInv(s: State, s': State, q: nat, step: Step)
    requires Inv(s, q) && Next(s, s', q, step)
    ensures Inv(s', q)
  {
    NextOwn(s, s', q, step);
    NextRefines(s, s', q, step);
    match Base(s, q, step)
    case None =>
    case Some(t) =>
      TI.NextInv(s.sys, s'.sys, t);
      WO.NextOrders(s.sys, s'.sys, t);
  }

  // ---------------------------------------------------------------------------------------------
  // Every run
  // ---------------------------------------------------------------------------------------------

  ghost predicate IsRun(states: seq<State>, steps: seq<Step>, q: nat) {
    && |states| == |steps| + 1
    && Init(states[0], q)
    && forall i {:trigger steps[i]} :: 0 <= i < |steps| ==> Next(states[i], states[i + 1], q, steps[i])
  }

  lemma {:induction false} RunInv(states: seq<State>, steps: seq<Step>, q: nat, i: nat)
    requires IsRun(states, steps, q) && i < |states|
    ensures Inv(states[i], q)
  {
    if i == 0 {
      InitInv(states[0], q);
    } else {
      RunInv(states, steps, q, i - 1);
      NextInv(states[i - 1], states[i], q, steps[i - 1]);
    }
  }

  /**
   * Mutual exclusion with handoff: of all calls of fev_mutex_try_lock() that succeeded, waits that were
   * handed the mutex or took it, and unlocks that have yet to give it on, at most one has the mutex, and
   * the state is 0 exactly if none has it.
   */
  lemma OneOwner(states: seq<State>, steps: seq<Step>, q: nat, i: nat, a: Party, b: Party)
    requires IsRun(states, steps, q) && i < |states|
    ensures Has(states[i], q, a) && Has(states[i], q, b) ==> a == b
    ensures states[i].word != 0 <==> exists c: Party :: Has(states[i], q, c)
  {
    RunInv(states, steps, q, i);
    OwnerHas(states[i], q, a);
    OwnerHas(states[i], q, b);
    if c: Party :| Has(states[i], q, c) {
      OwnerHas(states[i], q, c);
    }
  }

  lemma OwnerHas(s: State, q: nat, a: Party)
    requires Own(s, q)
    ensures Has(s, q, a) <==> s.owner == Some(a)
  {
    match a
    case Try(t) =>
    case Wait(w) => assert TI.AnyWait(w);
    case Release(k) => assert TI.AnyWaker(k);
  }

  /** The step by which a party gives the mutex up. */
  ghost predicate Yields(s: State, step: Step, a: Party) {
    match a
    case Release(k) =>
      || step == Callback(k)
      || (step.HandOff? && step.j < |s.sys.jobs| && s.sys.jobs[step.j].caller == TW.FromWaker(k))
    case _ => step == Unlock(a)
  }

  lemma StepKeeps(s: State, s': State, q: nat, step: Step, a: Party)
    requires Inv(s, q) && Next(s, s', q, step) && s.owner == Some(a) && !Yields(s, step, a)
    ensures s'.owner == Some(a)
  {
    match step
    case Unlock(who) => UnlockerOwns(s, q, who);
    case HandOff(j) =>
      assert TI.AnyJob(j);
      assert TI.AnyWaker(s.sys.jobs[j].caller.k);
    case Callback(k) => assert TI.AnyWaker(k);
    case _ =>
  }

  /**
   * Nobody takes the mutex away: who has it keeps it until its own unlock, and an unlock until it has
   * handed it to a waiter or run its callback; meanwhile nobody else has it.
   */
  lemma {:induction false} OwnerKeeps(states: seq<State>, steps: seq<Step>, q: nat, i: nat, n: nat, a: Party, b: Party)
    requires IsRun(states, steps, q) && i <= n < |states| && Has(states[i], q, a)
    requires forall m {:trigger steps[m]} :: i <= m < n ==> !Yields(states[m], steps[m], a)
    ensures Has(states[n], q, a) && states[n].word != 0
    ensures Has(states[n], q, b) ==> b == a
  {
    if i < n {
      OwnerKeeps(states, steps, q, i, n - 1, a, a);
      RunKeeps(states, steps, q, n - 1, a);
    }
    OneOwner(states, steps, q, n, a, b);
  }

  lemma RunKeeps(states: seq<State>, steps: seq<Step>, q: nat, i: nat, a: Party)
    requires IsRun(states, steps, q) && i < |steps| && Has(states[i], q, a) && !Yields(states[i], steps[i], a)
    ensures Has(states[i + 1], q, a)
  {
    RunInv(states, steps, q, i);
    OwnerHas(states[i], q, a);
    StepKeeps(states[i], states[i + 1], q, steps[i], a);
    RunInv(states, steps, q, i + 1);
    OwnerHas(states[i + 1], q, a);
  }

  /** fev_mutex_try_lock() succeeds exactly if nobody has the mutex. */
  lemma TryLockExact(states: seq<State>, steps: seq<Step>, q: nat, i: nat)
    requires IsRun(states, steps, q) && i < |steps| && steps[i] == TryLock
    ensures var t := |states[i].tries|;
            && |states[i + 1].tries| == t + 1
            && (Has(states[i + 1], q, Try(t)) <==> forall a: Party :: !Has(states[i], q, a))
  {
    OneOwner(states, steps, q, i, Try(0), Try(0));
  }

  /** State 0 or 1 means that no node is queued, at every moment and not only when the lock is free. */
  lemma NoWaiterForgotten(states: seq<State>, steps: seq<Step>, q: nat, i: nat)
    requires IsRun(states, steps, q) && i < |states| && states[i].word != 2
    ensures states[i].word <= 1 && q < |states[i].sys.queues| && states[i].sys.queues[q].nodes == []
  {
    RunInv(states, steps, q, i);
  }

  /** What the calls return: success means having the mutex, a timeout means not having it. */
  lemma ReturnsOwner(states: seq<State>, steps: seq<Step>, q: nat, i: nat, w: TW.WaitId)
    requires IsRun(states, steps, q) && i < |states| && w < |states[i].sys.waits| && states[i].sys.waits[w].q == q
    requires TI.Gone(states[i].sys.waits[w].fpc) && w !in states[i].released
    ensures var fpc := states[i].sys.waits[w].fpc;
            Has(states[i], q, Wait(w)) <==> fpc == TW.Refused || fpc == TW.Done(TW.Success)
    ensures !states[i].sys.waits[w].timed ==> Has(states[i], q, Wait(w))
  {
    RunInv(states, steps, q, i);
    TT.ReturnedWait(states[i].sys, w);
  }

  /**
   * The waits of a mutex are as safe as all others: whoever touches a node, waiter or timer in a step of
   * the mutex does so before the fiber of that wait has returned.
   */
  lemma LifetimeSafety(states: seq<State>, steps: seq<Step>, q: nat, i: nat, v: TW.WaitId)
    requires IsRun(states, steps, q) && i < |steps|
    requires var t := Base(states[i], q, steps[i]); t.Some? && TT.Touches(states[i].sys, t.value, v)
    ensures TT.Alive(states[i].sys, v)
  {
    RunInv(states, steps, q, i);
    NextRefines(states[i], states[i + 1], q, steps[i]);
    TT.TouchedAlive(states[i].sys, states[i + 1].sys, Base(states[i], q, steps[i]).value, v);
  }

  /** The assertion of fev_mutex_unlock_callback(), and what its store leaves behind. */
  lemma CallbackAssertion(states: seq<State>, steps: seq<Step>, q: nat, i: nat, k: TW.WakerId)
    requires IsRun(states, steps, q) && i < |steps| && steps[i] == Callback(k)
    ensures states[i].sys.wakers[k].woken <= 1
    ensures states[i + 1].word == (if states[i].sys.wakers[k].woken == 0 then 0
                                   else if states[i].sys.queues[q].nodes == [] then 1 else 2)
  {
    RunInv(states, steps, q, i);
    assert TI.AnyWaker(k);
  }
}
