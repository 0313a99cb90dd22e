/**
 * The thread mutex on Linux (src/fev_thr_mutex_linux.h, src/fev_thr_mutex_linux.c), after "Futexes Are
 * Tricky" by Ulrich Drepper, with any number of threads. The kernel's futex call compares the state and
 * puts the thread to sleep in one step; a sleeping thread may also wake up for no reason.
 */
module FutexMutex {
  import opened Common

  type ThreadId = nat

  datatype Pc = Out | SlowLoad | Exchange | Wait | Asleep | Owning | WakeOne

  datatype State = State(
    word: nat,                      // mutex->state
    threads: seq<Pc>,
    owner: Option<ThreadId>         // history
  )

  datatype Step =
    | TryLock(t: ThreadId, weak: bool)
    | Lock(t: ThreadId, weak: bool)
    | Proceed(t: ThreadId)
    | Unlock(t: ThreadId)
    | Wake(t: ThreadId, sleeper: Option<ThreadId>)
    | Interrupt(t: ThreadId)

  ghost predicate Init(s: State) {
    s.word == 0 && s.owner == None && forall t :: 0 <= t < |s.threads| ==> s.threads[t] == Out
  }

  function Goto(s: State, t: ThreadId, pc: Pc): State
    requires t < |s.threads|
  {
    s.(threads := s.threads[t := pc])
  }

  // src/fev_thr_mutex_linux.h:43-45 and :50-54; the weak CAS may fail although the state is 0.
  ghost predicate DoTry(s: State, s': State, t: ThreadId, weak: bool, onFailure: Pc) {
    && t < |s.threads| && s.threads[t] == Out
    && s' == if s.word == 0 && !weak then Goto(s, t, Owning).(word := 1, owner := Some(t)) else Goto(s, t, onFailure)
  }

  // src/fev_thr_mutex_linux.c:61-67
  ghost predicate DoProceed(s: State, s': State, t: ThreadId) {
    && t < |s.threads|
    && match s.threads[t]
       case SlowLoad => s' == Goto(s, t, if s.word != 2 then Exchange else Wait)
       case Exchange =>
         s' == if s.word == 0 then Goto(s, t, Owning).(word := 2, owner := Some(t)) else Goto(s, t, Wait).(word := 2)
       case Wait => s' == Goto(s, t, if s.word == 2 then Asleep else Exchange)
       case _ => false
  }

  // src/fev_thr_mutex_linux.h:59-61
  ghost predicate DoUnlock(s: State, s': State, t: ThreadId) {
    && t < |s.threads| && s.threads[t] == Owning
    && s' == Goto(s, t, if s.word == 2 then WakeOne else Out).(word := 0, owner := None)
  }

  // src/fev_thr_mutex_linux.c:72; one thread is woken if any sleeps.
  ghost predicate DoWake(s: State, s': State, t: ThreadId, sleeper: Option<ThreadId>) {
    && t < |s.threads| && s.threads[t] == WakeOne
    && match sleeper
       case Some(u) => u < |s.threads| && s.threads[u] == Asleep && s' == Goto(Goto(s, t, Out), u, Exchange)
       case None => (forall u :: 0 <= u < |s.threads| ==> s.threads[u] != Asleep) && s' == Goto(s, t, Out)
  }

  ghost predicate Next(s: State, s': State, step: Step) {
    match step
    case TryLock(t, weak) => DoTry(s, s', t, weak, Out)
    case Lock(t, weak) => DoTry(s, s', t, weak, SlowLoad)
    case Proceed(t) => DoProceed(s, s', t)
    case Unlock(t) => DoUnlock(s, s', t)
    case Wake(t, sleeper) => DoWake(s, s', t, sleeper)
    case Interrupt(t) => t < |s.threads| && s.threads[t] == Asleep && s' == Goto(s, t, Exchange)
  }

  /** A thread that will wake a sleeper, or will make the state 2 so that the next unlock does. */
  predicate Rescuer(s: State, t: ThreadId) {
    t < |s.threads| && (s.threads[t] == WakeOne || s.threads[t] == Exchange)
  }

  ghost predicate SomeoneSleeps(s: State) {
    exists t: ThreadId :: t < |s.threads| && s.threads[t] == Asleep
  }

  ghost predicate OwnerOk(s: State) {
    && s.word <= 2 && (s.word == 0 <==> s.owner == None)
    && (s.owner.Some? ==> s.owner.value < |s.threads| && s.threads[s.owner.value] == Owning)
    && (forall t :: 0 <= t < |s.threads| && s.threads[t] == Owning ==> s.owner == Some(t))
  }

  ghost predicate SleepersOk(s: State) {
    SomeoneSleeps(s) ==> s.word == 2 || exists t: ThreadId :: Rescuer(s, t)
  }

  ghost predicate Inv(s: State) {
    OwnerOk(s) && SleepersOk(s)
  }

  /** Steps that wake nobody: a thread that was asleep before or falls asleep now. */
  lemma SleeperBefore(s: State, s': State, t: ThreadId)
    requires t < |s.threads| == |s'.threads| && s'.threads == s.threads[t := s'.threads[t]] && SomeoneSleeps(s')
    ensures SomeoneSleeps(s) || s'.threads[t] == Asleep
  {
    var u: ThreadId :| u < |s'.threads| && s'.threads[u] == Asleep;
    if u != t {
      assert s.threads[u] == Asleep;
    }
  }

  lemma RescuerAfter(s: State, s': State, t: ThreadId, u: ThreadId)
    requires t < |s.threads| == |s'.threads| && s'.threads == s.threads[t := s'.threads[t]] && Rescuer(s, u)
    ensures u != t ==> Rescuer(s', u)
  {
  }

  lemma StepSleepers(s: State, s': State, step: Step)
    requires SleepersOk(s) && Next(s, s', step) && SomeoneSleeps(s') && s'.word != 2
    ensures exists t: ThreadId :: Rescuer(s', t)
  {
    match step
    case Wake(t, Some(u)) => assert Rescuer(s', u);
    case Wake(t, None) =>
      SleeperBefore(s, s', t);
      assert false;
    case Interrupt(t) => assert Rescuer(s', t);
    case Unlock(t) =>
      SleeperBefore(s, s', t);
      if s.word == 2 {
        assert Rescuer(s', t);
      } else {
        var u: ThreadId :| Rescuer(s, u);
        RescuerAfter(s, s', t, u);
        assert Rescuer(s', u);
      }
    case _ =>
      SleeperBefore(s, s', step.t);
      var u: ThreadId :| Rescuer(s, u);
      RescuerAfter(s, s', step.t, u);
      assert Rescuer(s', u);
  }

  lemma LockOwner(s: State, s': State, t: ThreadId, weak: bool, onFailure: Pc)
    requires OwnerOk(s) && DoTry(s, s', t, weak, onFailure) && onFailure != Owning
    ensures OwnerOk(s')
  {
  }

  lemma ProceedOwner(s: State, s': State, t: ThreadId)
    requires OwnerOk(s) && DoProceed(s, s', t)
    ensures OwnerOk(s')
  {
  }

  lemma LeaveOwner(s: State, s': State, step: Step)
    requires OwnerOk(s) && (step.Unlock? || step.Wake? || step.Interrupt?) && Next(s, s', step)
    ensures OwnerOk(s')
  {
  }

  lemma NextInv(s: State, s': State, step: Step)
    requires Inv(s) && Next(s, s', step)
    ensures Inv(s')
  {
    StepKeepsSleepers(s, s', step);
    match step
    case TryLock(t, weak) => LockOwner(s, s', t, weak, Out);
    case Lock(t, weak) => LockOwner(s, s', t, weak, SlowLoad);
    case Proceed(t) => ProceedOwner(s, s', t);
    case _ => LeaveOwner(s, s', step);
  }

  lemma StepKeepsSleepers(s: State, s': State, step: Step)
    requires SleepersOk(s) && Next(s, s', step)
    ensures SleepersOk(s')
  {
    if SomeoneSleeps(s') && s'.word != 2 {
      StepSleepers(s, s', step);
    }
  }

  // ---------------------------------------------------------------------------------------------
  // Every run
  // ---------------------------------------------------------------------------------------------

  ghost predicate IsRun(states: seq<State>, steps: seq<Step>) {
    && |states| == |steps| + 1
    && Init(states[0])
    && forall i {:trigger steps[i]} :: 0 <= i < |steps| ==> Next(states[i], states[i + 1], steps[i])
  }

  lemma {:induction false} RunInv(states: seq<State>, steps: seq<Step>, i: nat)
    requires IsRun(states, steps) && i < |states|
    ensures Inv(states[i])
  {
    if i > 0 {
      RunInv(states, steps, i - 1);
      NextInv(states[i - 1], states[i], steps[i - 1]);
    }
  }

  /** At most one thread owns the mutex, and the state is 0 exactly if none does. */
  lemma MutualExclusion(states: seq<State>, steps: seq<Step>, i: nat, t: ThreadId, u: ThreadId)
    requires IsRun(states, steps) && i < |states|
    requires t < |states[i].threads| && u < |states[i].threads|
    requires states[i].threads[t] == Owning && states[i].threads[u] == Owning
    ensures t == u && states[i].word != 0
  {
    RunInv(states, steps, i);
  }

  lemma FreeWhenZero(states: seq<State>, steps: seq<Step>, i: nat)
    requires IsRun(states, steps) && i < |states|
    requires forall t :: 0 <= t < |states[i].threads| ==> states[i].threads[t] != Owning
    ensures states[i].word == 0
  {
    RunInv(states, steps, i);
  }

  /**
   * No stranded sleeper: while a thread sleeps in the futex, the state is 2, so that the owner's unlock
   * will wake one, or an unlock has yet to wake one, or a thread is awake and about to store 2.
   */
  lemma NoStrandedSleeper(states: seq<State>, steps: seq<Step>, i: nat, t: ThreadId)
    requires IsRun(states, steps) && i < |states| && t < |states[i].threads| && states[i].threads[t] == Asleep
    ensures (states[i].word == 2 && exists u: ThreadId :: u < |states[i].threads| && states[i].threads[u] == Owning)
            || exists u: ThreadId :: Rescuer(states[i], u)
  {
    RunInv(states, steps, i);
    var s := states[i];
    if s.word == 2 {
      assert s.threads[s.owner.value] == Owning;
    }
  }
}
