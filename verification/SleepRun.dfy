/**
 * Sleep is reachable: with any number of workers there is a run in which a fiber runs and blocks and then
 * all workers go to sleep, so that the theorem about sleeping workers is not an empty one. The blocked
 * fiber still counts in num_fibers, so that no worker leaves at src/fev_sched_steal_locking.c:168.
 */
module SleepRun {
  import opened Common
  import opened Scheduler
  import Fibers = SchedulerFibers
  import Sleep = SchedulerSleep

  ghost predicate Reachable(s: State) {
    exists states, steps :: Fibers.IsRun(states, steps) && states[|states| - 1] == s
  }

  lemma ReachNext(s: State, s': State, w: WorkerId, choice: Choice)
    requires Reachable(s) && Next(s, s', w, choice)
    ensures Reachable(s')
  {
    var states, steps :| Fibers.IsRun(states, steps) && states[|states| - 1] == s;
    assert Fibers.IsRun(states + [s'], steps + [Fibers.Step(w, choice)]);
  }

  /** All run queues are empty and nothing is runnable; worker `w` stands at `pc`. */
  ghost predicate Calm(s: State, w: WorkerId, pc: Pc) {
    && At(s, w) && s.workers[w] == Worker(pc, NoPush, 0) && s.numRun == 0 && |s.workers| < WORD
    && forall v :: 0 <= v < |s.queues| ==> s.queues[v] == RunQueue(None, [], 0)
  }

  lemma LooksForWork(s: State, w: WorkerId)
    requires Reachable(s) && Calm(s, w, Check)
    ensures Reachable(Goto(s, w, Steal(0, 0)))
  {
    var t := Goto(s, w, LoadSize);
    ReachNext(s, t, w, Go);
    ReachNext(t, Goto(s, w, Steal(0, 0)), w, Random(0));
  }

  lemma StealsFrom(s: State, w: WorkerId, i: nat)
    requires Reachable(s) && Calm(s, w, Steal(0, i)) && i < |s.workers| && Victim(s, 0, i) != w
    ensures Reachable(Goto(s, w, Steal(0, i + 1)))
  {
    var v := Victim(s, 0, i);
    var t := SetQueue(Goto(s, w, StealSize(0, i, [])), v, RunQueue(Some(w), [], 0));
    assert Move(s.places, [], Stolen(w)) == s.places;
    ReachNext(s, t, w, Go);
    var u := Goto(s, w, Steal(0, i + 1));
    assert t.queues[v := RunQueue(None, [], 0)] == s.queues;
    assert t.workers[w := u.workers[w]] == u.workers;
    ReachNext(t, u, w, Go);
  }

  lemma {:induction false} StealsNothing(s: State, w: WorkerId, i: nat)
    requires Reachable(s) && Calm(s, w, Steal(0, i)) && i <= |s.workers|
    ensures Reachable(Goto(s, w, LoadRun))
    decreases |s.workers| - i
  {
    if i == |s.workers| {
      ReachNext(s, Goto(s, w, LoadRun), w, Go);
    } else {
      var t := Goto(s, w, Steal(0, i + 1));
      if Victim(s, 0, i) == w {
        ReachNext(s, t, w, Go);
      } else {
        StealsFrom(s, w, i);
      }
      StealsNothing(t, w, i + 1);
      assert Goto(t, w, LoadRun) == Goto(s, w, LoadRun);
    }
  }

  /** The state in which worker `w` has gone to sleep as well. */
  function Slept(s: State, w: WorkerId): State
    requires w < |s.workers|
  {
    Goto(s, w, Committed(!s.pollerWaiting))
    .(numWaiting := s.numWaiting + 1, pollerWaiting := true,
      poller := if s.pollerWaiting then s.poller else Some(w))
  }

  /** After the exchange and after the announcement, on the way to Slept(s, w). */
  function Took(s: State, w: WorkerId): State
    requires w < |s.workers|
  {
    Goto(s, w, Exchanged(!s.pollerWaiting))
    .(pollerWaiting := true, poller := if s.pollerWaiting then s.poller else Some(w))
  }

  function Counted(s: State, w: WorkerId): State
    requires w < |s.workers|
  {
    Goto(Took(s, w), w, Announced(s.numWaiting, !s.pollerWaiting)).(numWaiting := s.numWaiting + 1)
  }

  lemma Takes(s: State, w: WorkerId)
    requires Calm(s, w, Exchange)
    ensures Next(s, Took(s, w), w, Go)
  {
  }

  lemma Counts(s: State, w: WorkerId)
    requires Calm(s, w, Exchange) && s.numWaiting < |s.workers|
    ensures Next(Took(s, w), Counted(s, w), w, Go)
  {
    WordSmall(s.numWaiting + 1);
  }

  lemma Commits(s: State, w: WorkerId)
    requires Calm(s, w, Exchange) && s.numWaiting < |s.workers|
    ensures Next(Counted(s, w), Slept(s, w), w, Go)
  {
    WordSmall(|s.workers| - s.numWaiting);
    assert Counted(s, w).workers[w := Slept(s, w).workers[w]] == Slept(s, w).workers;
  }

  lemma Announces(s: State, w: WorkerId)
    requires Reachable(s) && Calm(s, w, Exchange) && s.numWaiting < |s.workers|
    ensures Reachable(Slept(s, w))
  {
    Takes(s, w);
    Counts(s, w);
    Commits(s, w);
    ReachNext(s, Took(s, w), w, Go);
    ReachNext(Took(s, w), Counted(s, w), w, Go);
    ReachNext(Counted(s, w), Slept(s, w), w, Go);
  }

  lemma FallsAsleep(s: State, w: WorkerId)
    requires Reachable(s) && Calm(s, w, LoadRun) && s.numWaiting < |s.workers|
    ensures Reachable(Slept(s, w))
  {
    var t, u := Goto(s, w, LoadWaiting(0)), Goto(s, w, Exchange);
    ReachNext(s, t, w, Go);
    WordSmall(|s.workers| - s.numWaiting);
    assert t.workers[w := u.workers[w]] == u.workers;
    ReachNext(t, u, w, Go);
    Announces(u, w);
    assert Slept(u, w) == Slept(s, w);
  }

  /** A worker that looks for work is not counted as waiting. */
  lemma NotAllWaiting(s: State, w: WorkerId)
    requires Reachable(s) && w < |s.workers| && s.workers[w].pc == Check
    ensures s.numWaiting < |s.workers|
  {
    var states, steps :| Fibers.IsRun(states, steps) && states[|states| - 1] == s;
    Sleep.EveryRun(states, steps, |states| - 1);
    CountUpdate(Sleep.CountedFlags(s.workers), w, true);
  }

  /**
   * A worker that comes to look for work with its backoff at 0, while the counter of runnable fibers is 0 and
   * every run queue is empty and its lock free, can go to sleep, however many others sleep or are awake.
   */
  lemma WorkerSleeps(s: State, w: WorkerId)
    requires Reachable(s) && Calm(s, w, Check)
    ensures Reachable(Slept(s, w))
  {
    NotAllWaiting(s, w);
    LooksForWork(s, w);
    var t := Goto(s, w, Steal(0, 0));
    StealsNothing(t, w, 0);
    var u := Goto(s, w, LoadRun);
    assert Goto(t, w, LoadRun) == u;
    FallsAsleep(u, w);
    assert Slept(u, w) == Slept(s, w);
  }

  // ---------------------------------------------------------------------------------------------

  /** `n` workers and one fiber, which is in the first run queue. */
  function Start(n: nat): State
    requires n > 0
  {
    State(seq(n, w => Worker(GetLocal, NoPush, 0)), seq(n, w => RunQueue(None, [], 0))[0 := RunQueue(None, [0], 1)],
          1, 0, false, 0, 0, 1, [Queued(0)], None)
  }

  /** The fiber has run and blocked, and the first `k` workers are asleep. */
  function Sleeping(n: nat, k: nat): State
    requires k <= n
  {
    State(seq(n, w => Worker(if w < k then Committed(w == 0) else if w == 0 then Check else GetLocal, NoPush, 0)),
          seq(n, w => RunQueue(None, [], 0)), 0, k, k > 0, 0, 0, 1, [Outside], if k > 0 then Some(0) else None)
  }

  lemma StartReachable(n: nat)
    requires 0 < n < WORD
    ensures Reachable(Start(n))
  {
    assert Fibers.IsRun([Start(n)], []);
  }

  lemma FiberStarts(n: nat, s: State)
    requires 0 < n < WORD
    requires s == SetQueue(Goto(Start(n), 0, Running(0)), 0, RunQueue(None, [], 0)).(places := [OnWorker(0)])
    ensures Reachable(s)
  {
    StartReachable(n);
    var t := SetQueue(Goto(Start(n), 0, PopSize(0)), 0, RunQueue(Some(0), [], 1)).(places := [OnWorker(0)]);
    assert [0][1..] == [] && Move([Queued(0)], [0], OnWorker(0)) == [OnWorker(0)];
    assert Start(n).queues[0] == RunQueue(None, [0], 1);
    ReachNext(Start(n), t, 0, Go);
    assert t.workers[0 := s.workers[0]] == s.workers && t.queues[0 := s.queues[0]] == s.queues;
    ReachNext(t, s, 0, Go);
  }

  lemma FiberBlocks(n: nat)
    requires 0 < n < WORD
    ensures Reachable(Sleeping(n, 0))
  {
    var s := SetQueue(Goto(Start(n), 0, Running(0)), 0, RunQueue(None, [], 0)).(places := [OnWorker(0)]);
    FiberStarts(n, s);
    var t := Goto(s, 0, Leaving(0)).(numRun := 0);
    ReachNext(s, t, 0, Go);
    var u := Goto(t, 0, Post).(places := [Outside]);
    ReachNext(t, u, 0, Go);
    var v := Sleeping(n, 0);
    assert u.workers[0 := v.workers[0]] == v.workers && u.queues == v.queues;
    ReachNext(u, v, 0, Go);
  }

  lemma {:induction false} FirstSleep(n: nat, k: nat)
    requires 0 < n < WORD && k <= n
    ensures Reachable(Sleeping(n, k))
  {
    if k == 0 {
      FiberBlocks(n);
    } else {
      FirstSleep(n, k - 1);
      var w := k - 1;
      var s := Sleeping(n, w);
      var t := Goto(s, w, Check);
      if w == 0 {
        assert t == s;
      } else {
        ReachNext(s, t, w, Go);
      }
      WorkerSleeps(t, w);
      assert Slept(t, w) == Sleeping(n, k);
    }
  }

  /** With any number of workers there is a run that ends with all of them asleep and a fiber blocked. */
  lemma SleepIsReachable(n: nat) returns (s: State)
    requires 0 < n < WORD
    ensures Reachable(s) && |s.workers| == n && |s.places| == 1 && Sleep.AllCommitted(s.workers)
  {
    s := Sleeping(n, n);
    FirstSleep(n, n);
  }
}
