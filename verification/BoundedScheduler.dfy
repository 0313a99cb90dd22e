/**
 * Fibers in the work-stealing schedulers with bounded run queues (src/fev_sched_steal_bounded_spmc.c,
 * src/fev_sched_steal_bounded_mpmc.c and their headers): pushes that overflow into the fallback queue,
 * moves back from it, pops and steals, with any number of workers and fibers.
 *
 * A run queue is a bounded FIFO whose operations take effect in one step, as SpmcQueue and MpmcQueue
 * show of the two implementations. The single-producer queue pushes the longest prefix that fitted when
 * it looked; the multi-producer queue pushes one fiber at a time, and its operations may fail without
 * cause. Going to sleep is the same as in the scheduler with locked run queues and is not repeated.
 */
module BoundedScheduler {
  import opened Common

  type WorkerId = nat
  type FiberId = nat

  /** Where a push returns to. */
  datatype Back = ToFiber(f: FiberId) | ToLocal | ToCheck

  datatype Pc =
    | GetLocal | Running(f: FiberId)
    | Push(list: seq<FiberId>, back: Back) | PushRoom(list: seq<FiberId>, n: nat, back: Back)
    | Overflow(list: seq<FiberId>, back: Back) | OverflowLen(n: nat, back: Back)
    | Check | MoveLoad | MoveLock | Move(len: nat, n: nat) | MoveRoom(len: nat, n: nat) | MoveStore(len: nat, n: nat)
    | LoadSize
    | Steal(rnd: nat, i: nat, batch: seq<FiberId>)
    | Install(batch: seq<FiberId>) | InstallRoom(batch: seq<FiberId>, n: nat)

  datatype Place = Outside | Queued(w: WorkerId) | InFallback | InHands(w: WorkerId)

  datatype State = State(
    single: bool,                // single-producer run queues
    capacity: nat, stealCount: nat,
    workers: seq<Pc>, queues: seq<seq<FiberId>>,
    fallback: seq<FiberId>, len: int, lock: Option<WorkerId>,
    places: seq<Place>           // history: where each fiber is
  )

  /** The choices that a step leaves open. */
  datatype Choice =
    | Go
    | Fail                              // an operation of a multi-producer queue fails, or the fiber leaves
    | Wake(batch: seq<FiberId>)         // fibers are woken
    | Random(rnd: nat)

  predicate At(s: State, w: WorkerId) {
    w < |s.workers| == |s.queues|
  }

  ghost predicate Init(s: State) {
    && 0 < |s.workers| == |s.queues| && s.stealCount < s.capacity
    && (forall w :: 0 <= w < |s.workers| ==> s.workers[w] == GetLocal)
    && (forall w :: 0 <= w < |s.queues| ==> s.queues[w] == [])
    && s.fallback == [] && s.len == 0 && s.lock == None
    && (forall f :: 0 <= f < |s.places| ==> s.places[f] == Outside)
  }

  function Goto(s: State, w: WorkerId, pc: Pc): State
    requires w < |s.workers|
  {
    s.(workers := s.workers[w := pc])
  }

  function SetQueue(s: State, w: WorkerId, q: seq<FiberId>): State
    requires w < |s.queues|
  {
    s.(queues := s.queues[w := q])
  }

  function Moved(places: seq<Place>, batch: seq<FiberId>, place: Place): (r: seq<Place>)
    ensures |r| == |places|
    ensures forall f :: 0 <= f < |places| ==> r[f] == if f in batch then place else places[f]
  {
    seq(|places|, f requires 0 <= f < |places| => if f in batch then place else places[f])
  }

  function Return(back: Back): Pc {
    match back
    case ToFiber(f) => Running(f)
    case ToLocal => GetLocal
    case ToCheck => Check
  }

  /** How many of `n` fibers fit into the run queue now. */
  function Fitting(s: State, w: WorkerId, n: nat): nat
    requires w < |s.queues|
  {
    var free := s.capacity - |s.queues[w]|;
    if 0 <= free < n then free else n
  }

  // Fibers are woken by a fiber, by a post routine or by the poller.
  ghost predicate StartPush(s: State, s': State, w: WorkerId, batch: seq<FiberId>) {
    && At(s, w) && (s.workers[w].Running? || s.workers[w] == GetLocal || s.workers[w] == Check)
    && batch != [] && Distinct(batch) && (forall f :: f in batch ==> f < |s.places| && s.places[f] == Outside)
    && var back := (match s.workers[w] case Running(f) => ToFiber(f) case GetLocal => ToLocal case _ => ToCheck);
       s' == Goto(s, w, Push(batch, back)).(places := Moved(s.places, batch, InHands(w)))
  }

  // fev_push_one() and fev_push_stq(), with fev_push_one_fallback() and fev_push_stq_fallback()
  ghost predicate PushSteps(s: State, s': State, w: WorkerId, choice: Choice) {
    && At(s, w)
    && match s.workers[w]
       case Push(list, back) =>
         if list == [] then s' == Goto(s, w, Return(back))
         else if s.single then s' == Goto(s, w, PushRoom(list, Fitting(s, w, |list|), back))
         else if |s.queues[w]| < s.capacity && choice != Fail then
           s' == SetQueue(Goto(s, w, Push(list[1..], back)), w, s.queues[w] + [list[0]])
                 .(places := Moved(s.places, [list[0]], Queued(w)))
         else s' == Goto(s, w, Overflow(list, back))
       case PushRoom(list, n, back) =>
         && n <= |list|
         && s' == SetQueue(Goto(s, w, if n < |list| then Overflow(list[n..], back) else Return(back)), w,
                           s.queues[w] + list[..n])
                  .(places := Moved(s.places, list[..n], Queued(w)))
       case Overflow(list, back) =>
         && s.lock == None
         && s' == Goto(s, w, OverflowLen(|list|, back))
                  .(lock := Some(w), fallback := s.fallback + list, places := Moved(s.places, list, InFallback))
       case OverflowLen(n, back) => s' == Goto(s, w, Return(back)).(lock := None, len := s.len + n)
       case _ => false
  }

  // The worker loop up to the test of the fallback queue
  ghost predicate RunSteps(s: State, s': State, w: WorkerId, choice: Choice) {
    && At(s, w)
    && match s.workers[w]
       case GetLocal =>
         if s.queues[w] != [] && (s.single || choice != Fail) then
           s' == SetQueue(Goto(s, w, Running(s.queues[w][0])), w, s.queues[w][1..])
                 .(places := Moved(s.places, [s.queues[w][0]], InHands(w)))
         else s' == Goto(s, w, Check)
       case Running(f) =>
         s' == Goto(s, w, if choice == Fail then Check else GetLocal).(places := Moved(s.places, [f], Outside))
       case Check => s' == Goto(s, w, MoveLoad)
       case MoveLoad => s' == Goto(s, w, if s.len > 0 then MoveLock else LoadSize)
       case _ => false
  }

  // fev_move_from_fallback()
  ghost predicate MoveSteps(s: State, s': State, w: WorkerId, choice: Choice) {
    && At(s, w)
    && match s.workers[w]
       case MoveLock =>
         && s.lock == None
         && s' == if s.len > 0 then Goto(s, w, Move(s.len, 0)).(lock := Some(w)) else Goto(s, w, LoadSize)
       case Move(len, n) =>
         if s.single then s' == Goto(s, w, MoveRoom(len, Fitting(s, w, len)))
         else if s.fallback != [] && |s.queues[w]| < s.capacity && choice != Fail then
           s' == SetQueue(Goto(s, w, Move(len, n + 1)), w, s.queues[w] + [s.fallback[0]])
                 .(fallback := s.fallback[1..], places := Moved(s.places, [s.fallback[0]], Queued(w)))
         else s' == Goto(s, w, MoveStore(len, n))
       case MoveRoom(len, n) =>
         && n <= |s.fallback|
         && s' == SetQueue(Goto(s, w, MoveStore(len, n)), w, s.queues[w] + s.fallback[..n])
                  .(fallback := s.fallback[n..], places := Moved(s.places, s.fallback[..n], Queued(w)))
       case MoveStore(len, n) => s' == Goto(s, w, LoadSize).(lock := None, len := len - n)
       case _ => false
  }

  function Victim(s: State, rnd: nat, i: nat): (v: WorkerId)
    requires |s.workers| > 0
    ensures v < |s.workers|
  {
    Word(rnd + i) % |s.workers|
  }

  // fev_sched_steal(). A fiber that the single-producer queue did not take would be lost.
  ghost predicate StealSteps(s: State, s': State, w: WorkerId, choice: Choice) {
    && At(s, w)
    && match s.workers[w]
       case LoadSize =>
         && choice.Random?
         && s' == Goto(s, w, if s.queues[w] != [] then GetLocal else Steal(choice.rnd, 0, []))
       case Steal(rnd, i, batch) =>
         if i >= |s.workers| then s' == Goto(s, w, Check)
         else
           var v := Victim(s, rnd, i);
           if v == w then s' == Goto(s, w, Steal(rnd, i + 1, batch))
           else if |batch| < s.stealCount && s.queues[v] != [] && (s.single || choice != Fail) then
             s' == SetQueue(Goto(s, w, Steal(rnd, i, batch + [s.queues[v][0]])), v, s.queues[v][1..])
                   .(places := Moved(s.places, [s.queues[v][0]], InHands(w)))
           else s' == Goto(s, w, if batch == [] then Steal(rnd, i + 1, [])
                                 else if s.single then Install(batch) else Push(batch, ToLocal))
       case Install(batch) => s' == Goto(s, w, InstallRoom(batch, Fitting(s, w, |batch|)))
       case InstallRoom(batch, n) =>
         && n <= |batch|
         && s' == SetQueue(Goto(s, w, GetLocal), w, s.queues[w] + batch[..n])
                  .(places := Moved(Moved(s.places, batch, Outside), batch[..n], Queued(w)))
       case _ => false
  }

  ghost predicate Next(s: State, s': State, w: WorkerId, choice: Choice) {
    && At(s, w)
    && if choice.Wake? then StartPush(s, s', w, choice.batch)
       else match s.workers[w]
            case Push(_, _) | PushRoom(_, _, _) | Overflow(_, _) | OverflowLen(_, _) => PushSteps(s, s', w, choice)
            case MoveLock | Move(_, _) | MoveRoom(_, _) | MoveStore(_, _) => MoveSteps(s, s', w, choice)
            case LoadSize | Steal(_, _, _) | Install(_) | InstallRoom(_, _) => StealSteps(s, s', w, choice)
            case _ => RunSteps(s, s', w, choice)
  }

  // ---------------------------------------------------------------------------------------------

  predicate AnyWorker(w: int) { true }
  predicate AnyQueue(w: int) { true }
  predicate AnyFiber(f: int) { true }

  function Kept(back: Back): seq<FiberId> {
    if back.ToFiber? then [back.f] else []
  }

  /** The fibers that the worker has taken from somewhere and not put anywhere. */
  function Hands(pc: Pc): seq<FiberId> {
    match pc
    case Running(f) => [f]
    case Push(list, back) => list + Kept(back)
    case PushRoom(list, _, back) => list + Kept(back)
    case Overflow(list, back) => list + Kept(back)
    case OverflowLen(_, back) => Kept(back)
    case Steal(_, _, batch) => batch
    case Install(batch) => batch
    case InstallRoom(batch, _) => batch
    case _ => []
  }

  /** The worker is inside the lock of the fallback queue. */
  predicate Inside(pc: Pc) {
    pc.OverflowLen? || pc.Move? || pc.MoveRoom? || pc.MoveStore?
  }

  ghost predicate Holds(places: seq<Place>, list: seq<FiberId>, place: Place) {
    Distinct(list) && forall f :: f in list ==> f < |places| && places[f] == place
  }

  ghost predicate WorkerOk(s: State, w: WorkerId) {
    && At(s, w) && Holds(s.places, Hands(s.workers[w]), InHands(w))
    && (Inside(s.workers[w]) ==> s.lock == Some(w))
    && match s.workers[w]
       case PushRoom(list, n, _) => n <= |list| && |s.queues[w]| + n <= s.capacity
       case MoveRoom(len, n) => n <= |s.fallback| && |s.queues[w]| + n <= s.capacity
       case Steal(rnd, i, batch) =>
         && |batch| <= s.stealCount && (s.single ==> s.queues[w] == [])
         && (batch != [] ==> i < |s.workers| && Victim(s, rnd, i) != w)
       case Install(batch) => |batch| <= s.stealCount && s.single && s.queues[w] == []
       case InstallRoom(batch, n) => |batch| <= s.stealCount && s.single && s.queues[w] == [] && n == |batch|
       case _ => true
  }

  ghost predicate QueueOk(s: State, w: WorkerId) {
    At(s, w) && Holds(s.places, s.queues[w], Queued(w)) && |s.queues[w]| <= s.capacity
  }

  ghost predicate FallbackOk(s: State) {
    && Holds(s.places, s.fallback, InFallback)
    && match s.lock
       case None => s.len == |s.fallback|
       case Some(l) =>
         && l < |s.workers|
         && match s.workers[l]
            case OverflowLen(n, _) => s.len + n == |s.fallback|
            case Move(len, n) => s.len == len == |s.fallback| + n && (s.single ==> n == 0)
            case MoveRoom(len, n) => s.len == len == |s.fallback|
            case MoveStore(len, n) => s.len == len == |s.fallback| + n
            case _ => false
  }

  ghost predicate FiberOk(s: State, f: FiberId) {
    && f < |s.places| && |s.queues| == |s.workers|
    && match s.places[f]
       case Outside => true
       case Queued(w) => w < |s.queues| && f in s.queues[w]
       case InFallback => f in s.fallback
       case InHands(w) => w < |s.workers| && f in Hands(s.workers[w])
  }

  ghost predicate Inv(s: State) {
    && 0 < |s.workers| == |s.queues| && s.stealCount < s.capacity && FallbackOk(s)
    && (forall w {:trigger AnyWorker(w)} :: AnyWorker(w) && 0 <= w < |s.workers| ==> WorkerOk(s, w))
    && (forall w {:trigger AnyQueue(w)} :: AnyQueue(w) && 0 <= w < |s.queues| ==> QueueOk(s, w))
    && (forall f {:trigger AnyFiber(f)} :: AnyFiber(f) && 0 <= f < |s.places| ==> FiberOk(s, f))
  }

  lemma InitInv(s: State)
    requires Init(s)
    ensures Inv(s)
  {
  }

  // ---------------------------------------------------------------------------------------------
  // What a step changes
  // ---------------------------------------------------------------------------------------------

  predicate NearBy(place: Place, w: WorkerId, v: WorkerId) {
    place == Outside || place == InFallback || place == InHands(w) || place == Queued(v)
  }

  /** Only worker `w`, queue `v`, the fallback queue and the fibers of `moved` change. */
  ghost predicate Changes(s: State, s': State, w: WorkerId, v: WorkerId, moved: seq<FiberId>) {
    && At(s, w) && v < |s.queues| && |s'.workers| == |s.workers| && |s'.queues| == |s.queues|
    && s'.workers == s.workers[w := s'.workers[w]] && s'.queues == s.queues[v := s'.queues[v]]
    && s'.capacity == s.capacity && s'.stealCount == s.stealCount && s'.single == s.single
    && |s'.places| == |s.places|
    && (forall f :: 0 <= f < |s.places| && f !in moved ==> s'.places[f] == s.places[f])
    && (forall f :: f in moved ==> f < |s.places| && NearBy(s.places[f], w, v))
    && (v != w ==> |s'.queues[v]| <= |s.queues[v]|)
    && ((s'.lock == s.lock && s'.fallback == s.fallback && s'.len == s.len)
        || ((s.lock == None || s.lock == Some(w)) && (s'.lock == None || s'.lock == Some(w))))
  }

  lemma OtherWorker(s: State, s': State, w: WorkerId, v: WorkerId, moved: seq<FiberId>, u: WorkerId)
    requires Changes(s, s', w, v, moved) && WorkerOk(s, u) && u != w
    ensures WorkerOk(s', u)
  {
  }

  lemma OtherQueue(s: State, s': State, w: WorkerId, v: WorkerId, moved: seq<FiberId>, u: WorkerId)
    requires Changes(s, s', w, v, moved) && QueueOk(s, u) && u != v
    ensures QueueOk(s', u)
  {
  }

  lemma OtherFiber(s: State, s': State, w: WorkerId, v: WorkerId, moved: seq<FiberId>, f: FiberId)
    requires Changes(s, s', w, v, moved) && FiberOk(s, f) && f !in moved
    requires f in s.queues[v] ==> f in s'.queues[v]
    requires f in s.fallback ==> f in s'.fallback
    requires f in Hands(s.workers[w]) ==> f in Hands(s'.workers[w])
    ensures FiberOk(s', f)
  {
  }

  lemma ChangesInv(s: State, s': State, w: WorkerId, v: WorkerId, moved: seq<FiberId>)
    requires Inv(s) && Changes(s, s', w, v, moved)
    requires WorkerOk(s', w) && QueueOk(s', v) && FallbackOk(s')
    requires forall f :: f in moved ==> FiberOk(s', f)
    requires forall f :: f !in moved && f in s.queues[v] ==> f in s'.queues[v]
    requires forall f :: f !in moved && f in s.fallback ==> f in s'.fallback
    requires forall f :: f !in moved && f in Hands(s.workers[w]) ==> f in Hands(s'.workers[w])
    ensures Inv(s')
  {
    forall u | AnyWorker(u) && 0 <= u < |s.workers| ensures WorkerOk(s', u) {
      if u != w {
        OtherWorker(s, s', w, v, moved, u);
      }
    }
    forall u | AnyQueue(u) && 0 <= u < |s.queues| ensures QueueOk(s', u) {
      if u != v {
        OtherQueue(s, s', w, v, moved, u);
      }
    }
    forall f | AnyFiber(f) && 0 <= f < |s.places| ensures FiberOk(s', f) {
      if f !in moved {
        OtherFiber(s, s', w, v, moved, f);
      }
    }
  }

  // ---------------------------------------------------------------------------------------------
  // Lists of fibers
  // ---------------------------------------------------------------------------------------------

  /** Fibers that come from `from` join a list. */
  lemma Join(places: seq<Place>, list: seq<FiberId>, place: Place, batch: seq<FiberId>, from: Place)
    requires Holds(places, list, place) && Holds(places, batch, from) && from != place
    ensures Holds(Moved(places, batch, place), list + batch, place)
    ensures Holds(Moved(places, batch, place), batch + list, place)
  {
    DistinctConcat(list, batch);
    DistinctConcat(batch, list);
  }

  /** The first fibers of a list leave it. */
  lemma Leave(places: seq<Place>, list: seq<FiberId>, n: nat, place: Place, to: Place)
    requires Holds(places, list, place) && n <= |list| && to != place
    ensures Holds(places, list[..n], place) && Holds(Moved(places, list[..n], to), list[n..], place)
    ensures forall f :: f in list <==> f in list[..n] || f in list[n..]
  {
    assert list == list[..n] + list[n..];
    forall i | 0 <= i < n ensures list[..n][i] in list {
      assert list[..n][i] == list[i];
    }
    forall i | 0 <= i < |list| - n ensures list[n..][i] in list && list[n..][i] !in list[..n] {
      assert list[n..][i] == list[i + n];
    }
  }

  /** A list that nobody joins or leaves. */
  lemma Stay(places: seq<Place>, list: seq<FiberId>, place: Place, batch: seq<FiberId>, from: Place, to: Place)
    requires Holds(places, list, place) && Holds(places, batch, from) && from != place && to != place
    ensures Holds(Moved(places, batch, to), list, place)
  {
  }

  lemma Front(list: seq<FiberId>, more: seq<FiberId>, n: nat)
    requires n <= |list|
    ensures (list + more)[..n] == list[..n] && (list + more)[n..] == list[n..] + more
  {
  }

  // ---------------------------------------------------------------------------------------------
  // Steps
  // ---------------------------------------------------------------------------------------------

  /** A step that moves no fiber. */
  ghost predicate Aside(s: State, s': State, w: WorkerId) {
    && At(s, w) && |s'.workers| == |s.workers|
    && s' == s.(workers := s.workers[w := s'.workers[w]], lock := s'.lock, len := s'.len)
    && Hands(s'.workers[w]) == Hands(s.workers[w]) && WorkerOk(s', w) && FallbackOk(s')
    && ((s'.lock == s.lock && s'.len == s.len)
        || ((s.lock == None || s.lock == Some(w)) && (s'.lock == None || s'.lock == Some(w))))
  }

  lemma AsideInv(s: State, s': State, w: WorkerId)
    requires Inv(s) && Aside(s, s', w)
    ensures Inv(s')
  {
    assert AnyQueue(w);
    ChangesInv(s, s', w, w, []);
  }

  /** What a step of worker `w` may rely on. */
  ghost predicate Locally(s: State, w: WorkerId) {
    s.stealCount < s.capacity && WorkerOk(s, w) && QueueOk(s, w) && FallbackOk(s)
  }

  lemma PushPc(s: State, s': State, w: WorkerId, choice: Choice)
    requires At(s, w) && s.workers[w].Push? && PushSteps(s, s', w, choice)
    requires s'.queues == s.queues && s'.places == s.places && |s.queues[w]| <= s.capacity
    ensures |s'.workers| == |s.workers| && s' == Goto(s, w, s'.workers[w])
    ensures Hands(s'.workers[w]) == Hands(s.workers[w])
    ensures PcOk(s, w, s'.workers[w])
  {
    if s.workers[w].list == [] {
      assert [] + Kept(s.workers[w].back) == Kept(s.workers[w].back);
    }
  }

  lemma OverflowLenAside(s: State, s': State, w: WorkerId, choice: Choice)
    requires Locally(s, w) && s.workers[w].OverflowLen? && PushSteps(s, s', w, choice)
    ensures Aside(s, s', w)
  {
  }

  lemma PushAside(s: State, s': State, w: WorkerId, choice: Choice)
    requires Locally(s, w) && (s.workers[w].Push? || s.workers[w].OverflowLen?) && PushSteps(s, s', w, choice)
    requires s'.queues == s.queues && s'.fallback == s.fallback && s'.places == s.places
    ensures Aside(s, s', w)
  {
    if s.workers[w].OverflowLen? {
      OverflowLenAside(s, s', w, choice);
    } else {
      PushPc(s, s', w, choice);
      GotoAside(s, s', w);
    }
  }

  lemma RunAside(s: State, s': State, w: WorkerId, choice: Choice)
    requires Locally(s, w) && !s.workers[w].Running? && RunSteps(s, s', w, choice)
    requires s'.queues == s.queues && s'.places == s.places
    ensures Aside(s, s', w)
  {
    RunPc(s, s', w, choice);
    GotoAside(s, s', w);
  }

  lemma RunPc(s: State, s': State, w: WorkerId, choice: Choice)
    requires At(s, w) && !s.workers[w].Running? && RunSteps(s, s', w, choice) && s'.queues == s.queues
    requires s'.places == s.places
    ensures |s'.workers| == |s.workers| && s' == Goto(s, w, s'.workers[w])
    ensures Hands(s'.workers[w]) == Hands(s.workers[w]) && !Inside(s.workers[w]) && PcOk(s, w, s'.workers[w])
  {
  }

  lemma MoveAside(s: State, s': State, w: WorkerId, choice: Choice)
    requires Locally(s, w) && !s.workers[w].MoveRoom? && MoveSteps(s, s', w, choice)
    requires s'.queues == s.queues && s'.fallback == s.fallback && s'.places == s.places
    ensures Aside(s, s', w)
  {
  }

  /** The worker is not inside the fallback queue's lock, before and after. */
  lemma FallbackAside(s: State, s': State, w: WorkerId)
    requires FallbackOk(s) && w < |s.workers| == |s'.workers| && s' == Goto(s, w, s'.workers[w])
    requires !Inside(s.workers[w])
    ensures FallbackOk(s')
  {
  }

  ghost predicate RoomOk(s: State, w: WorkerId, pc: Pc)
    requires At(s, w) && pc.PushRoom?
  {
    pc.n <= |pc.list| && |s.queues[w]| + pc.n <= s.capacity
  }

  /** What the program counter after a step must be like. */
  ghost predicate PcOk(s: State, w: WorkerId, pc: Pc)
    requires At(s, w)
  {
    !Inside(pc) &&
    match pc
    case PushRoom(_, _, _) => RoomOk(s, w, pc)
    case Steal(rnd, i, batch) =>
      && |batch| <= s.stealCount && (s.single ==> s.queues[w] == [])
      && (batch != [] ==> i < |s.workers| && Victim(s, rnd, i) != w)
    case Install(batch) => |batch| <= s.stealCount && s.single && s.queues[w] == []
    case InstallRoom(batch, n) => |batch| <= s.stealCount && s.single && s.queues[w] == [] && n == |batch|
    case _ => true
  }

  lemma GotoAside(s: State, s': State, w: WorkerId)
    requires Locally(s, w) && |s'.workers| == |s.workers| && s' == Goto(s, w, s'.workers[w])
    requires Hands(s'.workers[w]) == Hands(s.workers[w]) && !Inside(s.workers[w]) && PcOk(s, w, s'.workers[w])
    ensures Aside(s, s', w)
  {
    FallbackAside(s, s', w);
  }

  lemma StealLoopAside(s: State, s': State, w: WorkerId, choice: Choice)
    requires Locally(s, w) && s.workers[w].Steal? && StealSteps(s, s', w, choice)
    requires s'.queues == s.queues && s'.places == s.places
    ensures Aside(s, s', w)
  {
    var batch := s.workers[w].batch;
    assert batch + [] == batch;
    StealLoopPc(s, s', w, choice);
    GotoAside(s, s', w);
  }

  lemma StealLoopPc(s: State, s': State, w: WorkerId, choice: Choice)
    requires WorkerOk(s, w) && s.workers[w].Steal? && StealSteps(s, s', w, choice)
    requires s'.queues == s.queues && s'.places == s.places && s.workers[w].batch + [] == s.workers[w].batch
    ensures |s'.workers| == |s.workers| && s' == Goto(s, w, s'.workers[w])
    ensures Hands(s'.workers[w]) == Hands(s.workers[w]) && PcOk(s, w, s'.workers[w])
  {
    var pc := s.workers[w];
    if pc.i < |s.workers| {
      assert pc.batch != [] ==> Victim(s, pc.rnd, pc.i) != w;
    }
  }

  lemma StealAside(s: State, s': State, w: WorkerId, choice: Choice)
    requires Locally(s, w) && (s.workers[w] == LoadSize || s.workers[w].Install?) && StealSteps(s, s', w, choice)
    ensures Aside(s, s', w)
  {
    FallbackAside(s, s', w);
  }

  lemma Local(s: State, w: WorkerId)
    requires Inv(s) && At(s, w)
    ensures Locally(s, w)
  {
    assert AnyWorker(w) && AnyQueue(w);
  }

  lemma StartPushInv(s: State, s': State, w: WorkerId, batch: seq<FiberId>)
    requires Inv(s) && StartPush(s, s', w, batch)
    ensures Inv(s')
  {
    assert AnyWorker(w) && AnyQueue(w);
    Join(s.places, Hands(s.workers[w]), InHands(w), batch, Outside);
    Stay(s.places, s.queues[w], Queued(w), batch, Outside, InHands(w));
    Stay(s.places, s.fallback, InFallback, batch, Outside, InHands(w));
    ChangesInv(s, s', w, w, batch);
  }

  /** The first `n` fibers in the hands of `w` go into its run queue. */
  lemma PublishInv(s: State, s': State, w: WorkerId, list: seq<FiberId>, n: nat)
    requires Inv(s) && At(s, w) && n <= |list| && |s.queues[w]| + n <= s.capacity && |s'.workers| == |s.workers|
    requires s' == s.(workers := s.workers[w := s'.workers[w]], queues := s.queues[w := s.queues[w] + list[..n]],
                      places := Moved(s.places, list[..n], Queued(w)))
    requires Hands(s.workers[w]) == list && Hands(s'.workers[w]) == list[n..]
    requires !Inside(s.workers[w]) && !Inside(s'.workers[w])
    requires || s'.workers[w].Push? || s'.workers[w].Overflow? || s'.workers[w].Running?
             || s'.workers[w] == GetLocal || s'.workers[w] == Check
    ensures Inv(s')
  {
    assert AnyWorker(w) && AnyQueue(w);
    Leave(s.places, list, n, InHands(w), Queued(w));
    Join(s.places, s.queues[w], Queued(w), list[..n], InHands(w));
    Stay(s.places, s.fallback, InFallback, list[..n], InHands(w), Queued(w));
    ChangesInv(s, s', w, w, list[..n]);
  }

  lemma OverflowLists(s: State, s': State, w: WorkerId, choice: Choice)
    requires Locally(s, w) && s.workers[w].Overflow? && PushSteps(s, s', w, choice)
    ensures Holds(s'.places, Kept(s.workers[w].back), InHands(w))
    ensures Holds(s'.places, s'.fallback, InFallback) && Holds(s'.places, s'.queues[w], Queued(w))
    ensures Holds(s.places, s.workers[w].list, InHands(w))
  {
    var list, back := s.workers[w].list, s.workers[w].back;
    Front(list, Kept(back), |list|);
    Leave(s.places, list + Kept(back), |list|, InHands(w), InFallback);
    Join(s.places, s.fallback, InFallback, list, InHands(w));
    Stay(s.places, s.queues[w], Queued(w), list, InHands(w), InFallback);
  }

  lemma OverflowInv(s: State, s': State, w: WorkerId, choice: Choice)
    requires Inv(s) && At(s, w) && s.workers[w].Overflow? && PushSteps(s, s', w, choice)
    ensures Inv(s')
  {
    Local(s, w);
    OverflowLists(s, s', w, choice);
    ChangesInv(s, s', w, w, s.workers[w].list);
  }

  lemma PushOneInv(s: State, s': State, w: WorkerId, choice: Choice)
    requires Inv(s) && At(s, w) && s.workers[w].Push? && s.workers[w].list != [] && PushSteps(s, s', w, choice)
    requires !s.single && |s.queues[w]| < s.capacity && choice != Fail
    ensures Inv(s')
  {
    var list, back := s.workers[w].list, s.workers[w].back;
    Front(list, Kept(back), 1);
    assert list[..1] == [list[0]];
    PublishInv(s, s', w, list + Kept(back), 1);
  }

  lemma PushRoomInv(s: State, s': State, w: WorkerId, choice: Choice)
    requires Inv(s) && At(s, w) && s.workers[w].PushRoom? && PushSteps(s, s', w, choice)
    ensures Inv(s')
  {
    Local(s, w);
    var list, n, back := s.workers[w].list, s.workers[w].n, s.workers[w].back;
    Front(list, Kept(back), n);
    assert n == |list| ==> list[n..] + Kept(back) == Kept(back);
    PublishInv(s, s', w, list + Kept(back), n);
  }

  lemma PushRestInv(s: State, s': State, w: WorkerId, choice: Choice)
    requires Inv(s) && At(s, w) && (s.workers[w].Push? || s.workers[w].OverflowLen?) && PushSteps(s, s', w, choice)
    requires s'.queues == s.queues && s'.fallback == s.fallback && s'.places == s.places
    ensures Inv(s')
  {
    Local(s, w);
    PushAside(s, s', w, choice);
    AsideInv(s, s', w);
  }

  lemma PushInv(s: State, s': State, w: WorkerId, choice: Choice)
    requires Inv(s) && PushSteps(s, s', w, choice)
    ensures Inv(s')
  {
    var pc := s.workers[w];
    if pc.PushRoom? {
      PushRoomInv(s, s', w, choice);
    } else if pc.Overflow? {
      OverflowInv(s, s', w, choice);
    } else if pc.Push? && pc.list != [] && !s.single && |s.queues[w]| < s.capacity && choice != Fail {
      PushOneInv(s, s', w, choice);
    } else {
      PushRestInv(s, s', w, choice);
    }
  }

  /** Worker `w` takes the first fiber of queue `v`. */
  lemma TakeInv(s: State, s': State, w: WorkerId, v: WorkerId)
    requires Inv(s) && At(s, w) && v < |s.queues| && s.queues[v] != [] && |s'.workers| == |s.workers|
    requires s' == s.(workers := s.workers[w := s'.workers[w]], queues := s.queues[v := s.queues[v][1..]],
                      places := Moved(s.places, [s.queues[v][0]], InHands(w)))
    requires Hands(s'.workers[w]) == Hands(s.workers[w]) + [s.queues[v][0]]
    requires !Inside(s.workers[w])
    requires if v == w then s'.workers[w].Running?
             else && s'.workers[w].Steal? && |s'.workers[w].batch| <= s.stealCount && (s.single ==> s.queues[w] == [])
                  && s'.workers[w].i < |s.workers| && Victim(s, s'.workers[w].rnd, s'.workers[w].i) == v
    ensures Inv(s')
  {
    assert AnyWorker(w) && AnyQueue(w) && AnyQueue(v);
    var q := s.queues[v];
    assert q[..1] == [q[0]];
    Leave(s.places, q, 1, Queued(v), InHands(w));
    Join(s.places, Hands(s.workers[w]), InHands(w), [q[0]], Queued(v));
    Stay(s.places, s.fallback, InFallback, [q[0]], Queued(v), InHands(w));
    ChangesInv(s, s', w, v, [q[0]]);
  }

  lemma LeaveInv(s: State, s': State, w: WorkerId, choice: Choice)
    requires Inv(s) && At(s, w) && s.workers[w].Running? && RunSteps(s, s', w, choice)
    ensures Inv(s')
  {
    assert AnyWorker(w) && AnyQueue(w);
    var f := s.workers[w].f;
    assert f in Hands(s.workers[w]);
    Stay(s.places, s.queues[w], Queued(w), [f], InHands(w), Outside);
    Stay(s.places, s.fallback, InFallback, [f], InHands(w), Outside);
    ChangesInv(s, s', w, w, [f]);
  }

  lemma RunRestInv(s: State, s': State, w: WorkerId, choice: Choice)
    requires Inv(s) && At(s, w) && !s.workers[w].Running? && RunSteps(s, s', w, choice)
    requires s'.queues == s.queues && s'.places == s.places
    ensures Inv(s')
  {
    Local(s, w);
    RunAside(s, s', w, choice);
    AsideInv(s, s', w);
  }

  lemma RunInv(s: State, s': State, w: WorkerId, choice: Choice)
    requires Inv(s) && RunSteps(s, s', w, choice)
    ensures Inv(s')
  {
    var pc := s.workers[w];
    if pc == GetLocal && s.queues[w] != [] && (s.single || choice != Fail) {
      TakeInv(s, s', w, w);
    } else if pc.Running? {
      LeaveInv(s, s', w, choice);
    } else {
      RunRestInv(s, s', w, choice);
    }
  }

  /** The first `n` fibers of the fallback queue go into the run queue of `w`. */
  lemma RefillInv(s: State, s': State, w: WorkerId, n: nat)
    requires Inv(s) && At(s, w) && n <= |s.fallback| && |s.queues[w]| + n <= s.capacity && |s'.workers| == |s.workers|
    requires s' == s.(workers := s.workers[w := s'.workers[w]], queues := s.queues[w := s.queues[w] + s.fallback[..n]],
                      fallback := s.fallback[n..], places := Moved(s.places, s.fallback[..n], Queued(w)))
    requires s.workers[w].Move? || s.workers[w].MoveRoom?
    requires match s'.workers[w]
             case Move(len, m) => s.workers[w].Move? && len == s.workers[w].len && m == s.workers[w].n + n && !s.single
             case MoveStore(len, m) => s.workers[w].MoveRoom? && len == s.workers[w].len && m == n
             case _ => false
    ensures Inv(s')
  {
    assert AnyWorker(w) && AnyQueue(w);
    Leave(s.places, s.fallback, n, InFallback, Queued(w));
    Join(s.places, s.queues[w], Queued(w), s.fallback[..n], InFallback);
    ChangesInv(s, s', w, w, s.fallback[..n]);
  }

  lemma MoveRestInv(s: State, s': State, w: WorkerId, choice: Choice)
    requires Inv(s) && At(s, w) && !s.workers[w].MoveRoom? && MoveSteps(s, s', w, choice)
    requires s'.queues == s.queues && s'.fallback == s.fallback && s'.places == s.places
    ensures Inv(s')
  {
    Local(s, w);
    MoveAside(s, s', w, choice);
    AsideInv(s, s', w);
  }

  lemma MoveOneInv(s: State, s': State, w: WorkerId, choice: Choice)
    requires Inv(s) && At(s, w) && s.workers[w].Move? && MoveSteps(s, s', w, choice)
    requires !s.single && s.fallback != [] && |s.queues[w]| < s.capacity && choice != Fail
    ensures Inv(s')
  {
    assert s.fallback[..1] == [s.fallback[0]];
    RefillInv(s, s', w, 1);
  }

  lemma MoveInv(s: State, s': State, w: WorkerId, choice: Choice)
    requires Inv(s) && MoveSteps(s, s', w, choice)
    ensures Inv(s')
  {
    var pc := s.workers[w];
    if pc.MoveRoom? {
      Local(s, w);
      RefillInv(s, s', w, pc.n);
    } else if pc.Move? && !s.single && s.fallback != [] && |s.queues[w]| < s.capacity && choice != Fail {
      MoveOneInv(s, s', w, choice);
    } else {
      MoveRestInv(s, s', w, choice);
    }
  }

  lemma InstallInv(s: State, s': State, w: WorkerId, choice: Choice)
    requires Inv(s) && At(s, w) && s.workers[w].InstallRoom? && StealSteps(s, s', w, choice)
    ensures Inv(s')
  {
    Local(s, w);
    var batch, n := s.workers[w].batch, s.workers[w].n;
    assert batch[..n] == batch && batch[n..] == [];
    assert s'.places == Moved(s.places, batch, Queued(w));
    PublishInv(s, s', w, batch, n);
  }

  lemma StealRestInv(s: State, s': State, w: WorkerId, choice: Choice)
    requires Inv(s) && At(s, w) && !s.workers[w].InstallRoom? && StealSteps(s, s', w, choice)
    requires s'.queues == s.queues && s'.places == s.places
    ensures Inv(s')
  {
    Local(s, w);
    if s.workers[w].Steal? {
      StealLoopAside(s, s', w, choice);
    } else {
      StealAside(s, s', w, choice);
    }
    AsideInv(s, s', w);
  }

  lemma StealOneInv(s: State, s': State, w: WorkerId, choice: Choice, v: WorkerId)
    requires Inv(s) && At(s, w) && s.workers[w].Steal? && StealSteps(s, s', w, choice)
    requires s.workers[w].i < |s.workers| && v == Victim(s, s.workers[w].rnd, s.workers[w].i) && v != w
    requires |s.workers[w].batch| < s.stealCount && s.queues[v] != [] && (s.single || choice != Fail)
    ensures Inv(s')
  {
    Local(s, w);
    TakeInv(s, s', w, v);
  }

  lemma StealInv(s: State, s': State, w: WorkerId, choice: Choice)
    requires Inv(s) && StealSteps(s, s', w, choice)
    ensures Inv(s')
  {
    var pc := s.workers[w];
    if pc.InstallRoom? {
      InstallInv(s, s', w, choice);
    } else if pc.Steal? && pc.i < |s.workers| {
      var v := Victim(s, pc.rnd, pc.i);
      if v != w && |pc.batch| < s.stealCount && s.queues[v] != [] && (s.single || choice != Fail) {
        StealOneInv(s, s', w, choice, v);
      } else {
        StealRestInv(s, s', w, choice);
      }
    } else {
      StealRestInv(s, s', w, choice);
    }
  }

  lemma NextInv(s: State, s': State, w: WorkerId, choice: Choice)
    requires Inv(s) && Next(s, s', w, choice)
    ensures Inv(s')
  {
    if choice.Wake? {
      StartPushInv(s, s', w, choice.batch);
    } else {
      match s.workers[w]
      case Push(_, _) | PushRoom(_, _, _) | Overflow(_, _) | OverflowLen(_, _) => PushInv(s, s', w, choice);
      case MoveLock | Move(_, _) | MoveRoom(_, _) | MoveStore(_, _) => MoveInv(s, s', w, choice);
      case LoadSize | Steal(_, _, _) | Install(_) | InstallRoom(_, _) => StealInv(s, s', w, choice);
      case _ => RunInv(s, s', w, choice);
    }
  }

  // ---------------------------------------------------------------------------------------------
  // Every run
  // ---------------------------------------------------------------------------------------------

  datatype Step = Step(w: WorkerId, choice: Choice)

  ghost predicate IsRun(states: seq<State>, steps: seq<Step>) {
    && |states| == |steps| + 1
    && Init(states[0])
    && forall i {:trigger steps[i]} :: 0 <= i < |steps| ==> Next(states[i], states[i + 1], steps[i].w, steps[i].choice)
  }

  lemma {:induction false} EveryRun(states: seq<State>, steps: seq<Step>, i: nat)
    requires IsRun(states, steps) && i < |states|
    ensures Inv(states[i])
  {
    if i == 0 {
      InitInv(states[0]);
    } else {
      EveryRun(states, steps, i - 1);
      NextInv(states[i - 1], states[i], steps[i - 1].w, steps[i - 1].choice);
    }
  }

  predicate In(s: State, f: FiberId, place: Place) {
    match place
    case Outside => false
    case Queued(w) => w < |s.queues| && f in s.queues[w]
    case InFallback => f in s.fallback
    case InHands(w) => w < |s.workers| && f in Hands(s.workers[w])
  }

  /**
   * Conservation: in every run a fiber is in at most one of the run queues, the fallback queue and the
   * hands of the workers (running, stolen, or on its way to a queue), and there only once.
   */
  lemma OnePlace(states: seq<State>, steps: seq<Step>, i: nat, f: FiberId, place: Place)
    requires IsRun(states, steps) && i < |states| && f < |states[i].places| && place != Outside
    ensures In(states[i], f, place) <==> states[i].places[f] == place
    ensures Distinct(states[i].fallback)
    ensures place.Queued? && place.w < |states[i].queues| ==> Distinct(states[i].queues[place.w])
    ensures place.InHands? && place.w < |states[i].workers| ==> Distinct(Hands(states[i].workers[place.w]))
  {
    EveryRun(states, steps, i);
    assert AnyFiber(f);
    match place
    case Queued(w) => assert AnyQueue(w);
    case InHands(w) => assert AnyWorker(w);
    case _ =>
  }

  /** A fiber stops being runnable only by leaving its worker; no push, overflow, move or steal loses one. */
  lemma NoneLost(states: seq<State>, steps: seq<Step>, i: nat, f: FiberId)
    requires IsRun(states, steps) && i < |steps| && f < |states[i].places| && states[i].places[f] != Outside
    ensures f < |states[i + 1].places|
    ensures states[i + 1].places[f] == Outside ==>
              steps[i].w < |states[i].workers| && states[i].workers[steps[i].w] == Running(f)
  {
    EveryRun(states, steps, i);
    Local(states[i], steps[i].w);
    StepKeeps(states[i], states[i + 1], steps[i].w, steps[i].choice, f);
  }

  lemma RunKeeps(s: State, s': State, w: WorkerId, choice: Choice, f: FiberId)
    requires RunSteps(s, s', w, choice) && f < |s.places| && s.places[f] != Outside
    ensures f < |s'.places| && (s'.places[f] == Outside ==> s.workers[w] == Running(f))
  {
  }

  lemma StealKeeps(s: State, s': State, w: WorkerId, choice: Choice, f: FiberId)
    requires WorkerOk(s, w) && StealSteps(s, s', w, choice) && f < |s.places| && s.places[f] != Outside
    ensures f < |s'.places| && s'.places[f] != Outside
  {
    if s.workers[w].InstallRoom? {
      assert s.workers[w].batch[..s.workers[w].n] == s.workers[w].batch;
    }
  }

  lemma PushKeeps(s: State, s': State, w: WorkerId, choice: Choice, f: FiberId)
    requires PushSteps(s, s', w, choice) && f < |s.places| && s.places[f] != Outside
    ensures f < |s'.places| && s'.places[f] != Outside
  {
  }

  lemma MoveKeeps(s: State, s': State, w: WorkerId, choice: Choice, f: FiberId)
    requires MoveSteps(s, s', w, choice) && f < |s.places| && s.places[f] != Outside
    ensures f < |s'.places| && s'.places[f] != Outside
  {
  }

  lemma StepKeeps(s: State, s': State, w: WorkerId, choice: Choice, f: FiberId)
    requires WorkerOk(s, w) && Next(s, s', w, choice) && f < |s.places| && s.places[f] != Outside
    ensures f < |s'.places| && (s'.places[f] == Outside ==> s.workers[w] == Running(f))
  {
    if !choice.Wake? {
      match s.workers[w]
      case Push(_, _) | PushRoom(_, _, _) | Overflow(_, _) | OverflowLen(_, _) => PushKeeps(s, s', w, choice, f);
      case MoveLock | Move(_, _) | MoveRoom(_, _) | MoveStore(_, _) => MoveKeeps(s, s', w, choice, f);
      case LoadSize | Steal(_, _, _) | Install(_) | InstallRoom(_, _) => StealKeeps(s, s', w, choice, f);
      case _ => RunKeeps(s, s', w, choice, f);
    }
  }

  /** When the lock is free, fallback_queue_len is the length of the fallback queue. */
  lemma FallbackLen(states: seq<State>, steps: seq<Step>, i: nat)
    requires IsRun(states, steps) && i < |states| && states[i].lock == None
    ensures states[i].len == |states[i].fallback|
  {
    EveryRun(states, steps, i);
  }

  /**
   * The assertions of fev_move_from_fallback(), fev_push_stq() and fev_sched_steal(), and the run
   * queues keep to their capacity.
   */
  lemma AssertionsHold(states: seq<State>, steps: seq<Step>, i: nat, w: WorkerId)
    requires IsRun(states, steps) && i < |states| && w < |states[i].workers|
    ensures var s := states[i];
            && |s.queues| == |s.workers| && |s.queues[w]| <= s.capacity
            && match s.workers[w]
               case MoveRoom(len, n) => len == |s.fallback| && n <= len && |s.queues[w]| + n <= s.capacity
               case MoveStore(len, n) => n <= len
               case PushRoom(list, n, _) => n <= |list| && |s.queues[w]| + n <= s.capacity
               case InstallRoom(batch, n) => n == |batch| && s.queues[w] == []
               case _ => true
  {
    EveryRun(states, steps, i);
    Local(states[i], w);
  }
}
